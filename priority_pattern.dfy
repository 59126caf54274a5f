/**
 * The "2 regular + 1 priority" recommender (`recommend_with_priority_pattern`).
 *
 * The two `random.shuffle` calls are taken out of the method: the caller passes the
 * shuffled candidate list and the shuffled priority pool, each constrained to be a
 * permutation of what the source shuffles. Everything else is deterministic.
 */
module PriorityPattern {
  import opened SeqUtil
  import opened ClusterIndex

  /** Which pool a recommended pid was taken from. */
  datatype Pick = Regular | Priority

  /** One element of the reply: `{"pid": ..., "cluster_label": ...}`. */
  datatype Item = Item(pid: int, clusterLabel: int)

  function Pids(items: seq<Item>): (r: seq<int>)
    ensures |r| == |items| && forall i :: 0 <= i < |items| ==> r[i] == items[i].pid
  {
    seq(|items|, i requires 0 <= i < |items| => items[i].pid)
  }

  /**
   * `pool` is what remains of `pool0` after popping from the front, and every
   * popped pid has been chosen.
   */
  ghost predicate Consumed(pool0: seq<int>, pool: seq<int>, chosen: seq<int>) {
    && |pool| <= |pool0|
    && pool == pool0[|pool0| - |pool|..]
    && forall i :: 0 <= i < |pool0| - |pool| ==> pool0[i] in chosen
  }

  /** Each chosen pid comes from the pool its pick names. */
  ghost predicate Sourced(chosen: seq<int>, picks: seq<Pick>, regular0: seq<int>, priority0: seq<int>) {
    && |picks| == |chosen|
    && forall i :: 0 <= i < |chosen| ==>
         if picks[i] == Regular then chosen[i] in regular0 else chosen[i] in priority0
  }

  /** `while pool and pool[0] in ordered: pool.pop(0)`: drops the chosen pids at the front. */
  function Skip(pool: seq<int>, chosen: seq<int>): seq<int> {
    if pool != [] && pool[0] in chosen then Skip(pool[1..], chosen) else pool
  }

  /** What `Skip` leaves: a suffix of the pool, whose dropped front was all chosen and whose head is not. */
  lemma {:induction false} SkipFacts(pool: seq<int>, chosen: seq<int>)
    ensures var rest := Skip(pool, chosen);
      && |rest| <= |pool| && rest == pool[|pool| - |rest|..]
      && (forall i :: 0 <= i < |pool| - |rest| ==> pool[i] in chosen)
      && (rest == [] || rest[0] !in chosen)
  {
    if pool != [] && pool[0] in chosen {
      SkipFacts(pool[1..], chosen);
      var rest := Skip(pool[1..], chosen);
      assert forall i :: 1 <= i < |pool| - |rest| ==> pool[i] == pool[1..][i - 1];
    }
  }

  /** The popping loop itself, proved to compute `Skip`. */
  method SkipChosen(pool: seq<int>, ordered: seq<int>) returns (rest: seq<int>)
    ensures rest == Skip(pool, ordered)
  {
    rest := pool;
    while rest != [] && rest[0] in ordered
      invariant Skip(rest, ordered) == Skip(pool, ordered)
    {
      rest := rest[1..];
    }
  }

  /** The variables of the interleaving loop: both pools, the chosen pids and, as a record, their picks. */
  datatype LoopState = LoopState(regular: seq<int>, priority: seq<int>, ordered: seq<int>, picks: seq<Pick>)

  function Size(s: LoopState): nat {
    |s.regular| + |s.priority|
  }

  /**
   * One slot of the pattern: unless `numItems` pids are chosen already, skip the
   * chosen pids at the front of the named pool and move its head to `ordered`.
   */
  function Slot(s: LoopState, pick: Pick, numItems: int): LoopState {
    if |s.ordered| >= numItems then s
    else if pick == Regular then
      var rest := Skip(s.regular, s.ordered);
      if rest == [] then s.(regular := rest)
      else s.(regular := rest[1..], ordered := s.ordered + [rest[0]], picks := s.picks + [Regular])
    else
      var rest := Skip(s.priority, s.ordered);
      if rest == [] then s.(priority := rest)
      else s.(priority := rest[1..], ordered := s.ordered + [rest[0]], picks := s.picks + [Priority])
  }

  /** A slot never grows the pools, shrinks the one it takes from when that is non-empty, and leaves the state alone when it is empty. */
  lemma SlotSize(s: LoopState, pick: Pick, numItems: int)
    ensures Size(Slot(s, pick, numItems)) <= Size(s)
    ensures |s.ordered| < numItems && (if pick == Regular then s.regular else s.priority) != [] ==>
      Size(Slot(s, pick, numItems)) < Size(s)
    ensures (if pick == Regular then s.regular else s.priority) == [] ==> Slot(s, pick, numItems) == s
  {
    SkipFacts(s.regular, s.ordered);
    SkipFacts(s.priority, s.ordered);
  }

  /** One pass of the outer loop: two regular slots, then one priority slot. */
  function Round(s: LoopState, numItems: int): (t: LoopState)
    ensures |s.ordered| < numItems && Size(s) > 0 ==> Size(t) < Size(s)
  {
    var s1 := Slot(s, Regular, numItems);
    var s2 := Slot(s1, Regular, numItems);
    SlotSize(s, Regular, numItems);
    SlotSize(s1, Regular, numItems);
    SlotSize(s2, Priority, numItems);
    Slot(s2, Priority, numItems)
  }

  /** The whole loop: rounds until `numItems` pids are chosen or both pools are empty. */
  function Run(s: LoopState, numItems: int): LoopState
    decreases Size(s)
  {
    if |s.ordered| >= numItems || (s.regular == [] && s.priority == []) then s
    else Run(Round(s, numItems), numItems)
  }

  /** Every pid of `pool0` has been chosen. */
  ghost predicate Covered(pool0: seq<int>, ordered: seq<int>) {
    forall x :: x in pool0 ==> x in ordered
  }

  /**
   * The 2-regular + 1-priority pattern, seen in the picks: three regular picks in a
   * row happen only once the priority pool is used up, and two priority picks in a
   * row only once the regular pool is used up (a slot adds nothing only when its pool is empty).
   */
  ghost predicate Alternates(picks: seq<Pick>, ordered: seq<int>, regular0: seq<int>, priority0: seq<int>) {
    && |picks| == |ordered|
    && (forall i :: 0 <= i && i + 2 < |picks| && picks[i] == Regular && picks[i + 1] == Regular && picks[i + 2] == Regular ==>
          Covered(priority0, ordered[..i + 2]))
    && (forall i :: 0 <= i && i + 1 < |picks| && picks[i] == Priority && picks[i + 1] == Priority ==>
          Covered(regular0, ordered[..i + 1]))
  }

  /** What holds between two slots. */
  ghost predicate SlotInv(s: LoopState, numItems: int, regular0: seq<int>, priority0: seq<int>) {
    && |s.ordered| <= (if numItems < 0 then 0 else numItems)
    && NoDup(s.ordered)
    && Sourced(s.ordered, s.picks, regular0, priority0)
    && Consumed(regular0, s.regular, s.ordered)
    && Consumed(priority0, s.priority, s.ordered)
    && Alternates(s.picks, s.ordered, regular0, priority0)
  }

  /** What holds between two rounds: besides `SlotInv`, a round that ends on a regular pick found the priority pool empty. */
  ghost predicate RoundInv(s: LoopState, numItems: int, regular0: seq<int>, priority0: seq<int>) {
    && SlotInv(s, numItems, regular0, priority0)
    && (s.picks != [] && s.picks[|s.picks| - 1] == Regular ==> Covered(priority0, s.ordered))
  }

  lemma CoveredGrows(pool0: seq<int>, ordered: seq<int>, pid: int)
    requires Covered(pool0, ordered)
    ensures Covered(pool0, ordered + [pid])
  {
    forall x | x in pool0 ensures x in ordered + [pid] {
      var k :| 0 <= k < |ordered| && ordered[k] == x;
      assert (ordered + [pid])[k] == x;
    }
  }

  /** Taking from a pool: an empty rest means the pool is used up; otherwise its head is new and popping it keeps `Consumed`. */
  lemma TakeFacts(pool0: seq<int>, pool: seq<int>, ordered: seq<int>)
    requires Consumed(pool0, pool, ordered)
    ensures var rest := Skip(pool, ordered);
      && |rest| <= |pool| && rest == pool[|pool| - |rest|..]
      && Consumed(pool0, rest, ordered)
      && (rest == [] ==> Covered(pool0, ordered))
      && (rest != [] ==> rest[0] in pool0 && rest[0] !in ordered && Consumed(pool0, rest[1..], ordered + [rest[0]]))
  {
    SkipFacts(pool, ordered);
    var rest := Skip(pool, ordered);
    assert rest == pool0[|pool0| - |rest|..];
    if rest == [] {
      forall x | x in pool0 ensures x in ordered {
        var k :| 0 <= k < |pool0| && pool0[k] == x;
        if k >= |pool0| - |pool| {
          assert x == pool[k - (|pool0| - |pool|)];
        }
      }
    } else {
      assert rest[0] == pool0[|pool0| - |rest|];
      var o := ordered + [rest[0]];
      forall i | 0 <= i < |pool0| - |rest| + 1 ensures pool0[i] in o {
        if i < |pool0| - |rest| {
          assert pool0[i] in ordered;
        } else {
          assert pool0[i] == o[|ordered|];
        }
      }
    }
  }

  /** The other pool is untouched by a slot; its `Consumed` survives a longer `ordered`. */
  lemma ConsumedGrows(pool0: seq<int>, pool: seq<int>, ordered: seq<int>, pid: int)
    requires Consumed(pool0, pool, ordered)
    ensures Consumed(pool0, pool, ordered + [pid])
  {
    forall i | 0 <= i < |pool0| - |pool| ensures pool0[i] in ordered + [pid] {
      assert pool0[i] in ordered;
    }
  }

  /** Appending one pick keeps the pattern when the pool the new pick follows on from is used up. */
  lemma AlternatesAppend(
    picks: seq<Pick>, ordered: seq<int>, regular0: seq<int>, priority0: seq<int>, pick: Pick, pid: int)
    requires Alternates(picks, ordered, regular0, priority0)
    requires (pick == Regular && |picks| >= 2 && picks[|picks| - 2] == Regular && picks[|picks| - 1] == Regular) ==>
      Covered(priority0, ordered)
    requires (pick == Priority && |picks| >= 1 && picks[|picks| - 1] == Priority) ==> Covered(regular0, ordered)
    ensures Alternates(picks + [pick], ordered + [pid], regular0, priority0)
  {
    var o := ordered + [pid];
    forall i | 0 <= i <= |ordered| ensures o[..i] == ordered[..i] {
    }
  }

  /** Appending a new pid drawn from the pool its pick names keeps `NoDup` and `Sourced`. */
  lemma AppendKeeps(ordered: seq<int>, picks: seq<Pick>, regular0: seq<int>, priority0: seq<int>, pick: Pick, pid: int)
    requires NoDup(ordered) && Sourced(ordered, picks, regular0, priority0)
    requires pid !in ordered && pid in (if pick == Regular then regular0 else priority0)
    ensures NoDup(ordered + [pid]) && Sourced(ordered + [pid], picks + [pick], regular0, priority0)
  {
    NoDupConcat(ordered, [pid]);
  }

  /**
   * A slot that moves `pid` into `ordered`, with `rest` the new state of the pool it
   * took from, keeps `SlotInv`.
   */
  lemma TakeKeeps(s: LoopState, t: LoopState, pick: Pick, numItems: int, regular0: seq<int>, priority0: seq<int>)
    requires SlotInv(s, numItems, regular0, priority0) && |s.ordered| < numItems
    requires (pick == Regular && |s.picks| >= 2 && s.picks[|s.picks| - 2] == Regular && s.picks[|s.picks| - 1] == Regular) ==>
      Covered(priority0, s.ordered)
    requires (pick == Priority && |s.picks| >= 1 && s.picks[|s.picks| - 1] == Priority) ==> Covered(regular0, s.ordered)
    requires var rest := Skip(if pick == Regular then s.regular else s.priority, s.ordered);
      && rest != []
      && t.ordered == s.ordered + [rest[0]] && t.picks == s.picks + [pick]
      && (if pick == Regular then t.regular == rest[1..] && t.priority == s.priority
          else t.priority == rest[1..] && t.regular == s.regular)
    ensures SlotInv(t, numItems, regular0, priority0)
  {
    var pid := t.ordered[|s.ordered|];
    if pick == Regular {
      TakeFacts(regular0, s.regular, s.ordered);
      ConsumedGrows(priority0, s.priority, s.ordered, pid);
    } else {
      TakeFacts(priority0, s.priority, s.ordered);
      ConsumedGrows(regular0, s.regular, s.ordered, pid);
    }
    AppendKeeps(s.ordered, s.picks, regular0, priority0, pick, pid);
    AlternatesAppend(s.picks, s.ordered, regular0, priority0, pick, pid);
  }

  /** One slot keeps `SlotInv`; a slot that adds nothing before the limit found its pool used up. */
  lemma SlotKeeps(s: LoopState, pick: Pick, numItems: int, regular0: seq<int>, priority0: seq<int>)
    requires SlotInv(s, numItems, regular0, priority0)
    requires (|s.ordered| < numItems && pick == Regular && |s.picks| >= 2 &&
      s.picks[|s.picks| - 2] == Regular && s.picks[|s.picks| - 1] == Regular) ==> Covered(priority0, s.ordered)
    requires (|s.ordered| < numItems && pick == Priority && |s.picks| >= 1 &&
      s.picks[|s.picks| - 1] == Priority) ==> Covered(regular0, s.ordered)
    ensures SlotInv(Slot(s, pick, numItems), numItems, regular0, priority0)
    ensures var t := Slot(s, pick, numItems);
      (t.picks == s.picks && t.ordered == s.ordered) ||
      (|s.ordered| < numItems && t.picks == s.picks + [pick] && |t.ordered| == |s.ordered| + 1 &&
       t.ordered[..|s.ordered|] == s.ordered)
    ensures var t := Slot(s, pick, numItems);
      |s.ordered| < numItems && t.picks == s.picks ==> Covered(if pick == Regular then regular0 else priority0, t.ordered)
  {
    var t := Slot(s, pick, numItems);
    if |s.ordered| < numItems {
      var pool0 := if pick == Regular then regular0 else priority0;
      var pool := if pick == Regular then s.regular else s.priority;
      TakeFacts(pool0, pool, s.ordered);
      var rest := Skip(pool, s.ordered);
      if rest != [] {
        TakeKeeps(s, t, pick, numItems, regular0, priority0);
        assert t.ordered[..|s.ordered|] == s.ordered;
      }
    }
  }

  /** `Covered` survives a step that keeps `ordered` or appends to it. */
  lemma CoveredStep(pool0: seq<int>, ordered: seq<int>, next: seq<int>)
    requires Covered(pool0, ordered)
    requires next == ordered || (|next| == |ordered| + 1 && next[..|ordered|] == ordered)
    ensures Covered(pool0, next)
  {
    if next != ordered {
      assert next == ordered + [next[|ordered|]];
      CoveredGrows(pool0, ordered, next[|ordered|]);
    }
  }

  /** A slot adds nothing, or appends one pid with its pick before the limit. */
  lemma SlotShape(s: LoopState, pick: Pick, numItems: int)
    ensures var t := Slot(s, pick, numItems);
      || (t.picks == s.picks && t.ordered == s.ordered)
      || (|s.ordered| < numItems && t.picks == s.picks + [pick] && |t.ordered| == |s.ordered| + 1 &&
          t.ordered[..|s.ordered|] == s.ordered)
    ensures var t := Slot(s, pick, numItems);
      t.picks == [] || t.picks[|t.picks| - 1] != pick ==> t.picks == s.picks && t.ordered == s.ordered
  {
    var t := Slot(s, pick, numItems);
    if t.picks != s.picks {
      assert t.ordered[..|s.ordered|] == s.ordered;
    }
  }

  /** How the picks of a round end, depending on which slots added something. */
  lemma RoundShape(s: LoopState, numItems: int)
    ensures var s1 := Slot(s, Regular, numItems);
      var s2 := Slot(s1, Regular, numItems);
      var s3 := Slot(s2, Priority, numItems);
      && (|s1.picks| >= 2 && s1.picks[|s1.picks| - 2] == Regular && s1.picks[|s1.picks| - 1] == Regular ==>
            s.picks != [] && s.picks[|s.picks| - 1] == Regular &&
            (s1.ordered == s.ordered || (|s1.ordered| == |s.ordered| + 1 && s1.ordered[..|s.ordered|] == s.ordered)))
      && (s2.picks != [] && s2.picks[|s2.picks| - 1] == Priority ==>
            s2.picks == s1.picks && s2.ordered == s1.ordered && s1.picks == s.picks && s1.ordered == s.ordered)
      && (s3.picks != [] && s3.picks[|s3.picks| - 1] == Regular ==>
            s3.picks == s2.picks && s3.ordered == s2.ordered)
      && |s.ordered| <= |s1.ordered| <= |s2.ordered| <= |s3.ordered|
  {
    var s1 := Slot(s, Regular, numItems);
    var s2 := Slot(s1, Regular, numItems);
    SlotShape(s, Regular, numItems);
    SlotShape(s1, Regular, numItems);
    SlotShape(s2, Priority, numItems);
    if |s1.picks| >= 2 && s1.picks[|s1.picks| - 2] == Regular && s1.picks[|s1.picks| - 1] == Regular && s1.picks != s.picks {
      assert s.picks[|s.picks| - 1] == s1.picks[|s1.picks| - 2];
    }
  }

  /** The two regular slots of a round keep `SlotInv`; if neither added a pid before the limit, the regular pool is used up. */
  lemma RegularSlotsKeep(s: LoopState, numItems: int, regular0: seq<int>, priority0: seq<int>)
    requires RoundInv(s, numItems, regular0, priority0)
    ensures var s2 := Slot(Slot(s, Regular, numItems), Regular, numItems);
      && SlotInv(s2, numItems, regular0, priority0)
      && (|s2.ordered| < numItems && s2.picks != [] && s2.picks[|s2.picks| - 1] == Priority ==> Covered(regular0, s2.ordered))
  {
    var s1 := Slot(s, Regular, numItems);
    RoundShape(s, numItems);
    SlotKeeps(s, Regular, numItems, regular0, priority0);
    if |s1.picks| >= 2 && s1.picks[|s1.picks| - 2] == Regular && s1.picks[|s1.picks| - 1] == Regular {
      CoveredStep(priority0, s.ordered, s1.ordered);
    }
    SlotKeeps(s1, Regular, numItems, regular0, priority0);
  }

  /** A round keeps `SlotInv`, and `RoundInv` too while the limit is not reached. */
  lemma RoundKeeps(s: LoopState, numItems: int, regular0: seq<int>, priority0: seq<int>)
    requires RoundInv(s, numItems, regular0, priority0)
    ensures SlotInv(Round(s, numItems), numItems, regular0, priority0)
    ensures |Round(s, numItems).ordered| < numItems ==> RoundInv(Round(s, numItems), numItems, regular0, priority0)
  {
    var s2 := Slot(Slot(s, Regular, numItems), Regular, numItems);
    RoundShape(s, numItems);
    RegularSlotsKeep(s, numItems, regular0, priority0);
    SlotKeeps(s2, Priority, numItems, regular0, priority0);
  }

  /** The whole loop keeps the invariant; when it stops short of `numItems`, both pools are used up. */
  lemma {:induction false} RunKeeps(s: LoopState, numItems: int, regular0: seq<int>, priority0: seq<int>)
    requires RoundInv(s, numItems, regular0, priority0)
    ensures SlotInv(Run(s, numItems), numItems, regular0, priority0)
    ensures |Run(s, numItems).ordered| < numItems ==>
      Covered(regular0, Run(s, numItems).ordered) && Covered(priority0, Run(s, numItems).ordered)
    decreases Size(s)
  {
    if |s.ordered| >= numItems || (s.regular == [] && s.priority == []) {
      if |s.ordered| < numItems {
        TakeFacts(regular0, s.regular, s.ordered);
        TakeFacts(priority0, s.priority, s.ordered);
      }
    } else {
      var next := Round(s, numItems);
      RoundKeeps(s, numItems, regular0, priority0);
      if |next.ordered| < numItems {
        RunKeeps(next, numItems, regular0, priority0);
      }
    }
  }

  /**
   * The interleaving loop: up to two pids from the regular pool, then one from the
   * priority pool, skipping pids already chosen, until `numItems` are chosen or both
   * pools are empty.
   */
  method Interleave(regular0: seq<int>, priority0: seq<int>, numItems: int)
    returns (ordered: seq<int>, ghost picks: seq<Pick>)
    ensures ordered == Run(LoopState(regular0, priority0, [], []), numItems).ordered
    ensures picks == Run(LoopState(regular0, priority0, [], []), numItems).picks
    ensures |ordered| <= if numItems < 0 then 0 else numItems
    ensures NoDup(ordered)
    ensures Sourced(ordered, picks, regular0, priority0)
    ensures Alternates(picks, ordered, regular0, priority0)
    ensures |ordered| < numItems ==> Covered(regular0, ordered) && Covered(priority0, ordered)
  {
    var regular, priority := regular0, priority0;
    ordered, picks := [], [];
    ghost var init := LoopState(regular0, priority0, [], []);
    while |ordered| < numItems && (regular != [] || priority != [])
      invariant Run(LoopState(regular, priority, ordered, picks), numItems) == Run(init, numItems)
      decreases |regular| + |priority|
    {
      ghost var s0 := LoopState(regular, priority, ordered, picks);
      // Two regular
      var round := 0;
      while round < 2
        invariant 0 <= round <= 2
        invariant LoopState(regular, priority, ordered, picks) ==
          if round == 0 then s0
          else if round == 1 then Slot(s0, Regular, numItems)
          else Slot(Slot(s0, Regular, numItems), Regular, numItems)
      {
        if |ordered| >= numItems {
          break;
        }
        regular := SkipChosen(regular, ordered);
        if regular != [] {
          ordered := ordered + [regular[0]];
          picks := picks + [Regular];
          regular := regular[1..];
        }
        round := round + 1;
      }
      if |ordered| >= numItems {
        break;
      }
      // One priority
      priority := SkipChosen(priority, ordered);
      if priority != [] {
        ordered := ordered + [priority[0]];
        picks := picks + [Priority];
        priority := priority[1..];
      }
      assert LoopState(regular, priority, ordered, picks) == Round(s0, numItems);
    }
    RunKeeps(init, numItems, regular0, priority0);
  }

  /** Position of the top cluster (`sorted_clusters[0]`) in the index. */
  function TopCluster(interactions: map<int, nat>, index: Index): (t: nat)
    requires index != []
    ensures t < |index|
    ensures forall j :: 0 <= j < |index| ==>
      InteractionCount(interactions, index[j].key) <= InteractionCount(interactions, index[t].key)
    ensures forall j :: 0 <= j < t ==>
      InteractionCount(interactions, index[j].key) < InteractionCount(interactions, index[t].key)
  {
    var order := RankClusters(interactions, index);
    TopIsFirstMaximal(Counts(interactions, index), order);
    order[0]
  }

  /** The priority pool before it is shuffled: unseen pids of the top cluster, in index order. */
  function PriorityBase(interactions: map<int, nat>, seen: set<int>, index: Index): seq<int> {
    if index == [] then [] else FilterOut(index[TopCluster(interactions, index)].pids, seen)
  }

  /** Every unseen pid of the top cluster is among `shown`. */
  ghost predicate TopClusterShown(interactions: map<int, nat>, seen: seq<int>, index: Index, shown: seq<int>) {
    index != [] && forall pid :: pid in index[TopCluster(interactions, index)].pids && pid !in seen ==> pid in shown
  }

  /** Every unseen pid listed in the index is among `shown`. */
  ghost predicate AllShown(seen: seq<int>, index: Index, shown: seq<int>) {
    forall pid :: Listed(index, pid) && pid !in seen ==> pid in shown
  }

  /** The 2+1 pattern of `Alternates`, restated for the two pools the recommender builds. */
  lemma AlternatesShown(
    interactions: map<int, nat>, seen: seq<int>, index: Index,
    ordered: seq<int>, picks: seq<Pick>, regular0: seq<int>, priority0: seq<int>)
    requires forall x :: x in regular0 <==> Listed(index, x) && x !in seen
    requires forall x :: x in priority0 <==>
      index != [] && x in index[TopCluster(interactions, index)].pids && x !in seen
    requires Sourced(ordered, picks, regular0, priority0)
    requires Alternates(picks, ordered, regular0, priority0)
    ensures forall i :: 0 <= i && i + 2 < |ordered| && picks[i] == Regular && picks[i + 1] == Regular && picks[i + 2] == Regular ==>
      TopClusterShown(interactions, seen, index, ordered[..i + 2])
    ensures forall i :: 0 <= i && i + 1 < |ordered| && picks[i] == Priority && picks[i + 1] == Priority ==>
      AllShown(seen, index, ordered[..i + 1])
  {
    forall i | 0 <= i && i + 2 < |ordered| && picks[i] == Regular && picks[i + 1] == Regular && picks[i + 2] == Regular
      ensures TopClusterShown(interactions, seen, index, ordered[..i + 2])
    {
      assert ordered[i] in regular0 && Listed(index, ordered[i]);
      assert Covered(priority0, ordered[..i + 2]);
      forall pid | pid in index[TopCluster(interactions, index)].pids && pid !in seen
        ensures pid in ordered[..i + 2]
      {
        assert pid in priority0;
      }
    }
  }

  /** Every chosen pid is unseen and listed in the index. */
  lemma ChosenListed(
    interactions: map<int, nat>, seen: seq<int>, index: Index,
    ordered: seq<int>, picks: seq<Pick>, regular0: seq<int>, priority0: seq<int>)
    requires forall x :: x in regular0 <==> Listed(index, x) && x !in seen
    requires forall x :: x in priority0 <==>
      index != [] && x in index[TopCluster(interactions, index)].pids && x !in seen
    requires Sourced(ordered, picks, regular0, priority0)
    ensures forall i :: 0 <= i < |ordered| ==> ordered[i] !in seen && Listed(index, ordered[i])
  {
    forall i | 0 <= i < |ordered|
      ensures ordered[i] !in seen && Listed(index, ordered[i])
    {
      if picks[i] == Regular {
        var x := ordered[i];
        assert x in regular0;
      } else {
        var x := ordered[i];
        assert x in priority0;
        var t := TopCluster(interactions, index);
        assert x in index[t].pids && x !in seen;
      }
    }
  }

  /**
   * `recommend_with_priority_pattern(username, interactions, seen, videos_by_cluster, num_items)`
   * with the results of the two shuffles passed in.
   */
  method RecommendWithPriorityPattern(
    interactions: map<int, nat>, seen: seq<int>, index: Index, numItems: int,
    shuffledAll: seq<int>, shuffledTop: seq<int>)
    returns (items: seq<Item>, ghost picks: seq<Pick>)
    requires multiset(shuffledAll) == multiset(AllCandidates(index))
    requires multiset(shuffledTop) == multiset(PriorityBase(interactions, Elems(seen), index))
    ensures |items| <= if numItems < 0 then 0 else numItems
    ensures index == [] ==> items == []
    ensures forall i :: 0 <= i < |items| ==> items[i].pid !in seen && Listed(index, items[i].pid)
    ensures NoDup(Pids(items))
    ensures |picks| == |items|
    ensures forall i :: 0 <= i < |items| && picks[i] == Priority ==>
      index != [] && items[i].pid in index[TopCluster(interactions, index)].pids
    ensures |items| < numItems ==>
      forall pid :: Listed(index, pid) && pid !in seen ==> pid in Pids(items)
    ensures forall i :: 0 <= i < |items| ==>
      items[i].clusterLabel == LabelOf(ReverseIndex(index), items[i].pid)
    ensures Pids(items) == Run(LoopState(FilterOut(shuffledAll, Elems(seen)), shuffledTop, [], []), numItems).ordered
    ensures picks == Run(LoopState(FilterOut(shuffledAll, Elems(seen)), shuffledTop, [], []), numItems).picks
    ensures forall i :: 0 <= i && i + 2 < |items| && picks[i] == Regular && picks[i + 1] == Regular && picks[i + 2] == Regular ==>
      TopClusterShown(interactions, seen, index, Pids(items)[..i + 2])
    ensures forall i :: 0 <= i && i + 1 < |items| && picks[i] == Priority && picks[i + 1] == Priority ==>
      AllShown(seen, index, Pids(items)[..i + 1])
  {
    var pidToCluster := BuildPidToClusterMap(index);
    var seenSet := Elems(seen);
    var priorityPool := shuffledTop;
    var regularPool := FilterOut(shuffledAll, seenSet);
    PoolFacts(interactions, seen, index, shuffledAll, shuffledTop);

    var ordered;
    ordered, picks := Interleave(regularPool, priorityPool, numItems);
    AlternatesShown(interactions, seen, index, ordered, picks, regularPool, priorityPool);
    ChosenListed(interactions, seen, index, ordered, picks, regularPool, priorityPool);
    // `ordered[:num_items]` is all of `ordered`: the loop never exceeds the bound.
    var shown := ordered;

    items := Annotate(shown, pidToCluster);
  }

  /** The final loop: each chosen pid with `pid_to_cluster.get(pid, -1)`. */
  method Annotate(shown: seq<int>, pidToCluster: map<int, int>) returns (items: seq<Item>)
    ensures Pids(items) == shown
    ensures forall k :: 0 <= k < |items| ==> items[k].clusterLabel == LabelOf(pidToCluster, shown[k])
  {
    items := [];
    var i := 0;
    while i < |shown|
      invariant 0 <= i <= |shown| && |items| == i
      invariant forall k :: 0 <= k < i ==> items[k] == Item(shown[k], LabelOf(pidToCluster, shown[k]))
    {
      items := items + [Item(shown[i], LabelOf(pidToCluster, shown[i]))];
      i := i + 1;
    }
  }

  /** What the two pools contain, in terms of the index and the seen list. */
  lemma PoolFacts(
    interactions: map<int, nat>, seen: seq<int>, index: Index,
    shuffledAll: seq<int>, shuffledTop: seq<int>)
    requires multiset(shuffledAll) == multiset(AllCandidates(index))
    requires multiset(shuffledTop) == multiset(PriorityBase(interactions, Elems(seen), index))
    ensures forall x :: x in FilterOut(shuffledAll, Elems(seen)) <==> Listed(index, x) && x !in seen
    ensures forall x :: x in shuffledTop <==>
      index != [] && x in index[TopCluster(interactions, index)].pids && x !in seen
  {
    PermutationNoDup(shuffledAll, AllCandidates(index));
    PermutationNoDup(shuffledTop, PriorityBase(interactions, Elems(seen), index));
  }
}
