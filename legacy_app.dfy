/**
 * The older back end (app/main.py): profiles without a liked list, and the
 * "7 preferred + 1 exploration" recommender.
 *
 * `random.shuffle` on each cluster's candidates and `random.choice` on the
 * exploration pool are passed in as functions: `shuffle` must return a permutation
 * of its argument, `choose` an element of a non-empty set.
 */
module LegacyApp {
  import opened Wrappers
  import opened SeqUtil
  import opened Usernames
  import opened ClusterIndex
  import opened ProfileStore

  datatype LegacyProfile = LegacyProfile(
    username: string,
    clusterInteractions: map<int, nat>,
    seenVideos: seq<int>)

  /** How many pids the preferred phase may take. */
  const PreferredLimit := 7

  function NewLegacyProfile(username: string): LegacyProfile {
    LegacyProfile(username, map[], [])
  }

  /** One interaction: the cluster's count goes up by one, the pid is appended to seen unless there. */
  function RecordView(p: LegacyProfile, pid: int, clusterLabel: int): (q: LegacyProfile)
    ensures q.username == p.username
    ensures CountOf(q.clusterInteractions, clusterLabel) == CountOf(p.clusterInteractions, clusterLabel) + 1
    ensures forall c :: c != clusterLabel ==> CountOf(q.clusterInteractions, c) == CountOf(p.clusterInteractions, c)
    ensures q.clusterInteractions.Keys == p.clusterInteractions.Keys + {clusterLabel}
    ensures p.seenVideos <= q.seenVideos
    ensures Elems(q.seenVideos) == Elems(p.seenVideos) + {pid}
    ensures |q.seenVideos| == |p.seenVideos| + (if pid in p.seenVideos then 0 else 1)
    ensures NoDup(p.seenVideos) ==> NoDup(q.seenVideos)
  {
    var counts := p.clusterInteractions;
    LegacyProfile(
      p.username,
      counts[clusterLabel := CountOf(counts, clusterLabel) + 1],
      if pid in p.seenVideos then p.seenVideos else p.seenVideos + [pid])
  }

  /** Every unseen pid of `pids` has been chosen. */
  ghost predicate Exhausted(pids: seq<int>, seen: set<int>, chosen: seq<int>) {
    forall x :: x in pids && x !in seen ==> x in chosen
  }

  /** The rank `k`, `n` times: the ranks of a block of `n` picks from one cluster. */
  function Repeat(k: nat, n: nat): (r: seq<nat>)
    ensures |r| == n && forall i :: 0 <= i < n ==> r[i] == k
  {
    seq(n, _ => k)
  }

  /** The picks whose rank lies in `lo .. hi-1`, in the order they were made. */
  function PicksBetween(preferred: seq<int>, ranks: seq<nat>, lo: nat, hi: nat): seq<int>
    requires |ranks| == |preferred|
  {
    if preferred == [] then []
    else
      var n := |preferred| - 1;
      PicksBetween(preferred[..n], ranks[..n], lo, hi) + (if lo <= ranks[n] < hi then [preferred[n]] else [])
  }

  /** What the cluster at rank `k` contributed. */
  function Block(preferred: seq<int>, ranks: seq<nat>, k: nat): seq<int>
    requires |ranks| == |preferred|
  {
    PicksBetween(preferred, ranks, k, k + 1)
  }

  /** What had been recommended when the cluster at rank `k` was visited. */
  function Before(preferred: seq<int>, ranks: seq<nat>, k: nat): seq<int>
    requires |ranks| == |preferred|
  {
    PicksBetween(preferred, ranks, 0, k)
  }

  /**
   * The preferred phase visits clusters in rank order; `ranks[i]` is the rank of the
   * cluster `preferred[i]` came from, and every cluster ranked before it had no
   * unseen pid left that was not already chosen. The block of picks of each rank is
   * drawn, without repeating a listed copy, from that cluster's candidates: its unseen
   * pids that no earlier rank recommended.
   */
  ghost predicate RankOrdered(index: Index, order: seq<nat>, seen: set<int>, preferred: seq<int>, ranks: seq<nat>)
    requires forall j :: 0 <= j < |order| ==> order[j] < |index|
  {
    && |ranks| == |preferred|
    && RanksFromClusters(index, order, preferred, ranks)
    && EarlierExhausted(index, order, seen, preferred, ranks)
    && BlocksFromCandidates(index, order, seen, preferred, ranks)
  }

  /** Each pick is listed by the cluster of its rank, and ranks never go down. */
  ghost predicate RanksFromClusters(index: Index, order: seq<nat>, preferred: seq<int>, ranks: seq<nat>)
    requires forall j :: 0 <= j < |order| ==> order[j] < |index|
    requires |ranks| == |preferred|
  {
    && (forall i :: 0 <= i < |ranks| ==> ranks[i] < |order| && preferred[i] in index[order[ranks[i]]].pids)
    && (forall i, j :: 0 <= i < j < |ranks| ==> ranks[i] <= ranks[j])
  }

  /** When a pick was made, every cluster of an earlier rank had no unseen pid left unchosen. */
  ghost predicate EarlierExhausted(index: Index, order: seq<nat>, seen: set<int>, preferred: seq<int>, ranks: seq<nat>)
    requires forall j :: 0 <= j < |order| ==> order[j] < |index|
    requires |ranks| == |preferred|
  {
    forall i, j {:trigger Exhausted(index[order[j]].pids, seen, preferred[..i])} ::
      0 <= i < |ranks| && 0 <= j < ranks[i] && ranks[i] < |order| ==>
      Exhausted(index[order[j]].pids, seen, preferred[..i])
  }

  /** The block of each rank is a sub-multiset of that cluster's candidates. */
  ghost predicate BlocksFromCandidates(index: Index, order: seq<nat>, seen: set<int>, preferred: seq<int>, ranks: seq<nat>)
    requires forall j :: 0 <= j < |order| ==> order[j] < |index|
    requires |ranks| == |preferred|
  {
    forall k {:trigger Block(preferred, ranks, k)} :: 0 <= k < |order| ==>
      multiset(Block(preferred, ranks, k)) <=
      multiset(ClusterCandidates(index[order[k]].pids, seen, Before(preferred, ranks, k)))
  }

  /** The clusters at ranks `0 .. upTo-1` gave all of their candidates. */
  ghost predicate BlocksComplete(index: Index, order: seq<nat>, seen: set<int>, preferred: seq<int>, ranks: seq<nat>, upTo: nat)
    requires forall j :: 0 <= j < |order| ==> order[j] < |index|
  {
    && |ranks| == |preferred|
    && forall k {:trigger Block(preferred, ranks, k)} :: 0 <= k < upTo && k < |order| ==>
         multiset(Block(preferred, ranks, k)) ==
         multiset(ClusterCandidates(index[order[k]].pids, seen, Before(preferred, ranks, k)))
  }

  /** Appending a block of one rank adds it to the picks of every range holding that rank. */
  lemma {:induction false} PicksAppend(preferred: seq<int>, ranks: seq<nat>, block: seq<int>, k: nat, lo: nat, hi: nat)
    requires |ranks| == |preferred|
    ensures PicksBetween(preferred + block, ranks + Repeat(k, |block|), lo, hi) ==
      PicksBetween(preferred, ranks, lo, hi) + (if lo <= k < hi then block else [])
    decreases |block|
  {
    var p, r := preferred + block, ranks + Repeat(k, |block|);
    if block == [] {
      assert p == preferred && r == ranks;
    } else {
      var m := |block| - 1;
      var n := |p| - 1;
      assert p[..n] == preferred + block[..m];
      assert r[..n] == ranks + Repeat(k, m);
      PicksAppend(preferred, ranks, block[..m], k, lo, hi);
      assert p[n] == block[m] && r[n] == k;
      assert block == block[..m] + [block[m]];
    }
  }

  /** With no rank in the range, nothing is picked in it. */
  lemma {:induction false} PicksNone(preferred: seq<int>, ranks: seq<nat>, lo: nat, hi: nat)
    requires |ranks| == |preferred|
    requires forall i :: 0 <= i < |ranks| ==> ranks[i] < lo || hi <= ranks[i]
    ensures PicksBetween(preferred, ranks, lo, hi) == []
  {
    if preferred != [] {
      var n := |preferred| - 1;
      PicksNone(preferred[..n], ranks[..n], lo, hi);
    }
  }

  /** With every rank in the range, every pick is in it. */
  lemma {:induction false} PicksAll(preferred: seq<int>, ranks: seq<nat>, lo: nat, hi: nat)
    requires |ranks| == |preferred|
    requires forall i :: 0 <= i < |ranks| ==> lo <= ranks[i] < hi
    ensures PicksBetween(preferred, ranks, lo, hi) == preferred
  {
    if preferred != [] {
      var n := |preferred| - 1;
      PicksAll(preferred[..n], ranks[..n], lo, hi);
      assert preferred == preferred[..n] + [preferred[n]];
    }
  }

  /** A pick whose rank is in the range is among the picks of that range. */
  lemma {:induction false} PicksMember(preferred: seq<int>, ranks: seq<nat>, lo: nat, hi: nat, i: nat)
    requires |ranks| == |preferred| && i < |preferred| && lo <= ranks[i] < hi
    ensures preferred[i] in PicksBetween(preferred, ranks, lo, hi)
  {
    var n := |preferred| - 1;
    if i < n {
      PicksMember(preferred[..n], ranks[..n], lo, hi, i);
    }
  }

  /**
   * Appending the block of rank k after picks of lower ranks: lower ranks keep their
   * blocks and what preceded them, rank k's block is the new one, preceded by all the
   * earlier picks, and higher ranks have none.
   */
  lemma ExtendBlocks(recs: seq<int>, ranks: seq<nat>, block: seq<int>, k: nat, ranks': seq<nat>)
    requires |ranks| == |recs|
    requires forall i :: 0 <= i < |ranks| ==> ranks[i] < k
    requires ranks' == ranks + Repeat(k, |block|)
    ensures forall j :: 0 <= j < k ==>
      Block(recs + block, ranks', j) == Block(recs, ranks, j) && Before(recs + block, ranks', j) == Before(recs, ranks, j)
    ensures Block(recs + block, ranks', k) == block
    ensures Before(recs + block, ranks', k) == recs
    ensures forall j :: k < j ==> Block(recs + block, ranks', j) == []
  {
    forall j | 0 <= j < k
      ensures Block(recs + block, ranks', j) == Block(recs, ranks, j)
      ensures Before(recs + block, ranks', j) == Before(recs, ranks, j)
    {
      ExtendBelow(recs, ranks, block, k, ranks', j);
    }
    ExtendAt(recs, ranks, block, k, ranks');
    forall j | k < j ensures Block(recs + block, ranks', j) == [] {
      ExtendAbove(recs, ranks, block, k, ranks', j);
    }
  }

  /** A rank `j` below `k` keeps its block and what preceded it. */
  lemma ExtendBelow(recs: seq<int>, ranks: seq<nat>, block: seq<int>, k: nat, ranks': seq<nat>, j: nat)
    requires |ranks| == |recs| && j < k
    requires ranks' == ranks + Repeat(k, |block|)
    ensures Block(recs + block, ranks', j) == Block(recs, ranks, j)
    ensures Before(recs + block, ranks', j) == Before(recs, ranks, j)
  {
    PicksAppend(recs, ranks, block, k, j, j + 1);
    PicksAppend(recs, ranks, block, k, 0, j);
  }

  /** Rank `k`'s block is the appended one, preceded by all the earlier picks. */
  lemma ExtendAt(recs: seq<int>, ranks: seq<nat>, block: seq<int>, k: nat, ranks': seq<nat>)
    requires |ranks| == |recs|
    requires forall i :: 0 <= i < |ranks| ==> ranks[i] < k
    requires ranks' == ranks + Repeat(k, |block|)
    ensures Block(recs + block, ranks', k) == block
    ensures Before(recs + block, ranks', k) == recs
  {
    PicksAppend(recs, ranks, block, k, k, k + 1);
    PicksAppend(recs, ranks, block, k, 0, k);
    PicksNone(recs, ranks, k, k + 1);
    PicksAll(recs, ranks, 0, k);
  }

  /** A rank above `k` has no picks yet. */
  lemma ExtendAbove(recs: seq<int>, ranks: seq<nat>, block: seq<int>, k: nat, ranks': seq<nat>, j: nat)
    requires |ranks| == |recs| && k < j
    requires forall i :: 0 <= i < |ranks| ==> ranks[i] < k
    requires ranks' == ranks + Repeat(k, |block|)
    ensures Block(recs + block, ranks', j) == []
  {
    PicksAppend(recs, ranks, block, k, j, j + 1);
    PicksNone(recs, ranks, j, j + 1);
  }

  /** An element of a sub-multiset is an element of the larger one. */
  lemma SubMultisetMember(a: seq<int>, b: seq<int>, x: int)
    requires x in a && multiset(a) <= multiset(b)
    ensures x in b
  {
    assert multiset(a)[x] > 0;
  }

  /** A prefix holds part of the multiset of the whole. */
  lemma PrefixSubMultiset(s: seq<int>, n: nat)
    requires n <= |s|
    ensures multiset(s[..n]) <= multiset(s)
  {
    assert s == s[..n] + s[n..];
  }

  /** A pid drawn from a cluster's candidates was not recommended before that cluster. */
  lemma DrawnIsNew(pids: seq<int>, seen: set<int>, before: seq<int>, block: seq<int>, x: int)
    requires multiset(block) <= multiset(ClusterCandidates(pids, seen, before))
    requires x in block
    ensures x !in before
  {
    SubMultisetMember(block, ClusterCandidates(pids, seen, before), x);
  }

  /** Picks of different ranks are different pids: a cluster's candidates leave out earlier picks. */
  lemma RanksDistinct(index: Index, order: seq<nat>, seen: set<int>, preferred: seq<int>, ranks: seq<nat>)
    requires forall j :: 0 <= j < |order| ==> order[j] < |index|
    requires RankOrdered(index, order, seen, preferred, ranks)
    ensures forall i, j :: 0 <= i < |ranks| && 0 <= j < |ranks| && ranks[i] < ranks[j] ==> preferred[i] != preferred[j]
  {
    forall i, j | 0 <= i < |ranks| && 0 <= j < |ranks| && ranks[i] < ranks[j]
      ensures preferred[i] != preferred[j]
    {
      var k := ranks[j];
      assert k < |order|;
      PicksMember(preferred, ranks, 0, k, i);
      PicksMember(preferred, ranks, k, k + 1, j);
      DrawnIsNew(index[order[k]].pids, seen, Before(preferred, ranks, k), Block(preferred, ranks, k), preferred[j]);
    }
  }

  /**
   * A cluster listing pid 5 twice gives at most two copies of it: seven copies from
   * the cluster [5, 5] are not a rank-ordered choice.
   */
  lemma RepeatedPidBounded()
    ensures !RankOrdered([Entry(Label(0), [5, 5]), Entry(Label(1), [6])], [0, 1], {},
      [5, 5, 5, 5, 5, 5, 5], [0, 0, 0, 0, 0, 0, 0])
  {
    var index := [Entry(Label(0), [5, 5]), Entry(Label(1), [6])];
    var preferred: seq<int> := [5, 5, 5, 5, 5, 5, 5];
    var ranks: seq<nat> := [0, 0, 0, 0, 0, 0, 0];
    PicksAll(preferred, ranks, 0, 1);
    PicksNone(preferred, ranks, 0, 0);
    var candidates := ClusterCandidates(index[0].pids, {}, Before(preferred, ranks, 0));
    assert multiset(candidates)[5] == 2;
    assert multiset(Block(preferred, ranks, 0))[5] == 7;
  }

  /** The clusters at ranks `0 .. k-1` are exhausted. */
  ghost predicate ExhaustedUpTo(index: Index, order: seq<nat>, seen: set<int>, chosen: seq<int>, k: nat)
    requires k <= |order|
    requires forall j :: 0 <= j < |order| ==> order[j] < |index|
  {
    forall j :: 0 <= j < k ==> Exhausted(index[order[j]].pids, seen, chosen)
  }

  /** Choosing more keeps exhausted clusters exhausted. */
  lemma ExhaustedUpToGrows(index: Index, order: seq<nat>, seen: set<int>, a: seq<int>, b: seq<int>, k: nat)
    requires k <= |order|
    requires forall j :: 0 <= j < |order| ==> order[j] < |index|
    requires ExhaustedUpTo(index, order, seen, a, k)
    requires forall x :: x in a ==> x in b
    ensures ExhaustedUpTo(index, order, seen, b, k)
  {
  }

  /** The candidates of one cluster: unseen and not yet recommended. */
  function ClusterCandidates(pids: seq<int>, seen: set<int>, chosen: seq<int>): seq<int> {
    FilterOut(pids, seen + Elems(chosen))
  }

  /** `for pid in candidates: if len(recommendations) >= 7: break; recommendations.append(pid)`. */
  method FillPreferred(recs0: seq<int>, candidates: seq<int>) returns (recs: seq<int>)
    requires |recs0| <= PreferredLimit
    ensures var n := if |candidates| < PreferredLimit - |recs0| then |candidates| else PreferredLimit - |recs0|;
      recs == recs0 + candidates[..n]
  {
    recs := recs0;
    var j := 0;
    while j < |candidates|
      invariant 0 <= j <= |candidates| && |recs0| + j <= PreferredLimit
      invariant recs == recs0 + candidates[..j]
    {
      if |recs| >= PreferredLimit {
        break;
      }
      recs := recs + [candidates[j]];
      j := j + 1;
    }
  }

  /**
   * Appending a block drawn from the candidates of the cluster at rank k, once every
   * earlier rank is exhausted, keeps the rank order.
   */
  lemma ExtendRankOrdered(
    index: Index, order: seq<nat>, seen: set<int>, recs: seq<int>, ranks: seq<nat>, block: seq<int>, k: nat)
    requires forall j :: 0 <= j < |order| ==> order[j] < |index|
    requires k < |order|
    requires RankOrdered(index, order, seen, recs, ranks)
    requires forall i :: 0 <= i < |ranks| ==> ranks[i] < k
    requires ExhaustedUpTo(index, order, seen, recs, k)
    requires multiset(block) <= multiset(ClusterCandidates(index[order[k]].pids, seen, recs))
    ensures RankOrdered(index, order, seen, recs + block, ranks + Repeat(k, |block|))
  {
    var ranks' := ranks + Repeat(k, |block|);
    forall x | x in block ensures x in index[order[k]].pids {
      assert multiset(ClusterCandidates(index[order[k]].pids, seen, recs))[x] > 0;
    }
    ExtendFromClusters(index, order, recs, ranks, block, k, ranks');
    ExtendExhausted(index, order, seen, recs, ranks, block, k, ranks');
    ExtendFromCandidates(index, order, seen, recs, ranks, block, k, ranks');
  }

  lemma ExtendFromClusters(
    index: Index, order: seq<nat>, recs: seq<int>, ranks: seq<nat>, block: seq<int>, k: nat, ranks': seq<nat>)
    requires forall j :: 0 <= j < |order| ==> order[j] < |index|
    requires k < |order| && |ranks| == |recs|
    requires RanksFromClusters(index, order, recs, ranks)
    requires forall i :: 0 <= i < |ranks| ==> ranks[i] < k
    requires forall x :: x in block ==> x in index[order[k]].pids
    requires ranks' == ranks + Repeat(k, |block|)
    ensures RanksFromClusters(index, order, recs + block, ranks')
  {
    var recs' := recs + block;
    forall i | 0 <= i < |ranks'|
      ensures ranks'[i] < |order| && recs'[i] in index[order[ranks'[i]]].pids
    {
      if i >= |recs| {
        assert ranks'[i] == k && recs'[i] == block[i - |recs|];
      }
    }
  }

  lemma ExtendExhausted(
    index: Index, order: seq<nat>, seen: set<int>, recs: seq<int>, ranks: seq<nat>, block: seq<int>, k: nat,
    ranks': seq<nat>)
    requires forall j :: 0 <= j < |order| ==> order[j] < |index|
    requires k < |order| && |ranks| == |recs|
    requires EarlierExhausted(index, order, seen, recs, ranks)
    requires forall i :: 0 <= i < |ranks| ==> ranks[i] < k
    requires ExhaustedUpTo(index, order, seen, recs, k)
    requires ranks' == ranks + Repeat(k, |block|)
    ensures EarlierExhausted(index, order, seen, recs + block, ranks')
  {
    var recs' := recs + block;
    forall i, j | 0 <= i < |ranks'| && 0 <= j < ranks'[i] && ranks'[i] < |order|
      ensures Exhausted(index[order[j]].pids, seen, recs'[..i])
    {
      if i < |recs| {
        assert recs'[..i] == recs[..i];
      } else {
        assert recs <= recs'[..i];
        assert Exhausted(index[order[j]].pids, seen, recs);
      }
    }
  }

  lemma ExtendFromCandidates(
    index: Index, order: seq<nat>, seen: set<int>, recs: seq<int>, ranks: seq<nat>, block: seq<int>, k: nat,
    ranks': seq<nat>)
    requires forall j :: 0 <= j < |order| ==> order[j] < |index|
    requires k < |order| && |ranks| == |recs|
    requires BlocksFromCandidates(index, order, seen, recs, ranks)
    requires forall i :: 0 <= i < |ranks| ==> ranks[i] < k
    requires multiset(block) <= multiset(ClusterCandidates(index[order[k]].pids, seen, recs))
    requires ranks' == ranks + Repeat(k, |block|)
    ensures BlocksFromCandidates(index, order, seen, recs + block, ranks')
  {
    var recs' := recs + block;
    ExtendBlocks(recs, ranks, block, k, ranks');
    forall j | 0 <= j < |order|
      ensures multiset(Block(recs', ranks', j)) <=
        multiset(ClusterCandidates(index[order[j]].pids, seen, Before(recs', ranks', j)))
    {
      if k < j {
        assert Block(recs', ranks', j) == [];
      }
    }
  }

  /** Appending the block of rank k keeps lower ranks complete, and completes rank k when it is all of the candidates. */
  lemma ExtendComplete(
    index: Index, order: seq<nat>, seen: set<int>, recs: seq<int>, ranks: seq<nat>, block: seq<int>, k: nat,
    recs': seq<int>, ranks': seq<nat>)
    requires forall j :: 0 <= j < |order| ==> order[j] < |index|
    requires k < |order|
    requires forall i :: 0 <= i < |ranks| ==> ranks[i] < k
    requires BlocksComplete(index, order, seen, recs, ranks, k)
    requires recs' == recs + block && ranks' == ranks + Repeat(k, |block|)
    ensures BlocksComplete(index, order, seen, recs', ranks', k)
    ensures multiset(block) == multiset(ClusterCandidates(index[order[k]].pids, seen, recs)) ==>
      BlocksComplete(index, order, seen, recs', ranks', k + 1)
  {
    ExtendBlocks(recs, ranks, block, k, ranks');
  }

  /** The order is a list of positions of the index. */
  predicate Positions(index: Index, order: seq<nat>) {
    forall j :: 0 <= j < |order| ==> order[j] < |index|
  }

  /** Each cluster's pid list is duplicate-free. */
  predicate ClustersNoDup(index: Index) {
    forall e :: e in index ==> NoDup(e.pids)
  }

  /** What the preferred phase promises of the pids chosen so far. */
  ghost predicate PhaseOk(index: Index, order: seq<nat>, seen: set<int>, recs: seq<int>, ranks: seq<nat>)
    requires Positions(index, order)
  {
    && |recs| <= PreferredLimit
    && (forall i :: 0 <= i < |recs| ==> recs[i] !in seen)
    && RankOrdered(index, order, seen, recs, ranks)
    && (ClustersNoDup(index) ==> NoDup(recs))
  }

  /** The loop invariant of the preferred phase before visiting rank k. */
  ghost predicate PhaseInv(index: Index, order: seq<nat>, seen: set<int>, recs: seq<int>, ranks: seq<nat>, k: nat)
    requires Positions(index, order)
  {
    && k <= |order|
    && |recs| < PreferredLimit
    && PhaseOk(index, order, seen, recs, ranks)
    && (forall i :: 0 <= i < |ranks| ==> ranks[i] < k)
    && ExhaustedUpTo(index, order, seen, recs, k)
    && BlocksComplete(index, order, seen, recs, ranks, k)
  }

  /** The candidates of a cluster are unseen and new; taking all of them exhausts the cluster. */
  lemma CandidatesFacts(pids: seq<int>, seen: set<int>, recs: seq<int>, candidates: seq<int>)
    requires multiset(candidates) == multiset(ClusterCandidates(pids, seen, recs))
    ensures forall x :: x in candidates ==> x in pids && x !in seen && x !in recs
    ensures NoDup(pids) ==> NoDup(candidates)
    ensures Exhausted(pids, seen, recs + candidates)
  {
    var base := ClusterCandidates(pids, seen, recs);
    PermutationNoDup(candidates, base);
    forall x | x in pids && x !in seen ensures x in recs + candidates {
      if x !in recs {
        assert x in base;
      }
    }
  }

  /** A prefix of the candidates appended to the chosen pids keeps them duplicate-free. */
  lemma AppendCandidatesNoDup(recs: seq<int>, candidates: seq<int>, n: nat)
    requires n <= |candidates|
    requires NoDup(recs) && NoDup(candidates)
    requires forall x :: x in candidates ==> x !in recs
    ensures NoDup(recs + candidates[..n])
  {
    assert forall x :: x in candidates[..n] ==> x in candidates;
    NoDupConcat(recs, candidates[..n]);
  }

  /** Rank k exhausted on top of ranks 0 .. k-1. */
  lemma ExhaustedUpToNext(index: Index, order: seq<nat>, seen: set<int>, chosen: seq<int>, k: nat)
    requires Positions(index, order) && k < |order|
    requires ExhaustedUpTo(index, order, seen, chosen, k)
    requires Exhausted(index[order[k]].pids, seen, chosen)
    ensures ExhaustedUpTo(index, order, seen, chosen, k + 1)
  {
  }

  /** A visit that took every candidate of the cluster at rank k leaves ranks 0 .. k exhausted. */
  lemma StepExhausts(
    index: Index, order: seq<nat>, seen: set<int>, recs: seq<int>, k: nat, candidates: seq<int>)
    requires Positions(index, order) && k < |order|
    requires ExhaustedUpTo(index, order, seen, recs, k)
    requires multiset(candidates) == multiset(ClusterCandidates(index[order[k]].pids, seen, recs))
    ensures ExhaustedUpTo(index, order, seen, recs + candidates, k + 1)
  {
    CandidatesFacts(index[order[k]].pids, seen, recs, candidates);
    assert forall x :: x in recs ==> x in recs + candidates;
    ExhaustedUpToGrows(index, order, seen, recs, recs + candidates, k);
    ExhaustedUpToNext(index, order, seen, recs + candidates, k);
  }

  /** The loop invariant before rank k + 1, from its parts. */
  lemma NextPhaseInv(index: Index, order: seq<nat>, seen: set<int>, recs: seq<int>, ranks: seq<nat>, k: nat)
    requires Positions(index, order) && k < |order| && |recs| < PreferredLimit
    requires PhaseOk(index, order, seen, recs, ranks)
    requires ExhaustedUpTo(index, order, seen, recs, k + 1)
    requires BlocksComplete(index, order, seen, recs, ranks, k + 1)
    requires forall i :: 0 <= i < |ranks| ==> ranks[i] < k + 1
    ensures PhaseInv(index, order, seen, recs, ranks, k + 1)
  {
  }

  /** The part of one visit that keeps `PhaseOk`: the first `n` candidates join the picks at rank k. */
  lemma StepKeepsPhaseOk(
    index: Index, order: seq<nat>, seen: set<int>, recs: seq<int>, ranks: seq<nat>, k: nat,
    candidates: seq<int>, n: nat, filled: seq<int>, ranks': seq<nat>)
    requires Positions(index, order) && k < |order|
    requires PhaseOk(index, order, seen, recs, ranks)
    requires forall i :: 0 <= i < |ranks| ==> ranks[i] < k
    requires ExhaustedUpTo(index, order, seen, recs, k)
    requires multiset(candidates) == multiset(ClusterCandidates(index[order[k]].pids, seen, recs))
    requires n <= |candidates| && |recs| + n <= PreferredLimit
    requires multiset(candidates[..n]) <= multiset(candidates)
    requires filled == recs + candidates[..n] && ranks' == ranks + Repeat(k, n)
    ensures PhaseOk(index, order, seen, filled, ranks')
  {
    var block := candidates[..n];
    CandidatesFacts(index[order[k]].pids, seen, recs, candidates);
    ExtendRankOrdered(index, order, seen, recs, ranks, block, k);
    if ClustersNoDup(index) {
      assert index[order[k]] in index;
      AppendCandidatesNoDup(recs, candidates, n);
    }
    forall i | |recs| <= i < |filled| ensures filled[i] !in seen {
      assert filled[i] in candidates;
    }
  }

  /**
   * One visit of the preferred phase: the cluster at rank k contributes
   * `filled[|recs|..]`. Below seven picks the loop invariant holds for rank k + 1;
   * at seven the phase is over, with every rank before k complete.
   */
  lemma VisitRank(
    index: Index, order: seq<nat>, seen: set<int>, recs: seq<int>, ranks: seq<nat>, k: nat,
    candidates: seq<int>, filled: seq<int>, ranks': seq<nat>)
    requires Positions(index, order) && k < |order|
    requires PhaseInv(index, order, seen, recs, ranks, k)
    requires multiset(candidates) == multiset(ClusterCandidates(index[order[k]].pids, seen, recs))
    requires var n := if |candidates| < PreferredLimit - |recs| then |candidates| else PreferredLimit - |recs|;
      filled == recs + candidates[..n]
    requires ranks' == ranks + Repeat(k, |filled| - |recs|)
    ensures |filled| < PreferredLimit ==> PhaseInv(index, order, seen, filled, ranks', k + 1)
    ensures |filled| >= PreferredLimit ==>
      && |filled| == PreferredLimit
      && PhaseOk(index, order, seen, filled, ranks')
      && ranks' != [] && ranks'[|ranks'| - 1] == k
      && BlocksComplete(index, order, seen, filled, ranks', k)
  {
    var n := |filled| - |recs|;
    PrefixSubMultiset(candidates, n);
    StepKeepsPhaseOk(index, order, seen, recs, ranks, k, candidates, n, filled, ranks');
    ExtendComplete(index, order, seen, recs, ranks, candidates[..n], k, filled, ranks');
    if |filled| < PreferredLimit {
      assert candidates[..n] == candidates;
      StepExhausts(index, order, seen, recs, k, candidates);
      NextPhaseInv(index, order, seen, filled, ranks', k);
    }
  }

  /** The preferred phase: up to seven unseen pids, cluster by cluster in rank order. */
  method PreferredPhase(seen: set<int>, index: Index, order: seq<nat>, shuffle: seq<int> -> seq<int>)
    returns (recs: seq<int>, ghost ranks: seq<nat>)
    requires Positions(index, order)
    requires forall s :: multiset(shuffle(s)) == multiset(s)
    ensures PhaseOk(index, order, seen, recs, ranks)
    ensures |recs| < PreferredLimit ==>
      ExhaustedUpTo(index, order, seen, recs, |order|) && BlocksComplete(index, order, seen, recs, ranks, |order|)
    ensures |recs| >= PreferredLimit ==>
      |recs| == PreferredLimit && ranks != [] && BlocksComplete(index, order, seen, recs, ranks, ranks[|ranks| - 1])
  {
    recs, ranks := [], [];
    var k := 0;
    while k < |order|
      invariant PhaseInv(index, order, seen, recs, ranks, k)
    {
      var candidates := ClusterCandidates(index[order[k]].pids, seen, recs);
      candidates := shuffle(candidates);
      var filled := FillPreferred(recs, candidates);
      ghost var ranks' := ranks + Repeat(k, |filled| - |recs|);
      VisitRank(index, order, seen, recs, ranks, k, candidates, filled, ranks');
      recs, ranks := filled, ranks';
      if |recs| >= PreferredLimit {
        break;
      }
      k := k + 1;
    }
  }

  /** Unseen pids of the index that are not in `chosen`. */
  ghost predicate CanExplore(index: Index, seen: set<int>, chosen: seq<int>) {
    exists pid :: Listed(index, pid) && pid !in seen && pid !in chosen
  }

  /** Every pid the preferred phase chose is listed in the index. */
  lemma PreferredListed(index: Index, order: seq<nat>, seen: set<int>, recs: seq<int>, ranks: seq<nat>)
    requires Positions(index, order)
    requires RankOrdered(index, order, seen, recs, ranks)
    ensures forall i :: 0 <= i < |recs| ==> Listed(index, recs[i])
  {
    forall i | 0 <= i < |recs| ensures Listed(index, recs[i]) {
      assert recs[i] in index[order[ranks[i]]].pids;
    }
  }

  /** When every ranked cluster is exhausted and every position is ranked, every unseen pid was chosen. */
  lemma ExhaustedCoversIndex(index: Index, order: seq<nat>, seen: set<int>, recs: seq<int>)
    requires Positions(index, order)
    requires forall p :: 0 <= p < |index| ==> p in order
    requires ExhaustedUpTo(index, order, seen, recs, |order|)
    ensures forall pid :: Listed(index, pid) && pid !in seen ==> pid in recs
  {
    forall pid | Listed(index, pid) && pid !in seen ensures pid in recs {
      var p :| 0 <= p < |index| && pid in index[p].pids;
      assert p in order;
      var j :| 0 <= j < |order| && order[j] == p;
      assert Exhausted(index[order[j]].pids, seen, recs);
    }
  }

  /** The exploration pool: every unseen pid of the index not chosen yet. */
  function ExplorationPool(index: Index, seen: set<int>, chosen: seq<int>): (pool: set<int>)
    ensures forall pid :: pid in pool <==> Listed(index, pid) && pid !in seen && pid !in chosen
  {
    var all := AllCandidates(index);
    set pid | pid in all && pid !in seen && pid !in chosen
  }

  /** The exploration pool is non-empty exactly when there is something left to explore. */
  lemma ExplorationPoolNonEmpty(index: Index, seen: set<int>, chosen: seq<int>)
    ensures ExplorationPool(index, seen, chosen) != {} <==> CanExplore(index, seen, chosen)
  {
    var pool := ExplorationPool(index, seen, chosen);
    if CanExplore(index, seen, chosen) {
      var pid :| Listed(index, pid) && pid !in seen && pid !in chosen;
      assert pid in pool;
    }
    if !CanExplore(index, seen, chosen) {
      assert forall pid :: pid !in pool;
      assert pool == {};
    }
  }

  /**
   * `get_recommendations` of app/main.py after the profile lookup: the preferred
   * phase, then one exploration pid from anywhere in the index.
   */
  method RecommendPreferredExploration(
    interactions: map<int, nat>, seen: seq<int>, index: Index,
    shuffle: seq<int> -> seq<int>, choose: set<int> -> int)
    returns (recs: seq<int>, ghost preferred: seq<int>, ghost ranks: seq<nat>)
    requires forall s :: multiset(shuffle(s)) == multiset(s)
    requires forall s :: s != {} ==> choose(s) in s
    ensures |recs| <= RecommendationCount
    ensures forall i :: 0 <= i < |recs| ==> recs[i] !in seen && Listed(index, recs[i])
    ensures ClustersNoDup(index) ==> NoDup(recs)
    ensures |preferred| <= PreferredLimit && preferred <= recs && |recs| <= |preferred| + 1
    ensures RankOrdered(index, RankClusters(interactions, index), Elems(seen), preferred, ranks)
    ensures |preferred| < PreferredLimit ==>
      forall pid :: Listed(index, pid) && pid !in seen ==> pid in preferred
    ensures |recs| == |preferred| + 1 <==> CanExplore(index, Elems(seen), preferred)
    ensures |recs| == |preferred| + 1 ==>
      var x := recs[|preferred|]; Listed(index, x) && x !in seen && x !in preferred
    ensures |preferred| < PreferredLimit ==>
      BlocksComplete(index, RankClusters(interactions, index), Elems(seen), preferred, ranks, |index|)
    ensures |preferred| >= PreferredLimit ==>
      (|preferred| == PreferredLimit && ranks != [] &&
       BlocksComplete(index, RankClusters(interactions, index), Elems(seen), preferred, ranks, ranks[|ranks| - 1]))
  {
    var seenSet := Elems(seen);
    var order := RankClusters(interactions, index);
    recs, ranks := PreferredPhase(seenSet, index, order, shuffle);
    preferred := recs;
    PreferredListed(index, order, seenSet, recs, ranks);
    if |preferred| < PreferredLimit {
      ExhaustedCoversIndex(index, order, seenSet, recs);
    }
    var explorationPool := ExplorationPool(index, seenSet, recs);
    ExplorationPoolNonEmpty(index, seenSet, recs);
    if explorationPool != {} {
      var x := choose(explorationPool);
      recs := recs + [x];
      if ClustersNoDup(index) {
        NoDupConcat(preferred, [x]);
      }
    }
    // `recommendations[:8]` is all of `recs`: at most seven preferred plus one.
  }

  /** The body of `record_interaction` on one profile: bump the count, then append to the seen list. */
  method ApplyView(profile: LegacyProfile, pid: int, clusterLabel: int) returns (updated: LegacyProfile)
    ensures updated == RecordView(profile, pid, clusterLabel)
  {
    var counts := profile.clusterInteractions;
    counts := counts[clusterLabel := CountOf(counts, clusterLabel) + 1];
    var seen := profile.seenVideos;
    if pid !in seen {
      seen := seen + [pid];
    }
    updated := LegacyProfile(profile.username, counts, seen);
  }

  /** Every profile is filed under its own stripped, non-blank name, with a duplicate-free seen list. */
  ghost predicate LegacyProfilesOk(profiles: map<string, LegacyProfile>) {
    forall u :: u in profiles ==>
      u != [] && Strip(u) == u && profiles[u].username == u && NoDup(profiles[u].seenVideos)
  }

  /** Replacing a stored profile by one with the same name and a duplicate-free seen list keeps the collection well formed. */
  lemma LegacyProfilesOkUpdate(profiles: map<string, LegacyProfile>, username: string, p: LegacyProfile)
    requires LegacyProfilesOk(profiles) && username in profiles
    requires p.username == username && NoDup(p.seenVideos)
    ensures LegacyProfilesOk(profiles[username := p])
  {
  }

  class LegacyStore {
    var profiles: map<string, LegacyProfile>
    ghost var saves: nat

    ghost predicate Valid()
      reads this
    {
      LegacyProfilesOk(profiles)
    }

    constructor ()
      ensures Valid()
      ensures profiles == map[] && saves == 0
    {
      profiles := map[];
      saves := 0;
    }

    /** `create_user` of app/main.py: as in the newer back end, without a liked list. */
    method CreateUser(rawName: string) returns (r: Result<LegacyProfile, ApiError>)
      requires Valid()
      modifies this
      ensures Valid()
      ensures IsBlank(rawName) ==>
        r == Failure(UsernameRequired) && profiles == old(profiles) && saves == old(saves)
      ensures !IsBlank(rawName) && Strip(rawName) in old(profiles) ==>
        r == Success(old(profiles)[Strip(rawName)]) && profiles == old(profiles) && saves == old(saves)
      ensures !IsBlank(rawName) && Strip(rawName) !in old(profiles) ==>
        && r == Success(NewLegacyProfile(Strip(rawName)))
        && profiles == old(profiles)[Strip(rawName) := NewLegacyProfile(Strip(rawName))]
        && saves == old(saves) + 1
    {
      var username := Strip(rawName);
      if username == [] {
        return Failure(UsernameRequired);
      }
      if username !in profiles {
        StripIdempotent(rawName);
        profiles := profiles[username := NewLegacyProfile(username)];
        saves := saves + 1;
      }
      r := Success(profiles[username]);
    }

    /** `get_user_or_404` of app/main.py. */
    function GetUser(username: string): (r: Result<LegacyProfile, ApiError>)
      reads this
      ensures r.Success? <==> username in profiles
      ensures r.Success? ==> r.value == profiles[username]
      ensures r.Failure? ==> r.error == UserNotFound
    {
      if username in profiles then Success(profiles[username]) else Failure(UserNotFound)
    }

    /** `record_interaction` of app/main.py: count and seen list only. */
    method RecordInteraction(username: string, pid: int, clusterLabel: int) returns (r: Outcome<ApiError>)
      requires Valid()
      modifies this
      ensures Valid()
      ensures username !in old(profiles) ==>
        r == Fail(UserNotFound) && profiles == old(profiles) && saves == old(saves)
      ensures username in old(profiles) ==>
        && r == Pass
        && profiles == old(profiles)[username := RecordView(old(profiles)[username], pid, clusterLabel)]
        && saves == old(saves) + 1
    {
      var found := GetUser(username);
      if found.Failure? {
        return Fail(found.error);
      }
      var profile := found.value;
      var updated := ApplyView(profile, pid, clusterLabel);
      LegacyProfilesOkUpdate(profiles, username, updated);
      profiles := profiles[username := updated];
      saves := saves + 1;
      r := Pass;
    }

    /** The recommendations endpoint of app/main.py: seven preferred pids in rank order, then one exploration pid. */
    method GetRecommendations(
      username: string, index: Index, shuffle: seq<int> -> seq<int>, choose: set<int> -> int)
      returns (r: Result<seq<int>, ApiError>, ghost preferred: seq<int>, ghost ranks: seq<nat>)
      requires forall s :: multiset(shuffle(s)) == multiset(s)
      requires forall s :: s != {} ==> choose(s) in s
      ensures r.Failure? <==> username !in profiles
      ensures r.Failure? ==> r.error == UserNotFound
      ensures r.Success? && index == [] ==> r.value == []
      ensures r.Success? ==> |r.value| <= RecommendationCount
      ensures r.Success? ==> forall i :: 0 <= i < |r.value| ==>
        r.value[i] !in profiles[username].seenVideos && Listed(index, r.value[i])
      ensures r.Success? && ClustersNoDup(index) ==> NoDup(r.value)
      ensures r.Success? ==>
        |preferred| <= PreferredLimit && preferred <= r.value && |r.value| <= |preferred| + 1
      ensures r.Success? ==> RankOrdered(index, RankClusters(profiles[username].clusterInteractions, index),
        Elems(profiles[username].seenVideos), preferred, ranks)
      ensures r.Success? && |preferred| < PreferredLimit ==>
        forall pid :: Listed(index, pid) && pid !in profiles[username].seenVideos ==> pid in preferred
      ensures r.Success? ==>
        (|r.value| == |preferred| + 1 <==> CanExplore(index, Elems(profiles[username].seenVideos), preferred))
      ensures r.Success? && |r.value| == |preferred| + 1 ==> r.value[|preferred|] !in preferred
      ensures r.Success? && |preferred| < PreferredLimit ==>
        BlocksComplete(index, RankClusters(profiles[username].clusterInteractions, index),
          Elems(profiles[username].seenVideos), preferred, ranks, |index|)
      ensures r.Success? && |preferred| >= PreferredLimit ==>
        (|preferred| == PreferredLimit && ranks != [] &&
         BlocksComplete(index, RankClusters(profiles[username].clusterInteractions, index),
           Elems(profiles[username].seenVideos), preferred, ranks, ranks[|ranks| - 1]))
    {
      var found := GetUser(username);
      if found.Failure? {
        return Failure(found.error), [], [];
      }
      var profile := found.value;
      if index == [] {
        return Success([]), [], [];
      }
      var recs;
      recs, preferred, ranks := RecommendPreferredExploration(
        profile.clusterInteractions, profile.seenVideos, index, shuffle, choose);
      r := Success(recs);
    }
  }
}
