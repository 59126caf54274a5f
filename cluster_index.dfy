/**
 * The cluster -> video index as the recommenders see it, the ranking of its
 * clusters by a user's interaction counts, and the reverse pid -> cluster index.
 *
 * The index is a dictionary read from JSON whose keys the reader normalises with
 * `str(int(key))`; a key that does not parse stays as it was. Dictionary order is
 * insertion order, so the index is a sequence of entries in that order. No property
 * below relies on the keys being distinct.
 */
module ClusterIndex {
  import opened SeqUtil

  /** A normalised index key: the text of an integer, or a key `int()` rejects. */
  datatype ClusterKey = Label(n: int) | Unparsed(text: string)

  datatype Entry = Entry(key: ClusterKey, pids: seq<int>)

  type Index = seq<Entry>

  /** `counts.get(str(c), 0)` on a profile's interaction counts. */
  function CountOf(counts: map<int, nat>, c: int): nat {
    if c in counts then counts[c] else 0
  }

  /**
   * `interactions.get(key, 0)` for a key of the index. Interaction keys are always
   * `str(cluster_label)` of an integer, so an unparsed key never has a count.
   */
  function InteractionCount(interactions: map<int, nat>, key: ClusterKey): nat {
    match key
    case Label(n) => CountOf(interactions, n)
    case Unparsed(_) => 0
  }

  /** The sort key of every entry, in index order. */
  function Counts(interactions: map<int, nat>, index: Index): (cs: seq<nat>)
    ensures |cs| == |index|
    ensures forall i :: 0 <= i < |index| ==> cs[i] == InteractionCount(interactions, index[i].key)
  {
    seq(|index|, i requires 0 <= i < |index| => InteractionCount(interactions, index[i].key))
  }

  // ---------------------------------------------------------------------------
  // Ranking: `sorted(keys, key=lambda c: interactions.get(c, 0), reverse=True)`
  // ---------------------------------------------------------------------------

  /**
   * Position `a` comes before position `b` in a stable descending sort: a larger
   * count first, and among equal counts the earlier position first.
   */
  predicate RanksBefore(cs: seq<nat>, a: nat, b: nat)
    requires a < |cs| && b < |cs|
  {
    cs[a] > cs[b] || (cs[a] == cs[b] && a < b)
  }

  predicate RankedOrder(cs: seq<nat>, order: seq<nat>) {
    && (forall i :: 0 <= i < |order| ==> order[i] < |cs|)
    && (forall i, j :: 0 <= i < j < |order| ==> RanksBefore(cs, order[i], order[j]))
  }

  /** `order` is the result of stably sorting positions `0 .. |cs|-1` by count, descending. */
  predicate IsRanking(cs: seq<nat>, order: seq<nat>) {
    && |order| == |cs|
    && RankedOrder(cs, order)
    && (forall p :: 0 <= p < |cs| ==> p in order)
  }

  /** Inserts position `p`, later than every position already ranked, after all that rank before it. */
  function InsertRanked(cs: seq<nat>, order: seq<nat>, p: nat): (r: seq<nat>)
    requires p < |cs|
    requires forall i :: 0 <= i < |order| ==> order[i] < p
    requires RankedOrder(cs, order)
    ensures |r| == |order| + 1
    ensures forall x :: x in r <==> x in order || x == p
    ensures RankedOrder(cs, r)
  {
    if order == [] then [p]
    else if cs[order[0]] < cs[p] then
      assert forall j :: 0 <= j < |order| ==> cs[order[j]] <= cs[order[0]] by {
        forall j | 0 < j < |order| ensures cs[order[j]] <= cs[order[0]] {
          assert RanksBefore(cs, order[0], order[j]);
        }
      }
      [p] + order
    else
      var rest := InsertRanked(cs, order[1..], p);
      assert forall x :: x in order[1..] ==> RanksBefore(cs, order[0], x);
      [order[0]] + rest
  }

  /** Stable descending sort of the first `n` positions (insertion sort). */
  function RankPrefix(cs: seq<nat>, n: nat): (order: seq<nat>)
    requires n <= |cs|
    ensures |order| == n
    ensures forall i :: 0 <= i < n ==> order[i] < n
    ensures RankedOrder(cs, order)
    ensures forall p :: 0 <= p < n ==> p in order
  {
    if n == 0 then []
    else
      var r := InsertRanked(cs, RankPrefix(cs, n - 1), n - 1);
      assert forall i :: 0 <= i < n ==> r[i] in r;
      r
  }

  /** The order in which the recommenders visit the clusters of `index`, as positions. */
  function RankClusters(interactions: map<int, nat>, index: Index): (order: seq<nat>)
    ensures IsRanking(Counts(interactions, index), order)
  {
    RankPrefix(Counts(interactions, index), |index|)
  }

  /**
   * The top cluster (`sorted_clusters[0]`) is the first position, in index order,
   * whose count is maximal.
   */
  lemma TopIsFirstMaximal(cs: seq<nat>, order: seq<nat>)
    requires IsRanking(cs, order) && |cs| > 0
    ensures forall j :: 0 <= j < |cs| ==> cs[j] <= cs[order[0]]
    ensures forall j :: 0 <= j < order[0] ==> cs[j] < cs[order[0]]
  {
    forall j | 0 <= j < |cs|
      ensures cs[j] <= cs[order[0]] && (j < order[0] ==> cs[j] < cs[order[0]])
    {
      if j != order[0] {
        assert j in order;
        var k :| 0 <= k < |order| && order[k] == j;
        assert RanksBefore(cs, order[0], order[k]);
      }
    }
  }

  /** Any two rankings of the same counts agree: the ranking is fully determined. */
  lemma {:induction false} RankingIsUnique(cs: seq<nat>, a: seq<nat>, b: seq<nat>)
    requires IsRanking(cs, a) && IsRanking(cs, b)
    ensures a == b
  {
    forall i | 0 <= i < |a| ensures a[i] == b[i] {
      // The element at position i is the one with exactly i elements ranking before it.
      RankPosition(cs, a, i);
      RankPosition(cs, b, i);
      RankPosition(cs, b, PositionOf(b, a[i]));
    }
  }

  function PositionOf(s: seq<nat>, x: nat): (k: nat)
    requires x in s
    ensures k < |s| && s[k] == x
  {
    if s[0] == x then 0 else 1 + PositionOf(s[1..], x)
  }

  /** In a ranking, the element at position i has exactly i positions ranking before it. */
  lemma RankPosition(cs: seq<nat>, order: seq<nat>, i: nat)
    requires IsRanking(cs, order) && i < |order|
    ensures (set q | 0 <= q < |cs| && RanksBefore(cs, q, order[i])) == (set k | 0 <= k < i :: order[k])
    ensures |set q | 0 <= q < |cs| && RanksBefore(cs, q, order[i])| == i
  {
    var before := set q | 0 <= q < |cs| && RanksBefore(cs, q, order[i]);
    var prefix := set k | 0 <= k < i :: order[k];
    forall q | q in before ensures q in prefix {
      assert q in order;
      var k :| 0 <= k < |order| && order[k] == q;
    }
    forall q | q in prefix ensures q in before {
      var k :| 0 <= k < i && order[k] == q;
      assert RanksBefore(cs, order[k], order[i]);
    }
    assert before == prefix;
    DistinctPrefixSize(cs, order, i);
  }

  lemma {:induction false} DistinctPrefixSize(cs: seq<nat>, order: seq<nat>, i: nat)
    requires RankedOrder(cs, order) && i <= |order|
    ensures |set k | 0 <= k < i :: order[k]| == i
  {
    if i > 0 {
      DistinctPrefixSize(cs, order, i - 1);
      var prev := set k | 0 <= k < i - 1 :: order[k];
      assert (set k | 0 <= k < i :: order[k]) == prev + {order[i - 1]};
      assert order[i - 1] !in prev;
    }
  }

  // ---------------------------------------------------------------------------
  // Candidate pools
  // ---------------------------------------------------------------------------

  /** Some entry of the index lists `pid`. */
  ghost predicate Listed(index: Index, pid: int) {
    exists i :: 0 <= i < |index| && pid in index[i].pids
  }

  /** `for video_list in videos_by_cluster.values(): all_candidates.extend(video_list)`. */
  function AllCandidates(index: Index): (r: seq<int>)
    ensures forall pid :: pid in r <==> Listed(index, pid)
  {
    if index == [] then []
    else
      var rest := AllCandidates(index[1..]);
      assert forall pid :: Listed(index[1..], pid) ==> Listed(index, pid) by {
        forall pid | Listed(index[1..], pid) ensures Listed(index, pid) {
          var i :| 0 <= i < |index[1..]| && pid in index[1..][i].pids;
          assert pid in index[i + 1].pids;
        }
      }
      assert forall pid :: Listed(index, pid) ==> pid in index[0].pids || Listed(index[1..], pid) by {
        forall pid | Listed(index, pid) && pid !in index[0].pids ensures Listed(index[1..], pid) {
          var i :| 0 <= i < |index| && pid in index[i].pids;
          assert i != 0 && pid in index[1..][i - 1].pids;
        }
      }
      index[0].pids + rest
  }

  // ---------------------------------------------------------------------------
  // Reverse index: build_pid_to_cluster_map
  // ---------------------------------------------------------------------------

  /** Entry `i` has an integer key and lists `pid`. */
  predicate LabelledIn(index: Index, i: nat, pid: int)
    requires i < |index|
  {
    index[i].key.Label? && pid in index[i].pids
  }

  /** The reverse index after processing the entries in order, each one overwriting earlier ones. */
  function ReverseIndex(index: Index): map<int, int>
  {
    if index == [] then map[]
    else
      var m := ReverseIndex(index[..|index| - 1]);
      var e := index[|index| - 1];
      match e.key
      case Label(c) => m + map pid | pid in e.pids :: c
      case Unparsed(_) => m
  }

  /**
   * The reverse index knows exactly the pids listed under an integer key, and maps
   * each to the key of the LAST such entry.
   */
  lemma {:induction false} ReverseIndexLastWriterWins(index: Index, pid: int)
    ensures pid in ReverseIndex(index) <==> exists i :: 0 <= i < |index| && LabelledIn(index, i, pid)
    ensures pid in ReverseIndex(index) ==>
      exists i :: 0 <= i < |index| && LabelledIn(index, i, pid)
        && ReverseIndex(index)[pid] == index[i].key.n
        && forall j :: i < j < |index| ==> !LabelledIn(index, j, pid)
  {
    if index != [] {
      var n := |index| - 1;
      var init := index[..n];
      ReverseIndexLastWriterWins(init, pid);
      assert forall i :: 0 <= i < n ==> (LabelledIn(init, i, pid) <==> LabelledIn(index, i, pid));
      if LabelledIn(index, n, pid) {
        assert ReverseIndex(index)[pid] == index[n].key.n;
      } else if pid in ReverseIndex(init) {
        var i :| 0 <= i < n && LabelledIn(init, i, pid) && ReverseIndex(init)[pid] == init[i].key.n
          && forall j :: i < j < n ==> !LabelledIn(init, j, pid);
        assert LabelledIn(index, i, pid);
      }
    }
  }

  /** `mapping.get(pid, -1)`: the annotated cluster label of a pid. */
  function LabelOf(mapping: map<int, int>, pid: int): int {
    if pid in mapping then mapping[pid] else -1
  }

  /** `build_pid_to_cluster_map`: nested loops filling the reverse index. */
  method BuildPidToClusterMap(index: Index) returns (mapping: map<int, int>)
    ensures mapping == ReverseIndex(index)
  {
    mapping := map[];
    var i := 0;
    while i < |index|
      invariant 0 <= i <= |index|
      invariant mapping == ReverseIndex(index[..i])
    {
      var e := index[i];
      assert index[..i + 1][..i] == index[..i];
      match e.key {
        case Unparsed(_) =>
        case Label(c) =>
          var j := 0;
          while j < |e.pids|
            invariant 0 <= j <= |e.pids|
            invariant mapping == ReverseIndex(index[..i]) + map pid | pid in e.pids[..j] :: c
          {
            assert e.pids[..j + 1] == e.pids[..j] + [e.pids[j]];
            mapping := mapping[e.pids[j] := c];
            j := j + 1;
          }
          assert e.pids[..j] == e.pids;
      }
      i := i + 1;
    }
    assert index[..i] == index;
  }
}
