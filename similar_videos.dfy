/**
 * `get_recommendations` of internal_logics/get_recomendations.py: the videos of the
 * target's cluster other than the target itself, by watch time descending, first
 * `top_n` rows.
 */
module SimilarVideos {
  import opened Frames

  /** One row of `all_videos_df`; `details` are its other columns, carried unchanged. */
  datatype Video = Video(pid: int, watchTime: int, details: seq<Cell>)

  /** One row of `video_cluster_map`. */
  datatype Assignment = Assignment(pid: int, clusterLabel: int)

  /** Some row of the cluster map assigns `pid` to `clusterLabel`. */
  predicate InCluster(clusterMap: seq<Assignment>, clusterLabel: int, pid: int) {
    exists a :: a in clusterMap && a.pid == pid && a.clusterLabel == clusterLabel
  }

  /** `video_cluster_map[video_cluster_map['dbscan_cluster_label'] == label]['pid']`, as `isin` uses it. */
  function ClusterPids(clusterMap: seq<Assignment>, clusterLabel: int): (pids: set<int>)
    ensures forall p :: p in pids <==> InCluster(clusterMap, clusterLabel, p)
  {
    set a | a in clusterMap && a.clusterLabel == clusterLabel :: a.pid
  }

  /** The rows of `videos` whose pid is in `pids` and is not `target`, in their order. */
  function SameCluster(videos: seq<Video>, pids: set<int>, target: int): (r: seq<Video>)
    ensures forall v :: v in r <==> v in videos && v.pid in pids && v.pid != target
    ensures multiset(r) <= multiset(videos)
    ensures forall v :: multiset(r)[v] == if v.pid in pids && v.pid != target then multiset(videos)[v] else 0
  {
    if videos == [] then []
    else
      var rest := SameCluster(videos[1..], pids, target);
      assert videos == [videos[0]] + videos[1..];
      if videos[0].pid in pids && videos[0].pid != target then [videos[0]] + rest else rest
  }

  /** Non-increasing watch time. */
  predicate ByWatchTime(s: seq<Video>) {
    forall i, j :: 0 <= i < j < |s| ==> s[i].watchTime >= s[j].watchTime
  }

  /** A row watched at least as long as every row of a sorted list can go in front of it. */
  lemma ConsByWatchTime(x: Video, s: seq<Video>)
    requires ByWatchTime(s)
    requires forall w :: w in s ==> w.watchTime <= x.watchTime
    ensures ByWatchTime([x] + s)
  {
    var r := [x] + s;
    forall i, j | 0 <= i < j < |r| ensures r[i].watchTime >= r[j].watchTime {
      assert r[j] == s[j - 1];
      if i > 0 {
        assert r[i] == s[i - 1];
      }
    }
  }

  /** Puts `v` before the first row watched no longer than it. */
  function InsertByWatchTime(v: Video, s: seq<Video>): (r: seq<Video>)
    ensures |r| == |s| + 1
    ensures multiset(r) == multiset(s) + multiset{v}
    ensures forall w :: w in r ==> w in s || w == v
  {
    if s == [] then [v]
    else if v.watchTime >= s[0].watchTime then [v] + s
    else
      assert s == [s[0]] + s[1..];
      [s[0]] + InsertByWatchTime(v, s[1..])
  }

  /** Every row of a sorted list is watched no longer than its head. */
  lemma HeadIsLongest(s: seq<Video>)
    requires ByWatchTime(s) && s != []
    ensures forall w :: w in s ==> w.watchTime <= s[0].watchTime
  {
    forall w | w in s ensures w.watchTime <= s[0].watchTime {
      var k :| 0 <= k < |s| && s[k] == w;
    }
  }

  /** Inserting into a sorted list keeps it sorted. */
  lemma {:induction false} InsertKeepsOrder(v: Video, s: seq<Video>)
    requires ByWatchTime(s)
    ensures ByWatchTime(InsertByWatchTime(v, s))
  {
    if s != [] {
      HeadIsLongest(s);
      if v.watchTime < s[0].watchTime {
        var rest := InsertByWatchTime(v, s[1..]);
        assert ByWatchTime(s[1..]);
        InsertKeepsOrder(v, s[1..]);
        assert forall w :: w in s[1..] ==> w in s;
        ConsByWatchTime(s[0], rest);
      } else {
        ConsByWatchTime(v, s);
      }
    }
  }

  /** `sort_values(by='watch_time', ascending=False)`: a reordering with watch times non-increasing. */
  function SortByWatchTime(s: seq<Video>): (r: seq<Video>)
    ensures |r| == |s|
    ensures ByWatchTime(r)
    ensures multiset(r) == multiset(s)
  {
    if s == [] then []
    else
      assert s == [s[0]] + s[1..];
      var rest := SortByWatchTime(s[1..]);
      InsertKeepsOrder(s[0], rest);
      InsertByWatchTime(s[0], rest)
  }

  /** How many rows pandas `head(n)` keeps of `len` rows: all but the last `-n` when `n` is negative. */
  function HeadLength(len: nat, n: int): (k: nat)
    ensures k <= len
    ensures n >= 0 ==> k <= n
    ensures n >= 0 && n <= len ==> k == n
    ensures n < 0 && -n <= len ==> k == len + n
    ensures n < 0 && -n > len ==> k == 0
    ensures k == len <==> (n >= 0 && n >= len) || (len == 0)
  {
    if n >= 0 then (if n < len then n else len)
    else if len + n > 0 then len + n else 0
  }

  /** A prefix of a list is sorted like it and holds a sub-multiset of its rows. */
  lemma SortedPrefixFacts(candidates: seq<Video>, k: nat)
    requires k <= |candidates|
    ensures ByWatchTime(SortByWatchTime(candidates)[..k])
    ensures multiset(SortByWatchTime(candidates)[..k]) <= multiset(candidates)
    ensures forall v :: v in SortByWatchTime(candidates)[..k] ==> v in candidates
  {
    var s := SortByWatchTime(candidates);
    PrefixFacts(s, k);
    forall v | v in s[..k] ensures v in candidates {
      assert v in multiset(s);
    }
  }

  /** A prefix of a sorted list is sorted and holds a sub-multiset of its rows. */
  lemma PrefixFacts(s: seq<Video>, k: nat)
    requires k <= |s| && ByWatchTime(s)
    ensures ByWatchTime(s[..k])
    ensures multiset(s[..k]) <= multiset(s)
    ensures forall v :: v in s[..k] ==> v in s
  {
    assert s == s[..k] + s[k..];
    assert multiset(s) == multiset(s[..k]) + multiset(s[k..]);
  }

  /** The candidates: rows of the target's cluster, the target excluded. */
  function Candidates(targetPid: int, targetLabel: int, allVideos: seq<Video>, clusterMap: seq<Assignment>): seq<Video> {
    SameCluster(allVideos, ClusterPids(clusterMap, targetLabel), targetPid)
  }

  /** The recommended rows. */
  function GetRecommendations(
    targetPid: int, targetLabel: int, allVideos: seq<Video>, clusterMap: seq<Assignment>, topN: int): (recs: seq<Video>)
    ensures |recs| == HeadLength(|Candidates(targetPid, targetLabel, allVideos, clusterMap)|, topN)
    ensures topN >= 0 ==> |recs| <= topN
    ensures forall v :: v in recs ==> v in allVideos && v.pid != targetPid && InCluster(clusterMap, targetLabel, v.pid)
    ensures ByWatchTime(recs)
    ensures multiset(recs) <= multiset(Candidates(targetPid, targetLabel, allVideos, clusterMap))
  {
    var candidates := Candidates(targetPid, targetLabel, allVideos, clusterMap);
    var ranked := SortByWatchTime(candidates);
    var k := HeadLength(|ranked|, topN);
    SortedPrefixFacts(candidates, k);
    ranked[..k]
  }

  /**
   * The result is a top-n: no candidate left out was watched longer than any
   * recommended row.
   */
  lemma RecommendationsAreTopN(
    targetPid: int, targetLabel: int, allVideos: seq<Video>, clusterMap: seq<Assignment>, topN: int)
    ensures forall v, w ::
      v in GetRecommendations(targetPid, targetLabel, allVideos, clusterMap, topN) &&
      w in multiset(Candidates(targetPid, targetLabel, allVideos, clusterMap))
        - multiset(GetRecommendations(targetPid, targetLabel, allVideos, clusterMap, topN))
      ==> v.watchTime >= w.watchTime
  {
    var candidates := Candidates(targetPid, targetLabel, allVideos, clusterMap);
    var recs := GetRecommendations(targetPid, targetLabel, allVideos, clusterMap, topN);
    var ranked := SortByWatchTime(candidates);
    var k := HeadLength(|ranked|, topN);
    assert ranked[..k] == recs;
    forall v, w | v in recs && w in multiset(candidates) - multiset(recs)
      ensures v.watchTime >= w.watchTime
    {
      PrefixDominates(ranked, k, v, w);
    }
  }

  /** In a sorted list, every row of a prefix is watched at least as long as every row after it. */
  lemma PrefixDominates(ranked: seq<Video>, k: nat, v: Video, w: Video)
    requires ByWatchTime(ranked) && k <= |ranked|
    requires v in ranked[..k]
    requires w in multiset(ranked) - multiset(ranked[..k])
    ensures v.watchTime >= w.watchTime
  {
    assert ranked == ranked[..k] + ranked[k..];
    assert multiset(ranked) == multiset(ranked[..k]) + multiset(ranked[k..]);
    assert w in multiset(ranked[k..]);
    var j :| 0 <= j < |ranked[k..]| && ranked[k..][j] == w;
    var i :| 0 <= i < k && ranked[..k][i] == v;
    assert ranked[i] == v && ranked[k + j] == w;
  }
}
