/**
 * The per-user profile store of the FastAPI back end (`user_profiles` with
 * `create_user`, `get_user_or_404`, `record_interaction` and the
 * `get_recommendations` endpoint).
 *
 * The module-level dictionary becomes the `profiles` field of a `Store` object.
 * Every call of `save_user_profiles()` is counted by the ghost field `saves`, so
 * the contracts can say which paths write the collection to disk.
 */
module ProfileStore {
  import opened Wrappers
  import opened SeqUtil
  import opened Usernames
  import opened ClusterIndex
  import opened PriorityPattern

  /** A stored profile; interaction keys are `str(cluster_label)` of an integer label. */
  datatype Profile = Profile(
    username: string,
    clusterInteractions: map<int, nat>,
    seenVideos: seq<int>,
    likedVideos: seq<int>)

  /** The request-level failures, raised as `HTTPException` with status 400 and 404. */
  datatype ApiError = UsernameRequired | UserNotFound

  /** The number of recommendations the endpoint asks for. */
  const RecommendationCount := 8

  /** The record `create_user` stores for a new name. */
  function NewProfile(username: string): Profile {
    Profile(username, map[], [], [])
  }

  /** What the recorder keeps true of every profile: no repeats, liked videos were seen. */
  predicate ProfileOk(p: Profile) {
    && NoDup(p.seenVideos)
    && NoDup(p.likedVideos)
    && forall pid :: pid in p.likedVideos ==> pid in p.seenVideos
  }

  /**
   * The change one interaction makes: the cluster's count goes up by one, and the
   * pid is appended to the seen and liked lists unless already there.
   */
  function RecordLike(p: Profile, pid: int, clusterLabel: int): (q: Profile)
    ensures q.username == p.username
    ensures CountOf(q.clusterInteractions, clusterLabel) == CountOf(p.clusterInteractions, clusterLabel) + 1
    ensures forall c :: c != clusterLabel ==> CountOf(q.clusterInteractions, c) == CountOf(p.clusterInteractions, c)
    ensures q.clusterInteractions.Keys == p.clusterInteractions.Keys + {clusterLabel}
    ensures p.seenVideos <= q.seenVideos && p.likedVideos <= q.likedVideos
    ensures Elems(q.seenVideos) == Elems(p.seenVideos) + {pid}
    ensures Elems(q.likedVideos) == Elems(p.likedVideos) + {pid}
    ensures |q.seenVideos| == |p.seenVideos| + (if pid in p.seenVideos then 0 else 1)
    ensures |q.likedVideos| == |p.likedVideos| + (if pid in p.likedVideos then 0 else 1)
  {
    var counts := p.clusterInteractions;
    Profile(
      p.username,
      counts[clusterLabel := CountOf(counts, clusterLabel) + 1],
      if pid in p.seenVideos then p.seenVideos else p.seenVideos + [pid],
      if pid in p.likedVideos then p.likedVideos else p.likedVideos + [pid])
  }

  /** Recording keeps a profile well formed, and leaves the pid in each list exactly once. */
  lemma RecordLikeKeepsProfileOk(p: Profile, pid: int, clusterLabel: int)
    requires ProfileOk(p)
    ensures ProfileOk(RecordLike(p, pid, clusterLabel))
    ensures multiset(RecordLike(p, pid, clusterLabel).seenVideos)[pid] == 1
    ensures multiset(RecordLike(p, pid, clusterLabel).likedVideos)[pid] == 1
  {
    var q := RecordLike(p, pid, clusterLabel);
    NoDupMultiset(q.seenVideos);
    NoDupMultiset(q.likedVideos);
    assert forall x :: x in q.likedVideos ==> x in Elems(q.likedVideos);
  }

  /** The body of `record_interaction` on one profile: bump the count, then append to the seen and liked lists. */
  method ApplyLike(profile: Profile, pid: int, clusterLabel: int) returns (updated: Profile)
    ensures updated == RecordLike(profile, pid, clusterLabel)
  {
    var counts := profile.clusterInteractions;
    counts := counts[clusterLabel := CountOf(counts, clusterLabel) + 1];
    var seen := profile.seenVideos;
    if pid !in seen {
      seen := seen + [pid];
    }
    var liked := profile.likedVideos;
    if pid !in liked {
      liked := liked + [pid];
    }
    updated := Profile(profile.username, counts, seen, liked);
  }

  /** Every profile is filed under its own stripped, non-blank name and is well formed. */
  ghost predicate ProfilesOk(profiles: map<string, Profile>) {
    forall u :: u in profiles ==>
      && u != []
      && Strip(u) == u
      && profiles[u].username == u
      && ProfileOk(profiles[u])
  }

  /** Replacing a stored profile by a well-formed one with the same name keeps the collection well formed. */
  lemma ProfilesOkUpdate(profiles: map<string, Profile>, username: string, p: Profile)
    requires ProfilesOk(profiles) && username in profiles
    requires p.username == username && ProfileOk(p)
    ensures ProfilesOk(profiles[username := p])
  {
  }

  class Store {
    var profiles: map<string, Profile>
    ghost var saves: nat

    ghost predicate Valid()
      reads this
    {
      ProfilesOk(profiles)
    }

    /** The collection as `load_user_profiles` leaves it when no snapshot exists. */
    constructor ()
      ensures Valid()
      ensures profiles == map[] && saves == 0
    {
      profiles := map[];
      saves := 0;
    }

    /** `create_user`: idempotent creation under the stripped name. */
    method CreateUser(rawName: string) returns (r: Result<Profile, ApiError>)
      requires Valid()
      modifies this
      ensures Valid()
      ensures IsBlank(rawName) ==>
        r == Failure(UsernameRequired) && profiles == old(profiles) && saves == old(saves)
      ensures !IsBlank(rawName) && Strip(rawName) in old(profiles) ==>
        r == Success(old(profiles)[Strip(rawName)]) && profiles == old(profiles) && saves == old(saves)
      ensures !IsBlank(rawName) && Strip(rawName) !in old(profiles) ==>
        && r == Success(NewProfile(Strip(rawName)))
        && profiles == old(profiles)[Strip(rawName) := NewProfile(Strip(rawName))]
        && saves == old(saves) + 1
    {
      var username := Strip(rawName);
      if username == [] {
        return Failure(UsernameRequired);
      }
      if username !in profiles {
        StripIdempotent(rawName);
        profiles := profiles[username := NewProfile(username)];
        saves := saves + 1;
      }
      r := Success(profiles[username]);
    }

    /** `get_user_or_404`. */
    function GetUser(username: string): (r: Result<Profile, ApiError>)
      reads this
      ensures r.Success? <==> username in profiles
      ensures r.Success? ==> r.value == profiles[username]
      ensures r.Failure? ==> r.error == UserNotFound
    {
      if username in profiles then Success(profiles[username]) else Failure(UserNotFound)
    }

    /** `record_interaction`: one atomic change to one profile, then one save. */
    method RecordInteraction(username: string, pid: int, clusterLabel: int) returns (r: Outcome<ApiError>)
      requires Valid()
      modifies this
      ensures Valid()
      ensures username !in old(profiles) ==>
        r == Fail(UserNotFound) && profiles == old(profiles) && saves == old(saves)
      ensures username in old(profiles) ==>
        && r == Pass
        && profiles == old(profiles)[username := RecordLike(old(profiles)[username], pid, clusterLabel)]
        && saves == old(saves) + 1
    {
      var found := GetUser(username);
      if found.Failure? {
        return Fail(found.error);
      }
      var profile := found.value;
      var updated := ApplyLike(profile, pid, clusterLabel);
      RecordLikeKeepsProfileOk(profile, pid, clusterLabel);
      ProfilesOkUpdate(profiles, username, updated);
      profiles := profiles[username := updated];
      saves := saves + 1;
      r := Pass;
    }

    /**
     * The recommendations endpoint: look the user up, return nothing for an empty
     * index, otherwise eight items of the 2+1 pattern.
     */
    method GetRecommendations(username: string, index: Index, shuffledAll: seq<int>, shuffledTop: seq<int>)
      returns (r: Result<seq<Item>, ApiError>, ghost picks: seq<Pick>)
      requires username in profiles ==>
        && multiset(shuffledAll) == multiset(AllCandidates(index))
        && multiset(shuffledTop) == multiset(PriorityBase(
             profiles[username].clusterInteractions, Elems(profiles[username].seenVideos), index))
      ensures r.Failure? <==> username !in profiles
      ensures r.Failure? ==> r.error == UserNotFound
      ensures r.Success? && index == [] ==> r.value == []
      ensures r.Success? ==> |r.value| <= RecommendationCount
      ensures r.Success? ==> forall i :: 0 <= i < |r.value| ==>
        r.value[i].pid !in profiles[username].seenVideos && Listed(index, r.value[i].pid)
      ensures r.Success? ==> NoDup(Pids(r.value))
      ensures r.Success? && |r.value| < RecommendationCount ==>
        forall pid :: Listed(index, pid) && pid !in profiles[username].seenVideos ==> pid in Pids(r.value)
      ensures r.Success? ==> |picks| == |r.value| && forall i :: 0 <= i < |r.value| && picks[i] == Priority ==>
        r.value[i].pid in index[TopCluster(profiles[username].clusterInteractions, index)].pids
      ensures r.Success? ==> forall i :: 0 <= i < |r.value| ==>
        r.value[i].clusterLabel == LabelOf(ReverseIndex(index), r.value[i].pid)
      ensures r.Success? && index != [] ==> Pids(r.value) == Run(LoopState(
        FilterOut(shuffledAll, Elems(profiles[username].seenVideos)), shuffledTop, [], []), RecommendationCount).ordered
      ensures r.Success? && index != [] ==> picks == Run(LoopState(
        FilterOut(shuffledAll, Elems(profiles[username].seenVideos)), shuffledTop, [], []), RecommendationCount).picks
      ensures r.Success? ==> forall i ::
        (0 <= i && i + 2 < |r.value| && picks[i] == Regular && picks[i + 1] == Regular && picks[i + 2] == Regular) ==>
        TopClusterShown(profiles[username].clusterInteractions, profiles[username].seenVideos, index, Pids(r.value)[..i + 2])
      ensures r.Success? ==> forall i :: 0 <= i && i + 1 < |r.value| && picks[i] == Priority && picks[i + 1] == Priority ==>
        AllShown(profiles[username].seenVideos, index, Pids(r.value)[..i + 1])
    {
      var found := GetUser(username);
      if found.Failure? {
        return Failure(found.error), [];
      }
      var profile := found.value;
      if index == [] {
        return Success([]), [];
      }
      var items;
      items, picks := RecommendWithPriorityPattern(
        profile.clusterInteractions, profile.seenVideos, index, RecommendationCount, shuffledAll, shuffledTop);
      r := Success(items);
    }
  }

  /** Creating the same user twice: the second call returns the same profile and writes nothing. */
  method CreateUserTwice(store: Store, rawName: string) returns (first: Result<Profile, ApiError>, second: Result<Profile, ApiError>)
    requires store.Valid()
    modifies store
    ensures store.Valid()
    ensures second == first
    ensures store.saves == old(store.saves) + (if !IsBlank(rawName) && Strip(rawName) !in old(store.profiles) then 1 else 0)
    ensures store.profiles == if IsBlank(rawName) || Strip(rawName) in old(store.profiles) then old(store.profiles)
      else old(store.profiles)[Strip(rawName) := NewProfile(Strip(rawName))]
  {
    first := store.CreateUser(rawName);
    ghost var savesAfterFirst := store.saves;
    second := store.CreateUser(rawName);
    assert store.saves == savesAfterFirst;
  }
}
