# Instagram reels recommender: a Dafny model

This project models the core of the instagram-reels-recommender back end and its feature
transformers, and proves properties of that model.

- **The profile store.** The user-profile dictionary of the FastAPI back ends holds the
  operations `create_user`, `get_user_or_404`, `record_interaction` and the
  recommendations endpoint. In the model it is a class whose `profiles` map the
  endpoints update in place. The ghost field `saves` counts the calls of
  `save_user_profiles()`.
- **The cluster index.** This is the cluster → pids dictionary read from
  `videos_by_cluster.json`, kept in insertion order. Its keys are normalised with
  `str(int(key))`, so a key is an integer label or a text `int()` rejects.
- **Cluster ranking and the reverse index.** Clusters are ranked by the user's
  interaction counts using a stable descending sort. The reverse index
  (`build_pid_to_cluster_map`) gives each pid the cluster that lists it; when several
  clusters list a pid, the last one wins.
- **The "2 regular + 1 priority" recommender.** This is
  `recommend_with_priority_pattern` of backend/main.py and modelling/backend/main.py.
  modelling/app/backend.py inlines the same loop with eight slots.
- **The "7 preferred + 1 exploration" recommender.** This is `get_recommendations` of
  app/main.py, the older back end whose profiles have no liked list.
- **`predict_with_fallback`.** The label of the centroid nearest to the transformed
  point.
- **`get_recommendations` (internal_logics).** The videos of the target's cluster, by
  watch time descending, first `top_n`.
- **`SimplifiedLabelEncoder`, `SimplifiedFrequencyMapper` and `GenderTransformer`.**
  These work over frames of named columns.

Some source files are byte-identical copies:

- backend/main.py and modelling/backend/main.py;
- internal_logics/fallback.py and modelling/internal_logics/fallback.py;
- internal_logics/label_encode.py and modelling/internal_logics/label_encode.py;
- internal_logics/freq_mapper.py and modelling/internal_logics/freq_mapper.py.

Each pair is modelled once. The table below cites both copies.

Files:

| file | module | models |
|---|---|---|
| wrappers.dfy | `Wrappers` | `Option`, `Result` and `Outcome` |
| seq_util.dfy | `SeqUtil` | duplicate-freedom, list filtering, permutations |
| usernames.dfy | `Usernames` | Python's `str.strip()` |
| cluster_index.dfy | `ClusterIndex` | index, ranking, candidate list, reverse index |
| priority_pattern.dfy | `PriorityPattern` | the 2+1 recommender |
| profile_store.dfy | `ProfileStore` | profiles and endpoints of the newer back ends |
| legacy_app.dfy | `LegacyApp` | profiles, endpoints and the 7+1 recommender of app/main.py |
| frames.dfy | `Frames` | cells, columns, Python `str` of an int |
| label_encoder.dfy | `LabelEncoder` | `SimplifiedLabelEncoder` |
| freq_mapper.dfy | `FrequencyMapper` | `SimplifiedFrequencyMapper` |
| gender.dfy | `Gender` | `GenderTransformer` |
| fallback.dfy | `Fallback` | `predict_with_fallback` |
| similar_videos.dfy | `SimilarVideos` | `get_recommendations` of internal_logics |

Behaviour of the code that the contracts make explicit:

- **Duplicate pids in the 7+1 recommender.** It filters a cluster's candidates against
  the recommendations chosen *before* that cluster. If one cluster lists a pid twice,
  both copies can be recommended, but never more copies than that cluster lists, and
  no later cluster recommends it again. So the model promises a duplicate-free result
  only when every cluster's pid list is duplicate-free. The 2+1 recommender skips
  chosen pids before every append, so its result is always duplicate-free.
- **Numbers in the label encoder.** `SimplifiedLabelEncoder.transform` tests the raw
  cell against the learnt string classes. A numeric cell therefore encodes to -1 even
  when its text was learnt by `fit`.
- **Negative `top_n`.** pandas `head(n)` with a negative `n` drops the last `-n` rows.
  `HeadLength` models this.

## Model

| member | source | states |
|---|---|---|
| Usernames.Strip | backend/main.py:269-271 | The result is a slice `s[i..j]` of the input whose cut-off ends are all whitespace (Python's whitespace set), and it neither starts nor ends with whitespace. It is empty exactly when the input is all whitespace, the case `create_user` rejects. |
| Usernames.StripIdempotent | modelling/app/backend.py:168-170 | Stripping a stripped name changes nothing, so a stored username is its own key. |
| Usernames.StripKeepsTrimmed | modelling/backend/main.py:269 | A name with no whitespace at either end is returned as is. |
| SeqUtil.FilterOut | backend/main.py:193-199 | The comprehension keeps exactly the elements not excluded, with their multiplicities, and keeps a duplicate-free list duplicate-free. |
| SeqUtil.PermutationNoDup | backend/main.py:190 | A shuffle (same multiset) has the same elements and the same duplicate-freedom. |
| SeqUtil.NoDupMultiset | modelling/backend/main.py:207-210 | A list has no duplicates exactly when every element occurs once. |
| SeqUtil.NoDupConcat | modelling/backend/main.py:214-217 | Appending new, distinct pids to a duplicate-free list keeps it duplicate-free. |
| ClusterIndex.RankClusters | backend/main.py:182-184 | The result lists every cluster position once, larger counts first, and equal counts in index order: the stable descending sort. |
| ClusterIndex.RankingIsUnique | modelling/backend/main.py:182-184 | Exactly one order satisfies that description, so the ranking is the one `sorted(..., reverse=True)` produces. |
| ClusterIndex.RankPosition | app/main.py:158-160 | The cluster at rank `i` is preceded by exactly the `i` clusters that rank before it. |
| ClusterIndex.TopIsFirstMaximal | modelling/backend/main.py:192 | The top cluster has the largest count, and every earlier index position has a strictly smaller count. |
| ClusterIndex.AllCandidates | backend/main.py:187-189 | The concatenated pid lists hold exactly the pids listed under some cluster. |
| ClusterIndex.BuildPidToClusterMap | backend/main.py:111-128 | The nested loops build the reverse index of the entries processed in order. |
| ClusterIndex.ReverseIndexLastWriterWins | modelling/backend/main.py:120-127 | A pid is in the reverse index exactly when a cluster with an integer key lists it. Its value is the key of the last such cluster, and clusters whose key does not parse are skipped. |
| PriorityPattern.SkipChosen | modelling/backend/main.py:207-208 | The `pop(0)` loop returns exactly `Skip(pool, ordered)`, the pool with its leading chosen pids removed. |
| PriorityPattern.SkipFacts | modelling/backend/main.py:207-208 | `Skip` removes a prefix of the pool whose pids are all chosen, and stops at an unchosen head or at the end. |
| PriorityPattern.Interleave | backend/main.py:201-217 | The loop's result is the run of the 2+1 slot function `Run` from the two pools. At most `num_items` pids, no repeats, each from the pool its pick names. Three regular picks in a row only happen once the priority pool is used up within the first two of them; two priority picks in a row only once the regular pool is used up before the second. Fewer than `num_items` pids means every pid of both pools was chosen. |
| PriorityPattern.RunKeeps | modelling/backend/main.py:201-217 | From any state at a round boundary that keeps the loop invariant, `Run` ends in a state that keeps it: bounded, duplicate-free, sourced, following the 2+1 pattern, and covering both pools when short. |
| PriorityPattern.TopCluster | backend/main.py:192 | `sorted_clusters[0]` is a position of maximal count, the first one among equals. |
| PriorityPattern.PoolFacts | modelling/backend/main.py:186-199 | The regular pool is exactly the listed, unseen pids. The priority pool holds only unseen pids of the top cluster. |
| PriorityPattern.Annotate | modelling/backend/main.py:219-225 | Items keep the order of `ordered`. Each label is the reverse-index value for its pid, or -1. |
| PriorityPattern.AlternatesShown | modelling/backend/main.py:186-217 | With the regular pool holding the unseen listed pids and the priority pool the unseen top-cluster pids, three regular picks in a row mean every unseen top-cluster pid was already shown, and two priority picks in a row mean every unseen listed pid was. |
| PriorityPattern.ChosenListed | modelling/backend/main.py:186-199 | Every pid the loop chose from either pool is unseen and listed in the index. |
| PriorityPattern.RecommendWithPriorityPattern | backend/main.py:160-225 | At most `num_items` items and none for an empty index. The pids, and which pool each came from, are the `Run` of the 2+1 slots over the unseen listed pids and the unseen top-cluster pids. Every item is unseen and listed, and no pid repeats. Priority picks come from the top cluster. Three regular items in a row only after every unseen top-cluster pid was shown, two priority items in a row only after every unseen listed pid was shown. Fewer items than asked means every unseen listed pid was recommended. Labels come from the reverse index or are -1. |
| ProfileStore.RecordLike | modelling/app/backend.py:193-204 | One interaction adds exactly 1 to the cluster's count and leaves other counts alone. The seen and liked lists gain the pid only if absent, keeping their old contents as a prefix. |
| ProfileStore.ApplyLike | backend/main.py:300-309 | The step-by-step update of one profile yields exactly `RecordLike`'s profile. |
| ProfileStore.RecordLikeKeepsProfileOk | backend/main.py:305-309 | Recording an interaction keeps the seen and liked lists duplicate-free and liked pids seen. |
| ProfileStore.Store.constructor | backend/main.py:27 | The store starts empty. |
| ProfileStore.Store.CreateUser | backend/main.py:259-282 | A blank name gives 400 with nothing changed. An existing stripped name returns the stored profile with nothing written. A new name stores an empty profile under the stripped name and saves once. |
| ProfileStore.Store.GetUser | backend/main.py:76-88 | Returns the profile when the name is present, 404 otherwise. |
| ProfileStore.Store.RecordInteraction | backend/main.py:291-311 | Unknown users get 404 with nothing changed. Otherwise only that user's profile changes, by `RecordLike`, and the store is saved once. |
| ProfileStore.Store.GetRecommendations | backend/main.py:314-330 | 404 exactly for unknown users, and an empty index gives no items. Otherwise the items and the pool of each are the `Run` of the 2+1 slots for the user's seen list with eight slots, with the same pattern, source, no-repeat and exhaustion guarantees as the recommender. |
| ProfileStore.CreateUserTwice | modelling/app/backend.py:172-181 | Creating the same user twice returns the same profile. The store ends with exactly one new empty profile under the stripped name when it was new and non-blank, nothing new otherwise, and exactly that many saves. |
| LegacyApp.RecordView | app/main.py:135-142 | As `RecordLike` without a liked list. The seen list stays duplicate-free. |
| LegacyApp.ApplyView | app/main.py:135-142 | The step-by-step update of one profile yields exactly `RecordView`'s profile. |
| LegacyApp.FillPreferred | app/main.py:171-174 | The inner loop appends the candidates in order until seven pids are chosen. |
| LegacyApp.ExtendRankOrdered | app/main.py:165-174 | Appending, at a rank `k` above every earlier rank and with every earlier rank exhausted, a sub-multiset of that cluster's unseen, not yet chosen pids keeps the rank-order property. |
| LegacyApp.RanksDistinct | app/main.py:166-168 | Picks from clusters of different ranks are different pids, because each cluster's candidates leave out what earlier clusters gave. |
| LegacyApp.RepeatedPidBounded | app/main.py:165-174 | For clusters [[5, 5], [6]], seven picks of 5 from the first cluster are not a rank-ordered choice: a cluster gives a pid at most as often as it lists it. |
| LegacyApp.CandidatesFacts | app/main.py:166-170 | Shuffled candidates are unseen, new and from the cluster. Taking all of them leaves no unseen pid of the cluster unchosen. |
| LegacyApp.VisitRank | app/main.py:165-176 | One cluster visit with fewer than seven picks keeps the loop invariant, that cluster having given all its candidates. A visit that reaches seven ends the phase with every earlier cluster complete. |
| LegacyApp.PreferredPhase | app/main.py:164-176 | The preferred list has at most seven unseen pids in rank order. Each cluster is used only after all earlier ranks are exhausted, and gives a sub-multiset of its unseen pids not chosen before it. Fewer than seven means every cluster gave all of them. Seven means every cluster ranked before the last one used gave all of them. |
| LegacyApp.PreferredListed | app/main.py:166-168 | Every preferred pid is listed in the index. |
| LegacyApp.ExhaustedCoversIndex | app/main.py:165-176 | With every ranked cluster exhausted, every unseen listed pid was chosen. |
| LegacyApp.ExplorationPool | app/main.py:179-184 | The pool is exactly the listed pids that are unseen and not chosen. |
| LegacyApp.ExplorationPoolNonEmpty | app/main.py:185 | The pool is non-empty exactly when such a pid exists. |
| LegacyApp.RecommendPreferredExploration | app/main.py:157-188 | At most eight unseen, listed pids: the preferred list in rank order, plus one exploration pid exactly when one is left. They are duplicate-free when each cluster's list is. Each cluster's picks form a sub-multiset of its unseen pids not chosen before it. Fewer than seven preferred means each cluster gave exactly those, so every unseen pid was preferred. Seven means each cluster ranked before the last one used gave exactly those. The exploration pid is not a preferred one. |
| LegacyApp.LegacyStore.CreateUser | app/main.py:109-123 | As the newer `create_user`, storing a profile without a liked list. |
| LegacyApp.LegacyStore.GetUser | app/main.py:69-73 | The profile, or 404. |
| LegacyApp.LegacyStore.RecordInteraction | app/main.py:131-144 | 404 with nothing changed, or exactly that profile updated by `RecordView` and one save. |
| LegacyApp.LegacyStore.GetRecommendations | app/main.py:147-188 | 404 exactly for unknown users; an empty index gives an empty list. Otherwise the result is the preferred list plus at most one pid. The preferred list has at most seven unseen pids in cluster-rank order, and holds every unseen listed pid when shorter than seven. Each cluster gives a sub-multiset of its unseen pids not chosen before it, and all of them when it is not the last cluster used. One exploration pid, not among the preferred, is added exactly when an unexplored one exists. The pids are duplicate-free when each cluster's list is. |
| Frames.NatToDecimalValue | internal_logics/freq_mapper.py:34 | The decimal digits `str` writes read back as the number. |
| Frames.IntToDecimalInjective | modelling/internal_logics/freq_mapper.py:34 | Distinct thresholds give distinct replacement strings. |
| LabelEncoder.StrLessTransitive | internal_logics/label_encode.py:17 | The code-point order numpy sorts strings by is transitive. |
| LabelEncoder.StrLessTotal | modelling/internal_logics/label_encode.py:17 | Any two distinct strings are ordered one way or the other. |
| LabelEncoder.StrLessIrreflexive | internal_logics/label_encode.py:17 | No string sorts before itself. |
| LabelEncoder.InsertClass | internal_logics/label_encode.py:17 | Adding a value to sorted distinct classes keeps them sorted and distinct, with exactly one more value unless it was there. |
| LabelEncoder.Classes | internal_logics/label_encode.py:15-17 | `classes_` is strictly ascending and holds exactly the column's values. |
| LabelEncoder.SortedUnique | modelling/internal_logics/label_encode.py:15-17 | Two strictly ascending lists with the same strings are equal. |
| LabelEncoder.ClassesCharacterised | modelling/internal_logics/label_encode.py:17 | `classes_` is THE sorted list of the distinct values, whatever their order of appearance. |
| LabelEncoder.FitColumnsLookup | internal_logics/label_encode.py:13-21 | After `fit`, each column's label maps to the classes of that column's values as text. |
| LabelEncoder.IndexOf | internal_logics/label_encode.py:36-39 | A known string's position among the classes, -1 for an unknown one. |
| LabelEncoder.Encode | internal_logics/label_encode.py:34-43 | -1 exactly when the raw cell is not one of the classes. Otherwise a code in range whose class is the value. |
| LabelEncoder.EncodeInjective | modelling/internal_logics/label_encode.py:36-40 | Distinct known values get distinct codes, and a code gives back its value. |
| LabelEncoder.EncodeOrdered | internal_logics/label_encode.py:17 | With sorted classes, one known value has a smaller code than another exactly when its string sorts first. |
| LabelEncoder.FitThenEncodeKnown | modelling/internal_logics/label_encode.py:13-21 | Fit then transform on the same frame: no text cell encodes to -1. |
| LabelEncoder.NumbersEncodeToMinusOne | internal_logics/label_encode.py:36-43 | A number's text is learnt by `fit`, yet the number itself encodes to -1. |
| LabelEncoder.SimplifiedLabelEncoder.constructor | internal_logics/label_encode.py:10-11 | No encoders at first. |
| LabelEncoder.SimplifiedLabelEncoder.Fit | internal_logics/label_encode.py:13-21 | The column loop stores, for each column label, the classes of that column and keeps other labels' encoders. |
| LabelEncoder.SimplifiedLabelEncoder.Transform | modelling/internal_logics/label_encode.py:23-48 | Same column labels, same rows in the same order, and each value replaced by its code. Codes of known values follow the sorted order of the classes. The input frame is not touched. |
| FrequencyMapper.LearnCommonLookup | internal_logics/freq_mapper.py:12-17 | After `fit`, a column's common set is exactly its values occurring at least `threshold` times. |
| FrequencyMapper.CommonValues | modelling/internal_logics/freq_mapper.py:14-16 | Common values are values of the column. |
| FrequencyMapper.MapRare | internal_logics/freq_mapper.py:27-34 | The output is a common value or `str(threshold)`. It equals the input exactly when the input is common or already `str(threshold)`. |
| FrequencyMapper.MapFrame | internal_logics/freq_mapper.py:19-38 | Same column labels and rows, each value kept when common and replaced otherwise. |
| FrequencyMapper.MapFrameRange | modelling/internal_logics/freq_mapper.py:27-34 | Every output value is a learnt category of its column or `str(threshold)`. |
| FrequencyMapper.MapFrameIdempotent | internal_logics/freq_mapper.py:29-34 | Transforming twice equals transforming once. |
| FrequencyMapper.FitThenMap | modelling/internal_logics/freq_mapper.py:12-38 | Fit then transform on the same frame keeps a value exactly when it occurs `threshold` times or more, and replaces it otherwise. |
| FrequencyMapper.SimplifiedFrequencyMapper.constructor | internal_logics/freq_mapper.py:8-10 | The given threshold and nothing learnt. |
| FrequencyMapper.SimplifiedFrequencyMapper.WithDefaultThreshold | modelling/internal_logics/freq_mapper.py:8-10 | Threshold 40 and nothing learnt. |
| FrequencyMapper.SimplifiedFrequencyMapper.Fit | modelling/internal_logics/freq_mapper.py:12-17 | The column loop stores every column's common set, keeps other labels and leaves the threshold alone. |
| FrequencyMapper.SimplifiedFrequencyMapper.Transform | modelling/internal_logics/freq_mapper.py:19-38 | The value loops produce the mapped frame. The input frame is not touched. |
| Gender.GenderCode | internal_logics/gender_transform.py:16-17 | 'M' gives 0 and 'F' gives 1, in both directions. Every other value is missing. |
| Gender.GenderCodeInverse | internal_logics/gender_transform.py:16 | Codes are 0 or 1 and each gives back its one category. |
| Gender.Transform | internal_logics/gender_transform.py:11-19 | Every column is mapped value by value; labels and row counts are kept. |
| Fallback.SqDist | internal_logics/fallback.py:11 | Distances are non-negative and zero from a point to itself. |
| Fallback.ArgMin | internal_logics/fallback.py:13 | `np.argmin`: a position holding the minimum, with every earlier position strictly larger. |
| Fallback.FirstMinimumUnique | modelling/internal_logics/fallback.py:13 | Only one position satisfies that description. |
| Fallback.PredictWithFallback | internal_logics/fallback.py:4-16 | Given a non-empty table and one transformed row of matching dimension, the result is the label of the first centroid at minimal distance, so it is one of the table's labels. |
| Fallback.FallbackIsNearest | modelling/internal_logics/fallback.py:11-15 | The returned label's centroid is at least as close as every other centroid. |
| Fallback.NearerCentroidExample | internal_logics/fallback.py:11-15 | The table {0: [0, 0], 1: [10, 10]} and the point [1, 1] give label 0. |
| SimilarVideos.ClusterPids | internal_logics/get_recomendations.py:3 | The pids the cluster map assigns to the target label. |
| SimilarVideos.SameCluster | internal_logics/get_recomendations.py:6-9 | Each row occurs in the result exactly as often as in the input when its pid is in the cluster and is not the target, and not at all otherwise. |
| SimilarVideos.InsertByWatchTime | internal_logics/get_recomendations.py:12 | Inserting adds exactly that row. |
| SimilarVideos.InsertKeepsOrder | internal_logics/get_recomendations.py:12 | Inserting into a list sorted by watch time keeps it sorted. |
| SimilarVideos.SortByWatchTime | internal_logics/get_recomendations.py:12 | A reordering of the rows with non-increasing watch time. |
| SimilarVideos.HeadLength | internal_logics/get_recomendations.py:14 | `head(n)` keeps `min(n, len)` rows for `n >= 0`, all but the last `-n` rows for `-len <= n < 0`, and none for `n < -len`. |
| SimilarVideos.GetRecommendations | internal_logics/get_recomendations.py:1-14 | Every returned row is an unmodified row of the cluster other than the target. Rows are by non-increasing watch time, at most `top_n` of them when `top_n >= 0`, and exactly as many as `head` keeps. |
| SimilarVideos.RecommendationsAreTopN | internal_logics/get_recomendations.py:12-14 | No candidate left out was watched longer than any returned row. |

## Left out

- Disk I/O is not modelled: `load_user_profiles`, `save_user_profiles`, the comments
  store and the JSON files. A save is a step of the ghost counter `saves`. The stores
  start empty instead of loading a file.
- The file read in `get_videos_by_cluster` is not modelled. The index is a parameter
  already in its normalised form. A missing file is the empty index.
- Locking (`profiles_lock`) and the unlocked profile read in `get_recommendations` are
  not modelled; they concern concurrency.
- The FastAPI glue is not modelled: request models, CORS, the root and favicon routes,
  and the comments endpoints. The `get_user` route is `GetUser`.
- `random.shuffle` and `random.choice` are not modelled. The 2+1 recommender takes the
  two shuffled pools as inputs that must be permutations of the pools. The 7+1
  recommender takes a `shuffle` function that returns a permutation and a `choose`
  function that picks a member of a non-empty set.
- The `setdefault` / `.get(..., default)` paths for profiles missing a field are not
  modelled. Every stored profile has all fields.
- `int(pid)` conversions are not modelled; pids are integers throughout.
- Interaction keys are `str(cluster_label)` of an integer. The model keys the counts by
  the integer itself, and a non-integer index key never matches a count.
- Floating point, NaN and `sqrt` are not modelled. Distances are exact squared reals.
  Cells are strings or integers, and watch times are integers. pandas `value_counts`,
  `astype(str)` and `map` on missing values are left out.
- SimilarVideos.GetRecommendations: pandas' default sort is not stable. The model fixes
  a stable order, and its contracts do not depend on the order of equal watch times.
- Fallback.PredictWithFallback: the preprocessing pipeline is a function parameter.
  sklearn's `pairwise_distances` and `np.argmin` are modelled only for a single
  transformed row, the case the code relies on.
- The sklearn `LabelEncoder` internals are not modelled: `classes_` is the sorted list
  of distinct strings, and `encoder.transform` gives a value's position in it.
- FrequencyMapper.SimplifiedFrequencyMapper.Fit: the learnt list keeps
  `value_counts` order in the source. The model keeps a set, because the list is only
  used for membership.
- `GenderTransformer.fit` learns nothing and returns the transformer, so the model has
  no state for it. `fit` returning `self` is left out for all three transformers.
- The transformers require distinct column labels. With a repeated label `X[name]` is
  a frame, not a column, and the code does not handle that case.
- app.py, preprocess_data.py, url_for_recomend.py and video_clusters.py are not part of
  this model.
