# audio-fingerprint evaluation and clip generation, modelled in Dafny

This project models two scripts of the audio-fingerprint repository.

- `dejavu/run_commands/test_my_songs.py` evaluates the recognition engine on a
  dataset of songs. It indexes each song's reference recording (`original.mp3`)
  unless the engine already knows its content hash. It then checks the engine's
  list of indexed labels against the dataset, and asks the engine to recognise
  every remix file and every clip file. Each answer is classified as PASS, FAIL,
  NO_MATCH or ERROR. Finally it tallies per-song counters, sorts the results
  (non-PASS first, then by song) and computes a summary.
- `dataset/generate_clips.py` cuts up to NUM_CLIPS random clips of 5 to 10
  seconds out of every remix file of a song. The clips come from a `random`
  generator seeded once with 42. A remix whose clip folder already holds an
  `.mp3` is skipped.

Modules:

- `Recognition`: `recognize_file` and `parse_match`.
- `Evaluation`: the bootstrap, the database check and the result pools, as
  functions of the catalog and the engine.
- `Metrics`: the per-song counters, the sort key and the summary.
- `Pipeline`: the `__main__` block as a class, `EvaluationRun`, whose
  result lists and counter map are updated in place, step by step. Each step
  is proved against the `Evaluation` and `Metrics` functions.
- `ClipSampler`: `generate_clips` and `process_song` as methods. They consume a
  `RandomStream` object, which stands for the seeded generator, and are proved
  against pure functions of the stream position.
- `Scenarios`: small worked runs stated on those functions.
- `Counting`, `Ordering`, `Text`, `Wrappers`: helpers (counting with a
  predicate, a stable insertion sort with its proofs, string search and
  replace, `Option`).

Outside inputs become parameters:

- the engine: its reply to a file (`string -> EngineReply`), its content-hash
  function, its set of known hashes, and the labels it lists after indexing;
- ffprobe: the duration of a file (`string -> real`);
- directory listings: `Option<seq<string>>`, where `None` means the directory
  does not exist;
- the random generator: a stream of `random()` values in [0, 1).

Three facts about the source that the model keeps as written:

- The generator is seeded once, when the module loads, before any song is
  processed (`dataset/generate_clips.py:20-22`), so all songs of a run share one stream.
- The summary's per-pool `fail` counts FAIL only, so ERROR results are part of
  no field there. The per-song counters put ERROR under `*_fail`.
- The one-second margin after a clip holds only when `max_start >= 1`
  (`ClipSampler.TrailingBufferCanBeMissed`).

## Model

| member | source | states |
|---|---|---|
| Recognition.RecognizeFile | dejavu/run_commands/test_my_songs.py:76-122 | ERROR exactly when the engine call raised, with its message kept and time 0. NO_MATCH exactly when the call succeeded with no candidate. PASS exactly when the best candidate's label is the expected one, FAIL when it is another label. The best candidate's label, confidence and hash count, or None/None/0. The runner-up exactly when there are at least two candidates. The file, the expected label and the elapsed time |
| Recognition.ParseMatch | dejavu/run_commands/test_my_songs.py:62-73 | the record keeps the candidate's label, `fingerprinted_confidence` as `confidence`, `input_confidence`, `hashes_matched_in_input` as `hashes_matched` and `offset_seconds` |
| Recognition.NoReplyIsEmptyReply | dejavu/run_commands/test_my_songs.py:80-81 | an engine that returns `None` gives the same record as a reply with no candidates and time 0 |
| Recognition.StatusIgnoresRunnerUp | dejavu/run_commands/test_my_songs.py:83-98 | the status depends only on the first candidate, not on the runner-up or the time |
| Evaluation.Names | dejavu/run_commands/test_my_songs.py:261 | one label per song, in catalog order |
| Evaluation.NeedsFingerprintOf | dejavu/run_commands/test_my_songs.py:147-153 | a song is submitted exactly when it has a reference recording whose content hash is not already known |
| Evaluation.Expected | dejavu/run_commands/test_my_songs.py:176 | a label is listed exactly when some song with that label has a reference recording; the list has one entry per song with a recording |
| Evaluation.ExpectedAt | dejavu/run_commands/test_my_songs.py:176 | a song with a recording is listed at the position given by the number of earlier songs with a recording |
| Evaluation.ExpectedOrder | dejavu/run_commands/test_my_songs.py:176 | of two songs with recordings, the earlier one in the catalog is listed first |
| Evaluation.BootstrapStep | dejavu/run_commands/test_my_songs.py:146-161 | one more song extends the listed labels by its label when it has a recording, and the submissions by one entry when its recording's hash is unknown |
| Evaluation.PendingSubmissions | dejavu/run_commands/test_my_songs.py:146-161 | the number of submissions is the number of songs that have a recording whose hash is unknown |
| Evaluation.PendingSubmissionsExact | dejavu/run_commands/test_my_songs.py:146-161 | a submission is made exactly for each song with a recording whose hash is unknown, under the song's own label |
| Evaluation.NoOriginalNeverListed | dejavu/run_commands/test_my_songs.py:147-149 | a song without a reference recording is neither listed as fingerprinted nor submitted |
| Evaluation.KnownSongListedNotSubmitted | dejavu/run_commands/test_my_songs.py:152-156 | a song whose recording's hash is already known is listed but not submitted again |
| Evaluation.SubmittedHashes | dejavu/run_commands/test_my_songs.py:160 | after indexing, the hash of every submitted recording is known |
| Evaluation.NoneNeedFingerprint | dejavu/run_commands/test_my_songs.py:146-161 | when every recording is already known, nothing is submitted |
| Evaluation.BootstrapIdempotent | dejavu/run_commands/test_my_songs.py:146-161 | once the submitted recordings are indexed, a second bootstrap submits nothing |
| Evaluation.Without | dejavu/run_commands/test_my_songs.py:177-178 | keeps exactly the entries of the first list that are not in the second, with their multiplicities |
| Evaluation.WithoutAppend | dejavu/run_commands/test_my_songs.py:177-178 | the list difference keeps the order of its first list: it distributes over concatenation |
| Evaluation.VerifyDatabase | dejavu/run_commands/test_my_songs.py:176-187 | the counts of listed labels and of songs with a recording. Missing: the expected labels not listed, extra: the listed labels not expected, each as a list difference in its list's order with its multiplicities. `all_uploaded` exactly when nothing is missing, that is when every expected label is listed. `db_song_list` is the listed labels sorted |
| Evaluation.FileTests | dejavu/run_commands/test_my_songs.py:207-211 | one record per file |
| Evaluation.FileTestsAt | dejavu/run_commands/test_my_songs.py:207-211 | the i-th record is the classification of the engine's reply to the i-th file, tagged with the song and kind |
| Evaluation.PoolTestsShape | dejavu/run_commands/test_my_songs.py:199-243 | every record of a pool has the pool's kind, expects its own song's label, and comes from a file of that kind in a folder of the catalog |
| Evaluation.PoolTestsStep | dejavu/run_commands/test_my_songs.py:199-211 | adding one song to the catalog appends that song's records to the pool |
| Evaluation.PoolTestsSongs | dejavu/run_commands/test_my_songs.py:209 | every record carries the label of a catalog song |
| Evaluation.FilesForUnique | dejavu/run_commands/test_my_songs.py:199 | with unique labels, the files gathered for a label are that song's own |
| Evaluation.FilesForAbsent | dejavu/run_commands/test_my_songs.py:199 | a label that no song carries has no files |
| Evaluation.FileTestsCount | dejavu/run_commands/test_my_songs.py:207-211 | one song's records count toward that song only, one per file |
| Evaluation.PoolTestsPerSong | dejavu/run_commands/test_my_songs.py:199-243 | a pool holds exactly one record per file of each song |
| Metrics.BucketOf | dejavu/run_commands/test_my_songs.py:267-283 | PASS bumps `*_pass`, NO_MATCH bumps `*_nomatch`, and FAIL and ERROR bump `*_fail` |
| Metrics.CountersPartition | dejavu/run_commands/test_my_songs.py:260-283 | `Counters`, the counters of one song: each pool's pass, fail and no-match counters add up to its results in that pool, and fail plus no-match are its non-PASS ones; `TallyTotals` and `BucketPartition` give the values |
| Metrics.WithTotals | dejavu/run_commands/test_my_songs.py:286-291 | `total_tests` is the sum of the six counters, `total_pass` is the two pass counters, `total_fail` is the difference and is never negative; the six counters are kept |
| Metrics.WithTotalsIdempotent | dejavu/run_commands/test_my_songs.py:286-291 | computing the totals a second time changes nothing |
| Metrics.TallyOf | dejavu/run_commands/test_my_songs.py:260-291 | `per_song` has exactly one entry per catalog song |
| Metrics.BucketPartition | dejavu/run_commands/test_my_songs.py:267-283 | each of a song's results is counted in exactly one of its three counters for that pool; fail plus no-match counts its non-PASS results |
| Metrics.TallyTotals | dejavu/run_commands/test_my_songs.py:260-291 | `total_tests` is the song's number of results in both pools, `total_pass` its PASS results, `total_fail` all its other results (FAIL, NO_MATCH and ERROR) |
| Metrics.NoResultsNoCounts | dejavu/run_commands/test_my_songs.py:267-283 | a song with no results in a pool has all three counters of that pool at zero |
| Metrics.UntestedSongIsZero | dejavu/run_commands/test_my_songs.py:260-265 | a song with no results keeps the zero entry it started with |
| Metrics.TallyIgnoresOrder | dejavu/run_commands/test_my_songs.py:260-295 | the counters depend only on which results each pool holds, not on their order, so they agree with the sorted lists |
| Metrics.TestKey | dejavu/run_commands/test_my_songs.py:294 | the key is the pass flag followed by the song label |
| Metrics.TestKeyOrder | dejavu/run_commands/test_my_songs.py:294 | key order is Python's order on `(status == "PASS", song)`: False before True, then by song |
| Metrics.TestKeyInjective | dejavu/run_commands/test_my_songs.py:294 | two keys are equal exactly when the pass flags and the songs are equal |
| Metrics.SortTests | dejavu/run_commands/test_my_songs.py:294-295 | the sorted pool is a permutation of the pool |
| Metrics.SortTestsLaw | dejavu/run_commands/test_my_songs.py:294-295 | the result is a permutation with every non-PASS result before every PASS result, songs in ascending order within each group, and results with equal keys in their original order (Python's sort is stable) |
| Metrics.CountStatus | dejavu/run_commands/test_my_songs.py:298-299 | at most the pool's size |
| Metrics.StatusPartition | dejavu/run_commands/test_my_songs.py:298-309 | the four status counts of a pool add up to its size |
| Metrics.SummarizePool | dejavu/run_commands/test_my_songs.py:301-309 | `total` is the pool size; `pass`, `fail` and `no_match` are the numbers of PASS, FAIL and NO_MATCH results; those and the uncounted ERROR results add up to the total |
| Metrics.AccuracyOf | dejavu/run_commands/test_my_songs.py:319-321 | "N/A" exactly when the total is 0, otherwise pass over total |
| Metrics.Summarize | dejavu/run_commands/test_my_songs.py:311-322 | the pool totals are the pool sizes; each pool's pass, fail and no-match are its numbers of PASS, FAIL and NO_MATCH results; overall total and pass are the sums; overall fail is total minus pass, which is the number of non-PASS results; each accuracy is "N/A" exactly when its pools are empty |
| Metrics.NotPassComplement | dejavu/run_commands/test_my_songs.py:318 | the non-PASS results of a pool are its size minus its PASS results |
| Metrics.SummaryIgnoresOrder | dejavu/run_commands/test_my_songs.py:294-322 | the summary depends only on which results the pools hold, so counting after the sort gives what counting before it would |
| Ordering.SortByCorrect | dejavu/run_commands/test_my_songs.py:186 | the insertion sort returns a permutation, ordered by key, with equal keys in input order |
| Ordering.SortStrings | dejavu/run_commands/test_my_songs.py:186 | `sorted(...)` of strings: a permutation in ascending order |
| Pipeline.EvaluationRun.constructor | dejavu/run_commands/test_my_songs.py:132-139 | the run starts with empty lists and no per-song entries |
| Pipeline.EvaluationRun.Fingerprint | dejavu/run_commands/test_my_songs.py:146-161 | the loop appends exactly the songs with a recording to the fingerprinted list and exactly the unknown recordings to the submissions; the result pools and per-song map are unchanged |
| Pipeline.EvaluationRun.Recognize | dejavu/run_commands/test_my_songs.py:199-243 | one pool is extended by one record per file of its kind, song by song; the other fields are unchanged and every record belongs to a catalog song |
| Pipeline.EvaluationRun.TallyPerSong | dejavu/run_commands/test_my_songs.py:260-291 | `per_song` becomes the per-song counters and totals of the two pools; nothing else changes |
| Pipeline.EvaluationRun.SortResults | dejavu/run_commands/test_my_songs.py:294-295 | both pools are sorted in place by the key `(status == "PASS", song)`; nothing else changes |
| Pipeline.RecognizePool | dejavu/run_commands/test_my_songs.py:199-211 | the loop over songs and files builds exactly the pool's records |
| Pipeline.AppendFileTests | dejavu/run_commands/test_my_songs.py:207-211 | the inner loop appends one song's records, in file order |
| Pipeline.ExtendPool | dejavu/run_commands/test_my_songs.py:199-243 | appends a pool's records; every record still belongs to a catalog song |
| Pipeline.ZeroCounters | dejavu/run_commands/test_my_songs.py:260-265 | one zero entry per song and no other entries |
| Pipeline.CountRemixResults | dejavu/run_commands/test_my_songs.py:267-274 | after the loop, every song's remix counters count its remix results by bucket |
| Pipeline.CountClipResults | dejavu/run_commands/test_my_songs.py:276-283 | after the loop, every song's clip counters count its clip results by bucket; the remix counters are kept |
| Pipeline.AddTotals | dejavu/run_commands/test_my_songs.py:286-291 | every entry gains its totals; the keys are unchanged |
| Pipeline.TotalsComplete | dejavu/run_commands/test_my_songs.py:260-291 | the map built by the three loops is the `per_song` of the pools |
| Pipeline.RemixCountStep | dejavu/run_commands/test_my_songs.py:268-274 | bumping one counter for one remix result keeps the map equal to the counters of the results seen so far |
| Pipeline.ClipCountStep | dejavu/run_commands/test_my_songs.py:277-283 | bumping one counter for one clip result keeps the map equal to the counters of the results seen so far |
| Pipeline.CountersAfterRemix | dejavu/run_commands/test_my_songs.py:267-274 | one more remix result bumps exactly one remix counter of its own song and changes no other song |
| Pipeline.CountersAfterClip | dejavu/run_commands/test_my_songs.py:276-283 | one more clip result bumps exactly one clip counter of its own song and changes no other song |
| Pipeline.Evaluate | dejavu/run_commands/test_my_songs.py:125-322 | the run's report: the song count, the listed songs, the submissions, the database check, both pools sorted, per-song counters that agree with the sorted pools, and the summary of the sorted pools |
| Pipeline.PerSongTestCount | dejavu/run_commands/test_my_songs.py:260-291 | with one folder per label, a song's `total_tests` is its number of remix files plus its number of clip files |
| ClipSampler.RandIntDraw | dataset/generate_clips.py:50 | `randint(lo, hi)` lies in [lo, hi], both ends included |
| ClipSampler.UniformDraw | dataset/generate_clips.py:54 | `uniform(a, b)` lies between a and b, in either order |
| ClipSampler.RandomStream.Seeded | dataset/generate_clips.py:20-22 | the seeded generator starts at the beginning of its stream |
| ClipSampler.RandomStream.RandInt | dataset/generate_clips.py:50 | takes exactly one draw and returns `randint` of it |
| ClipSampler.RandomStream.Uniform | dataset/generate_clips.py:54 | takes exactly one draw and returns `uniform` of it |
| ClipSampler.SampleFrom | dataset/generate_clips.py:49-67 | iterations i..n of the sampling loop: the stream only moves forward and each cut costs two draws; `SampleFromStep`, `SampleFromConsumption`, `SampleFromIndices` and `SampleFromWindows` state the rest |
| ClipSampler.SampleClips | dataset/generate_clips.py:37-69 | a source shorter than MAX_DURATION gives no cut and takes no draw; otherwise as the loop; the stream only moves forward and each cut costs two draws; `SampleClipsConsumption`, `SampleClipsWindows` and `SampleClipsFileNames` state the rest |
| ClipSampler.SampleFromStep | dataset/generate_clips.py:49-67 | one loop iteration: a skipped iteration takes one draw and issues nothing; any other takes two draws and issues one cut |
| ClipSampler.SampleFromConsumption | dataset/generate_clips.py:49-67 | from iteration i on, at most one cut per remaining iteration, and one draw per iteration plus one per cut |
| ClipSampler.SampleClipsConsumption | dataset/generate_clips.py:42-69 | at most `num_clips` cuts; a source shorter than MAX_DURATION gives none and takes no draw; otherwise one draw per iteration plus one per cut |
| ClipSampler.IndicesAscendingPairwise | dataset/generate_clips.py:49 | the recursive ordering of indices gives pairwise ordered indices within the bounds |
| ClipSampler.SampleFromIndices | dataset/generate_clips.py:49-56 | the cut indices increase strictly and lie within the loop range |
| ClipSampler.SampleFromWindows | dataset/generate_clips.py:50-54 | every cut from iteration i on satisfies the window facts |
| ClipSampler.SampleClipsWindows | dataset/generate_clips.py:50-54 | every cut has a length in [5, 10] and a positive `max_start`. When `max_start >= 1` its start lies in [1, max_start] and one second of source remains after it; when `max_start < 1` its start lies in [max_start, 1] |
| ClipSampler.SampleClipsFileNames | dataset/generate_clips.py:49-56 | the output file names of one call are pairwise distinct and numbered within 1..num_clips |
| ClipSampler.TrailingBufferCanBeMissed | dataset/generate_clips.py:51-54 | a 10.5-second source with length 9 yields a clip starting at 0.75 that needs 10.75 seconds of source |
| ClipSampler.SkipStep | dataset/generate_clips.py:50-53 | a pass whose clip does not fit the source issues nothing and takes one draw |
| ClipSampler.CutStep | dataset/generate_clips.py:50-56 | a pass whose clip fits issues one cut, with the drawn length and start, and takes two draws |
| ClipSampler.DrawClip | dataset/generate_clips.py:50-67 | one loop pass issues at most one cut, and that cut followed by the later passes' cuts is what the sampling function gives from this pass on |
| ClipSampler.GenerateClips | dataset/generate_clips.py:37-69 | the loop issues exactly the cuts the sampling function gives, leaves the stream where it says, and returns their number; every cut satisfies the window facts |
| ClipSampler.CutsWindows | dataset/generate_clips.py:50-54 | every cut of one call satisfies the window facts |
| ClipSampler.LongSourceGetsCuts | dataset/generate_clips.py:49-54 | a source longer than 11 seconds always gets at least one cut |
| ClipSampler.FilterRemixFiles | dataset/generate_clips.py:82-85 | keeps exactly the `remix_*.mp3` names, with their multiplicities |
| ClipSampler.RemixFiles | dataset/generate_clips.py:82-85 | exactly the `remix_*.mp3` names of the listing, in ascending order |
| ClipSampler.RemixId | dataset/generate_clips.py:92 | the id is no longer than the file name; `RemixIdOfConventionalName` and `RemixIdIgnoresExtraPrefix` state what it is |
| ClipSampler.RemixIdOfConventionalName | dataset/generate_clips.py:92-93 | for `remix_<id>.mp3`, where the id holds neither "remix_" nor ".mp3", the id comes back unchanged and the clip folder is `clips_<id>` |
| ClipSampler.NoRemixPrefixAfter | dataset/generate_clips.py:92 | once "remix_" is removed from such a name, no "remix_" is left to remove |
| ClipSampler.NoExtensionInside | dataset/generate_clips.py:92 | no ".mp3" occurs in such a name before the extension |
| ClipSampler.Mp3Count | dataset/generate_clips.py:97-98 | an absent folder counts 0; the count is positive exactly when the folder holds a name ending in `.mp3` |
| ClipSampler.ExistingClips | dataset/generate_clips.py:97-98 | a remix's clip folder counts as holding clips exactly when it held an `.mp3` before the run or received clips earlier in the run |
| ClipSampler.ProcessRemix | dataset/generate_clips.py:92-103 | one remix goes to `clips_<id>`. It is skipped, taking no draw, exactly when that folder held an `.mp3` beforehand or was written earlier in the run; the count reported is both together. Otherwise it is sampled from the current position and its folder then holds one clip per cut. No other folder changes |
| ClipSampler.ProcessRemixes | dataset/generate_clips.py:91-104 | one outcome per remix file, in listing order, each for the file's own `clips_<id>` folder; the stream only moves forward |
| ClipSampler.ProcessRemixesAt | dataset/generate_clips.py:91-104 | the loop from remix k on is remix k followed by the rest, from where remix k left the stream and the folders |
| ClipSampler.ProcessRemixesCons | dataset/generate_clips.py:91-104 | the loop over one remix followed by others is that remix's outcome followed by the loop over the others |
| ClipSampler.TwoRemixes | dataset/generate_clips.py:91-104 | two remixes are processed one after the other, the second seeing the stream and folders the first left |
| ClipSampler.ProcessRemixesStep | dataset/generate_clips.py:91-104 | a remix whose folder has clips, on disk before the run or written earlier in it, is reported as skipped with their number and takes no draw; any other is sampled from the current stream position and its folder is recorded as written when it got cuts |
| ClipSampler.RemixesToSample | dataset/generate_clips.py:97-100 | keeps exactly the remixes whose folder held no clip before the run, each as often as it is listed |
| ClipSampler.RemixesToSampleAppend | dataset/generate_clips.py:91-100 | the remixes to sample keep listing order: the filter distributes over concatenation |
| ClipSampler.OutcomesCons | dataset/generate_clips.py:91-104 | the sampled outcomes and sampled files of a list grow by the first outcome only when it was sampled |
| ClipSampler.SkippedRemixesConsumeNoDraws | dataset/generate_clips.py:91-104 | skipped remixes take no randomness: the sampled outcomes and the final stream position are those of a pass over the sampled remixes alone |
| ClipSampler.DistinctIdsSampleAsListed | dataset/generate_clips.py:91-104 | when no two remixes share a clip folder, the remixes sampled are exactly those whose folder held no clip before the run |
| ClipSampler.DistinctTail | dataset/generate_clips.py:91-104 | distinct clip folders that were unwritten stay distinct and unwritten for the remixes after the first |
| ClipSampler.RemixIdIgnoresExtraPrefix | dataset/generate_clips.py:92 | `remix_remix_a.mp3` and `remix_a.mp3` get the same id, because every "remix_" is removed |
| ClipSampler.RepeatedIdSkipped | dataset/generate_clips.py:91-103 | of `remix_a.mp3` and `remix_remix_a.mp3` with a long enough source and no clips yet, the first is sampled and the second is skipped with the first's clip count |
| ClipSampler.SampleFromDeterministic | dataset/generate_clips.py:20-22 | the cuts depend on the generator only through the draws from the current position on |
| ClipSampler.ProcessRemixesDeterministic | dataset/generate_clips.py:20-22 | the same seeded stream, listings and durations give the same outcomes for a song |
| ClipSampler.ProcessSongSpec | dataset/generate_clips.py:72-104 | no `remix/` folder, or no remix file in it: the matching outcome and no draw; otherwise one outcome per remix file; the stream only moves forward |
| ClipSampler.ProcessSong | dataset/generate_clips.py:72-104 | no `remix/` folder or no remix file: nothing is done and no draw is taken; otherwise every remix file is processed in ascending order, starting with no clip folder written, and the outcome and stream position are those `ProcessSongSpec` gives |
| ClipSampler.ProcessRemixList | dataset/generate_clips.py:91-104 | the loop over the sorted remix files, tracking the folders it writes, gives the specified outcomes and stream position |
| ClipSampler.ProcessRemixFile | dataset/generate_clips.py:92-104 | one remix, as `ProcessRemix` states: skipped with its clip count when its folder holds an `.mp3` now, otherwise sampled into `clips_<id>`, with the folders written so far updated |
| Text.RemoveAllLeading | dataset/generate_clips.py:92 | `str.replace(p, "")` on `p + rest` removes the leading occurrence and continues on the rest |
| Text.RemoveAll | dataset/generate_clips.py:92 | `str.replace(p, "")` never lengthens the text; `RemoveAllLeading` and `RemoveAllKeeps` state how it removes |
| Text.RemoveAllKeeps | dataset/generate_clips.py:92 | replacing a pattern that does not occur before a suffix keeps that prefix unchanged |
| Text.DecimalInjective | dataset/generate_clips.py:56 | different clip numbers give different decimal strings |
| Counting.CountIfPositive | dataset/generate_clips.py:97 | a count is positive exactly when some element qualifies, as `any(...)` tests |
| Counting.CountIfAppend | dejavu/run_commands/test_my_songs.py:298-299 | the count over a concatenation is the sum of the counts |
| Counting.CountIfPermutation | dejavu/run_commands/test_my_songs.py:294-299 | counting does not depend on order: permuted sequences have equal counts |
| Scenarios.TwoSongPools | dejavu/run_commands/test_my_songs.py:199-243 | for two songs with one remix and one clip each, the pools hold A's record and then B's |
| Scenarios.RecordsClassified | dejavu/run_commands/test_my_songs.py:83-110 | a remix of B recognised as A is FAIL with match A; a clip with no candidate is NO_MATCH with no match |
| Scenarios.SummarizeTwo | dejavu/run_commands/test_my_songs.py:301-309 | a pool of one non-PASS and one PASS result counts 2 in total, 1 pass, and the failure under its own status |
| Scenarios.TwoSongRun | dejavu/run_commands/test_my_songs.py:199-322 | in that run B's records are sorted first, the remix summary is 2/1/1/0 and the clip summary 2/1/0/1 |
| Scenarios.SortsFailureFirst | dejavu/run_commands/test_my_songs.py:294 | a PASS result placed before a non-PASS one ends up after it |
| Scenarios.SortExample | dejavu/run_commands/test_my_songs.py:294 | [C:PASS, A:FAIL, B:PASS] sorts to [A:FAIL, B:PASS, C:PASS] |

## Left out

- Process I/O is not modelled: ffprobe, ffmpeg, `os.listdir`/`os.path.isdir`, `os.makedirs` and the directory walk of `discover_songs`. Durations and listings are parameters. Whether ffmpeg succeeds is not checked by the source either; `generate_clips` counts the commands it issues.
- The engine is not modelled. Its replies, content hashes, known-hash set and listed labels are parameters. The known-hash set is held fixed during the bootstrap loop. Whether the engine adds a hash to it right after indexing is not modelled; this matters only when two songs share one recording.
- Label decoding from bytes (`.decode()`) is not modelled; labels are strings.
- Floating-point rounding is not modelled. `round(..., 4)` and `round(..., 2)` are left out. Confidences and times are exact reals. The accuracy fields keep `pass` and `total` instead of the formatted `"%.1f%%"` string.
- Metrics.AccuracyOf: keeps the pass and total counts instead of the formatted percentage string, because string formatting of floats is outside the model.
- ClipSampler.RandIntDraw: CPython's `randint` draws through `getrandbits`, not `random()`, and may draw more than once. It is modelled as one draw mapped to [lo, hi], so the exact values for seed 42 are not reproduced. Only the range, the one-draw-per-call structure and determinism are captured.
- The seed 42 fixes a particular Mersenne Twister stream. The model keeps the stream abstract, as `RandomStream.draws`.
- The timestamp is not modelled. The `Report` is `all_results`, which holds `total_songs`. The JSON file written at the end reorders the sections and drops `total_songs`; the file writing is not modelled.
- Printing is not modelled, including the per-song breakdown sorted by `total_fail` (lines 328-344) and the final summary lines.
- `full_example.py`, the command-line handling in `generate_clips.py` (`sys.argv`, the loop over song folders) and `get_audio_duration`'s JSON parsing are not part of this model.
- A reply that is present but empty (a falsy dict) is treated like `None` by the source. The model has a single `NoReply` for both.
- Recognition.RecognizeFile: the `top2` field's contents are stated for the song name and hash count only; the other fields are copied by `ParseMatch`.
- Pipeline.Evaluate: an exception from `decoder.unique_hash` or `djv.fingerprint_file` (test_my_songs.py:152, 160) or from `djv.get_fingerprinted_songs` (line 167) ends the script with no report; the model has no such abort path. Only exceptions inside `recognize_file` are modelled, as ERROR records.
- Every cut issued to ffmpeg is taken to produce its clip file, since ffmpeg is not modelled. Whether a clip folder counts as holding clips for a later remix of the same run rests on this.
- A song's `original` that is present but empty (falsy) is modelled as absent (`None`).
- The per-song entries are keyed by label. The source builds the catalog from a dictionary, so labels are unique; the lemmas that need this take `UniqueNames` as a precondition.
