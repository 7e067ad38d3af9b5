# Higgs demo job fleet, modelled in Dafny

The Higgs demo submits one Kubernetes job per event file of a CMS
open-data analysis. It also drains those jobs and their pods again, and it
keeps a live per-phase tally of the pods. This project models the core of
that program: the `HiggsDemo` object of `higgsdemo/main.py` and the
name-matching and table-keying steps of the luminosity extraction script
`lumi/extract_lumi.py`. It proves what those steps promise.

Modules, roughly in dependency order:

- `Wrappers`, `Errors` (`wrappers.dfy`, `errors.dfy`): `Option`, `Result`, and the Python exceptions the code can raise.
- `Text` (`text.dfy`): the Python string operations the code uses, on `seq<char>`. These are `in`, `replace`, `lower`, `strip`, `os.path.basename`, `rsplit('_', 1)[0]`, `split(':')[0]`, `str(n)`, `zfill` and `int(text)`.
- `Chunking` (`chunking.dfy`): cutting a sequence into consecutive slices of at most `limit` elements. Both `range(0, n, limit)` batching and server pages have this shape.
- `Pagination` (`pagination.dfy`): the `_continue` token loops of `_get_jobs`, `_get_pods`, `_cleanup_jobs` and `_cleanup_pods`, run against a given sequence of server replies.
- `Batching` (`batching.dfy`): the batching and creation calls of `_kube_submit`.
- `PodTally` (`tally.dfy`): the six phase lists of `status`, the remove-then-append step applied to each pod or event, and the invariant that a pod sits in at most one list.
- `Naming` (`naming.dfy`): `_datasetname`, `_fullsetname`, `_jobname`, `_s3_outputpath`, `_s3_basedir` and `_jsonfile`.
- `Settings` (`settings.dfy`): the configuration part of `__init__`, and `_dataset_files`.
- `Jobs` (`jobs.dfy`): what `submit` decides per event file: data or simulation, year, stream, luminosity record, job number and parameter map. It also specifies `submit`'s loops as left folds.
- `HiggsDemoModel` (`higgsdemo.dfy`): the class `HiggsDemo`. Its job counter and pod tally are fields that the methods update in place, and each method is proved against the specification functions of the modules above.
- `Lumi` (`lumi.dfy`): the extraction script's `get_file_list_dict`, `get_run_lumi_dict`, `get_run_lumisections` and `get_file_lumi_dict`, as imperative methods proved against folds.

The model replaces these parts of the environment with inputs:

- Cluster calls are given as the replies the cluster gives.
  - A list or delete loop reads a sequence of `Reply` values: a page with items, a `_continue` token and a resource version, or an API error.
  - The watch stream is the finite sequence of events seen.
  - A batch rejection is the index of the first batch the cluster refuses, with its status.
- The methods return the calls they make as a log.
- Files are given as values.
  - The glob result is a list of matches.
  - The dataset index files are their lines.
  - The `lumi/<fullset>.json` files are parsed tables.
  - The regex hits in `_datasetname` are one optional match per pattern.
- Template rendering is an opaque function of the parameter map.

Three behaviours of the code are worth stating plainly, and the model keeps them:

- An empty manifest list creates only the config map and raises nothing.
- A failed deletion of job pages stops `cleanup` before any pod is deleted.
- Every failure to create or delete a config map is swallowed, whatever its cause.

The class `HiggsDemo` runs `_dataset_files` as written (`Settings.DatasetFilesAsWritten`), so `submit` with neither a dataset pattern nor a mapping raises `AttributeError` (`HiggsDemoModel.SubmitWithoutSources`). `Settings.DatasetFiles` states the evidently intended version (see Findings).

## Model

| member | source | states |
|---|---|---|
| Text.ContainsIffOccursAt | higgsdemo/main.py:284 | `t in s` holds exactly when `t` occurs in `s` at some position |
| Text.ReplaceChars | higgsdemo/main.py:112-123 | `replace` introduces no character that is in neither the text nor the replacement |
| Text.ReplaceAbsent | higgsdemo/main.py:293 | `replace` of a pattern that does not occur leaves the text unchanged |
| Text.ReplaceBySelf | higgsdemo/main.py:326 | replacing a pattern by itself leaves the text unchanged |
| Text.Lower | higgsdemo/main.py:113 | `lower` keeps the length, maps each character through ASCII lower-casing and leaves no upper-case letter |
| Text.LStripSuffix | higgsdemo/main.py:292 | what `lstrip` keeps is a suffix of its input, and it drops only whitespace |
| Text.RStripPrefix | higgsdemo/main.py:292 | what `rstrip` keeps is a prefix of its input, and it drops only whitespace |
| Text.Strip | higgsdemo/main.py:292 | `strip` leaves neither end as whitespace and never lengthens the text |
| Text.StripUnspaced | higgsdemo/main.py:292 | a text without whitespace at either end is its own strip |
| Text.Basename | higgsdemo/main.py:110 | `basename` has no `/`, is a suffix of the path, and is the whole path or follows its last `/` |
| Text.BeforeLast | higgsdemo/main.py:127 | `rsplit(sep, 1)[0]` is the whole text when `sep` is absent; otherwise it is the prefix before the last `sep` |
| Text.BeforeFirst | lumi/extract_lumi.py:81-82 | `split(sep)[0]` is a prefix without `sep`, followed by `sep` unless it is the whole text |
| Text.BeforeFirstPrefix | lumi/extract_lumi.py:81-82 | the text before the first `sep` of `s + sep + t` is `s` when `s` has no `sep` |
| Text.NatToStringValue | higgsdemo/main.py:131 | `str(n)` reads back as `n` |
| Text.IntToStringRoundTrip | lumi/extract_lumi.py:81-82 | `int(str(n)) == n` for every integer |
| Text.ZFillRoundTrip | higgsdemo/main.py:131 | `str(n).zfill(w)` has at least `w` digits and reads back as `n` |
| Chunking.Chunks | higgsdemo/main.py:146-148 | `manifests[i:i+limit]` for `i` in `range(0, n, limit)`: ceil(n / limit) slices |
| Chunking.ChunkExists | higgsdemo/main.py:146 | a slice starts at `b * limit` exactly when `b` < ceil(n / limit) |
| Chunking.FlattenChunks | higgsdemo/main.py:146-148 | the slices concatenate back to the whole list |
| Chunking.ChunkSizes | higgsdemo/main.py:148 | every slice is non-empty and holds at most `limit` elements |
| Chunking.ChunkAt | higgsdemo/main.py:148 | slice `i` is `s[i*limit .. (i+1)*limit]`, clipped to the list |
| Pagination.LastCall | higgsdemo/main.py:158-162 | the loop's last call is answered by the first reply without a truthy token, or by the first error |
| Pagination.Sent | higgsdemo/main.py:155-162 | one first call without a token, then one call per truthy token, each carrying the previous reply's token |
| Pagination.CollectedAppend | higgsdemo/main.py:189-194 | `pods.extend(result['items'])` over two runs of replies is the two concatenated |
| Pagination.ListOutcome | higgsdemo/main.py:173-197 | what a list loop returns: the items of every page up to the last call with that page's resource version, or that call's API error (its properties: `ListingIsComplete`, `ServedCollected`) |
| Pagination.DeleteOutcome | higgsdemo/main.py:155-171 | what a delete loop raises: the API error of its last call, if that call failed |
| Pagination.ListAll | higgsdemo/main.py:173-197 | `_get_jobs`/`_get_pods` make exactly the calls of `Sent` and return the items of all pages in arrival order with the last page's `resource_version`, or the first API error |
| Pagination.DeleteAll | higgsdemo/main.py:155-171 | `_cleanup_jobs`/`_cleanup_pods` make exactly the calls of `Sent` and raise the first API error, if any |
| Pagination.ServedStops | higgsdemo/main.py:188-193 | a server paging a collection sets a truthy token on every page but the last |
| Pagination.ServedLastCall | higgsdemo/main.py:188-193 | against such a server the loop's last call reads the last page |
| Pagination.ServedCollected | higgsdemo/main.py:189-194 | against such a server the collected items are the pages concatenated |
| Pagination.ListingIsComplete | higgsdemo/main.py:185-197 | listing N items in pages of `limit` returns exactly those items, in order, with the last resource version, after ceil(N / limit) calls (one when empty) |
| Batching.Join | higgsdemo/main.py:147-149 | the batch text is exactly one separator per manifest longer than the manifests together |
| Batching.JoinFirst | higgsdemo/main.py:147-149 | read from the front, a non-empty batch text is a separator, the first manifest, then the text of the rest |
| Batching.JoinAppend | higgsdemo/main.py:147-149 | joining distributes over concatenation of manifest lists |
| Batching.BatchCount | higgsdemo/main.py:146 | there are ceil(n / limit) batches, and none for an empty list |
| Batching.BatchAt | higgsdemo/main.py:148-149 | batch `i` is the join of `ms[i*limit .. (i+1)*limit]`: non-empty and at most `limit` manifests |
| Batching.BatchesCoverAll | higgsdemo/main.py:146-149 | the batch texts concatenate to the join of all manifests: none lost, none repeated, order kept |
| Batching.Submission | higgsdemo/main.py:141-153 | `_kube_submit` always makes the config-map call first and only text creations after it; it raises only `ValueError` (a zero limit) or `FailToCreateError`, and the latter right after the rejected batch's call |
| Batching.SubmissionWhenAccepted | higgsdemo/main.py:141-153 | when the cluster accepts every batch: the config map first, then one creation per batch, 1 + ceil(n / limit) calls, nothing raised |
| Batching.SubmissionCarriesAll | higgsdemo/main.py:141-153 | the texts of the creations after the config map concatenate to the join of all manifests |
| Batching.SubmissionRejected | higgsdemo/main.py:146-153 | a rejection of batch `b` stops submission after that batch's call and raises `FailToCreateError` |
| PodTally.PhaseOf | higgsdemo/main.py:222 | a dict key names a phase list exactly when it is one of the six keys |
| PodTally.Classify | higgsdemo/main.py:227-238 | the list a pod goes to: `Pulling` when its first init container runs, else its phase's list, else `KeyError` (its properties: `ClassifySpec`) |
| PodTally.ClassifySpec | higgsdemo/main.py:227-238 | a pod whose first init container runs goes to `Pulling`; otherwise to the list keyed by its phase; an unknown phase raises `KeyError` |
| PodTally.With | higgsdemo/main.py:232 | replacing one list leaves the other five unchanged |
| PodTally.Append | higgsdemo/main.py:236-238 | `append` extends only the chosen list, by the pod's name |
| PodTally.TallyExt | higgsdemo/main.py:222 | two tallies with equal lists are equal |
| PodTally.Empty | higgsdemo/main.py:222 | `status` starts from six empty lists |
| PodTally.NoDupAppend | higgsdemo/main.py:236-238 | appending an absent name keeps a list duplicate-free |
| PodTally.AtMostOneList | higgsdemo/main.py:230-238 | under the tally invariant a pod name is in at most one list |
| PodTally.RemoveFirst | higgsdemo/main.py:231-234 | `list.remove` with its `ValueError` swallowed: one element fewer if present, else unchanged |
| PodTally.RemoveFirstContents | higgsdemo/main.py:232 | removal takes away exactly one occurrence of the name, when there is one |
| PodTally.RemoveFirstDistinct | higgsdemo/main.py:232 | on a duplicate-free list removal drops exactly the name |
| PodTally.RemoveEverywhere | higgsdemo/main.py:230-234 | every list loses its first occurrence of the name |
| PodTally.RemoveEverywhereValid | higgsdemo/main.py:230-234 | the removal loop keeps the tally invariant |
| PodTally.RemoveEverywhereMembers | higgsdemo/main.py:230-234 | after the removal loop the name is in no list and every other name is where it was |
| PodTally.Apply | higgsdemo/main.py:230-238 | one pod or event: remove the name from every list, then unless `DELETED` append it to its list (its properties: `ApplyPlaces`) |
| PodTally.ApplyPlaces | higgsdemo/main.py:253-268 | one event keeps the invariant, puts its pod exactly in the list it classifies to (none when `DELETED`), moves no other pod, and raises only for an unknown phase |
| PodTally.AppendValid | higgsdemo/main.py:236-238 | appending a name held by no list keeps the invariant |
| PodTally.AppendHolding | higgsdemo/main.py:236-238 | appending raises the number of lists holding that name by at most one and changes no other name's count |
| PodTally.Replay | higgsdemo/main.py:224-238 | applying pods or events in turn stops at the first that raises |
| PodTally.ReplayAppend | higgsdemo/main.py:224-268 | replaying the listing and then the events is replaying both in sequence |
| PodTally.ReplayStep | higgsdemo/main.py:224-238 | one more change is one more `Apply`, unless the replay has already raised |
| PodTally.LastChange | higgsdemo/main.py:253-268 | the last change naming a pod, if any |
| PodTally.LastChangeWins | higgsdemo/main.py:253-268 | after a replay without errors each pod sits exactly in the list its last change put it in |
| PodTally.TallyFromScratch | higgsdemo/main.py:222-238 | from empty lists, a pod is in list `p` exactly when its last change places it there |
| PodTally.Counts | higgsdemo/main.py:240-242 | the result maps every phase to the length of its list |
| PodTally.AllPhasesComplete | higgsdemo/main.py:240-242 | every phase is counted |
| PodTally.TotalIsDistinctPods | higgsdemo/main.py:240-242 | under the invariant the counts add up to the number of distinct pods |
| PodTally.SeparateLists | higgsdemo/main.py:230-238 | under the invariant the six lists are pairwise disjoint |
| PodTally.DistinctSize | higgsdemo/main.py:242 | a duplicate-free list has as many names as its length |
| PodTally.MoveCounts | higgsdemo/main.py:259-271 | an event moving a pod from `a` to `b` lowers `a`'s count by one, raises `b`'s by one, and changes no other count |
| Naming.RemoveHits | higgsdemo/main.py:111-112 | removing regex hits adds no character |
| Naming.Abbreviate | higgsdemo/main.py:113-123 | the abbreviation chain keeps a lower-case name lower-case |
| Naming.DatasetName | higgsdemo/main.py:103-124 | a dataset name holds only characters that are not upper-case letters |
| Naming.AbbreviateNothing | higgsdemo/main.py:116-123 | a name naming none of the long forms is left as it is |
| Naming.LowerUnchanged | higgsdemo/main.py:113 | `lower` of a text without capitals is the text |
| Naming.DatasetNameOfPlainFile | higgsdemo/main.py:103-124 | without hits, capitals or long forms the dataset name is the file's basename |
| Naming.NoHits | higgsdemo/main.py:111-112 | no regex hit leaves the name unchanged |
| Naming.FullSetName | higgsdemo/main.py:126-127 | the full set name is the dataset name before its last `_`, or all of it |
| Naming.BaseDir | higgsdemo/main.py:137-139 | the base dir starts `<storage>/<bucket>/` and ends `/<run>/eventselection` |
| Naming.PaddedRoundTrip | higgsdemo/main.py:131 | the zero-padded counter has at least four digits and reads back as the counter |
| Naming.RemoveCharConcat | higgsdemo/main.py:131 | removing `_` distributes over concatenation |
| Naming.RemoveCharGone | higgsdemo/main.py:131 | after `.replace('_', '')` no `_` remains |
| Naming.AbsentChar | higgsdemo/main.py:131 | a text without a character does not contain it as a substring |
| Naming.AfterLast | higgsdemo/main.py:130-131 | the text after the last `-` has no `-` and ends the name |
| Naming.SplitAtLastDash | higgsdemo/main.py:130-131 | a job name splits at its last `-` into the name part and the number |
| Naming.JobNameShape | higgsdemo/main.py:129-131 | the job name is the dataset name without `_`, a `-` and the padded counter; it has no `_`; its number reads back |
| Naming.JobNameSplit | higgsdemo/main.py:130-131 | `.replace('_', '')` of the formatted name leaves the number part alone |
| Naming.JobName | higgsdemo/main.py:129-131 | `_jobname`: dataset name, `-`, the zero-padded counter, with every `_` removed (its properties: `JobNameShape`, `JobNamesDistinct`) |
| Naming.JobNamesDistinct | higgsdemo/main.py:129-131 | different counters give different job names |
| Naming.OutputPathShape | higgsdemo/main.py:133-135 | the output path is `<fullset>-…json` |
| Naming.OutputPath | higgsdemo/main.py:133-135 | `_s3_outputpath`: full set name, `-`, the zero-padded counter, `.json` (its properties: `OutputPathShape`, `OutputPathsDistinct`) |
| Naming.OutputPathsDistinct | higgsdemo/main.py:133-135 | different counters give different output paths |
| Naming.CertificationFile | higgsdemo/main.py:96-101 | only the years 2011 and 2012 have a certification file; any other year raises `KeyError` |
| Naming.CertificationFilesDiffer | higgsdemo/main.py:97-100 | the two years use different certification files |
| Settings.PyIndex | higgsdemo/main.py:41 | Python indexing: negative indices count from the end; out of range is an error |
| Settings.StorageHost | higgsdemo/main.py:52-57 | a given host is kept; an empty one is defaulted for `gcs` and `s3` only |
| Settings.Configure | higgsdemo/main.py:33-73 | the configuration part of `__init__`: read the mapping file only for a truthy name, take `dpath` from the indexed entry, `File` for `/dev/null`, default the storage host (its properties: `ConfigureSpec`) |
| Settings.ConfigureSpec | higgsdemo/main.py:33-73 | construction fails only for an unreadable mapping file or an index outside it; `dpath` comes from the selected entry if it has one; `ftype` is `File` exactly when that path is `/dev/null`; the mapping is kept exactly when its name is truthy |
| Settings.DefaultConfig | higgsdemo/main.py:21-31 | with the defaults the object mounts `/mnt/disks/ssd0` as a `Directory` on Google storage |
| Settings.DatasetFilesAsWritten | higgsdemo/main.py:199-204 | as written: a truthy pattern globs; without pattern or mapping it raises (see Findings) |
| Settings.FromMapping | higgsdemo/main.py:202-203 | the `datasets` of the indexed mapping entry, or `[]` for an empty mapping |
| Settings.DatasetFiles | higgsdemo/main.py:199-204 | a truthy pattern globs; otherwise the mapping entry's datasets; otherwise `[]` |
| Settings.DatasetFilesWithoutSources | higgsdemo/main.py:199-204 | with no pattern and no mapping, the code as written raises `AttributeError` and the corrected version returns `[]` |
| Jobs.YearSpec | higgsdemo/main.py:300-303 | `2011` in the path wins over `2012`; a path naming neither has no year |
| Jobs.StreamSpec | higgsdemo/main.py:304-307 | `DoubleMu` wins over `DoubleEl`; a path naming neither has no stream |
| Jobs.Calibrate | higgsdemo/main.py:293-316 | data or simulation config, certification file by year (`KeyError` without one) and the luminosity record (its properties: `CalibrateSpec`) |
| Jobs.CalibrateSpec | higgsdemo/main.py:293-316 | simulation gets the MC config and nothing else; data succeeds exactly with a year, gets the data config and that year's certification file, and a luminosity record exactly when stream and value are known |
| Jobs.MuonStream2011 | higgsdemo/main.py:300-312 | a 2011 `DoubleMu` file with a known value is recorded as `mu_stream_2011` |
| Jobs.EventPath | higgsdemo/main.py:326 | the stripped event path with `s3` replaced by the storage type and `higgs-demo` by the bucket (its properties: `EventPathOriginalStorage`, `EventPathUntouched`) |
| Jobs.EventPathOriginalStorage | higgsdemo/main.py:326 | on `s3` storage in the `higgs-demo` bucket the event path is passed on as stripped |
| Jobs.EventPathUntouched | higgsdemo/main.py:326 | a path naming neither `s3` nor `higgs-demo` is passed on as stripped |
| Jobs.CredentialKeysDistinct | higgsdemo/main.py:341-347 | credential keys of different kinds never collide, and keys of one kind collide only for the same storage type |
| Jobs.Credentials | higgsdemo/main.py:341-347 | both backends' credential keys set empty, then the configured backend's filled in (its properties: `CredentialsSpec`) |
| Jobs.Params | higgsdemo/main.py:324-347 | the parameter map of one job, credentials included |
| Jobs.CredentialsSpec | higgsdemo/main.py:341-347 | the configured type's keys carry the credentials and host, the other type's `s3`/`gs` keys are empty, every other parameter is kept |
| Jobs.StepLine | higgsdemo/main.py:291-322 | a line either raises with nothing planned, or appends one job numbered one past its full set's counter and bumps that counter; it raises exactly when calibration fails |
| Jobs.StepLines | higgsdemo/main.py:291 | the lines of a file only ever extend the planned jobs |
| Jobs.StepLinesStuck | higgsdemo/main.py:291-322 | after a raise, later lines change nothing |
| Jobs.StepLinesAppend | higgsdemo/main.py:291 | planning `a + b` is planning `a` and then `b` |
| Jobs.StepFile | higgsdemo/main.py:280-322 | one dataset file: naming, `FileNotFoundError` for a missing lumi file of a data set, skip a missing dataset file, then its lines |
| Jobs.StepFiles | higgsdemo/main.py:280-322 | the dataset files in order, stopping at the first raise |
| Jobs.StepFilesStuck | higgsdemo/main.py:280-290 | after a raise, later files change nothing |
| Jobs.StepFilesAppend | higgsdemo/main.py:280 | planning the files `a + b` is planning `a` and then `b` |
| Jobs.StepLineNumbered | higgsdemo/main.py:318-320 | one line keeps the numbering invariant |
| Jobs.AppendNumbered | higgsdemo/main.py:318-320 | appending a job numbered one past the counter keeps the numbering invariant |
| Jobs.StepLinesNumbered | higgsdemo/main.py:291-322 | the lines of a file keep the numbering invariant |
| Jobs.StepFilesNumbered | higgsdemo/main.py:280-322 | all files keep the numbering invariant |
| Jobs.JobNumbering | higgsdemo/main.py:318-320 | the k-th job of a full set gets number `c0[fs] + k`, and the counter ends at the jobs planned per full set |
| Jobs.CountInGrows | higgsdemo/main.py:318-320 | a later job of the same full set has seen strictly more jobs of it |
| Jobs.DistinctJobNames | higgsdemo/main.py:318-322 | two jobs of one full set never share an output path, nor a job name when their dataset names agree |
| HiggsDemoModel.CleanupSpec | higgsdemo/main.py:206-213 | `cleanup`: delete `runjob`, then `getfile` unless that failed (failures swallowed), then all job pages, then, unless that raised, all pod pages (its properties: `CleanupOrder`) |
| HiggsDemoModel.CleanupOrder | higgsdemo/main.py:206-213 | `runjob` goes first; `getfile` is tried exactly when `runjob` went; pods are deleted exactly when every job page was; nothing is raised exactly when both loops succeed |
| HiggsDemoModel.SubmitWithoutFiles | higgsdemo/main.py:275-351 | when `_dataset_files` as written yields an empty list, `submit` creates only the config map, raises nothing and leaves the counter alone |
| HiggsDemoModel.SubmitWithoutSources | higgsdemo/main.py:199-204 | with neither a dataset pattern nor a mapping, `submit` raises `AttributeError` before planning or creating anything, as the code does |
| HiggsDemoModel.SubmitCompletes | higgsdemo/main.py:275-351 | when `_dataset_files` as written succeeds, planning raises nothing and every batch is accepted, `submit` raises nothing, leaves the counter where planning left it, and makes the creation calls of all rendered manifests |
| HiggsDemoModel.SubmitSpec | higgsdemo/main.py:275-351 | `submit`: `_dataset_files` as written, a job per line with the counter bumped as it goes, then `_kube_submit` of the rendered manifests unless planning raised |
| HiggsDemoModel.ReportsNext | higgsdemo/main.py:269-273 | one more event adds exactly one report |
| HiggsDemoModel.StatusSpec | higgsdemo/main.py:221-273 | `status(fn)`: list requests, tally of the listing from empty lists, counts returned without `fn`; with `fn` the watch from the listing's resource version and the counts after each event until one raises |
| HiggsDemoModel.StatusAfterEvents | higgsdemo/main.py:221-273 | a watch without errors reports once for the listing and once per event; the last report counts the final tally; each pod sits where its last change put it; the counts add up to the number of distinct pods |
| HiggsDemoModel.WatchStartsAtListing | higgsdemo/main.py:221-252 | `status` sends ceil(N / limit) list requests, and opens the watch (only with `fn`, and only when the listing tallied) in its namespace with `timeout_seconds=0` at exactly the listing's resource version |
| HiggsDemoModel.WatchReports | higgsdemo/main.py:253-273 | a watch that raises nothing prints one report for the listing and one per event, and the last report counts the tally after every event |
| HiggsDemoModel.WatchPlacement | higgsdemo/main.py:256-273 | after the events each pod is in the list of the phase its last change gave it, and the phase counts add up to the number of distinct pods |
| HiggsDemoModel.JoinSlice | higgsdemo/main.py:147-149 | the inner loop builds the joined text of the slice |
| HiggsDemoModel.Rank | higgsdemo/main.py:222 | each phase has a position in the key order of `self._pods` |
| HiggsDemoModel.RankOrder | higgsdemo/main.py:222 | the key order lists each phase once |
| HiggsDemoModel.RemoveThroughGet | higgsdemo/main.py:230-234 | after visiting the first `j` keys, those lists have lost the name and the others are untouched |
| HiggsDemoModel.RemovedEverywhere | higgsdemo/main.py:230-234 | after visiting all keys every list has lost the name |
| HiggsDemoModel.PhaseOrderComplete | higgsdemo/main.py:222 | the key order covers every phase |
| HiggsDemoModel.HiggsDemo.constructor | higgsdemo/main.py:21-75 | a new object holds its configuration, an empty job counter and six empty phase lists |
| HiggsDemoModel.HiggsDemo.KubeSubmit | higgsdemo/main.py:141-153 | `_kube_submit` makes exactly the creation calls of `Submission` and raises what it raises |
| HiggsDemoModel.BatchText | higgsdemo/main.py:146-149 | the YAML text built for the slice starting at `i = b * limit` is exactly batch `b` of `Batches` |
| HiggsDemoModel.HiggsDemo.Cleanup | higgsdemo/main.py:206-213 | `cleanup` makes exactly the deletions of `CleanupSpec`, in order, and raises what it raises |
| HiggsDemoModel.HiggsDemo.Place | higgsdemo/main.py:230-238 | one pod or event updates the phase lists in place as `Apply` does, and raises what it raises |
| HiggsDemoModel.HiggsDemo.CountNow | higgsdemo/main.py:240-242 | the result dict is `Counts` of the current lists |
| HiggsDemoModel.HiggsDemo.Load | higgsdemo/main.py:224-238 | the listing loop leaves the lists and the error of `Replay` over the listed pods |
| HiggsDemoModel.HiggsDemo.Watch | higgsdemo/main.py:250-273 | the watch loop leaves the lists of `Replay` over the events and reports the counts after each event up to the first error |
| HiggsDemoModel.HiggsDemo.Status | higgsdemo/main.py:221-273 | `status(fn)` sends the listing requests, opens the watch at the listing's resource version, and leaves the lists, returns the counts, reports to `fn` and raises exactly as `StatusSpec` says; the job counter is untouched |
| HiggsDemoModel.HiggsDemo.PlanLine | higgsdemo/main.py:291-322 | one line: the counter is bumped in place and a job planned exactly as `StepLine` says |
| HiggsDemoModel.HiggsDemo.PlanLines | higgsdemo/main.py:291-322 | the loop over a file's lines leaves the counter and the planned jobs of `StepLines` |
| HiggsDemoModel.HiggsDemo.RenderAll | higgsdemo/main.py:324-349 | the rendered manifests are `Manifests` of the planned jobs |
| HiggsDemoModel.HiggsDemo.PlanFile | higgsdemo/main.py:280-290 | one dataset file: naming, the lumi file (`FileNotFoundError` if missing), skipping a missing dataset file, and its lines, as `StepFile` says |
| HiggsDemoModel.HiggsDemo.Submit | higgsdemo/main.py:275-351 | `submit` leaves the job counter, makes the creation calls and raises exactly as `SubmitSpec` says |
| HiggsDemoModel.StuckAfter | higgsdemo/main.py:224-238 | a replay that has raised by change `k` is the whole replay |
| HiggsDemoModel.LinesNext | higgsdemo/main.py:291 | the first `l + 1` lines are the first `l` and then line `l` |
| HiggsDemoModel.FileStep | higgsdemo/main.py:280 | the first `f + 1` files are the first `f` and then file `f` |
| HiggsDemoModel.LinesRaisedAt | higgsdemo/main.py:291-322 | a plan that raised at line `l` is the plan of all lines |
| HiggsDemoModel.ManifestsAppend | higgsdemo/main.py:349 | rendering distributes over concatenation of job lists |
| HiggsDemoModel.RaisedAt | higgsdemo/main.py:280-290 | a plan that raised at file `f` is the plan of all files |
| Lumi.OpenDataNameOfStorePath | lumi/extract_lumi.py:122-124 | a DAS path under `/store/data/` moves under the EOS open-data prefix and keeps the rest |
| Lumi.GetFileListDict | lumi/extract_lumi.py:119-129 | the dict built in the loop is `FileList` of the inputs |
| Lumi.FileListKeys | lumi/extract_lumi.py:119-129 | the keys are exactly the rewritten DAS names that are in the OpenData list |
| Lumi.FileListValues | lumi/extract_lumi.py:125-126 | each key maps to the last DAS file that produced it |
| Lumi.FileListSize | lumi/extract_lumi.py:119-129 | at most one entry per DAS file |
| Lumi.FileList | lumi/extract_lumi.py:119-129 | the dict of `get_file_list_dict`, one assignment per matching DAS file in order (its properties: `FileListKeys`, `FileListValues`) |
| Lumi.ParseRow | lumi/extract_lumi.py:73-84 | one CSV row: `IndexError` for an empty row, a comment for `#`, else run and lumisection from `split(':')[0]` of fields 0 and 1 (`ValueError` if not integers) and field 6, with `IndexError` for a missing field |
| Lumi.ParseRowOutcomes | lumi/extract_lumi.py:73-84 | a row is a comment exactly when its first field starts with `#`; a data row has a seventh field, kept as the luminosity; a bad row raises only `IndexError` or `ValueError` |
| Lumi.ParseRowOfKeys | lumi/extract_lumi.py:81-84 | a row `str(run):…, str(ls):…, …` yields the entry (run, ls) with column 6 as its value |
| Lumi.CsvEntriesNext | lumi/extract_lumi.py:73-87 | reading one more row is one more step of the row loop |
| Lumi.CsvEntries | lumi/extract_lumi.py:73-87 | the entries of one CSV file: at most one per row |
| Lumi.CsvEntriesStuck | lumi/extract_lumi.py:73-87 | once a row raises, later rows change nothing |
| Lumi.ReadRow | lumi/extract_lumi.py:74-87 | one row applied to the entries read so far does exactly one step of `CsvEntries`: raises what that step raises, or leaves the entries (a comment) or appends one; `line_count` stays two per entry read, so the header branch for `line_count == 1` never runs |
| Lumi.ReadCsv | lumi/extract_lumi.py:70-88 | the row loop appends the entries of `CsvEntries`, raises at the first bad row, and ends with `line_count` = 2 per data row |
| Lumi.AllEntriesStuck | lumi/extract_lumi.py:69-88 | once a file raises, later files change nothing |
| Lumi.AllEntries | lumi/extract_lumi.py:69-88 | the entries of both CSV files in order, or the first error |
| Lumi.Table | lumi/extract_lumi.py:89-92 | `run_lumi_dict[run][ls] = lumi` in entry order (its properties: `TableLookup`) |
| Lumi.TableLookup | lumi/extract_lumi.py:89-92 | a (run, ls) pair reads as the value of its last row, and as the default 0 exactly when no row names it |
| Lumi.BuildTable | lumi/extract_lumi.py:90-92 | the nested defaultdict built in the loop is `Table` of the entries |
| Lumi.GetRunLumiDict | lumi/extract_lumi.py:65-93 | the table of all entries of both CSV files, or the first error |
| Lumi.GetRunLumisections | lumi/extract_lumi.py:59-61 | the mapping loop gives `RunLumisections` of the reply, or `IndexError` |
| Lumi.RunLumisections | lumi/extract_lumi.py:59-61 | `get_run_lumisections`'s mapping: raises only `IndexError`, and has at most one run per item |
| Lumi.RunLumisectionsStuck | lumi/extract_lumi.py:59-61 | once an item raises, later items change nothing |
| Lumi.RunLumisectionsSpec | lumi/extract_lumi.py:59-61 | the mapping succeeds exactly when every item has a `lumi` record, and otherwise raises `IndexError` |
| Lumi.RunLumisectionsKeys | lumi/extract_lumi.py:59-61 | after a successful mapping every item's run is a key |
| Lumi.RunLumisectionsValues | lumi/extract_lumi.py:59-61 | after a successful mapping each run holds the lumisections of the last item naming it |
| Lumi.GetFileLumiDict | lumi/extract_lumi.py:143-147 | the result has exactly the input's keys, each holding `get_lumi` of its runs and lumisections |

## Left out

- Kubernetes I/O: `load_kube_config`, the API clients, `create_from_yaml`, `delete_namespaced_config_map`, the list and delete-collection calls and `watch.Watch().stream`. These are replaced by the replies they give. A config map's failure is a boolean or is ignored, exactly as the code swallows it.
- Writing each batch to `/tmp/<cluster>` before creating it: the model passes the text to the creation call directly.
- `prepare` is not part of this model: it is a single creation call whose failure is swallowed.
- `_job_template` and `_job_manifest` (`string.Template.safe_substitute`): rendering is an opaque function `render` of the parameter map.
- The luminosity value read from `lumi/<fullset>.json` is kept as its JSON text, and `json.dumps` of the record is built from that text; float formatting is not modelled.
- Integer parameters are passed to `render` as their decimal text (`IntToString`), because the map is modelled as text to text.
- HiggsDemoModel.HiggsDemo.Submit: renders all manifests after planning, not one per line inside the loop. Rendering is a pure function of each job's parameters, so the manifests are the same, and on a raise the code discards them anyway.
- The regex searches of `_datasetname`: each pattern's hit is given as an optional matched text.
- `glob.glob`, `os.path.isfile`, reading dataset index files and `json.load` of luminosity and mapping files: these are inputs (`globMatches`, `Disk`, `mappingFile`).
- Settings.Configure: a mapping file holding a JSON object instead of a list, and a non-integer `dataset_index`, are not modelled.
- The watch stream does not end on its own: `status` is modelled over the finite sequence of events seen.
- Pod fields missing from a listing or event (a `KeyError` or `AttributeError` on malformed objects) are not modelled. `init_container_statuses[0].state.running` is a boolean per container.
- HiggsDemoModel.HiggsDemo.constructor: `self._pods` is created by `status`, not by the constructor; the model starts it empty, and `Status` resets it first, as the code does.
- HiggsDemoModel.HiggsDemo.constructor: takes an already built `Config`; nothing ties it to `Settings.Configure`, whose errors (`FileNotFoundError`, `IndexError`) are modelled there.
- `HiggsDemoCli` and the command classes (argument parsing, `joblib` fan-out over clusters).
- `get_das_files`, `get_opendata_file_list` and `get_all_run_lumisections`: `dasgoclient` subprocess calls and directory reads. `get_run_lumisections` is modelled from the decoded JSON on.
- Lumi.ParseRow: `float(row[6])` is not parsed. The value is kept as its text, so a malformed float does not raise `ValueError` in the model. `csv.reader` quoting rules are not modelled either: rows are given as lists of fields.
- `get_lumi` (float summation) is a parameter of `GetFileLumiDict`, and the `print` calls, the cross-check sum and the JSON dump of `main` are left out.
- Lumi.GetRunLumiDict: the two CSV file names are not modelled; their contents are given as the list of files.

- Text.Strip: strips ASCII whitespace only; Python's `str.strip()` also removes Unicode whitespace such as `'\xa0'` or `'\x85'`.
- Text.Lower: folds ASCII capitals only; Python's `str.lower()` also folds non-ASCII capitals.
- Text.ParseInt: accepts ASCII digits with an optional sign only; Python's `int()` also accepts `_` between digits and non-ASCII digits.

## Findings

| source | as written | input that shows it | evidently intended | confidence | as-written member | corrected member |
|---|---|---|---|---|---|---|
| higgsdemo/main.py:199-204 | `_dataset_files` reads `self.dataset_mapping` when the pattern is falsy, but `__init__` assigns that attribute only when `dataset_mapping` is truthy (main.py:37-38) | `HiggsDemo(dataset_pattern=None)` with no mapping, then `submit()`: `AttributeError: 'HiggsDemo' object has no attribute 'dataset_mapping'` | fall through to `return []`, so there are no dataset files and nothing to submit | not executed | Settings.DatasetFilesAsWritten (shown by Settings.DatasetFilesWithoutSources) | Settings.DatasetFiles |
