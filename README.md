# mne-bids-pipeline: noise covariance, examples gallery, legacy import step

This Dafny project models three parts of mne-bids-pipeline and proves properties of the models.

- **The noise-covariance step** (`MakeCov`, `make_cov.dfy`).
  - It chooses the covariance strategy: a custom callable, a raw recording, or epochs.
  - It declares the input files each strategy needs.
  - `run_covariance` pops exactly those inputs, builds the report entries and fails on every unconsumed or missing input.
  - `main` skips the step, or fans out one job per subject and session.
- **The documentation gallery generator** (`ExampleFeatures`, `example_features.dfy`; `ExamplePages`, `example_pages.dfy`).
  - It copies HTML reports into per-dataset directories. ERP CORE shows only subject 015 and the grand average.
  - It detects the pipeline features that each example configuration demonstrates. Some features are OR-ed over the seven ERP CORE tasks.
  - It builds each example page: the feature table, the dataset source link, the OpenNeuro download command and the generated-output section with its three sorted groups of reports.
  - It builds the summary table of all examples.
- **The legacy import and Maxwell-filter script** (`ImportMaxfilter`, `import_maxfilter.dfy`).
  - For each run it finds exactly one readable input file.
  - On the first run it sets up the derivatives directory and `dataset_description.json`.
  - It saves every run under an `_sss` or `_nosss` name.
  - Its `main` runs one job per subject and session.

Shared helpers live in `Strings` (`strings.dfy`) and `Wrappers` (`wrappers.dfy`). `Strings` models Python's `in` on strings, `startswith`/`endswith`, `str.join`, `posixpath.join`, `posixpath.split`, and `sorted` on strings by code point. `Wrappers` holds the Option and Result types.

Python values are modelled as follows:

- A Python dict whose key order matters is an association list (`FeatureDict`).
- A `defaultdict(lambda: False)` reads a missing key as `False` (`Lookup`).
- A value used only through its truthiness is a `bool`.
- Code that raises an exception or fails an assertion returns a `Result`/`Option` error naming the failure.
- Loops that build strings or dicts step by step are methods with loops. They are proved equal to a specification function, and that function's properties are lemmas.

The docstring of `01-import_and_maxfilter.py` (lines 16-17) says that the head position of every run is corrected to the run named by `config.mf_reference_run`. The code (lines 121-122) instead takes the destination from the first run's `dev_head_t`. The model follows the code: `ImportMaxfilter.HeadFrom` is the first run's input file.

## Model

| member | source | states |
|---|---|---|
| MakeCov.GetCovType | mne_bids_pipeline/steps/sensor/_06_make_cov.py:199-207 | custom exactly for "custom"; raw exactly for "rest" or for "emptyroom" without EEG; epochs in every other case, including "emptyroom" with EEG |
| MakeCov.GetInputFnamesCov | mne_bids_pipeline/steps/sensor/_06_make_cov.py:32-90 | the declared roles are report_info, evoked exactly when the evoked file exists, and one strategy role (the unknown-inputs marker, raw or epochs); every path lies in the subject's derivative location; the evoked path is the epochs path with suffix "ave" and no processing; the raw task is "rest" or "noise" by the configuration; the epochs input is the report-info path |
| MakeCov.ResolvedRolesExclusive | mne_bids_pipeline/steps/sensor/_06_make_cov.py:55-89 | raw and epochs are never both declared; the marker is declared exactly for the custom strategy, and never beside raw or epochs; report_info is always declared; evoked is declared iff the file exists |
| MakeCov.ResolutionMatchesConsumption | mne_bids_pipeline/steps/sensor/_06_make_cov.py:228-229 | once the marker is dropped, the declared roles are exactly the roles that run_covariance and the strategy functions pop |
| MakeCov.DropUnknownInputs | mne_bids_pipeline/steps/sensor/_06_make_cov.py:62-64 | the unknown-inputs marker is removed and every real path is kept unchanged |
| MakeCov.FirstFailure | mne_bids_pipeline/steps/sensor/_06_make_cov.py:213-302 | a missing report_info fails first; each reported error is justified: a missing role is absent, leftover inputs of the custom path are non-empty declared roles, a non-covariance custom result, a non-window epochs setting, a condition-count mismatch with evoked data, and unconsumed roles disjoint from the consumed ones |
| MakeCov.NoFailureIff | mne_bids_pipeline/steps/sensor/_06_make_cov.py:213-302 | run_covariance fails in none of its checks iff its inputs are exactly the consumed roles, a custom callable returns a covariance, the epochs strategy has a (tmin, tmax) window, and an evoked file holds one response per condition |
| MakeCov.RunCovariance | mne_bids_pipeline/steps/sensor/_06_make_cov.py:213-302 | fails iff a check fails, with the first failing check's error; on success the output is the covariance path and the source is the custom evoked path, the raw file (flagged resting-state when its task is "rest") or the epochs file with the window; the report holds the covariance entry and then one whitening figure per condition when evoked data exist |
| MakeCov.WhiteningContrastTag | mne_bids_pipeline/steps/sensor/_06_make_cov.py:281-290 | a whitening figure is titled "Whitening: <condition>", starts with the evoked, covariance and condition tags, and carries a fourth tag "contrast" exactly when the condition is not a configured condition |
| MakeCov.FanOutJobs | mne_bids_pipeline/steps/sensor/_06_make_cov.py:343-352 | the jobs are one per listed session; a (subject, session) job exists iff that subject lists that session |
| MakeCov.CovMain | mne_bids_pipeline/steps/sensor/_06_make_cov.py:324-352 | skipped when source estimation is off (checked first); skipped for the ad-hoc covariance; otherwise it runs, with one job per subject and session |
| ExampleFeatures.BoolToIcon | docs/source/examples/gen_examples.py:27-31 | the icon is the check mark exactly for a truthy value, and the cross otherwise |
| ExampleFeatures.Tasks | docs/source/examples/gen_examples.py:51-53 | the seven ERP CORE tasks for the ERP CORE configuration, a single empty task for any other configuration |
| ExampleFeatures.TaskValueMeaning | docs/source/examples/gen_examples.py:62-86 | MEG (EEG) processing is shown iff some channel type upper-cases to "MEG" ("EEG"); the three decoding features are on only when decoding is on and contrasts are given |
| ExampleFeatures.AnyTaskMeansSomeTask | docs/source/examples/gen_examples.py:65-83 | an OR-ed feature is on iff some inspected task's configuration turns it on |
| ExampleFeatures.DecodingImpliesTimeByTime | docs/source/examples/gen_examples.py:75-83 | within one configuration, time-generalization or CSP decoding implies time-by-time decoding |
| ExampleFeatures.AnyTaskDecodingImpliesTimeByTime | docs/source/examples/gen_examples.py:75-83 | over all tasks, demonstrating time-generalization or CSP decoding implies demonstrating time-by-time decoding |
| ExampleFeatures.Assign | docs/source/examples/gen_examples.py:50 | assigning a key updates only that key's value and appends the key only if it is new, as a Python dict keeps insertion order |
| ExampleFeatures.AssignPass | docs/source/examples/gen_examples.py:62-86 | one pass appends the features in their fixed order; an OR-ed feature becomes its previous value (False when absent) or-ed with this task's value, and every other feature becomes this task's value |
| ExampleFeatures.PassKeepsFeatureOrder | docs/source/examples/gen_examples.py:54-86 | after the first pass, later passes leave the key order unchanged |
| ExampleFeatures.FeatureOrderComplete | docs/source/examples/gen_examples.py:63-86 | the fourteen feature keys are all distinct and every feature occurs among them |
| ExampleFeatures.GenDemonstratedFuncs | docs/source/examples/gen_examples.py:45-87 | the dict has the fourteen features in order; an OR-ed feature is on iff some task turns it on; every other feature has the last task's value |
| ExampleFeatures.DemonstratedFuncsStr | docs/source/examples/gen_examples.py:284-291 | the lines are the section heading, the table head and one row per feature, in dict order, pairing its name with its icon, joined by newlines and followed by a blank line |
| ExampleFeatures.ExamplesIndex | docs/source/examples/gen_examples.py:318-331 | with no examples only the header is written; otherwise the header, then the column line and separator line taken from the first example, then one linked row per example in order |
| ExampleFeatures.TableCellsAligned | docs/source/examples/gen_examples.py:322-331 | when every example has the fourteen features in order and no dataset name contains a pipe, the column line, the separator line and every row line each hold exactly fourteen pipe separators, so all have fifteen cells |
| ExamplePages.DatasetNameOf | docs/source/examples/gen_examples.py:144-147 | an ERP CORE test takes the options' "dataset" and fails (KeyError) without one; every other test is its own dataset |
| ExamplePages.DatasetOptionsKey | docs/source/examples/gen_examples.py:149-151 | the options' "dataset" when present, otherwise the test name up to its first underscore |
| ExamplePages.CopyPlanChoosesReports | docs/source/examples/gen_examples.py:93-132 | a dataset without HTML reports is recorded and copies nothing; an ERP CORE test copies exactly the reports of subject 015 and the average, and fails when there are none; any other test copies all its reports |
| ExamplePages.NoHtmlNamesMembers | docs/source/examples/gen_examples.py:109-111 | a dataset is listed as without reports iff its copy step found none |
| ExamplePages.CopyOne | docs/source/examples/gen_examples.py:94-132 | one test's copy step equals its copy plan (its outcome is fixed by `CopyPlanChoosesReports`) |
| ExamplePages.CopyReports | docs/source/examples/gen_examples.py:91-132 | every step taken is its test's copy plan; it stops at the first failing test with that test's error; the list of datasets without reports is exactly those steps that found none |
| ExamplePages.Dedup | docs/source/examples/gen_examples.py:190 | the set of the directory's names: same members, no repetitions |
| ExamplePages.PartitionOfFiles | docs/source/examples/gen_examples.py:171-191 | the three groups are sorted; summary reports are exactly the HTML files without a cleaning marker, cleaning outputs exactly the files with one, other output everything else without repetition; together they hold exactly the directory |
| ExamplePages.AppendButtons | docs/source/examples/gen_examples.py:194-200 | the loop appends exactly the rendered links of the files, in order |
| ExamplePages.WriteSection | docs/source/examples/gen_examples.py:193-220 | the text written is the output title followed by the rendered section: summary heading and links, then the cleaning and other headings (when non-empty) with their links |
| ExamplePages.Links | docs/source/examples/gen_examples.py:194-200 | one button per file, in order, linking "<dataset>/<file>" and captioned with the file name |
| ExamplePages.SectionShape | docs/source/examples/gen_examples.py:193-220 | the section opens with the summary heading; the cleaning and other headings appear iff their groups are non-empty; a link is present iff its file is in a group and it targets the dataset-relative path |
| ExamplePages.OutputBlocksShape | docs/source/examples/gen_examples.py:168-220 | for a directory listing, the cleaning and other headings appear iff those groups are non-empty, and every file of the directory gets exactly its own link |
| ExamplePages.GeneratedOutputStr | docs/source/examples/gen_examples.py:168-220 | the accumulated report text is the generated-output title followed by the rendered section of the directory |
| ExamplePages.DatasetUrl | docs/source/examples/gen_examples.py:222-229 | fails unless exactly one of openneuro, web and mne is given; otherwise the OpenNeuro dataset page, the web URL unchanged, or the MNE data_path documentation page |
| ExamplePages.SourceStr | docs/source/examples/gen_examples.py:231 | the text starts with the "Dataset source" heading, contains the Markdown link whose text and target are the URL, and ends with ")" and a newline |
| ExamplePages.Flags | docs/source/examples/gen_examples.py:243-250 | the include flags in order, then the exclude flags in order |
| ExamplePages.JoinIsContinued | docs/source/examples/gen_examples.py:243-250 | the flag lines joined by continuations are every flag but the last each followed by a continuation, then the last flag |
| ExamplePages.WriteFlags | docs/source/examples/gen_examples.py:243-250 | the two counting loops leave the command head followed by the flags joined by continuations, so only the last flag lacks one |
| ExamplePages.DownloadStr | docs/source/examples/gen_examples.py:233-260 | empty without an OpenNeuro id; otherwise the download command with the dataset flag, the include and exclude flags separated so that only the last flag lacks a continuation, the closing fence, and the exclusion note |
| ExamplePages.DownloadNote | docs/source/examples/gen_examples.py:253-258 | the download text ends with the exclusion note iff some file is excluded |
| ExamplePages.ConfigStem | docs/source/examples/gen_examples.py:264-266 | "config_" followed by the dataset name with every "-" replaced by "_" |
| ExamplePages.BuildPage | docs/source/examples/gen_examples.py:163-291 | fails iff the options do not name exactly one source; otherwise the page's source link, download text, demonstrated features of its configuration, feature table and generated-output section are the specified ones |
| ExamplePages.PageStep | docs/source/examples/gen_examples.py:143-301 | one test of the page loop keeps the loop state: a duplicate dataset or one without reports is skipped; any other dataset adds its page; an error stops the loop with that test's failure |
| ExamplePages.ProgressKeep | docs/source/examples/gen_examples.py:280-281 | adding the page of a new dataset keeps the loop state |
| ExamplePages.ProgressSkip | docs/source/examples/gen_examples.py:152-161 | skipping a duplicate dataset or one without reports keeps the loop state |
| ExamplePages.GeneratePages | docs/source/examples/gen_examples.py:143-301 | every page comes from a test, in test order, from the first test of its dataset; every dataset before the stop that has reports and is not a duplicate has a page; it stops only on the first failing test, with that test's error |
| ExamplePages.ProgressDistinct | docs/source/examples/gen_examples.py:152-156 | no two pages have the same dataset name |
| ExamplePages.SummaryRowsAligned | docs/source/examples/gen_examples.py:322-331 | every page's features have the fourteen keys in order; when no dataset name contains a pipe, the header line taken from the first page, the separator line and every page's row line hold fourteen pipe separators each |
| ImportMaxfilter.SubjectPath | 01-import_and_maxfilter.py:43-48 | the subject path ends with the data kind |
| ImportMaxfilter.SubjectPathShape | 01-import_and_maxfilter.py:43-48 | "sub-<subject>/<kind>", or "sub-<subject>/ses-<session>/<kind>" when a session is given |
| ImportMaxfilter.SearchString | 01-import_and_maxfilter.py:63 | the glob pattern ends with the BIDS basename, "_", the data kind and "*" |
| ImportMaxfilter.Ext | 01-import_and_maxfilter.py:66 | the extension is empty or starts with a dot, is a suffix of the path, and holds no further dot and no slash |
| ImportMaxfilter.ExtSplitext | 01-import_and_maxfilter.py:66 | as `posixpath.splitext` decides, a path has a non-empty extension iff some dot of its file name comes after a character that is not a dot |
| ImportMaxfilter.ExtFromLastDot | 01-import_and_maxfilter.py:66 | a non-empty extension is the file name from its last dot on |
| ImportMaxfilter.ExtOfName | 01-import_and_maxfilter.py:66 | "dir/base.ext", with a base that does not start with a dot, has the extension ".ext" |
| ImportMaxfilter.Candidates | 01-import_and_maxfilter.py:64-66 | the sorted glob results whose extension mne-bids can read, and no others |
| ImportMaxfilter.FilterSorted | 01-import_and_maxfilter.py:64-66 | filtering a sorted list keeps it sorted |
| ImportMaxfilter.SelectSingle | 01-import_and_maxfilter.py:68-76 | the one file when exactly one is found; "not found" iff none; "not unique" with the list iff several |
| ImportMaxfilter.ErrorText | 01-import_and_maxfilter.py:71-76 | each message starts with its fixed wording and contains the quoted search string |
| ImportMaxfilter.Description | 01-import_and_maxfilter.py:86-96 | the name is the pipeline name plus " outputs", the pipeline description names the pipeline, and the source URL is "n/a" |
| ImportMaxfilter.SetUpDerivatives | 01-import_and_maxfilter.py:78-99 | the output directory is the subject path under derivatives/<pipeline name>; the effects are that directory's creation when it is missing, then the dataset description written to dataset_description.json |
| ImportMaxfilter.SelectedRuns | 01-import_and_maxfilter.py:51-76 | each selected input is its run's single readable file |
| ImportMaxfilter.RunMaxwellFilter | 01-import_and_maxfilter.py:39-152 | the effects are those of the runs up to the first run without a single input; it fails iff some run has none, with that run's error |
| ImportMaxfilter.SetupOnlyOnFirstRun | 01-import_and_maxfilter.py:78-99 | with no runs there are no effects; otherwise the effects start with the directory creation (when missing) and the dataset description, and no later effect creates directories or writes the description |
| ImportMaxfilter.SetupSavesNothing | 01-import_and_maxfilter.py:78-99 | the setup saves no file |
| ImportMaxfilter.SavesPerRun | 01-import_and_maxfilter.py:136-148 | each processed run saves exactly one file |
| ImportMaxfilter.OutFileNamed | 01-import_and_maxfilter.py:136-147 | the output name ends with the run's basename and "_sss_raw.fif" when Maxwell filtering, and "_nosss_raw.fif" otherwise |
| ImportMaxfilter.SavesNamed | 01-import_and_maxfilter.py:114-148 | every save is named "_sss" iff Maxwell filtering, and when filtering its head-position destination is the first run's input file |
| ImportMaxfilter.MaxfilterJobs | 01-import_and_maxfilter.py:156-161 | one job per (subject, session) pair of the two lists, and a pair has a job iff both occur |
| Strings.Sort | docs/source/examples/gen_examples.py:171-191 | the result is sorted by code point and is a permutation of the input |
| Strings.Filter | docs/source/examples/gen_examples.py:117-121 | an element is kept iff it is in the input and satisfies the condition, and it is kept as many times as it occurs |
| Strings.FilterAppend | docs/source/examples/gen_examples.py:117-121 | filtering a concatenation is the concatenation of the filtered parts, so the kept elements keep the input's order |
| Strings.ContainsAt | docs/source/examples/gen_examples.py:94 | Python's substring test holds iff the substring occurs at some position |

## Left out

- Reading and writing files, globbing, copying, making directories, logging, progress bars, `print`, plotting and cropping are not modelled. Directory listings, glob results and the existence of files are inputs. Writes are returned texts, or `Effect` values in the order the step performs them.
- MNE's numerical work is not modelled: computing, reading and saving covariances, Maxwell filtering, `read_raw_bids`, whitening plots and `_restrict_analyze_channels`. So are BIDSPath rendering and `_update_for_splits`. Paths are records of their entities.
- The step runner `failsafe_run` in `_run.py` is not part of this model. The model assumes it pops the `__unknown_inputs__` marker before `run_covariance`, which `retrieve_custom_cov` requires (`_06_make_cov.py:170`), and models that as `MakeCov.DropUnknownInputs`.
- `_import_config`, `_task_context` and the configuration files are not modelled. Each task's configuration is an input function that gives a `DemoConfig`.
- The configuration text of each example page (`gen_examples.py:267-279`), sliced out of the configuration file, is not modelled. For that reason `Page` has no configuration parts.
- MakeCov.RunCovariance: the assertions that the custom callable is callable and that `noise_cov == "custom"` (`_06_make_cov.py:168-169`) belong to configuration validation and are not modelled.
- MakeCov.RunCovariance: `tmin, tmax = cfg.noise_cov` on a value that is not a pair is modelled as the error `NotAWindow`, not as Python's unpacking error.
- ExampleFeatures.GenDemonstratedFuncs: the fourteen assignments of the loop body are modelled as one loop over the fixed feature order. The keys, the order and the values are the same. Features whose Python value is a list or a float are modelled by their truthiness, which is all the icon shows.
- ExampleFeatures.UpperChTypes: `str.upper` is modelled on ASCII letters only.
- ExampleFeatures.ExamplesIndex: the feature dicts are given as the sequence of (name, features) pairs that `all_demonstrated.items()` yields.
- ImportMaxfilter.ErrorText: the "not unique" message contains the quoted search string. The Python `repr` of the list of found files that follows it is not rendered.
- ImportMaxfilter.Env: `make_bids_basename`, the glob, the set of mne-bids readers, the directories that already exist and `BIDS_VERSION` are parameters.
- Parallel execution (`parallel_func`, `get_parallel_backend`) is not modelled; the jobs are a sequence.
