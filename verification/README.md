# KGTorrent pipeline controller, modelled in Dafny

KGTorrent builds a relational database from a Meta Kaggle dump and downloads the
Kaggle notebooks it references into a local archive. Its entry point, `main()`
in `KGTorrent/kgtorrent.py`, is the controller this project models:

- **the guard** computes the `proceed` flag from the command (`init`, `refresh`,
  `download`), whether the database already exists, the operator's answer to the
  re-initialisation prompt, and whether the notebook archive folder holds anything;
- **stage sequencing** decides which collaborator calls happen and in what
  order: data loading, preprocessing, `create_new_db(drop_if_exists=True)`,
  `write_tables`, `set_foreign_keys`, `get_nb_identifiers`, dropping the database
  handler, and the downloader;
- **dispatch selection** hands the downloader the identifiers that are both in
  the database and in the `--matching` list, unless the strategy is `SKIP`.

Every collaborator is opaque. What it reports is an input (`Controller.Env`: the
database's existence, the operator's answer, the folder's emptiness, the
identifiers the database returns, and optionally the stage whose collaborator
raises). What the controller asks of it is an `Event` appended to a trace.

Files:

- `commands.dfy` (module `Commands`): the closed command and strategy
  enumerations, `Commands.commands()`, and argparse's `choices` validation.
- `controller.dfy` (module `Controller`):
  - the guard's decision table (`Decision`, with `DbVerdict` for the state after
    the database check);
  - `Dispatch`;
  - the planned trace (`Planned`) and its truncation by a raising collaborator
    (`Execute`), which together give the specification `Run` of one run;
  - the imperative controller: `CheckDatabase`, `Guard`, `PrepareData`,
    `FetchNotebooks` and `RunPipeline`. `RunPipeline` models `main()`: it
    updates `proceed` step by step, appends to the trace, and is proved to
    follow `Run`.
- `properties.dfy` (module `Properties`): the guarantees of the controller,
  stated over `Run` and `Decision`.

The model follows the code where the code and its own messages or help text
point different ways:

- `download` against an existing database never proceeds. `proceed` starts
  false (line 111), and that branch only prints that the notebooks will be
  downloaded (lines 127-128). See `Properties.DownloadOnExistingDbAborts`.
- An empty `--matching` list selects no notebook. The downloader is still
  invoked, with the empty selection (line 194). The option's help text says that
  all notebooks are downloaded in that case (lines 84-86). See
  `Properties.EmptyMatchingStillInvokesDownloader`.
- A guard abort does not stop the process with an error: `main()` falls through
  to its normal end (lines 201-202). The model's outcome is `Completed` with a
  trace holding only the guard's reads.
- `download` against a missing database passes the database check (lines
  130-131), and the guard too when the archive folder is empty. It can then fail
  only at the identifier query. In the model that failure is an input: a fault at
  `QueryStage`.

## Model

| member | source | states |
|---|---|---|
| Commands.CommandNames | KGTorrent/kgtorrent.py:28-35 | `Commands.commands()` lists the three command names, each once, in the order init, refresh, download |
| Commands.Name | KGTorrent/kgtorrent.py:29-31 | each command has its own class constant: "init" names exactly `init`, "refresh" exactly `refresh`, "download" exactly `download` |
| Commands.ParseCommand | KGTorrent/kgtorrent.py:54-63 | a command string is accepted exactly when it is one of `Commands.commands()`, and then it names the command it parses to |
| Commands.StrategyName | KGTorrent/kgtorrent.py:65-75 | each strategy has its own name among the `--strategy` choices: "API", "HTTP" and "SKIP" each name exactly one strategy |
| Commands.ParseStrategy | KGTorrent/kgtorrent.py:65-75 | an absent `--strategy` means HTTP; a given one is accepted exactly when it is API, HTTP or SKIP, and parses to the strategy of that name |
| Commands.ParseCommandName | KGTorrent/kgtorrent.py:54-63 | parsing a command's name gives the command back |
| Commands.ParseStrategyName | KGTorrent/kgtorrent.py:65-75 | parsing a strategy's name gives the strategy back |
| Controller.LowerChar | KGTorrent/kgtorrent.py:123 | lower-casing leaves no upper-case ASCII letter: an upper-case letter becomes the same letter in lower case, and every other character is unchanged |
| Controller.Lower | KGTorrent/kgtorrent.py:123 | the lower-cased answer has the answer's length and lower-cases it character by character |
| Controller.DbVerdict | KGTorrent/kgtorrent.py:111-131 | after the database check, a missing database lets every command through, and an existing one only a `refresh` whose answer lower-cases to "yes" |
| Controller.Decision | KGTorrent/kgtorrent.py:111-138 | the final `proceed` is the database check's verdict, vetoed by a non-empty archive folder for every command but `refresh` |
| Controller.Dispatch | KGTorrent/kgtorrent.py:194 | the selection holds exactly the identifiers that are both returned by the database and named by `--matching` |
| Controller.Planned | KGTorrent/kgtorrent.py:100-199 | the calls a run plans: the guard's reads, then the five preparation calls when `proceed` holds and the command is not `download`, then the query, the handler drop and (unless SKIP) the downloader when `proceed` holds |
| Controller.Execute | KGTorrent/kgtorrent.py:141-199 | no collaborator exception is caught: a run makes its planned calls in order and stops right after the first one that raises |
| Controller.Run | KGTorrent/kgtorrent.py:100-199 | one run of `main()` after argument parsing: the planned calls, cut short by the collaborator that raises, if any |
| Controller.ExecuteShape | KGTorrent/kgtorrent.py:141-199 | with no exception handling, a run makes a prefix of its planned calls. It completes iff no call raises, and then it has made them all. Otherwise its last call is the first one that raised |
| Controller.ExecuteWithinPlan | KGTorrent/kgtorrent.py:141-199 | a run makes no call outside its plan |
| Controller.ExecuteRaisesSomewhere | KGTorrent/kgtorrent.py:141-199 | a plan holding a raising call ends with that stage's exception |
| Controller.ExecuteAppend | KGTorrent/kgtorrent.py:141-199 | two call sequences run back to back: the second starts only if the first completed |
| Controller.GuardNeverRaises | KGTorrent/kgtorrent.py:100-138 | the guard's reads always complete (their exceptions are not modelled) |
| Controller.RunAfterGuard | KGTorrent/kgtorrent.py:111-199 | a run is the guard's reads followed by the run of the calls planned after the guard |
| Controller.RunWithPreparation | KGTorrent/kgtorrent.py:141-199 | when the preparation stage applies, a run is the guard, the preparation stage, and the download stage only if preparation did not raise |
| Controller.RunByStages | KGTorrent/kgtorrent.py:141-199 | a run is the guard, then the preparation stage when it applies, then the download stage unless the guard failed or preparation raised |
| Controller.CheckDatabase | KGTorrent/kgtorrent.py:111-131 | after the database check, `proceed` equals the verdict table: true without a database; with one, only `refresh` with a confirming answer. The prompt is issued only for `refresh` on an existing database |
| Controller.Guard | KGTorrent/kgtorrent.py:111-138 | the final `proceed` equals the guard's decision table, and the guard's reads are connect, existence check, optional prompt, folder scan |
| Controller.PrepareData | KGTorrent/kgtorrent.py:141-171 | the preparation stage makes load, preprocess, create (drop if exists), write, foreign keys in that order, stopping at the first call that raises |
| Controller.FetchNotebooks | KGTorrent/kgtorrent.py:174-199 | the download stage queries the identifiers, drops the handler, and unless SKIP invokes the downloader with the dispatch selection and the strategy; it stops at a raising call |
| Controller.RunPipeline | KGTorrent/kgtorrent.py:111-199 | `proceed` equals the guard's decision table, and the trace and outcome equal the specification `Run` of the whole run |
| Properties.RunIsPrefixOfPlan | KGTorrent/kgtorrent.py:141-199 | every run's trace is a prefix of its planned calls |
| Properties.RunWithinPlan | KGTorrent/kgtorrent.py:141-199 | a run makes only planned calls |
| Properties.RunStartsWithGuard | KGTorrent/kgtorrent.py:100-138 | every run begins with all of the guard's reads |
| Properties.FaultFreeRunIsPlan | KGTorrent/kgtorrent.py:141-199 | with no raising collaborator a run makes every planned call and completes |
| Properties.FailureEndsRun | KGTorrent/kgtorrent.py:141-199 | a raised run names the faulty stage, its last call is of that stage, and no earlier call is |
| Properties.PreparationFailureSkipsDownload | KGTorrent/kgtorrent.py:141-183 | an exception in a preparation call ends the run: no identifier query, handler drop or download follows |
| Properties.PreparationOutcome | KGTorrent/kgtorrent.py:141-167 | the preparation stage ends with an exception exactly when one of its five calls raises, and otherwise makes all five |
| Properties.DownloadStageOutcome | KGTorrent/kgtorrent.py:174-199 | the download stage ends at once when the identifier query raises; otherwise it makes the query, the handler drop and, unless SKIP, the downloader call, and raises exactly when the downloader does |
| Properties.PreparationTrace | KGTorrent/kgtorrent.py:141-167 | the preparation stage always begins with loading the data, makes only preparation calls, and makes all five unless one of them raises |
| Properties.RunTrace | KGTorrent/kgtorrent.py:141-199 | a run's trace is the guard's reads, the preparation calls made when the stage applies, and the download-stage calls: none if the guard failed or preparation raised, only the query if it raised, otherwise the whole stage |
| Properties.AbortMakesNoStageCall | KGTorrent/kgtorrent.py:141-199 | when the guard decides against proceeding, the run holds only the guard's reads and completes |
| Properties.InitOnExistingDbAborts | KGTorrent/kgtorrent.py:114-118 | `init` on an existing database never proceeds, whatever the folder holds, and makes no call past the guard |
| Properties.DownloadOnExistingDbAborts | KGTorrent/kgtorrent.py:127-128 | `download` on an existing database leaves `proceed` false and makes no call past the guard |
| Properties.LowerCharLetters | KGTorrent/kgtorrent.py:123 | only 'y'/'Y', 'e'/'E', 's'/'S' lower-case to 'y', 'e', 's' |
| Properties.RefreshOnExistingDbAsks | KGTorrent/kgtorrent.py:119-126 | `refresh` on an existing database proceeds iff the answer is three characters spelling yes in any case; the empty answer declines; the folder plays no part |
| Properties.AskedOnlyOnRefreshOfExistingDb | KGTorrent/kgtorrent.py:119-122 | the operator is prompted iff the command is `refresh` and the database exists |
| Properties.NonEmptyFolderVetoes | KGTorrent/kgtorrent.py:134-138 | a non-empty archive folder stops `init` and `download` whatever the database says |
| Properties.FolderNeverVetoesRefresh | KGTorrent/kgtorrent.py:135 | the folder's state never changes the decision for `refresh` |
| Properties.PreparationRunsIff | KGTorrent/kgtorrent.py:141-167 | for any collaborator exception, data loading happens iff `proceed` holds and the command is not `download`; when no preparation call raises, the five preparation calls directly follow the guard in order |
| Properties.PreparationCallsOnce | KGTorrent/kgtorrent.py:141-167 | in a run where no preparation call raises (the download stage may), each preparation call occurs exactly once when the stage runs and never otherwise |
| Properties.DownloadStageRunsIff | KGTorrent/kgtorrent.py:141-196 | for any collaborator exception: the identifier query happens iff `proceed` holds and no preparation call raised; the handler drop iff moreover the query did not raise; the downloader call with the dispatch selection iff moreover the strategy is not SKIP |
| Properties.PlanOrder | KGTorrent/kgtorrent.py:141-199 | in the plan the handler drop directly follows the identifier query, every preparation call precedes the query, no call on the database handler follows the drop, and the downloader call directly follows the drop |
| Properties.RunOrder | KGTorrent/kgtorrent.py:141-199 | the same four ordering facts hold of every run, whatever raised: in particular the handler is dropped before the downloader runs |
| Properties.DownloadCommandNeverPrepares | KGTorrent/kgtorrent.py:141 | `download` never loads, preprocesses, re-creates, writes or constrains the database |
| Properties.DownloadsCarryDispatch | KGTorrent/kgtorrent.py:193-196 | every downloader invocation carries exactly the dispatch selection and the chosen strategy, which is not SKIP |
| Properties.SkipNeverDownloads | KGTorrent/kgtorrent.py:193-199 | with SKIP the downloader is never invoked |
| Properties.EmptyMatchingSelectsNothing | KGTorrent/kgtorrent.py:194 | an empty `--matching` list selects no identifier |
| Properties.EmptyMatchingStillInvokesDownloader | KGTorrent/kgtorrent.py:193-196 | with an empty `--matching`, the downloader is invoked with the empty selection exactly when the guard passes, no preparation call and no identifier query raised, and the strategy is not SKIP |
| Properties.DispatchExample | KGTorrent/kgtorrent.py:194 | identifiers {a, b, c} and matching [b, c, d] select {b, c} |
| Properties.DispatchIgnoresOrderAndRepeats | KGTorrent/kgtorrent.py:194 | the selection depends only on which identifiers `--matching` names, not on their order or repeats |
| Properties.InitFromScratchWithSkip | KGTorrent/kgtorrent.py:111-199 | no database, an empty folder, `init` with SKIP: the guard's reads, the five preparation calls in order, the query and the handler drop, no download, and the run completes |

## Left out

- Argument parsing beyond `choices`: the parser's construction, usage and help
  text, and the process exit on a usage error. Commands and strategies are
  closed datatypes, and `ParseCommand`/`ParseStrategy` model the accepted values.
- All printed output, including the module-level print of the command list,
  the statistics and the identifiers; `time.sleep` and the timing in `entry()`.
  These are console I/O and wall-clock.
- The internals of the database handler, data loader, preprocessor, downloader
  and configuration. They are not part of this model and appear only as trace
  events and observations. The language filter passed to `get_nb_identifiers` is
  folded into the identifiers the database returns.
- The set of registered download strategies comes from `DownloadStrategies`,
  which is not part of this model, and the string values of its `API` and `HTTP`
  constants do not appear in the source. The model assumes they are "API" and
  "HTTP"; the only literal evidence is the option's default, "HTTP" (line 70).
- The folder scan and the console read are replaced by a boolean and a string
  input.
- Controller.GuardNeverRaises: exceptions raised while constructing the
  database handler, checking existence, reading the console or scanning the folder
  are not modelled. Only the collaborator calls after the guard can raise.
- The release of the loader and preprocessor objects (`del`) is a memory concern
  and is not modelled. Dropping the database handler is the `ReleaseDb` event.
- The downloader receives a list built from a set, in unspecified order. The
  model passes the set.
- Controller.LowerChar: lower-cases ASCII letters only, where Python's
  `str.lower` maps all of Unicode. For the comparison with "yes" this makes no
  difference: only 'Y', 'E' and 'S' lower-case to 'y', 'e' and 's'.
- Controller.Lower: built on `LowerChar`, so it shares that restriction to ASCII.
- The controller is single-threaded. Concurrent runs against one database are
  outside the model.
