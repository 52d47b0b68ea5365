/** The pipeline controller of `main()`: the guard that computes the `proceed`
    flag, the sequencing of the collaborator calls, and the selection of the
    notebooks handed to the downloader. Every collaborator (database handler,
    data loader, preprocessor, downloader, console, file system) is opaque: what
    it reports is an input (`Env`), what it is asked to do is an `Event` of the
    trace. */
module Controller {
  import opened Commands

  /** The collaborator calls after the guard, any of which may raise. */
  datatype Stage =
    | LoadStage | PreprocessStage | CreateDbStage | WriteStage | ForeignKeyStage
    | QueryStage | DownloadStage

  /** One observable step of a run, in the order the controller takes them. */
  datatype Event =
      // guard (read-only)
    | Connect                   // the database handler is constructed
    | CheckDb                   // db_exists()
    | AskConfirm                // the console prompt for `refresh`
    | ScanFolder                // the look into the notebook archive folder
      // data preparation
    | LoadData                  // DataLoader(...)
    | PreprocessTables          // MkPreprocessor(...).preprocess_mk()
    | CreateDb(dropIfExists: bool)
    | WriteTables
    | SetForeignKeys
      // notebook download
    | QueryIds                  // get_nb_identifiers(...)
    | ReleaseDb                 // the handler is dropped
    | DownloadNotebooks(ids: set<string>, strategy: Strategy)

  /** What the collaborators report during one run. `fault` names the stage
      whose collaborator raises, if any: the exception ends the run there. */
  datatype Env = Env(
    dbExists: bool,
    answer: string,
    folderNonEmpty: bool,
    dbIds: set<string>,
    fault: Option<Stage>)

  datatype Outcome = Completed | Raised(stage: Stage)

  /** The trace a run leaves and how it ended. */
  datatype Report = Report(trace: seq<Event>, outcome: Outcome)

  /** The events that touch the database handler. */
  predicate IsDbEvent(e: Event)
  {
    e.Connect? || e.CheckDb? || e.CreateDb? || e.WriteTables? || e.SetForeignKeys? || e.QueryIds?
  }

  /** The calls of the data preparation stage. */
  predicate IsPrepEvent(e: Event)
  {
    e.LoadData? || e.PreprocessTables? || e.CreateDb? || e.WriteTables? || e.SetForeignKeys?
  }

  /** Every event past the guard's read-only steps: the preparation calls, the
      identifier query, the drop of the handler and the downloader call. */
  predicate IsStageEvent(e: Event)
  {
    !(e.Connect? || e.CheckDb? || e.AskConfirm? || e.ScanFolder?)
  }

  function StageOf(e: Event): Option<Stage>
  {
    match e
    case LoadData => Some(LoadStage)
    case PreprocessTables => Some(PreprocessStage)
    case CreateDb(_) => Some(CreateDbStage)
    case WriteTables => Some(WriteStage)
    case SetForeignKeys => Some(ForeignKeyStage)
    case QueryIds => Some(QueryStage)
    case DownloadNotebooks(_, _) => Some(DownloadStage)
    case _ => None
  }

  predicate Raises(e: Event, fault: Option<Stage>)
  {
    fault.Some? && StageOf(e) == fault
  }

  /** No event of `t` raises. */
  ghost predicate Quiet(t: seq<Event>, fault: Option<Stage>)
  {
    forall i :: 0 <= i < |t| ==> !Raises(t[i], fault)
  }

  // ---------------------------------------------------------------------------
  // The guard

  /** `str.lower()` on the characters that can matter for the comparison with "yes":
      an upper-case ASCII letter becomes the same letter in lower case, and every
      other character is left alone. */
  function LowerChar(c: char): (r: char)
    ensures !('A' <= r <= 'Z')
    ensures 'A' <= c <= 'Z' ==> 'a' <= r <= 'z' && r as int - 'a' as int == c as int - 'A' as int
    ensures !('A' <= c <= 'Z') ==> r == c
  {
    if 'A' <= c <= 'Z' then (c as int + 32) as char else c
  }

  /** Lower-cases the answer character by character. */
  function Lower(s: string): (r: string)
    ensures |r| == |s|
    ensures forall i :: 0 <= i < |s| ==> r[i] == LowerChar(s[i])
  {
    if s == [] then [] else [LowerChar(s[0])] + Lower(s[1..])
  }

  /** The operator's answer confirms the re-initialisation. */
  predicate Confirmed(answer: string)
  {
    Lower(answer) == "yes"
  }

  /** The value of `proceed` once the database check is done, before the folder
      check: a missing database lets every command through; an existing one only
      a `refresh` that the operator confirms. */
  function DbVerdict(cmd: Command, dbExists: bool, answer: string): (r: bool)
    ensures !dbExists ==> r
    ensures dbExists ==> (r <==> cmd == Refresh && Confirmed(answer))
  {
    match cmd
    case Init => !dbExists
    case Refresh => !dbExists || Confirmed(answer)
    case Download => !dbExists
  }

  /** The final value of `proceed`, as a decision table over the four observations:
      the folder check comes after the database check and can only veto, and only
      for `init` and `download`. */
  function Decision(cmd: Command, dbExists: bool, answer: string, folderNonEmpty: bool): (r: bool)
    ensures r <==> DbVerdict(cmd, dbExists, answer) && !(folderNonEmpty && cmd != Refresh)
  {
    match cmd
    case Init => !dbExists && !folderNonEmpty
    case Refresh => !dbExists || Confirmed(answer)
    case Download => !dbExists && !folderNonEmpty
  }

  // ---------------------------------------------------------------------------
  // Dispatch selection

  /** The notebooks handed to the downloader: those known to the database that
      are also named by `--matching`. */
  function Dispatch(dbIds: set<string>, matching: seq<string>): (r: set<string>)
    ensures r <= dbIds
    ensures forall x :: x in r <==> x in dbIds && x in matching
  {
    dbIds * set x | x in matching
  }

  // ---------------------------------------------------------------------------
  // The planned trace and its truncation by a failing collaborator

  function GuardEvents(cmd: Command, dbExists: bool): seq<Event>
  {
    [Connect, CheckDb] + (if dbExists && cmd == Refresh then [AskConfirm] else []) + [ScanFolder]
  }

  const PrepEvents: seq<Event> := [LoadData, PreprocessTables, CreateDb(true), WriteTables, SetForeignKeys]

  function DownloadEvents(strategy: Strategy, ids: set<string>): seq<Event>
  {
    [QueryIds, ReleaseDb] + (if strategy == Skip then [] else [DownloadNotebooks(ids, strategy)])
  }

  /** The preparation calls a run plans: all five when the guard passed and the
      command is not `download`, none otherwise. */
  function PrepPlan(cmd: Command, env: Env): seq<Event>
  {
    if Decision(cmd, env.dbExists, env.answer, env.folderNonEmpty) && cmd != Download then PrepEvents else []
  }

  /** The download-stage calls a run plans: those of the stage when the guard passed. */
  function FetchPlan(cmd: Command, strategy: Strategy, matching: seq<string>, env: Env): seq<Event>
  {
    if Decision(cmd, env.dbExists, env.answer, env.folderNonEmpty) then DownloadEvents(strategy, Dispatch(env.dbIds, matching)) else []
  }

  /** Every event a run asks for when no collaborator raises. */
  function Planned(cmd: Command, strategy: Strategy, matching: seq<string>, env: Env): seq<Event>
  {
    GuardEvents(cmd, env.dbExists) + PrepPlan(cmd, env) + FetchPlan(cmd, strategy, matching, env)
  }

  /** A fault in one of the five preparation calls. */
  predicate PrepFault(fault: Option<Stage>)
  {
    fault.Some? && fault.value in {LoadStage, PreprocessStage, CreateDbStage, WriteStage, ForeignKeyStage}
  }

  /** Runs `plan` until a call raises: no exception is caught, retried or rolled
      back, so the run stops right after the raising call. */
  function Execute(plan: seq<Event>, fault: Option<Stage>): Report
  {
    if plan == [] then Report([], Completed)
    else if Raises(plan[0], fault) then Report([plan[0]], Raised(fault.value))
    else
      var rest := Execute(plan[1..], fault);
      Report([plan[0]] + rest.trace, rest.outcome)
  }

  /** The specification of one run of `main()`. */
  function Run(cmd: Command, strategy: Strategy, matching: seq<string>, env: Env): Report
  {
    Execute(Planned(cmd, strategy, matching, env), env.fault)
  }

  /** One call of a plan: if it raises the run ends with it, otherwise the rest
      of the plan follows. */
  lemma ExecuteStep(plan: seq<Event>, fault: Option<Stage>)
    requires plan != []
    ensures Execute(plan, fault) ==
      if Raises(plan[0], fault) then Report([plan[0]], Raised(fault.value))
      else Report([plan[0]] + Execute(plan[1..], fault).trace, Execute(plan[1..], fault).outcome)
  {
  }

  /** A run leaves a prefix of its plan; it completes exactly when no call raises,
      and then it has made every call; otherwise the last call made is the first
      one that raised. */
  lemma {:induction false} ExecuteShape(plan: seq<Event>, fault: Option<Stage>)
    ensures var r := Execute(plan, fault);
      && |r.trace| <= |plan| && r.trace == plan[..|r.trace|]
      && (r.outcome.Completed? <==> Quiet(plan, fault))
      && (r.outcome.Completed? ==> r.trace == plan)
      && (r.outcome.Raised? ==>
            && fault == Some(r.outcome.stage)
            && |r.trace| > 0
            && Raises(r.trace[|r.trace| - 1], fault)
            && Quiet(r.trace[..|r.trace| - 1], fault))
  {
    if plan != [] && !Raises(plan[0], fault) {
      var r, rest := Execute(plan, fault), Execute(plan[1..], fault);
      ExecuteShape(plan[1..], fault);
      assert r.trace == [plan[0]] + rest.trace;
      assert Quiet(plan, fault) <==> Quiet(plan[1..], fault) by {
        if Quiet(plan[1..], fault) {
          forall i | 0 <= i < |plan| ensures !Raises(plan[i], fault) {
            if i > 0 { assert plan[i] == plan[1..][i - 1]; }
          }
        }
      }
      if r.outcome.Raised? {
        assert r.trace[..|r.trace| - 1] == [plan[0]] + rest.trace[..|rest.trace| - 1];
      }
    }
  }

  /** A completed run has made every call of its plan (the completed case of
      `ExecuteShape`, on its own, for proofs that need only that). */
  lemma {:induction false} ExecuteCompleted(plan: seq<Event>, fault: Option<Stage>)
    ensures Execute(plan, fault).outcome.Completed? ==> Execute(plan, fault).trace == plan
  {
    if plan != [] && !Raises(plan[0], fault) {
      ExecuteCompleted(plan[1..], fault);
    }
  }

  /** A run makes only calls of its plan. */
  lemma {:induction false} ExecuteWithinPlan(plan: seq<Event>, fault: Option<Stage>)
    ensures forall e :: e in Execute(plan, fault).trace ==> e in plan
  {
    if plan != [] && !Raises(plan[0], fault) {
      ExecuteWithinPlan(plan[1..], fault);
    }
  }

  /** A plan with a raising call does not complete. */
  lemma {:induction false} ExecuteRaisesSomewhere(plan: seq<Event>, fault: Option<Stage>, i: nat)
    requires i < |plan| && Raises(plan[i], fault)
    ensures Execute(plan, fault).outcome == Raised(fault.value)
  {
    if i > 0 && !Raises(plan[0], fault) {
      ExecuteRaisesSomewhere(plan[1..], fault, i - 1);
    }
  }

  /** Running two call sequences one after the other: the second starts only
      if the first completed. */
  lemma {:induction false} ExecuteAppend(a: seq<Event>, b: seq<Event>, fault: Option<Stage>)
    ensures Execute(a + b, fault) ==
      if Execute(a, fault).outcome.Completed?
      then Report(a + Execute(b, fault).trace, Execute(b, fault).outcome)
      else Execute(a, fault)
  {
    if a != [] {
      assert (a + b)[0] == a[0];
      assert (a + b)[1..] == a[1..] + b;
      ExecuteAppend(a[1..], b, fault);
      if !Raises(a[0], fault) && Execute(a, fault).outcome.Completed? {
        assert [a[0]] + (a[1..] + Execute(b, fault).trace) == a + Execute(b, fault).trace;
      }
    } else {
      assert a + b == b;
    }
  }

  /** The guard's calls are not modelled as raising. */
  lemma GuardNeverRaises(cmd: Command, dbExists: bool, fault: Option<Stage>)
    ensures Execute(GuardEvents(cmd, dbExists), fault) == Report(GuardEvents(cmd, dbExists), Completed)
  {
    var g := GuardEvents(cmd, dbExists);
    ExecuteStep(g, fault);
    ExecuteStep(g[1..], fault);
    ExecuteStep(g[2..], fault);
    assert g[2..][1..] == g[3..];
    if |g| == 4 {
      ExecuteStep(g[3..], fault);
      assert g[3..][1..] == [];
    } else {
      assert g[2..][1..] == [];
    }
  }

  /** The guard always completes, so a run is the guard followed by the rest of the plan. */
  lemma RunAfterGuard(cmd: Command, strategy: Strategy, matching: seq<string>, env: Env)
    ensures var guard, later := GuardEvents(cmd, env.dbExists), PrepPlan(cmd, env) + FetchPlan(cmd, strategy, matching, env);
      var rest := Execute(later, env.fault);
      Run(cmd, strategy, matching, env) == Report(guard + rest.trace, rest.outcome)
  {
    var guard, later := GuardEvents(cmd, env.dbExists), PrepPlan(cmd, env) + FetchPlan(cmd, strategy, matching, env);
    assert Planned(cmd, strategy, matching, env) == guard + later;
    GuardNeverRaises(cmd, env.dbExists, env.fault);
    ExecuteAppend(guard, later, env.fault);
  }

  /** When the preparation stage applies, a run is the guard, the preparation
      stage, and the download stage unless preparation raised. */
  lemma RunWithPreparation(cmd: Command, strategy: Strategy, matching: seq<string>, env: Env)
    requires Decision(cmd, env.dbExists, env.answer, env.folderNonEmpty) && cmd != Download
    ensures
      var guard, prep := GuardEvents(cmd, env.dbExists), Execute(PrepEvents, env.fault);
      var fetch := Execute(DownloadEvents(strategy, Dispatch(env.dbIds, matching)), env.fault);
      Run(cmd, strategy, matching, env) ==
        if prep.outcome.Raised? then Report(guard + prep.trace, prep.outcome)
        else Report(guard + prep.trace + fetch.trace, fetch.outcome)
  {
    var guard := GuardEvents(cmd, env.dbExists);
    var d := DownloadEvents(strategy, Dispatch(env.dbIds, matching));
    var prep, fetch := Execute(PrepEvents, env.fault), Execute(d, env.fault);
    assert PrepPlan(cmd, env) + FetchPlan(cmd, strategy, matching, env) == PrepEvents + d;
    RunAfterGuard(cmd, strategy, matching, env);
    ExecuteAppend(PrepEvents, d, env.fault);
    ExecuteCompleted(PrepEvents, env.fault);
    assert guard + (PrepEvents + fetch.trace) == guard + PrepEvents + fetch.trace;
  }

  /** A run is the guard, then the preparation stage if it applies, then the
      download stage if the guard passed and the preparation did not raise. */
  lemma RunByStages(cmd: Command, strategy: Strategy, matching: seq<string>, env: Env)
    ensures
      var proceed := Decision(cmd, env.dbExists, env.answer, env.folderNonEmpty);
      var guard := GuardEvents(cmd, env.dbExists);
      var prep := if proceed && cmd != Download then Execute(PrepEvents, env.fault) else Report([], Completed);
      var fetch := Execute(DownloadEvents(strategy, Dispatch(env.dbIds, matching)), env.fault);
      Run(cmd, strategy, matching, env) ==
        if !proceed then Report(guard, Completed)
        else if prep.outcome.Raised? then Report(guard + prep.trace, prep.outcome)
        else Report(guard + prep.trace + fetch.trace, fetch.outcome)
  {
    var proceed := Decision(cmd, env.dbExists, env.answer, env.folderNonEmpty);
    var guard := GuardEvents(cmd, env.dbExists);
    if !proceed {
      RunAfterGuard(cmd, strategy, matching, env);
      assert PrepPlan(cmd, env) + FetchPlan(cmd, strategy, matching, env) == [];
      assert guard + [] == guard;
    } else if cmd == Download {
      RunAfterGuard(cmd, strategy, matching, env);
      assert PrepPlan(cmd, env) + FetchPlan(cmd, strategy, matching, env) == DownloadEvents(strategy, Dispatch(env.dbIds, matching));
      assert guard + [] == guard;
    } else {
      RunWithPreparation(cmd, strategy, matching, env);
    }
  }

  // ---------------------------------------------------------------------------
  // The controller

  /** The database check of `main()`: `proceed` starts false; an existing database
      keeps it false for `init` and `download` and asks the operator for `refresh`;
      a missing one sets it. */
  method CheckDatabase(cmd: Command, dbExists: bool, answer: string) returns (proceed: bool, events: seq<Event>)
    ensures proceed == DbVerdict(cmd, dbExists, answer)
    ensures events == [CheckDb] + (if dbExists && cmd == Refresh then [AskConfirm] else [])
  {
    proceed := false;
    events := [CheckDb];
    if dbExists {
      if cmd == Init {
        proceed := false;
      }
      if cmd == Refresh {
        events := events + [AskConfirm];
        if Lower(answer) == "yes" {
          proceed := true;
        } else {
          proceed := false;
        }
      }
      // `download` only reports that the database exists
    } else {
      proceed := true;
    }
  }

  /** The guard of `main()`: connect, check the database, then veto `init` and
      `download` when the archive folder already holds something. */
  method Guard(cmd: Command, env: Env) returns (proceed: bool, events: seq<Event>)
    ensures proceed == Decision(cmd, env.dbExists, env.answer, env.folderNonEmpty)
    ensures events == GuardEvents(cmd, env.dbExists)
  {
    var checked;
    proceed, checked := CheckDatabase(cmd, env.dbExists, env.answer);
    events := [Connect] + checked + [ScanFolder];
    if env.folderNonEmpty && (cmd == Init || cmd == Download) {
      proceed := false;
    }
  }

  /** The data preparation stage: load, preprocess, re-create the database, write
      the tables, apply the foreign keys; the first call that raises ends it. */
  method PrepareData(fault: Option<Stage>) returns (events: seq<Event>, outcome: Outcome)
    ensures Report(events, outcome) == Execute(PrepEvents, fault)
  {
    ghost var todo := PrepEvents;
    events := [];

    ExecuteStep(todo, fault);
    if Raises(LoadData, fault) {
      return events + [LoadData], Raised(LoadStage);
    }
    events, todo := events + [LoadData], todo[1..];

    ExecuteStep(todo, fault);
    if Raises(PreprocessTables, fault) {
      return events + [PreprocessTables], Raised(PreprocessStage);
    }
    events, todo := events + [PreprocessTables], todo[1..];

    ExecuteStep(todo, fault);
    if Raises(CreateDb(true), fault) {
      return events + [CreateDb(true)], Raised(CreateDbStage);
    }
    events, todo := events + [CreateDb(true)], todo[1..];

    ExecuteStep(todo, fault);
    if Raises(WriteTables, fault) {
      return events + [WriteTables], Raised(WriteStage);
    }
    events, todo := events + [WriteTables], todo[1..];

    ExecuteStep(todo, fault);
    if Raises(SetForeignKeys, fault) {
      return events + [SetForeignKeys], Raised(ForeignKeyStage);
    }
    events, todo := events + [SetForeignKeys], todo[1..];
    outcome := Completed;
  }

  /** The notebook download stage: query the identifiers, drop the database
      handler, then (unless the strategy is SKIP) hand the selected notebooks to
      the downloader. */
  method FetchNotebooks(strategy: Strategy, matching: seq<string>, dbIds: set<string>, fault: Option<Stage>)
    returns (events: seq<Event>, outcome: Outcome)
    ensures Report(events, outcome) == Execute(DownloadEvents(strategy, Dispatch(dbIds, matching)), fault)
  {
    ghost var todo := DownloadEvents(strategy, Dispatch(dbIds, matching));
    events := [];

    ExecuteStep(todo, fault);
    if Raises(QueryIds, fault) {
      return events + [QueryIds], Raised(QueryStage);
    }
    var nbIdentifiers := dbIds;
    events, todo := events + [QueryIds], todo[1..];

    ExecuteStep(todo, fault);
    events, todo := events + [ReleaseDb], todo[1..];

    outcome := Completed;
    if strategy != Skip {
      var selected := Dispatch(nbIdentifiers, matching);
      ExecuteStep(todo, fault);
      if Raises(DownloadNotebooks(selected, strategy), fault) {
        return events + [DownloadNotebooks(selected, strategy)], Raised(DownloadStage);
      }
      events, todo := events + [DownloadNotebooks(selected, strategy)], todo[1..];
    }
  }

  /** One run of `main()` after argument parsing. */
  method RunPipeline(cmd: Command, strategy: Strategy, matching: seq<string>, env: Env)
    returns (proceed: bool, trace: seq<Event>, outcome: Outcome)
    ensures proceed == Decision(cmd, env.dbExists, env.answer, env.folderNonEmpty)
    ensures Report(trace, outcome) == Run(cmd, strategy, matching, env)
  {
    RunByStages(cmd, strategy, matching, env);
    proceed, trace := Guard(cmd, env);
    outcome := Completed;

    if proceed && cmd != Download {
      var events;
      events, outcome := PrepareData(env.fault);
      trace := trace + events;
      if outcome.Raised? {
        return;
      }
    }

    if proceed {
      var events;
      events, outcome := FetchNotebooks(strategy, matching, env.dbIds, env.fault);
      trace := trace + events;
    }
  }
}
