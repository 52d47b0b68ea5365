/** What the controller of `main()` guarantees, stated over the specification
    `Run` of one run (which `Controller.RunPipeline` is proved to follow) and over the
    guard's decision table. */
module Properties {
  import opened Commands
  import opened Controller

  // ---------------------------------------------------------------------------
  // Runs follow their plan

  /** A run makes a prefix of the planned calls. */
  lemma RunIsPrefixOfPlan(cmd: Command, strategy: Strategy, matching: seq<string>, env: Env)
    ensures var r, p := Run(cmd, strategy, matching, env), Planned(cmd, strategy, matching, env);
      |r.trace| <= |p| && r.trace == p[..|r.trace|]
  {
    ExecuteShape(Planned(cmd, strategy, matching, env), env.fault);
  }

  /** A run makes only planned calls. */
  lemma RunWithinPlan(cmd: Command, strategy: Strategy, matching: seq<string>, env: Env)
    ensures forall e :: e in Run(cmd, strategy, matching, env).trace ==> e in Planned(cmd, strategy, matching, env)
  {
    ExecuteWithinPlan(Planned(cmd, strategy, matching, env), env.fault);
  }

  /** Every run starts with all of the guard's reads. */
  lemma RunStartsWithGuard(cmd: Command, strategy: Strategy, matching: seq<string>, env: Env)
    ensures var t, g := Run(cmd, strategy, matching, env).trace, GuardEvents(cmd, env.dbExists);
      |g| <= |t| && t[..|g|] == g
  {
    RunByStages(cmd, strategy, matching, env);
  }

  /** When no collaborator raises, a run makes every planned call. */
  lemma FaultFreeRunIsPlan(cmd: Command, strategy: Strategy, matching: seq<string>, env: Env)
    requires env.fault.None?
    ensures Run(cmd, strategy, matching, env) == Report(Planned(cmd, strategy, matching, env), Completed)
  {
    var p := Planned(cmd, strategy, matching, env);
    ExecuteShape(p, env.fault);
    assert Quiet(p, env.fault);
  }

  /** A collaborator exception ends the run at the call that raised: nothing is
      retried and nothing runs after it. */
  lemma FailureEndsRun(cmd: Command, strategy: Strategy, matching: seq<string>, env: Env)
    ensures var r := Run(cmd, strategy, matching, env);
      r.outcome.Raised? ==>
        && env.fault == Some(r.outcome.stage)
        && |r.trace| > 0
        && StageOf(r.trace[|r.trace| - 1]) == env.fault
        && forall i :: 0 <= i < |r.trace| - 1 ==> StageOf(r.trace[i]) != env.fault
  {
    var r := Run(cmd, strategy, matching, env);
    ExecuteShape(Planned(cmd, strategy, matching, env), env.fault);
    if r.outcome.Raised? {
      forall i | 0 <= i < |r.trace| - 1 ensures StageOf(r.trace[i]) != env.fault {
        assert r.trace[..|r.trace| - 1][i] == r.trace[i];
      }
    }
  }

  /** A failing preparation call leaves the database handler in place: neither
      the identifier query nor any download follows. */
  lemma PreparationFailureSkipsDownload(cmd: Command, strategy: Strategy, matching: seq<string>, env: Env)
    requires Decision(cmd, env.dbExists, env.answer, env.folderNonEmpty) && cmd != Download
    requires PrepFault(env.fault)
    ensures Run(cmd, strategy, matching, env).outcome == Raised(env.fault.value)
    ensures forall e :: e in Run(cmd, strategy, matching, env).trace ==> !(e.QueryIds? || e.ReleaseDb? || e.DownloadNotebooks?)
  {
    var guard, prep := GuardEvents(cmd, env.dbExists), Execute(PrepEvents, env.fault);
    PreparationOutcome(env.fault);
    RunByStages(cmd, strategy, matching, env);
    assert Run(cmd, strategy, matching, env) == Report(guard + prep.trace, prep.outcome);
    ExecuteWithinPlan(PrepEvents, env.fault);
    forall e | e in guard + prep.trace ensures !(e.QueryIds? || e.ReleaseDb? || e.DownloadNotebooks?) {
      assert e in guard || e in PrepEvents;
    }
  }

  /** The preparation stage raises exactly when one of its five calls does, and
      otherwise makes all five. */
  lemma PreparationOutcome(fault: Option<Stage>)
    ensures Execute(PrepEvents, fault).outcome == if PrepFault(fault) then Raised(fault.value) else Completed
    ensures !PrepFault(fault) ==> Execute(PrepEvents, fault).trace == PrepEvents
  {
    ExecuteShape(PrepEvents, fault);
    if PrepFault(fault) {
      assert Raises(PrepEvents[StagePosition(fault.value)], fault);
      ExecuteRaisesSomewhere(PrepEvents, fault, StagePosition(fault.value));
    } else {
      assert Quiet(PrepEvents, fault);
    }
  }

  /** Where the call of a preparation stage sits in the stage. */
  function StagePosition(s: Stage): (i: nat)
    requires s in {LoadStage, PreprocessStage, CreateDbStage, WriteStage, ForeignKeyStage}
    ensures i < |PrepEvents| && StageOf(PrepEvents[i]) == Some(s)
  {
    match s
    case LoadStage => 0
    case PreprocessStage => 1
    case CreateDbStage => 2
    case WriteStage => 3
    case ForeignKeyStage => 4
  }

  /** The download stage: a failing identifier query ends it at once; otherwise
      the query and the drop of the handler are made, and the downloader, unless
      SKIP; the stage raises exactly when one of its calls made does. */
  lemma DownloadStageOutcome(strategy: Strategy, ids: set<string>, fault: Option<Stage>)
    ensures Execute(DownloadEvents(strategy, ids), fault) ==
      if fault == Some(QueryStage) then Report([QueryIds], Raised(QueryStage))
      else if fault == Some(DownloadStage) && strategy != Skip then Report(DownloadEvents(strategy, ids), Raised(DownloadStage))
      else Report(DownloadEvents(strategy, ids), Completed)
  {
    var d := DownloadEvents(strategy, ids);
    ExecuteStep(d, fault);
    ExecuteStep(d[1..], fault);
    if strategy != Skip {
      ExecuteStep(d[2..], fault);
      assert d[2..][1..] == [];
    } else {
      assert d[1..][1..] == [];
    }
  }

  // ---------------------------------------------------------------------------
  // The guard

  /** When the guard decides against proceeding, the run stops after the guard's
      own reads: nothing is loaded, written or downloaded. */
  lemma AbortMakesNoStageCall(cmd: Command, strategy: Strategy, matching: seq<string>, env: Env)
    requires !Decision(cmd, env.dbExists, env.answer, env.folderNonEmpty)
    ensures Run(cmd, strategy, matching, env) == Report(GuardEvents(cmd, env.dbExists), Completed)
  {
    RunByStages(cmd, strategy, matching, env);
  }

  /** `init` against an existing database never proceeds, whatever the folder holds. */
  lemma InitOnExistingDbAborts(strategy: Strategy, matching: seq<string>, env: Env)
    requires env.dbExists
    ensures !Decision(Init, env.dbExists, env.answer, env.folderNonEmpty)
    ensures Run(Init, strategy, matching, env) == Report([Connect, CheckDb, ScanFolder], Completed)
  {
    AbortMakesNoStageCall(Init, strategy, matching, env);
  }

  /** `download` against an existing database leaves `proceed` at its initial
      false: no identifier is queried and nothing is downloaded. */
  lemma DownloadOnExistingDbAborts(strategy: Strategy, matching: seq<string>, env: Env)
    requires env.dbExists
    ensures !Decision(Download, env.dbExists, env.answer, env.folderNonEmpty)
    ensures Run(Download, strategy, matching, env) == Report([Connect, CheckDb, ScanFolder], Completed)
  {
    AbortMakesNoStageCall(Download, strategy, matching, env);
  }

  /** Lower-casing maps a character to 'y', 'e' or 's' only from that letter in
      either case. */
  lemma LowerCharLetters(c: char)
    ensures LowerChar(c) == 'y' <==> c == 'y' || c == 'Y'
    ensures LowerChar(c) == 'e' <==> c == 'e' || c == 'E'
    ensures LowerChar(c) == 's' <==> c == 's' || c == 'S'
  {
  }

  /** `refresh` against an existing database proceeds exactly when the answer is
      "yes" in any mix of cases; the empty answer declines, and the folder is
      never looked at. */
  lemma RefreshOnExistingDbAsks(answer: string, folderNonEmpty: bool)
    ensures Decision(Refresh, true, answer, folderNonEmpty) <==>
      |answer| == 3 && answer[0] in "yY" && answer[1] in "eE" && answer[2] in "sS"
    ensures !Decision(Refresh, true, "", folderNonEmpty)
  {
  }

  /** Only `refresh` against an existing database prompts the operator. */
  lemma AskedOnlyOnRefreshOfExistingDb(cmd: Command, strategy: Strategy, matching: seq<string>, env: Env)
    ensures AskConfirm in Run(cmd, strategy, matching, env).trace <==> env.dbExists && cmd == Refresh
  {
    var t, g := Run(cmd, strategy, matching, env).trace, GuardEvents(cmd, env.dbExists);
    RunStartsWithGuard(cmd, strategy, matching, env);
    RunWithinPlan(cmd, strategy, matching, env);
    assert AskConfirm !in PrepPlan(cmd, env) && AskConfirm !in FetchPlan(cmd, strategy, matching, env);
    if env.dbExists && cmd == Refresh {
      assert t[..|g|][2] == AskConfirm;
    }
  }

  /** A non-empty archive folder stops `init` and `download`, whatever the database says. */
  lemma NonEmptyFolderVetoes(cmd: Command, dbExists: bool, answer: string)
    requires cmd == Init || cmd == Download
    ensures !Decision(cmd, dbExists, answer, true)
  {
  }

  /** The archive folder never changes the decision for `refresh`. */
  lemma FolderNeverVetoesRefresh(dbExists: bool, answer: string)
    ensures Decision(Refresh, dbExists, answer, true) == Decision(Refresh, dbExists, answer, false)
  {
  }

  // ---------------------------------------------------------------------------
  // Stage sequencing

  /** Data preparation starts exactly when the guard passed and the command is
      not `download`, whatever raises later; unless one of its calls raises, its
      five calls directly follow the guard, in order. */
  lemma PreparationRunsIff(cmd: Command, strategy: Strategy, matching: seq<string>, env: Env)
    ensures var t, prep := Run(cmd, strategy, matching, env).trace, Decision(cmd, env.dbExists, env.answer, env.folderNonEmpty) && cmd != Download;
      && (LoadData in t <==> prep)
      && (prep && !PrepFault(env.fault) ==> var g := |GuardEvents(cmd, env.dbExists)|; |t| >= g + 5 && t[g..g + 5] == PrepEvents)
  {
    var g := GuardEvents(cmd, env.dbExists);
    var prepMade, fetchMade := RunTrace(cmd, strategy, matching, env);
    PreparationTrace(env.fault);
    assert LoadData !in g && LoadData !in fetchMade;
    if prepMade != [] {
      assert (g + prepMade + fetchMade)[|g|] == LoadData;
    }
    if Decision(cmd, env.dbExists, env.answer, env.folderNonEmpty) && cmd != Download && !PrepFault(env.fault) {
      assert (g + PrepEvents + fetchMade)[|g|..|g| + 5] == PrepEvents;
    }
  }

  /** The calls the preparation stage makes: it always starts with loading, makes
      only preparation calls, and makes all five unless one of them raises. */
  lemma PreparationTrace(fault: Option<Stage>)
    ensures var made := Execute(PrepEvents, fault).trace;
      && |made| > 0 && made[0] == LoadData
      && (forall e :: e in made ==> IsPrepEvent(e))
      && (!PrepFault(fault) ==> made == PrepEvents)
  {
    ExecuteShape(PrepEvents, fault);
    ExecuteWithinPlan(PrepEvents, fault);
    PreparationOutcome(fault);
  }

  /** A run's trace split into the guard's reads, the preparation calls made and
      the download-stage calls made. */
  lemma RunTrace(cmd: Command, strategy: Strategy, matching: seq<string>, env: Env)
    returns (prepMade: seq<Event>, fetchMade: seq<Event>)
    ensures Run(cmd, strategy, matching, env).trace == GuardEvents(cmd, env.dbExists) + prepMade + fetchMade
    ensures prepMade == if Decision(cmd, env.dbExists, env.answer, env.folderNonEmpty) && cmd != Download
      then Execute(PrepEvents, env.fault).trace else []
    ensures fetchMade ==
      if !Decision(cmd, env.dbExists, env.answer, env.folderNonEmpty) || (cmd != Download && PrepFault(env.fault)) then []
      else if env.fault == Some(QueryStage) then [QueryIds]
      else DownloadEvents(strategy, Dispatch(env.dbIds, matching))
  {
    var proceed := Decision(cmd, env.dbExists, env.answer, env.folderNonEmpty);
    var g, prep := GuardEvents(cmd, env.dbExists), Execute(PrepEvents, env.fault);
    var d := DownloadEvents(strategy, Dispatch(env.dbIds, matching));
    var t := Run(cmd, strategy, matching, env).trace;
    if !proceed {
      prepMade, fetchMade := [], [];
      assert t == g + [] + [] by { RunByStages(cmd, strategy, matching, env); }
    } else if cmd == Download {
      DownloadStageOutcome(strategy, Dispatch(env.dbIds, matching), env.fault);
      prepMade, fetchMade := [], Execute(d, env.fault).trace;
      assert t == g + [] + fetchMade by { RunByStages(cmd, strategy, matching, env); }
    } else if PrepFault(env.fault) {
      PreparationOutcome(env.fault);
      prepMade, fetchMade := prep.trace, [];
      assert t == g + prepMade + [] by { RunByStages(cmd, strategy, matching, env); }
    } else {
      PreparationOutcome(env.fault);
      DownloadStageOutcome(strategy, Dispatch(env.dbIds, matching), env.fault);
      prepMade, fetchMade := prep.trace, Execute(d, env.fault).trace;
      assert t == g + prepMade + fetchMade by { RunByStages(cmd, strategy, matching, env); }
    }
  }

  /** Unless a preparation call raises, each preparation call is made once when
      the stage runs and never otherwise, whatever the download stage does. */
  lemma PreparationCallsOnce(cmd: Command, strategy: Strategy, matching: seq<string>, env: Env)
    requires !PrepFault(env.fault)
    ensures var t, prep := Run(cmd, strategy, matching, env).trace, Decision(cmd, env.dbExists, env.answer, env.folderNonEmpty) && cmd != Download;
      forall e :: e in PrepEvents ==> multiset(t)[e] == if prep then 1 else 0
  {
    var prep := Decision(cmd, env.dbExists, env.answer, env.folderNonEmpty) && cmd != Download;
    var g := GuardEvents(cmd, env.dbExists);
    var prepMade, fetchMade := RunTrace(cmd, strategy, matching, env);
    assert prepMade == if prep then PrepEvents else [] by {
      PreparationTrace(env.fault);
    }
    PrepCallCounts(g, prepMade, fetchMade, strategy, Dispatch(env.dbIds, matching));
  }

  /** Between calls that are not preparation calls, the preparation stage's calls
      each occur once, or none of them does. */
  lemma PrepCallCounts(g: seq<Event>, pr: seq<Event>, d: seq<Event>, strategy: Strategy, ids: set<string>)
    requires pr == [] || pr == PrepEvents
    requires forall x :: x in g ==> !IsPrepEvent(x)
    requires d == [] || d == [QueryIds] || d == DownloadEvents(strategy, ids)
    ensures forall e :: e in PrepEvents ==> multiset(g + pr + d)[e] == if pr == [] then 0 else 1
  {
    assert forall x :: x in d ==> !IsPrepEvent(x);
    forall e | e in PrepEvents ensures multiset(g + pr + d)[e] == if pr == [] then 0 else 1 {
      CountOnce(g, pr, d, e);
    }
  }

  /** A preparation call occurs in `g + pr + d` as often as in `pr`. */
  lemma CountOnce(g: seq<Event>, pr: seq<Event>, d: seq<Event>, e: Event)
    requires e in PrepEvents && e !in g && e !in d
    requires pr == [] || pr == PrepEvents
    ensures multiset(g + pr + d)[e] == if pr == [] then 0 else 1
  {
  }

  /** The download stage is reached exactly when the guard passed and no
      preparation call raised; the handler is then dropped unless the identifier
      query raised, and the downloader invoked with the dispatch selection when
      moreover the strategy is not SKIP. */
  lemma DownloadStageRunsIff(cmd: Command, strategy: Strategy, matching: seq<string>, env: Env)
    ensures var t, proceed := Run(cmd, strategy, matching, env).trace, Decision(cmd, env.dbExists, env.answer, env.folderNonEmpty);
      var reached := proceed && !(cmd != Download && PrepFault(env.fault));
      && (QueryIds in t <==> reached)
      && (ReleaseDb in t <==> reached && env.fault != Some(QueryStage))
      && (DownloadNotebooks(Dispatch(env.dbIds, matching), strategy) in t <==>
            reached && env.fault != Some(QueryStage) && strategy != Skip)
  {
    var ids := Dispatch(env.dbIds, matching);
    var stopped := !Decision(cmd, env.dbExists, env.answer, env.folderNonEmpty) || (cmd != Download && PrepFault(env.fault));
    var prepMade, fetchMade := RunTrace(cmd, strategy, matching, env);
    assert forall e :: e in prepMade ==> IsPrepEvent(e) by {
      PreparationTrace(env.fault);
    }
    DownloadCallsMade(GuardEvents(cmd, env.dbExists), prepMade, fetchMade, strategy, ids, stopped, env.fault == Some(QueryStage));
  }

  /** Which download-stage calls a trace holds, given how far the stage got. */
  lemma DownloadCallsMade(g: seq<Event>, prepMade: seq<Event>, fetchMade: seq<Event>, strategy: Strategy, ids: set<string>, stopped: bool, queryFails: bool)
    requires forall e :: e in g ==> !IsStageEvent(e)
    requires forall e :: e in prepMade ==> IsPrepEvent(e)
    requires fetchMade == if stopped then [] else if queryFails then [QueryIds] else DownloadEvents(strategy, ids)
    ensures QueryIds in g + prepMade + fetchMade <==> !stopped
    ensures ReleaseDb in g + prepMade + fetchMade <==> !stopped && !queryFails
    ensures DownloadNotebooks(ids, strategy) in g + prepMade + fetchMade <==> !stopped && !queryFails && strategy != Skip
  {
    var head := g + prepMade;
    assert g + prepMade + fetchMade == head + fetchMade;
    InTail(head, fetchMade, QueryIds);
    InTail(head, fetchMade, ReleaseDb);
    InTail(head, fetchMade, DownloadNotebooks(ids, strategy));
  }

  /** An event missing from the first part of a trace is in the trace exactly
      when it is in the rest. */
  lemma InTail(head: seq<Event>, tail: seq<Event>, e: Event)
    requires e !in head
    ensures e in head + tail <==> e in tail
  {
  }

  /** In the plan, the identifier query comes right before the handler is
      dropped, after every preparation call, and no call on the database handler follows the drop. */
  lemma PlanOrder(cmd: Command, strategy: Strategy, matching: seq<string>, env: Env)
    ensures var p := Planned(cmd, strategy, matching, env);
      && (forall i :: 0 <= i < |p| && p[i] == ReleaseDb ==> i > 0 && p[i - 1] == QueryIds)
      && (forall i, j :: 0 <= i < |p| && 0 <= j < |p| && IsPrepEvent(p[i]) && p[j] == QueryIds ==> i < j)
      && (forall i, j :: 0 <= i < j < |p| && p[i] == ReleaseDb ==> !IsDbEvent(p[j]))
      && (forall j :: 0 <= j < |p| && p[j].DownloadNotebooks? ==> j > 0 && p[j - 1] == ReleaseDb)
  {
    var g, pr, d := GuardEvents(cmd, env.dbExists), PrepPlan(cmd, env), FetchPlan(cmd, strategy, matching, env);
    var p := Planned(cmd, strategy, matching, env);
    var n := |g| + |pr|;
    forall i | 0 <= i < |p|
      ensures p[i] == ReleaseDb <==> i == n + 1
      ensures p[i] == QueryIds ==> i == n
      ensures IsPrepEvent(p[i]) ==> i < n
      ensures i > n + 1 <==> p[i].DownloadNotebooks?
    {
      if i < |g| {
        assert p[i] == g[i];
      } else if i < n {
        assert p[i] == pr[i - |g|];
      } else {
        assert p[i] == d[i - n];
      }
    }
  }

  /** Every ordering fact of the plan holds of the run, whatever raised. */
  lemma RunOrder(cmd: Command, strategy: Strategy, matching: seq<string>, env: Env)
    ensures var t := Run(cmd, strategy, matching, env).trace;
      && (forall i :: 0 <= i < |t| && t[i] == ReleaseDb ==> i > 0 && t[i - 1] == QueryIds)
      && (forall i, j :: 0 <= i < |t| && 0 <= j < |t| && IsPrepEvent(t[i]) && t[j] == QueryIds ==> i < j)
      && (forall i, j :: 0 <= i < j < |t| && t[i] == ReleaseDb ==> !IsDbEvent(t[j]))
      && (forall j :: 0 <= j < |t| && t[j].DownloadNotebooks? ==> j > 0 && t[j - 1] == ReleaseDb)
  {
    RunIsPrefixOfPlan(cmd, strategy, matching, env);
    PlanOrder(cmd, strategy, matching, env);
    var p := Planned(cmd, strategy, matching, env);
    var t := Run(cmd, strategy, matching, env).trace;
    forall i | 0 <= i < |t| ensures t[i] == p[i] {
    }
  }

  /** `download` never loads, preprocesses or rewrites the database. */
  lemma DownloadCommandNeverPrepares(strategy: Strategy, matching: seq<string>, env: Env)
    ensures forall e :: e in Run(Download, strategy, matching, env).trace ==> !IsPrepEvent(e)
  {
    var g := GuardEvents(Download, env.dbExists);
    var prepMade, fetchMade := RunTrace(Download, strategy, matching, env);
    assert g + prepMade + fetchMade == g + fetchMade;
    assert forall e :: e in fetchMade ==> !IsPrepEvent(e);
  }

  // ---------------------------------------------------------------------------
  // Dispatch selection

  /** Every download hands over exactly the known notebooks named by `--matching`,
      with the chosen strategy, which is never SKIP. */
  lemma DownloadsCarryDispatch(cmd: Command, strategy: Strategy, matching: seq<string>, env: Env)
    ensures forall e :: e in Run(cmd, strategy, matching, env).trace && e.DownloadNotebooks? ==>
      e == DownloadNotebooks(Dispatch(env.dbIds, matching), strategy) && strategy != Skip
  {
    RunIsPrefixOfPlan(cmd, strategy, matching, env);
    var p := Planned(cmd, strategy, matching, env);
    var t := Run(cmd, strategy, matching, env).trace;
    assert forall e :: e in t ==> e in p;
    assert forall e :: e in PrepEvents ==> !e.DownloadNotebooks?;
  }

  /** With the SKIP strategy the downloader is never invoked. */
  lemma SkipNeverDownloads(cmd: Command, matching: seq<string>, env: Env)
    ensures forall e :: e in Run(cmd, Skip, matching, env).trace ==> !e.DownloadNotebooks?
  {
    DownloadsCarryDispatch(cmd, Skip, matching, env);
  }

  /** An empty `--matching` list selects nothing. */
  lemma EmptyMatchingSelectsNothing(dbIds: set<string>)
    ensures Dispatch(dbIds, []) == {}
  {
  }

  /** ... and the downloader is still invoked, with the empty selection, whenever
      the download stage gets that far and the strategy is not SKIP. */
  lemma EmptyMatchingStillInvokesDownloader(cmd: Command, strategy: Strategy, env: Env)
    ensures DownloadNotebooks({}, strategy) in Run(cmd, strategy, [], env).trace <==>
      && Decision(cmd, env.dbExists, env.answer, env.folderNonEmpty)
      && !(cmd != Download && PrepFault(env.fault))
      && env.fault != Some(QueryStage)
      && strategy != Skip
  {
    DownloadStageRunsIff(cmd, strategy, [], env);
    EmptyMatchingSelectsNothing(env.dbIds);
  }

  /** The identifiers {a, b, c} against the matching list [b, c, d] select {b, c}. */
  lemma DispatchExample()
    ensures Dispatch({"a", "b", "c"}, ["b", "c", "d"]) == {"b", "c"}
  {
  }

  /** Only which identifiers `--matching` names counts, not their order or repeats. */
  lemma DispatchIgnoresOrderAndRepeats(dbIds: set<string>, m1: seq<string>, m2: seq<string>)
    requires forall x :: x in m1 <==> x in m2
    ensures Dispatch(dbIds, m1) == Dispatch(dbIds, m2)
  {
  }

  // ---------------------------------------------------------------------------
  // End-to-end scenario

  /** No database, an empty folder, `init` with SKIP: the guard's reads, the five
      preparation calls in order, the identifier query and the drop of the
      handler, and no download. */
  lemma InitFromScratchWithSkip(answer: string, dbIds: set<string>, matching: seq<string>)
    ensures Run(Init, Skip, matching, Env(false, answer, false, dbIds, None)) ==
      Report([Connect, CheckDb, ScanFolder, LoadData, PreprocessTables, CreateDb(true),
              WriteTables, SetForeignKeys, QueryIds, ReleaseDb], Completed)
  {
    var env := Env(false, answer, false, dbIds, None);
    FaultFreeRunIsPlan(Init, Skip, matching, env);
    assert Decision(Init, false, answer, false);
    assert GuardEvents(Init, false) == [Connect, CheckDb, ScanFolder];
    assert DownloadEvents(Skip, Dispatch(dbIds, matching)) == [QueryIds, ReleaseDb];
  }
}
