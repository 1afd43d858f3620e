/** Which runs of a content run are considered, and some worlds that such runs reach. */
module RunReach {
  import opened Prelude
  import opened ContentRun

  /**
    At most so many resume requests in flight, with or without cancellations, with or without faults on a completion's
    time stamp.
   */
  datatype Allowance = Allowance(resumes: nat, cancels: bool, stampFaults: bool)

  /** A fault that is not an abort while the time stamp of a completion is written. */
  predicate StampFault(w: World, e: Event) {
    e.Throw? && e.id in w.execs && w.execs[e.id].pc == Stamp(Completed, TryBlock) && !w.execs[e.id].aborted
        && !e.isAbort
  }

  predicate Permits(a: Allowance, w: World, e: Event)
    requires Enabled(w, e)
  {
    && |Next(w, e).resumes| <= a.resumes
    && (e.CancelSet? || e.CancelTry? || e.CancelAbort? ==> a.cancels)
    && (StampFault(w, e) ==> a.stampFaults)
  }

  predicate Permitted(a: Allowance, w: World, run: seq<Event>)
    requires Legal(w, run)
  {
    run == [] ||
    (Permitted(a, w, run[..|run| - 1]) && Permits(a, After(w, run[..|run| - 1]), run[|run| - 1]))
  }

  ghost predicate Reachable(a: Allowance, w: World) {
    exists run :: Legal(Start(w.task, w.hasKind), run) && Permitted(a, Start(w.task, w.hasKind), run)
                  && After(Start(w.task, w.hasKind), run) == w
  }

  lemma Snoc(w: World, run: seq<Event>, e: Event)
    requires Legal(w, run) && Enabled(After(w, run), e)
    ensures Legal(w, run + [e]) && After(w, run + [e]) == Next(After(w, run), e)
    ensures forall a :: Permitted(a, w, run) && Permits(a, After(w, run), e) ==> Permitted(a, w, run + [e])
  {
    var longer := run + [e];
    assert longer[..|longer| - 1] == run && longer[|longer| - 1] == e;
  }

  lemma ReachStep(a: Allowance, w: World, e: Event)
    requires Reachable(a, w) && Enabled(w, e) && Permits(a, w, e)
    ensures Reachable(a, Next(w, e))
  {
    var start := Start(w.task, w.hasKind);
    var run :| Legal(start, run) && Permitted(a, start, run) && After(start, run) == w;
    Snoc(start, run, e);
    SameRun(w, e);
  }

  lemma SameRun(w: World, e: Event)
    requires Enabled(w, e)
    ensures Next(w, e).task == w.task && Next(w, e).hasKind == w.hasKind
  {
  }

  lemma ReachStart(a: Allowance, task: Task, hasKind: bool)
    ensures Reachable(a, Start(task, hasKind))
  {
    assert Legal(Start(task, hasKind), []) && After(Start(task, hasKind), []) == Start(task, hasKind);
  }

  lemma ReachableIsSound(a: Allowance, w: World)
    requires Reachable(a, w)
    ensures Inv(w)
  {
    var run :| Legal(Start(w.task, w.hasKind), run) && Permitted(a, Start(w.task, w.hasKind), run)
               && After(Start(w.task, w.hasKind), run) == w;
    RunKeepsInv(w.task, w.hasKind, run);
  }

  // ---------------------------------------------------------------------------
  // One execution from the queue on
  // ---------------------------------------------------------------------------

  /** A run with its first execution under way. */
  function Solo(task: Task, db: Db, pc: Pc): World {
    World(task, true, db, Up, map[0 := Exec(None, false, pc)], map[], 0, 0, Started(1, 0, 0), 0)
  }

  const ZERO := Counts(0, 0)
  const CLAIMED := Db(Running, None, None, false, None, ZERO, 0, false)

  /** One step of an undisturbed execution: the verdict is good, a new outline is numbered 0. */
  predicate GoesOn(task: Task, from: (Db, Pc), to: (Db, Pc)) {
    && !from.1.SaveRefined?
    && ExecStep(task, true, from.0, Exec(None, false, from.1), 0, true) == (to.0, Some(Exec(None, false, to.1)))
  }

  lemma SoloNext(a: Allowance, task: Task, from: (Db, Pc), to: (Db, Pc))
    requires GoesOn(task, from, to)
    ensures StepsTo(a, Solo(task, from.0, from.1), Do(0, 0, true), Solo(task, to.0, to.1))
  {
    assert map[0 := Exec(None, false, from.1)][0 := Exec(None, false, to.1)] == map[0 := Exec(None, false, to.1)];
  }

  lemma ClaimReached(a: Allowance, task: Task)
    ensures Reachable(a, Solo(task, CLAIMED, ReadOutline))
  {
    ReachStart(a, task, true);
    assert Next(Start(task, true), Claim(0)) == Solo(task, CLAIMED, ReadOutline);
    ReachStep(a, Start(task, true), Claim(0));
  }

  lemma StagesReached(a: Allowance, task: Task, stage: nat -> (Db, Pc), n: nat)
    requires stage(0) == (CLAIMED, ReadOutline)
    requires forall k: nat :: k < n ==> GoesOn(task, stage(k), stage(k + 1))
    ensures Reachable(a, Solo(task, stage(n).0, stage(n).1))
  {
    ClaimReached(a, task);
    var at := (k: nat) => Solo(task, stage(k).0, stage(k).1);
    forall k: nat | k < n
      ensures StepsTo(a, at(k), Do(0, 0, true), at(k + 1))
    {
      assert GoesOn(task, stage(k), stage(k + 1));
      SoloNext(a, task, stage(k), stage(k + 1));
    }
    PathReached(a, at, (k: nat) => Do(0, 0, true), n);
  }

  /** Along worlds that follow each other by permitted steps, the last is reached when the first is. */
  lemma {:induction false} PathReached(a: Allowance, at: nat -> World, via: nat -> Event, n: nat)
    requires Reachable(a, at(0))
    requires forall i: nat :: i < n ==> StepsTo(a, at(i), via(i), at(i + 1))
    ensures Reachable(a, at(n))
  {
    if n > 0 {
      PathReached(a, at, via, n - 1);
      assert StepsTo(a, at(n - 1), via(n - 1), at(n));
      ReachStep(a, at(n - 1), via(n - 1));
    }
  }

  predicate StepsTo(a: Allowance, w: World, e: Event, n: World) {
    Enabled(w, e) && Permits(a, w, e) && Next(w, e) == n
  }

  const COPYING := CLAIMED.(phase := Some(Copy))
  const WRITTEN := COPYING.(document := true)
  const DONE := WRITTEN.(status := Completed)

  /** A page is written and completed. */
  function CopyStage(k: nat): (Db, Pc) {
    match k
    case 0 => (CLAIMED, ReadOutline)
    case 1 => (CLAIMED, ReadPipeline(None))
    case 2 => (CLAIMED, SavePhase(Copy, None, ZERO))
    case 3 => (COPYING, LoadContext(Copy, None, ZERO))
    case 4 => (COPYING, Writer(Copy, None, ZERO))
    case 5 => (COPYING, Verifier(Copy, None, ZERO))
    case 6 => (COPYING, Persist(Copy, None, ZERO))
    case 7 => (WRITTEN, SavePersisted(Copy, None, ZERO))
    case 8 => (WRITTEN, SaveOutcome(Copy, Complete, ZERO))
    case 9 => (WRITTEN, Finish(Completed, TryBlock))
    case _ => (DONE, Stamp(Completed, TryBlock))
  }

  lemma CopyGoesOn(k: nat)
    requires k < 10
    ensures GoesOn(PageCopy, CopyStage(k), CopyStage(k + 1))
  {
    if k < 5 { CopyBegins(k); } else { CopyEnds(k); }
  }

  lemma CopyBegins(k: nat)
    requires k < 5
    ensures GoesOn(PageCopy, CopyStage(k), CopyStage(k + 1))
  {
  }

  lemma CopyEnds(k: nat)
    requires 5 <= k < 10
    ensures GoesOn(PageCopy, CopyStage(k), CopyStage(k + 1))
  {
  }

  lemma CompletionReached(a: Allowance)
    ensures Reachable(a, Solo(PageCopy, DONE, Stamp(Completed, TryBlock)))
  {
    forall k: nat | k < 10
      ensures GoesOn(PageCopy, CopyStage(k), CopyStage(k + 1))
    {
      CopyGoesOn(k);
    }
    StagesReached(a, PageCopy, CopyStage, 10);
  }

  const DRAFTING := CLAIMED.(phase := Some(Outline))
  const DRAFTED := DRAFTING.(outline := Some(0))

  /** An outline is written and goes to review. */
  function OutlineStage(k: nat): (Db, Pc) {
    match k
    case 0 => (CLAIMED, ReadOutline)
    case 1 => (CLAIMED, ReadPipeline(None))
    case 2 => (CLAIMED, SavePhase(Outline, None, ZERO))
    case 3 => (DRAFTING, LoadContext(Outline, None, ZERO))
    case 4 => (DRAFTING, Writer(Outline, None, ZERO))
    case 5 => (DRAFTING, Verifier(Outline, Some(0), ZERO))
    case 6 => (DRAFTING, Persist(Outline, Some(0), ZERO))
    case 7 => (DRAFTED, SavePersisted(Outline, Some(0), ZERO))
    case 8 => (DRAFTED, SaveOutcome(Outline, Await, ZERO))
    case _ => (DRAFTED, Finish(AwaitingHitl, TryBlock))
  }

  lemma OutlineBegins(k: nat)
    requires k < 5
    ensures GoesOn(OutlineThenCopy, OutlineStage(k), OutlineStage(k + 1))
  {
  }

  lemma OutlineEnds(k: nat)
    requires 5 <= k < 9
    ensures GoesOn(OutlineThenCopy, OutlineStage(k), OutlineStage(k + 1))
  {
  }

  lemma OutlineReached(a: Allowance)
    ensures Reachable(a, Solo(OutlineThenCopy, DRAFTED, Finish(AwaitingHitl, TryBlock)))
  {
    forall k: nat | k < 9
      ensures GoesOn(OutlineThenCopy, OutlineStage(k), OutlineStage(k + 1))
    {
      if k < 5 { OutlineBegins(k); } else { OutlineEnds(k); }
    }
    StagesReached(a, OutlineThenCopy, OutlineStage, 9);
  }

  // ---------------------------------------------------------------------------
  // Resume requests on a reviewed outline
  // ---------------------------------------------------------------------------

  const REVIEW := DRAFTED.(status := AwaitingHitl)

  function Reviewed(db: Db, resumes: map<nat, Resume>): World {
    World(OutlineThenCopy, true, db, Up, map[], resumes, 0, 0, Started(1, 0, 0), 0)
  }

  lemma ReviewReached(a: Allowance)
    ensures Reachable(a, Reviewed(REVIEW, map[]))
  {
    OutlineReached(a);
    ReviewNext(a);
    ReachStep(a, Solo(OutlineThenCopy, DRAFTED, Finish(AwaitingHitl, TryBlock)), Do(0, 0, true));
  }

  lemma ReviewNext(a: Allowance)
    ensures StepsTo(a, Solo(OutlineThenCopy, DRAFTED, Finish(AwaitingHitl, TryBlock)), Do(0, 0, true),
                    Reviewed(REVIEW, map[]))
  {
    assert map[0 := Exec(None, false, Finish(AwaitingHitl, TryBlock))] - {0} == map[];
  }

  /** Requests `0..n`, those below `m` one stage further. */
  function Requests(n: nat, m: nat, early: Resume, late: Resume): (r: map<nat, Resume>)
    ensures |r| == n && forall i: nat :: i in r <==> i < n
    ensures forall i: nat :: i in r ==> r[i] == if i < m then late else early
  {
    if n == 0 then map[]
    else
      var past := Requests(n - 1, m, early, late);
      var now := past[n - 1 := if n - 1 < m then late else early];
      assert now.Keys == past.Keys + {n - 1};
      now
  }

  const ASK := CheckSelection([0])
  const SAVE := SaveSelected([0])
  const GO := ToRunning([0])

  const CHOSEN := REVIEW.(selected := Some([0]))

  function Begun(n: nat): World {
    Reviewed(REVIEW, Requests(n, 0, ASK, ASK))
  }

  function Checked(n: nat, m: nat): World {
    Reviewed(REVIEW, Requests(n, m, ASK, SAVE))
  }

  function Saved(n: nat, m: nat): World {
    Reviewed(if m == 0 then REVIEW else CHOSEN, Requests(n, m, SAVE, GO))
  }

  lemma RequestMoves(n: nat, m: nat, early: Resume, late: Resume)
    requires m < n
    ensures m in Requests(n, m, early, late) && Requests(n, m, early, late)[m] == early
    ensures Requests(n, m, early, late)[m := late] == Requests(n, m + 1, early, late)
  {
  }

  lemma BeginNext(a: Allowance, n: nat)
    requires n < a.resumes
    ensures StepsTo(a, Begun(n), ResumeBegin(n, [0]), Begun(n + 1))
  {
    assert Requests(n, 0, ASK, ASK)[n := ASK] == Requests(n + 1, 0, ASK, ASK);
  }

  lemma CheckNext(a: Allowance, n: nat, m: nat)
    requires m < n <= a.resumes
    ensures StepsTo(a, Checked(n, m), ResumeStep(m, 0), Checked(n, m + 1))
  {
    RequestMoves(n, m, ASK, SAVE);
  }

  lemma SaveNext(a: Allowance, n: nat, m: nat)
    requires m < n <= a.resumes
    ensures StepsTo(a, Saved(n, m), ResumeStep(m, 0), Saved(n, m + 1))
  {
    RequestMoves(n, m, SAVE, GO);
  }

  lemma SameStages(n: nat)
    ensures Begun(0) == Reviewed(REVIEW, map[]) && Begun(n) == Checked(n, 0) && Checked(n, n) == Saved(n, 0)
  {
    assert Requests(0, 0, ASK, ASK) == map[];
    assert Requests(n, 0, ASK, ASK) == Requests(n, 0, ASK, SAVE);
    assert Requests(n, n, ASK, SAVE) == Requests(n, 0, SAVE, GO);
  }

  /** `n` requests have begun, been checked and saved their selection. */
  lemma SavedReached(a: Allowance, n: nat)
    requires n <= a.resumes
    ensures Reachable(a, Saved(n, n))
  {
    ReviewReached(a);
    SameStages(n);
    forall i: nat | i < n
      ensures StepsTo(a, Begun(i), ResumeBegin(i, [0]), Begun(i + 1))
    {
      BeginNext(a, i);
    }
    PathReached(a, Begun, (i: nat) => ResumeBegin(i, [0]), n);
    forall i: nat | i < n
      ensures StepsTo(a, Checked(n, i), ResumeStep(i, 0), Checked(n, i + 1))
    {
      CheckNext(a, n, i);
    }
    PathReached(a, (i: nat) => Checked(n, i), (i: nat) => ResumeStep(i, 0), n);
    forall i: nat | i < n
      ensures StepsTo(a, Saved(n, i), ResumeStep(i, 0), Saved(n, i + 1))
    {
      SaveNext(a, n, i);
    }
    PathReached(a, (i: nat) => Saved(n, i), (i: nat) => ResumeStep(i, 0), n);
  }
}
