/** When the status of a content run follows its table, and when a cancellation lasts. */
module RunStatus {
  import opened Prelude
  import opened ContentRun
  import opened RunReach
  import opened RunBounds

  predicate Moves(from: Status, to: Status) {
    from == to || to in AllowedRunStates(from)
  }

  /** Over all permitted runs every change of the stored status is one the table allows; so a final status stays. */
  ghost predicate TableFollowed(a: Allowance) {
    forall w: World, e: Event :: Reachable(a, w) && Enabled(w, e) && Permits(a, w, e) ==>
        Moves(w.db.status, Next(w, e).db.status)
  }

  // ---------------------------------------------------------------------------
  // No cancellation, one resume request at a time, no fault on a completion's time stamp
  // ---------------------------------------------------------------------------

  /** What the stored status can be while an execution is at `pc`. */
  predicate Agrees(status: Status, pc: Pc) {
    match pc
    case Stamp(to, site) => status == to && (to.Completed? ==> site.TryBlock?)
    case Finish(to, site) => (status.Running? || (status.Failed? && to.Failed?)) && (to.Completed? ==> site.TryBlock?)
    case WorkerLog => status.Running? || status.Failed?
    case WorkerRead => status.Running? || status.Failed?
    case _ => status.Running?
  }

  ghost predicate InStep(w: World) {
    && (forall i :: i in w.execs ==> Agrees(w.db.status, w.execs[i].pc) && !w.execs[i].aborted)
    && (w.resumes != map[] ==> w.db.status.AwaitingHitl?)
    && !w.db.cancelRequested
  }

  predicate Uncancelled(e: Event) {
    !e.CancelSet? && !e.CancelTry? && !e.CancelAbort?
  }

  lemma InStepExec(task: Task, hasKind: bool, db: Db, e: Exec, newId: Id, ok: bool)
    requires Agrees(db.status, e.pc) && ExecOk(task, db, e) && DbOk(task, db)
    ensures var (after, x) := ExecStep(task, hasKind, db, e, newId, ok);
            Moves(db.status, after.status) && (x.Some? ==> Agrees(after.status, x.value.pc))
  {
    DoWritesStatus(task, hasKind, db, e, newId, ok);
    if Early(e.pc) { DecidesRunning(task, db, e); }
  }

  lemma DecidesRunning(task: Task, db: Db, e: Exec)
    requires db.status.Running?
    ensures forall seen :: Agrees(db.status, Decide(task, e.selected, seen, db.phase, db.counts))
  {
  }

  lemma InStepDo(w: World, e: Event)
    requires Inv(w) && Alone(w) && InStep(w) && e.Do? && Enabled(w, e)
    ensures InStep(Next(w, e)) && Moves(w.db.status, Next(w, e).db.status)
  {
    var x := w.execs[e.id];
    assert ExecOk(w.task, w.db, x);
    InStepExec(w.task, w.hasKind, w.db, x, e.newId, e.ok);
    DoWritesStatus(w.task, w.hasKind, w.db, x, e.newId, e.ok);
    assert w.execs.Keys == {e.id};
    assert Next(w, e).execs.Keys <= {e.id};
  }

  lemma InStepThrow(w: World, e: Event)
    requires Inv(w) && InStep(w) && e.Throw? && Enabled(w, e) && !StampFault(w, e)
    ensures InStep(Next(w, e)) && Next(w, e).db == w.db
  {
  }

  lemma InStepResume(w: World, e: Event)
    requires Alone(w) && InStep(w) && e.ResumeStep? && Enabled(w, e)
    ensures InStep(Next(w, e)) && Moves(w.db.status, Next(w, e).db.status)
  {
    assert w.resumes.Keys == {e.id};
    if w.resumes[e.id].ToRunning? { assert Next(w, e).resumes == map[]; }
  }

  lemma InStepElsewhere(w: World, e: Event)
    requires Inv(w) && InStep(w) && Enabled(w, e) && Uncancelled(e) && !e.Do? && !e.Throw? && !e.ResumeStep?
    ensures InStep(Next(w, e)) && Moves(w.db.status, Next(w, e).db.status)
  {
  }

  lemma InStepStep(w: World, e: Event)
    requires Inv(w) && Alone(w) && InStep(w) && Enabled(w, e) && Uncancelled(e) && !StampFault(w, e)
    ensures InStep(Next(w, e)) && Moves(w.db.status, Next(w, e).db.status)
  {
    if e.Do? { InStepDo(w, e); }
    else if e.Throw? { InStepThrow(w, e); }
    else if e.ResumeStep? { InStepResume(w, e); }
    else { InStepElsewhere(w, e); }
  }

  predicate Calm(a: Allowance) {
    a.resumes <= 1 && !a.cancels && !a.stampFaults
  }

  lemma {:induction false} InStepKept(a: Allowance, task: Task, hasKind: bool, run: seq<Event>)
    requires Calm(a) && Legal(Start(task, hasKind), run) && Permitted(a, Start(task, hasKind), run)
    ensures InStep(After(Start(task, hasKind), run))
    decreases |run|
  {
    if run != [] {
      var past := run[..|run| - 1];
      InStepKept(a, task, hasKind, past);
      RunKeepsInv(task, hasKind, past);
      AloneKept(a, task, hasKind, past);
      InStepStep(After(Start(task, hasKind), past), run[|run| - 1]);
    }
  }

  lemma CalmFollows(a: Allowance)
    requires Calm(a)
    ensures TableFollowed(a)
  {
    forall w: World, e: Event | Reachable(a, w) && Enabled(w, e) && Permits(a, w, e)
      ensures Moves(w.db.status, Next(w, e).db.status)
    {
      ReachableIsSound(a, w);
      var run :| Legal(Start(w.task, w.hasKind), run) && Permitted(a, Start(w.task, w.hasKind), run)
                 && After(Start(w.task, w.hasKind), run) == w;
      InStepKept(a, w.task, w.hasKind, run);
      AloneKept(a, w.task, w.hasKind, run);
      InStepStep(w, e);
    }
  }

  // ---------------------------------------------------------------------------
  // The three ways out of the table
  // ---------------------------------------------------------------------------

  /** A page is written and about to be completed; `asked` and `won` are the stages of a cancellation. */
  function Finishing(status: Status, asked: bool, won: bool): World {
    Solo(PageCopy, WRITTEN.(status := status, cancelRequested := asked && !won), Finish(Completed, TryBlock))
    .(cancelling := if asked && !won then 1 else 0, aborting := if won then 1 else 0)
  }

  lemma FinishingReached(a: Allowance)
    ensures Reachable(a, Finishing(Running, false, false))
  {
    forall k: nat | k < 9
      ensures GoesOn(PageCopy, CopyStage(k), CopyStage(k + 1))
    {
      CopyGoesOn(k);
    }
    StagesReached(a, PageCopy, CopyStage, 9);
  }

  lemma CancelSteps(a: Allowance)
    requires a.cancels
    ensures StepsTo(a, Finishing(Running, false, false), CancelSet, Finishing(Running, true, false))
    ensures StepsTo(a, Finishing(Running, true, false), CancelTry, Finishing(Cancelled, true, true))
  {
  }

  lemma CancelledReached(a: Allowance)
    requires a.cancels
    ensures Reachable(a, Finishing(Cancelled, true, true))
  {
    FinishingReached(a);
    CancelSteps(a);
    ReachStep(a, Finishing(Running, false, false), CancelSet);
    ReachStep(a, Finishing(Running, true, false), CancelTry);
  }

  /**
    A cancellation that was won can be lost again: an execution about to complete the run writes its own status over it.
   */
  lemma CancelOverwritten(a: Allowance)
    requires a.cancels
    ensures var w, e := Finishing(Cancelled, true, true), Do(0, 0, true);
            && Reachable(a, w) && w.db.status.Cancelled?
            && Enabled(w, e) && Permits(a, w, e) && Next(w, e).db.status.Completed?
  {
    CancelledReached(a);
    Overwrites(a);
  }

  lemma Overwrites(a: Allowance)
    ensures var w, e := Finishing(Cancelled, true, true), Do(0, 0, true);
            w.db.status.Cancelled? && Enabled(w, e) && Permits(a, w, e) && Next(w, e).db.status.Completed?
  {
  }

  const FAULTED := Solo(PageCopy, DONE, Finish(Failed, Executor))

  lemma FaultSteps(a: Allowance)
    requires a.stampFaults
    ensures StepsTo(a, Solo(PageCopy, DONE, Stamp(Completed, TryBlock)), Throw(0, false), FAULTED)
    ensures StepsTo(a, FAULTED, Do(0, 0, true), Solo(PageCopy, DONE.(status := Failed), Stamp(Failed, Executor)))
  {
    var stamp, fail, failed := Stamp(Completed, TryBlock), Finish(Failed, Executor), Stamp(Failed, Executor);
    assert map[0 := Exec(None, false, stamp)][0 := Exec(None, false, fail)] == map[0 := Exec(None, false, fail)];
    assert map[0 := Exec(None, false, fail)][0 := Exec(None, false, failed)] == map[0 := Exec(None, false, failed)];
  }

  /**
    A completed run can turn failed: when its time stamp throws, and not by an abort, the catch block goes on to fail
    it.
   */
  lemma FaultAfterCompletion(a: Allowance)
    requires a.stampFaults
    ensures Reachable(a, FAULTED) && FAULTED.db.status.Completed?
    ensures StepsTo(a, FAULTED, Do(0, 0, true), Solo(PageCopy, DONE.(status := Failed), Stamp(Failed, Executor)))
  {
    CompletionReached(a);
    FaultSteps(a);
    ReachStep(a, Solo(PageCopy, DONE, Stamp(Completed, TryBlock)), Throw(0, false));
  }

  lemma StampFaultBreaks(a: Allowance)
    requires a.stampFaults
    ensures !TableFollowed(a)
  {
    FaultAfterCompletion(a);
    assert !Moves(Completed, Failed);
    assert !Moves(FAULTED.db.status, Next(FAULTED, Do(0, 0, true)).db.status);
  }

  /** The first of two resume requests has its execution at `pc`, the second still is to start one. */
  function Twice(status: Status, pc: Pc): World {
    World(OutlineThenCopy, true, CHOSEN.(status := status), Up, map[0 := Exec(Some([0]), false, pc)], map[1 := GO],
          0, 0, Started(1, 0, 1), 0)
  }

  lemma TwiceReached(a: Allowance)
    requires a.resumes >= 2
    ensures Reachable(a, Twice(Running, ReadOutline))
  {
    SavedReached(a, 2);
    assert Requests(2, 2, SAVE, GO) == map[0 := GO, 1 := GO];
    var w := Saved(2, 2);
    assert w.resumes - {0} == map[1 := GO];
    assert |map[1 := GO]| == 1;
    assert Next(w, ResumeStep(0, 0)) == Twice(Running, ReadOutline);
    ReachStep(a, w, ResumeStep(0, 0));
  }

  /** The first execution reaches the worker by a fault and is marked failed there. */
  function FirstFails(k: nat): World {
    match k
    case 0 => Twice(Running, ReadOutline)
    case 1 => Twice(Running, WorkerLog)
    case 2 => Twice(Running, WorkerRead)
    case 3 => Twice(Running, Finish(Failed, Worker))
    case _ => Twice(Failed, Stamp(Failed, Worker))
  }

  function FirstFailsBy(k: nat): Event {
    if k == 0 then Throw(0, false) else Do(0, 0, true)
  }

  lemma FirstFailsNext(a: Allowance, k: nat)
    requires a.resumes >= 2 && k < 4
    ensures StepsTo(a, FirstFails(k), FirstFailsBy(k), FirstFails(k + 1))
  {
    if k == 0 { TwiceThrows(a); }
    else if k == 1 { TwiceGoesOn(a, Running, WorkerLog, Running, WorkerRead); }
    else if k == 2 { TwiceGoesOn(a, Running, WorkerRead, Running, Finish(Failed, Worker)); }
    else { TwiceGoesOn(a, Running, Finish(Failed, Worker), Failed, Stamp(Failed, Worker)); }
  }

  lemma TwiceThrows(a: Allowance)
    requires a.resumes >= 2
    ensures StepsTo(a, Twice(Running, ReadOutline), Throw(0, false), Twice(Running, WorkerLog))
  {
    assert |map[1 := GO]| == 1;
    assert map[0 := Exec(Some([0]), false, ReadOutline)][0 := Exec(Some([0]), false, WorkerLog)]
           == map[0 := Exec(Some([0]), false, WorkerLog)];
  }

  lemma TwiceGoesOn(a: Allowance, status: Status, pc: Pc, after: Status, next: Pc)
    requires a.resumes >= 2 && !pc.SaveRefined?
    requires ExecStep(OutlineThenCopy, true, CHOSEN.(status := status), Exec(Some([0]), false, pc), 0, true)
             == (CHOSEN.(status := after), Some(Exec(Some([0]), false, next)))
    ensures StepsTo(a, Twice(status, pc), Do(0, 0, true), Twice(after, next))
  {
    assert |map[1 := GO]| == 1;
    assert map[0 := Exec(Some([0]), false, pc)][0 := Exec(Some([0]), false, next)]
           == map[0 := Exec(Some([0]), false, next)];
  }

  lemma TwiceFailed(a: Allowance)
    requires a.resumes >= 2
    ensures Reachable(a, Twice(Failed, Stamp(Failed, Worker)))
  {
    TwiceReached(a);
    forall k: nat | k < 4
      ensures StepsTo(a, FirstFails(k), FirstFailsBy(k), FirstFails(k + 1))
    {
      FirstFailsNext(a, k);
    }
    PathReached(a, FirstFails, FirstFailsBy, 4);
  }

  lemma SecondResumeBreaks(a: Allowance)
    requires a.resumes >= 2
    ensures !TableFollowed(a)
  {
    TwiceFailed(a);
    var w := Twice(Failed, Stamp(Failed, Worker));
    var e := ResumeStep(1, 1);
    assert |w.resumes - {1}| == 0;
    assert Permits(a, w, e) && Next(w, e).db.status.Running?;
    assert !Moves(w.db.status, Next(w, e).db.status);
  }

  /**
    The table is followed exactly when nobody cancels, one resume request is in flight at a time, and no completion's
    time stamp faults.
   */
  lemma TableFollowedIff(a: Allowance)
    ensures TableFollowed(a) <==> a.resumes <= 1 && !a.cancels && !a.stampFaults
  {
    if Calm(a) {
      CalmFollows(a);
    } else if a.cancels {
      CancelOverwritten(a);
      assert !Moves(Cancelled, Completed);
    } else if a.stampFaults {
      StampFaultBreaks(a);
    } else {
      SecondResumeBreaks(a);
    }
  }

  // ---------------------------------------------------------------------------
  // When a cancellation lasts
  // ---------------------------------------------------------------------------

  predicate AwaitsReview(task: Task, selected: Option<seq<Id>>, outline: Option<Id>) {
    task.OutlineThenCopy? && outline.Some? && !HasSelection(selected)
  }

  /**
    An execution that can still write the status of a cancelled run. An abort stops it only where it is looked at: at a
    call of the model, after the phase is saved, and in the catch block.
   */
  predicate CanWrite(task: Task, hasKind: bool, outline: Option<Id>, e: Exec) {
    match e.pc
    case ReadOutline => !hasKind || !e.aborted || AwaitsReview(task, e.selected, outline)
    case ReadPipeline(seen) => !e.aborted || AwaitsReview(task, e.selected, seen)
    case SavePhase(_, _, _) => !e.aborted
    case LoadContext(_, _, _) => !e.aborted
    case Writer(_, _, _) => !e.aborted
    case Refiner(_, _, _) => !e.aborted
    case SaveRefined(_, _, _) => !e.aborted
    case LogVerdict(phase, _, counts) => !e.aborted || !CanRefine(CountOf(phase, counts))
    case Stamp(_, site) => !e.aborted && site.TryBlock?
    case WorkerLog => false
    case WorkerRead => false
    case _ => true
  }

  /** A resume request that will still set the status: past its check, or about to pass it. */
  predicate WillRun(task: Task, outline: Option<Id>, r: Resume) {
    r.CheckSelection? ==> task.OutlineThenCopy? && IsCanonicalOutlineSelection(Some(r.ids), outline)
  }

  ghost predicate Threat(w: World) {
    || (exists i :: i in w.execs && CanWrite(w.task, w.hasKind, w.db.outline, w.execs[i]))
    || (exists i :: i in w.resumes && WillRun(w.task, w.db.outline, w.resumes[i]))
  }

  /** Whatever happens, the run stays cancelled. */
  ghost predicate Lasts(w: World) {
    forall run :: Legal(w, run) ==> After(w, run).db.status.Cancelled?
  }

  lemma HarmlessExec(task: Task, hasKind: bool, db: Db, e: Exec, newId: Id, ok: bool)
    requires DbOk(task, db) && ExecOk(task, db, e) && db.status.Cancelled? && !CanWrite(task, hasKind, db.outline, e)
    ensures var (after, x) := ExecStep(task, hasKind, db, e, newId, ok);
            after.status.Cancelled? && after.outline == db.outline
                && (x.Some? ==> !CanWrite(task, hasKind, db.outline, x.value))
  {
    if e.pc.ReadPipeline? { DecideOk(task, db, e.selected); }
  }

  lemma HarmlessThrow(task: Task, hasKind: bool, outline: Option<Id>, e: Exec, isAbort: bool)
    requires !CanWrite(task, hasKind, outline, e)
    ensures ExecThrow(e, isAbort).Some? ==> !CanWrite(task, hasKind, outline, ExecThrow(e, isAbort).value)
  {
  }

  lemma HarmlessDo(w: World, e: Event)
    requires Inv(w) && w.db.status.Cancelled? && !Threat(w) && e.Do? && Enabled(w, e)
    ensures Next(w, e).db.status.Cancelled? && !Threat(Next(w, e))
  {
    HarmlessExec(w.task, w.hasKind, w.db, w.execs[e.id], e.newId, e.ok);
  }

  lemma HarmlessAbort(w: World, e: Event)
    requires !Threat(w) && e.CancelAbort? && Enabled(w, e)
    ensures !Threat(Next(w, e))
  {
    forall i | i in Next(w, e).execs
      ensures !CanWrite(w.task, w.hasKind, w.db.outline, Next(w, e).execs[i])
    {
      assert !CanWrite(w.task, w.hasKind, w.db.outline, w.execs[i]);
    }
  }

  lemma HarmlessStep(w: World, e: Event)
    requires Inv(w) && w.db.status.Cancelled? && !Threat(w) && Enabled(w, e)
    ensures Next(w, e).db.status.Cancelled? && !Threat(Next(w, e))
  {
    if e.Do? { HarmlessDo(w, e); }
    else if e.Throw? { HarmlessThrow(w.task, w.hasKind, w.db.outline, w.execs[e.id], e.isAbort); }
    else if e.CancelAbort? { HarmlessAbort(w, e); }
    else if e.ResumeStep? { assert !WillRun(w.task, w.db.outline, w.resumes[e.id]); }
  }

  lemma {:induction false} HarmlessRun(w: World, run: seq<Event>)
    requires Inv(w) && w.db.status.Cancelled? && !Threat(w) && Legal(w, run)
    ensures Inv(After(w, run)) && After(w, run).db.status.Cancelled? && !Threat(After(w, run))
    decreases |run|
  {
    if run != [] {
      HarmlessRun(w, run[..|run| - 1]);
      StepKeeps(After(w, run[..|run| - 1]), run[|run| - 1]);
      HarmlessStep(After(w, run[..|run| - 1]), run[|run| - 1]);
    }
  }

  lemma Unsnoc(w: World, run: seq<Event>)
    requires run != [] && Legal(w, run)
    ensures var past, last := run[..|run| - 1], run[|run| - 1];
            Legal(w, past) && Enabled(After(w, past), last) && After(w, run) == Next(After(w, past), last)
  {
  }

  /** A run to `x`, and another from there. */
  lemma {:induction false} AfterBoth(w: World, a: seq<Event>, x: World, b: seq<Event>)
    requires Legal(w, a) && After(w, a) == x && Legal(x, b)
    ensures Legal(w, a + b) && After(w, a + b) == After(x, b)
    decreases |b|
  {
    if b == [] {
      assert a + b == a;
    } else {
      var past, last := b[..|b| - 1], b[|b| - 1];
      Unsnoc(x, b);
      AfterBoth(w, a, x, past);
      SnocBoth(w, a, past, last);
      assert b == past + [last];
    }
  }

  lemma SnocBoth(w: World, a: seq<Event>, past: seq<Event>, last: Event)
    requires Legal(w, a + past) && Enabled(After(w, a + past), last)
    ensures Legal(w, a + (past + [last])) && After(w, a + (past + [last])) == Next(After(w, a + past), last)
  {
    Snoc(w, a + past, last);
    assert a + past + [last] == a + (past + [last]);
  }

  lemma LostLater(w: World, e: Event)
    requires Enabled(w, e) && !Lasts(Next(w, e))
    ensures !Lasts(w)
  {
    var run :| Legal(Next(w, e), run) && !After(Next(w, e), run).db.status.Cancelled?;
    Snoc(w, [], e);
    assert [] + [e] == [e];
    AfterBoth(w, [e], Next(w, e), run);
  }

  lemma LostNow(w: World)
    requires !w.db.status.Cancelled?
    ensures !Lasts(w)
  {
    assert Legal(w, []) && After(w, []) == w;
  }

  /** How an execution that can write gets there: by a fault inside the `try` block, or by going on. */
  function Escape(id: nat, e: Exec): Event {
    if !e.pc.Finish? && InTry(e.pc) && !e.aborted then Throw(id, false) else Do(id, 0, true)
  }

  lemma EscapesByDo(task: Task, hasKind: bool, db: Db, e: Exec)
    requires DbOk(task, db) && ExecOk(task, db, e) && CanWrite(task, hasKind, db.outline, e) && Escape(0, e).Do?
             && !e.pc.Finish?
    ensures var (after, x) := ExecStep(task, hasKind, db, e, 0, true);
            after.status == db.status && x.Some? && CanWrite(task, hasKind, after.outline, x.value)
  {
    if e.pc.ReadPipeline? { DecideOk(task, db, e.selected); }
  }

  lemma {:induction false} ExecEscapes(w: World, id: nat)
    requires Inv(w) && id in w.execs && CanWrite(w.task, w.hasKind, w.db.outline, w.execs[id])
    ensures !Lasts(w)
    decreases if id in w.execs then Rank(w.execs[id].pc) else 0
  {
    var x := w.execs[id];
    var e := Escape(id, x);
    var n := Next(w, e);
    if !w.db.status.Cancelled? {
      LostNow(w);
    } else if x.pc.Finish? {
      assert ExecOk(w.task, w.db, x);
      LostNow(n);
      LostLater(w, e);
    } else {
      RankDrops(w.task, w.hasKind, w.db, x, 0, true, false);
      if e.Do? {
        assert ExecOk(w.task, w.db, x);
        EscapesByDo(w.task, w.hasKind, w.db, x);
      }
      StepKeeps(w, e);
      ExecEscapes(n, id);
      LostLater(w, e);
    }
  }

  lemma {:induction false} Above(s: set<nat>) returns (n: nat)
    ensures forall i :: i in s ==> i < n
  {
    n := 0;
    if s != {} {
      var i :| i in s;
      var m := Above(s - {i});
      assert s == (s - {i}) + {i};
      n := if i < m then m else i + 1;
    }
  }

  function StagesLeft(r: Resume): nat {
    match r
    case CheckSelection(_) => 3
    case SaveSelected(_) => 2
    case ToRunning(_) => 1
  }

  lemma {:induction false} ResumeEscapes(w: World, id: nat)
    requires Inv(w) && id in w.resumes && WillRun(w.task, w.db.outline, w.resumes[id])
    ensures !Lasts(w)
    decreases if id in w.resumes then StagesLeft(w.resumes[id]) else 0
  {
    var unused := Above(w.execs.Keys);
    var e := ResumeStep(id, unused);
    if w.resumes[id].ToRunning? {
      LostNow(Next(w, e));
    } else {
      StepKeeps(w, e);
      ResumeEscapes(Next(w, e), id);
    }
    LostLater(w, e);
  }

  /**
    A cancelled run stays cancelled, whatever happens, exactly when no execution can still write and no resume request
    will.
   */
  lemma CancellationLastsIff(w: World)
    requires Inv(w) && w.db.status.Cancelled?
    ensures Lasts(w) <==> !Threat(w)
  {
    if Threat(w) {
      if i :| i in w.execs && CanWrite(w.task, w.hasKind, w.db.outline, w.execs[i]) {
        ExecEscapes(w, i);
      } else {
        var r :| r in w.resumes && WillRun(w.task, w.db.outline, w.resumes[r]);
        ResumeEscapes(w, r);
      }
    } else {
      forall run | Legal(w, run)
        ensures After(w, run).db.status.Cancelled?
      {
        HarmlessRun(w, run);
      }
    }
  }

  /** Read before the cancellation is won: over every run up to there and every run after it. */
  lemma WonCancellationLastsIff(task: Task, hasKind: bool, run: seq<Event>)
    requires Legal(Start(task, hasKind), run)
    requires var w := After(Start(task, hasKind), run); Enabled(w, CancelTry) && Cancelable(w.db.status)
    ensures var w := After(Start(task, hasKind), run);
            Next(w, CancelTry).db.status.Cancelled? && (Lasts(Next(w, CancelTry)) <==> !Threat(w))
  {
    RunKeepsInv(task, hasKind, run);
    var w := After(Start(task, hasKind), run);
    StepKeeps(w, CancelTry);
    CancellationLastsIff(Next(w, CancelTry));
  }
}
