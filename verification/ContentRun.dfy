/** A content run: its executor await by await, crashes between any two of them, recovery, resume and cancellation. */
module ContentRun {
  import opened Prelude

  type Id = nat

  datatype Status = Queued | Running | AwaitingHitl | Interrupted | Completed | Failed | Cancelled

  function AllowedRunStates(from: Status): set<Status> {
    match from
    case Queued => {Running, Cancelled}
    case Running => {AwaitingHitl, Completed, Failed, Interrupted, Cancelled}
    case Interrupted => {Running, Failed, Cancelled}
    case AwaitingHitl => {Running, Cancelled}
    case Completed => {}
    case Failed => {}
    case Cancelled => {}
  }

  predicate Cancelable(s: Status) {
    s.Queued? || s.Running? || s.AwaitingHitl? || s.Interrupted?
  }

  /** The table and the list of cancelable statuses agree, and a status without a way on cannot be cancelled. */
  lemma CancelableIff(s: Status)
    ensures Cancelable(s) <==> Cancelled in AllowedRunStates(s)
    ensures Cancelable(s) <==> AllowedRunStates(s) != {}
  {
    assert Cancelled in AllowedRunStates(s) ==> AllowedRunStates(s) != {};
  }

  datatype Task = PageCopy | OutlineThenCopy
  datatype Phase = Outline | Copy

  const MAX_REFINE: nat := 2
  const RECOVERY_CAP: nat := 3

  predicate CanRefine(attempts: nat) {
    attempts < MAX_REFINE
  }

  function NextRefineCount(attempts: nat): Result<nat, ()> {
    if CanRefine(attempts) then Ok(attempts + 1) else Err(())
  }

  // ---------------------------------------------------------------------------
  // State
  // ---------------------------------------------------------------------------

  datatype Counts = Counts(outline: nat, copy: nat)

  /** The stored row and results of a run. An outline is its id; a selection is never stored empty. */
  datatype Db = Db(
    status: Status,
    selected: Option<seq<Id>>,
    outline: Option<Id>,
    document: bool,
    phase: Option<Phase>,
    counts: Counts,
    recoveryAttempts: nat,
    cancelRequested: bool)

  datatype Outcome = Await | Fail | Complete

  /**
    Whose `transition` it is: inside the `try` block of `execute`, outside it, or the worker's after `execute` threw.
   */
  datatype Place = TryBlock | Executor | Worker

  /**
    Where an execution stands: the await it is in. A call of the language model is one step, its retries and logs
    included.
   */
  datatype Pc =
    | ReadOutline
    | ReadPipeline(seen: Option<Id>)
    | SavePhase(phase: Phase, seen: Option<Id>, counts: Counts)
    | LoadContext(phase: Phase, outline: Option<Id>, counts: Counts)
    | Writer(phase: Phase, outline: Option<Id>, counts: Counts)
    | Verifier(phase: Phase, outline: Option<Id>, counts: Counts)
    | LogVerdict(phase: Phase, outline: Option<Id>, counts: Counts)
    | Refiner(phase: Phase, outline: Option<Id>, counts: Counts)
    | SaveRefined(phase: Phase, outline: Option<Id>, counts: Counts)
    | Persist(phase: Phase, outline: Option<Id>, counts: Counts)
    | SavePersisted(phase: Phase, outline: Option<Id>, counts: Counts)
    | FailRun(phase: Phase, outline: Option<Id>, counts: Counts)
    | SaveOutcome(phase: Phase, outcome: Outcome, counts: Counts)
    | Finish(to: Status, site: Place)
    | Stamp(to: Status, site: Place)
    | WorkerLog
    | WorkerRead

  /** An execution works on the run record it was started with. */
  datatype Exec = Exec(selected: Option<seq<Id>>, aborted: bool, pc: Pc)

  datatype Resume = CheckSelection(ids: seq<Id>) | SaveSelected(ids: seq<Id>) | ToRunning(ids: seq<Id>)

  /** After a crash the process first recovers; then it serves and executes. */
  datatype Mode = Up | Leftovers | Scan | SaveAttempt(attempts: nat) | MarkInterrupted | MarkExhausted

  datatype Started = Started(queued: nat, interrupted: nat, resumed: nat)

  datatype World = World(
    task: Task,
    hasKind: bool,
    db: Db,
    mode: Mode,
    execs: map<nat, Exec>,
    resumes: map<nat, Resume>,
    cancelling: nat,
    aborting: nat,
    started: Started,
    outlineRefines: nat)

  function Start(task: Task, hasKind: bool): World {
    World(task, hasKind, Db(Queued, None, None, false, None, Counts(0, 0), 0, false), Up, map[], map[], 0, 0,
          Started(0, 0, 0), 0)
  }

  // ---------------------------------------------------------------------------
  // The executor
  // ---------------------------------------------------------------------------

  predicate IsCanonicalOutlineSelection(selected: Option<seq<Id>>, outline: Option<Id>) {
    selected.Some? && outline.Some? && |selected.value| == 1 && selected.value[0] == outline.value
  }

  predicate HasSelection(selected: Option<seq<Id>>) {
    selected.Some? && |selected.value| > 0
  }

  function ResolvePhase(task: Task, selected: Option<seq<Id>>, stored: Option<Phase>): Phase {
    if task.PageCopy? then Copy
    else if HasSelection(selected) then Copy
    else stored.GetOr(Outline)
  }

  /** What `execute` does once it has read the outline and the pipeline state. */
  function Decide(task: Task, selected: Option<seq<Id>>, outline: Option<Id>, stored: Option<Phase>,
                  counts: Counts): Pc {
    if task.OutlineThenCopy? && HasSelection(selected) && !IsCanonicalOutlineSelection(selected, outline)
      then Finish(Failed, Executor)
    else if task.OutlineThenCopy? && outline.Some? && !HasSelection(selected) then Finish(AwaitingHitl, Executor)
    else
      var phase := ResolvePhase(task, selected, stored);
      if task.OutlineThenCopy? && phase.Copy? && !IsCanonicalOutlineSelection(selected, outline)
        then Finish(Failed, Executor)
      else SavePhase(phase, outline, counts)
  }

  /** The outcome of a graph run; nothing when the outline to be reviewed is missing, which throws. */
  function ToOutcome(task: Task, phase: Phase, failed: bool, outline: Option<Id>): Option<Outcome> {
    if failed then Some(Fail)
    else if phase.Outline? && task.OutlineThenCopy? then (if outline.None? then None else Some(Await))
    else Some(Complete)
  }

  function CountOf(phase: Phase, counts: Counts): nat {
    if phase.Copy? then counts.copy else counts.outline
  }

  function CountedUp(phase: Phase, counts: Counts): Counts {
    if phase.Copy? then counts.(copy := counts.copy + 1) else counts.(outline := counts.outline + 1)
  }

  /** Error out of the `try` block: an abort ends the execution in silence, anything else marks the run failed. */
  function Caught(e: Exec, isAbort: bool): Option<Exec> {
    if e.aborted || isAbort then None else Some(e.(pc := Finish(Failed, Executor)))
  }

  function StatusOf(outcome: Outcome): Status {
    match outcome
    case Await => AwaitingHitl
    case Fail => Failed
    case Complete => Completed
  }

  function AfterGraph(task: Task, e: Exec, phase: Phase, failed: bool, outline: Option<Id>,
                      counts: Counts): Option<Exec> {
    match ToOutcome(task, phase, failed, outline)
    case None => Caught(e, false)
    case Some(o) => Some(e.(pc := SaveOutcome(phase, o, counts)))
  }

  /**
    The model is not asked by an execution that has been aborted: the call throws at once, and the catch block is
    silent.
   */
  function Ask(e: Exec, pc: Pc): Option<Exec> {
    if e.aborted then None else Some(e.(pc := pc))
  }

  /** One await of an execution, with what the model answers: the id of a new outline, the verdict. */
  function ExecStep(task: Task, hasKind: bool, db: Db, e: Exec, newId: Id, ok: bool): (Db, Option<Exec>) {
    match e.pc
    case ReadOutline =>
      (db, Some(e.(pc := if !hasKind then Finish(Failed, Executor) else ReadPipeline(db.outline))))
    case ReadPipeline(seen) =>
      (db, Some(e.(pc := Decide(task, e.selected, seen, db.phase, db.counts))))
    case SavePhase(phase, seen, counts) =>
      (db.(phase := Some(phase), counts := counts), Ask(e, LoadContext(phase, seen, counts)))
    case LoadContext(phase, outline, counts) => (db, Ask(e, Writer(phase, outline, counts)))
    case Writer(phase, outline, counts) =>
      (db, Ask(e, Verifier(phase, if phase.Outline? then Some(newId) else outline, counts)))
    case Verifier(phase, outline, counts) =>
      (db, Some(e.(pc := if ok then Persist(phase, outline, counts) else LogVerdict(phase, outline, counts))))
    case LogVerdict(phase, outline, counts) =>
      (db, if CanRefine(CountOf(phase, counts)) then Ask(e, Refiner(phase, outline, counts))
           else Some(e.(pc := FailRun(phase, outline, counts))))
    case Refiner(phase, outline, counts) =>
      (db, match NextRefineCount(CountOf(phase, counts))
           case Err(_) => Caught(e, false)
           case Ok(_) =>
             var kept := if phase.Outline? && outline.None? then Some(newId) else outline;
             Some(e.(pc := SaveRefined(phase, kept, CountedUp(phase, counts)))))
    case SaveRefined(phase, outline, counts) =>
      (db.(phase := Some(phase), counts := counts), Ask(e, Verifier(phase, outline, counts)))
    case Persist(phase, outline, counts) =>
      if phase.Outline? then
        if outline.None? then (db, Caught(e, false))
        else (db.(outline := outline), Some(e.(pc := SavePersisted(phase, outline, counts))))
      else (db.(document := true), Some(e.(pc := SavePersisted(phase, outline, counts))))
    case SavePersisted(phase, outline, counts) =>
      (db.(phase := Some(phase), counts := counts), AfterGraph(task, e, phase, false, outline, counts))
    case FailRun(phase, outline, counts) =>
      (db.(phase := Some(phase), counts := counts), AfterGraph(task, e, phase, true, outline, counts))
    case SaveOutcome(phase, outcome, counts) =>
      (db.(phase := Some(phase), counts := counts),
       Some(e.(pc := Finish(StatusOf(outcome), TryBlock))))
    case Finish(to, site) =>
      (db.(status := to), if to.Completed? || to.Failed? then Some(e.(pc := Stamp(to, site))) else None)
    case Stamp(_, _) => (db, None)
    case WorkerLog => (db, Some(e.(pc := WorkerRead)))
    case WorkerRead => (db, if db.status.Running? then Some(e.(pc := Finish(Failed, Worker))) else None)
  }

  predicate InTry(pc: Pc) {
    match pc
    case ReadOutline => false
    case ReadPipeline(_) => false
    case SavePhase(_, _, _) => false
    case Finish(_, site) => site.TryBlock?
    case Stamp(_, site) => site.TryBlock?
    case WorkerLog => false
    case WorkerRead => false
    case _ => true
  }

  /**
    An await that throws: inside the `try` block it is caught there, outside it reaches the worker, in the worker it is
    only logged.
   */
  function ExecThrow(e: Exec, isAbort: bool): Option<Exec> {
    if InTry(e.pc) then Caught(e, isAbort)
    else if e.pc.WorkerRead? || ((e.pc.Finish? || e.pc.Stamp?) && e.pc.site.Worker?) then None
    else if e.pc.WorkerLog? then Some(e.(pc := WorkerRead))
    else Some(e.(pc := WorkerLog))
  }

  // ---------------------------------------------------------------------------
  // All steps
  // ---------------------------------------------------------------------------

  datatype Event =
    | Claim(id: nat)
    | Do(id: nat, newId: Id, ok: bool)
    | Throw(id: nat, isAbort: bool)
    | ResumeBegin(id: nat, ids: seq<Id>)
    | ResumeStep(id: nat, execId: nat)
    | ResumeLost(id: nat)         // the request fails where it stands
    | CancelSet
    | CancelTry
    | CancelAbort(heard: set<nat>)
    | Crash
    | BootStep

  predicate Enabled(w: World, e: Event) {
    match e
    case Claim(id) =>
      w.mode.Up? && id !in w.execs && (w.db.status.Queued? || (w.db.status.Interrupted? && !w.db.cancelRequested))
    case Do(id, _, _) => w.mode.Up? && id in w.execs
    case Throw(id, _) => w.mode.Up? && id in w.execs
    case ResumeBegin(id, ids) => w.mode.Up? && id !in w.resumes && w.db.status.AwaitingHitl? && ids != []
    case ResumeStep(id, execId) => w.mode.Up? && id in w.resumes && execId !in w.execs
    case ResumeLost(id) => w.mode.Up? && id in w.resumes
    case CancelSet => w.mode.Up?
    case CancelTry => w.mode.Up? && w.cancelling > 0
    case CancelAbort(heard) => w.mode.Up? && w.aborting > 0
    case Crash => true
    case BootStep => !w.mode.Up?
  }

  function Put(execs: map<nat, Exec>, id: nat, e: Option<Exec>): map<nat, Exec> {
    match e
    case None => execs - {id}
    case Some(x) => execs[id := x]
  }

  function ResumeNext(w: World, id: nat, execId: nat): World
    requires id in w.resumes
  {
    match w.resumes[id]
    case CheckSelection(ids) =>
      w.(resumes := if w.task.OutlineThenCopy? && IsCanonicalOutlineSelection(Some(ids), w.db.outline)
                    then w.resumes[id := SaveSelected(ids)] else w.resumes - {id})
    case SaveSelected(ids) =>
      w.(db := w.db.(selected := Some(ids)), resumes := w.resumes[id := ToRunning(ids)])
    case ToRunning(ids) =>
      w.(db := w.db.(status := Running), resumes := w.resumes - {id},
         execs := w.execs[execId := Exec(Some(ids), false, ReadOutline)],
         started := w.started.(resumed := w.started.resumed + 1))
  }

  /** `attemptCancel`: one conditional update. */
  function CancelCas(db: Db): Db {
    if Cancelable(db.status) then db.(status := Cancelled, cancelRequested := false) else db
  }

  function BootNext(w: World): World {
    match w.mode
    case Up => w
    case Leftovers =>
      w.(db := AfterLeftovers(w.db), mode := Scan)
    case Scan =>
      w.(mode := if w.db.status.Running? && !w.db.cancelRequested
                 then (if w.db.recoveryAttempts >= RECOVERY_CAP then MarkExhausted
                       else SaveAttempt(w.db.recoveryAttempts))
                 else Up)
    case SaveAttempt(attempts) => w.(db := w.db.(recoveryAttempts := attempts + 1), mode := MarkInterrupted)
    case MarkInterrupted => w.(db := w.db.(status := Interrupted), mode := Up)
    case MarkExhausted => w.(db := w.db.(status := Failed), mode := Up)
  }

  function Next(w: World, e: Event): World
    requires Enabled(w, e)
  {
    match e
    case Claim(id) =>
      w.(db := w.db.(status := Running), execs := w.execs[id := Exec(w.db.selected, false, ReadOutline)],
         started := if w.db.status.Queued? then w.started.(queued := w.started.queued + 1)
                    else w.started.(interrupted := w.started.interrupted + 1))
    case Do(id, newId, ok) =>
      var (db, x) := ExecStep(w.task, w.hasKind, w.db, w.execs[id], newId, ok);
      var refined := w.execs[id].pc.SaveRefined? && w.execs[id].pc.phase.Outline?;
      w.(db := db, execs := Put(w.execs, id, x), outlineRefines := w.outlineRefines + if refined then 1 else 0)
    case Throw(id, isAbort) => w.(execs := Put(w.execs, id, ExecThrow(w.execs[id], isAbort)))
    case ResumeBegin(id, ids) => w.(resumes := w.resumes[id := CheckSelection(ids)])
    case ResumeStep(id, execId) => ResumeNext(w, id, execId)
    case ResumeLost(id) => w.(resumes := w.resumes - {id})
    case CancelSet =>
      w.(db := if Cancelable(w.db.status) then w.db.(cancelRequested := true) else w.db, cancelling := w.cancelling + 1)
    case CancelTry =>
      w.(db := CancelCas(w.db), cancelling := w.cancelling - 1,
         aborting := w.aborting + if Cancelable(w.db.status) then 1 else 0)
    case CancelAbort(heard) =>
      w.(execs := map i | i in w.execs :: if i in heard then w.execs[i].(aborted := true) else w.execs[i],
         aborting := w.aborting - 1)
    case Crash => w.(mode := Leftovers, execs := map[], resumes := map[], cancelling := 0, aborting := 0)
    case BootStep => BootNext(w)
  }

  // ---------------------------------------------------------------------------
  // What every step keeps
  // ---------------------------------------------------------------------------

  predicate Bounded(c: Counts) {
    c.outline <= MAX_REFINE && c.copy <= MAX_REFINE
  }

  ghost predicate DbOk(task: Task, db: Db) {
    && Bounded(db.counts)
    && db.recoveryAttempts <= RECOVERY_CAP
    && (db.selected.Some? ==> task.OutlineThenCopy? && db.outline.Some? && db.selected == Some([db.outline.value]))
    && (db.status.Completed? ==> db.document && db.phase == Some(Copy))
    && (db.document && task.OutlineThenCopy? ==> db.selected.Some?)
    && (db.status.AwaitingHitl? ==> task.OutlineThenCopy? && db.outline.Some?)
    && (task.PageCopy? ==> db.outline.None?)
    && (db.phase == Some(Copy) && task.OutlineThenCopy? ==> db.selected.Some?)
    && (db.status.Queued? ==> db.outline.None? && db.selected.None?)
  }

  /** Working in `phase`: on an outline while none is stored, or on a copy of what was selected. */
  ghost predicate Working(task: Task, db: Db, selected: Option<seq<Id>>, phase: Phase, outline: Option<Id>) {
    match phase
    case Outline => task.OutlineThenCopy? && selected.None? && db.outline.None?
    case Copy =>
      outline == db.outline && db.phase == Some(Copy)
      && (task.OutlineThenCopy? ==> db.outline.Some? && selected == Some([db.outline.value]))
  }

  ghost predicate PcOk(task: Task, db: Db, selected: Option<seq<Id>>, pc: Pc) {
    match pc
    case ReadOutline => true
    case ReadPipeline(seen) => seen == db.outline
    case SavePhase(phase, seen, c) =>
      Working(task, db.(phase := Some(phase)), selected, phase, seen)
      && c.outline == db.counts.outline && Bounded(c)
    case LoadContext(phase, o, c) =>
      Working(task, db, selected, phase, o) && c.outline == db.counts.outline
      && Bounded(c)
    case Writer(phase, o, c) => Working(task, db, selected, phase, o) && c.outline == db.counts.outline && Bounded(c)
    case LogVerdict(phase, o, c) =>
      Working(task, db, selected, phase, o) && (phase.Outline? ==> o.Some?)
      && c.outline == db.counts.outline && Bounded(c)
    case Verifier(phase, o, c) =>
      Working(task, db, selected, phase, o) && (phase.Outline? ==> o.Some?)
      && c.outline == db.counts.outline && Bounded(c)
    case Refiner(phase, o, c) =>
      Working(task, db, selected, phase, o) && (phase.Outline? ==> o.Some?) && c.outline == db.counts.outline
      && Bounded(c) && CanRefine(CountOf(phase, c))
    case SaveRefined(phase, o, c) =>
      Working(task, db, selected, phase, o) && (phase.Outline? ==> o.Some?) && Bounded(c)
      && c.outline == db.counts.outline + if phase.Outline? then 1 else 0
    case Persist(phase, o, c) =>
      Working(task, db, selected, phase, o) && (phase.Outline? ==> o.Some?)
      && c.outline == db.counts.outline && Bounded(c)
    case SavePersisted(phase, o, c) =>
      c.outline == db.counts.outline && Bounded(c) &&
      (match phase
       case Outline => task.OutlineThenCopy? && selected.None? && o.Some? && db.outline == o
       case Copy => Working(task, db, selected, Copy, o) && db.document && db.phase == Some(Copy))
    case FailRun(phase, o, c) => Working(task, db, selected, phase, o) && c.outline == db.counts.outline && Bounded(c)
    case SaveOutcome(phase, outcome, c) =>
      c.outline == db.counts.outline && Bounded(c)
      && (if phase.Copy? then db.phase == Some(Copy) && (task.OutlineThenCopy? ==> selected.Some?)
          else task.OutlineThenCopy? && selected.None?)
      && (outcome.Await? ==> phase.Outline? && task.OutlineThenCopy? && selected.None? && db.outline.Some?)
      && (outcome.Complete? ==> phase.Copy? && db.document && db.phase == Some(Copy))
    case Finish(to, _) =>
      (to.Failed? || (to.Completed? && db.document && db.phase == Some(Copy))
       || (to.AwaitingHitl? && task.OutlineThenCopy? && selected.None? && db.outline.Some?))
    case Stamp(to, _) => to.Failed? || (to.Completed? && db.document && db.phase == Some(Copy))
    case WorkerLog => true
    case WorkerRead => true
  }

  ghost predicate ExecOk(task: Task, db: Db, e: Exec) {
    && e.selected == db.selected
    && PcOk(task, db, e.selected, e.pc)
  }

  ghost predicate ResumeOk(db: Db, r: Resume) {
    && db.outline.Some?
    && (!r.CheckSelection? ==> r.ids == [db.outline.value])
    && (r.ToRunning? ==> db.selected == Some(r.ids))
  }

  ghost predicate Inv(w: World) {
    && DbOk(w.task, w.db)
    && w.outlineRefines == w.db.counts.outline
    && (forall i :: i in w.execs ==> ExecOk(w.task, w.db, w.execs[i]))
    && (forall i :: i in w.resumes ==> ResumeOk(w.db, w.resumes[i]))
    && (w.resumes != map[] ==> w.task.OutlineThenCopy?)
    // an execution without a selection is alone, and nobody can be resuming
    && (w.db.selected.None? && w.execs != map[] ==>
          w.resumes == map[] && (forall i, j :: i in w.execs && j in w.execs ==> i == j) && !w.db.status.AwaitingHitl?)
    && (w.db.status.Queued? || w.db.status.Interrupted? || !w.mode.Up? ==> w.execs == map[] && w.resumes == map[])
    && (w.mode.SaveAttempt? ==> w.mode.attempts == w.db.recoveryAttempts < RECOVERY_CAP)
    && (w.mode.SaveAttempt? || w.mode.MarkInterrupted? || w.mode.MarkExhausted? ==> w.db.status.Running?)
  }

  /** What one await may change for others: an execution with a selection leaves alone all they rely on. */
  ghost predicate Frame(before: Db, after: Db) {
    && after.selected == before.selected
    && after.outline == before.outline
    && after.counts.outline == before.counts.outline
    && (before.document ==> after.document)
    && (before.phase == Some(Copy) ==> after.phase == Some(Copy))
    && after.recoveryAttempts == before.recoveryAttempts
  }

  lemma FrameKeeps(task: Task, before: Db, after: Db, e: Exec)
    requires Frame(before, after) && ExecOk(task, before, e)
    ensures ExecOk(task, after, e)
  {
  }

  /** What an execution decides fits the stored state; the failure for an invalid selection is never taken. */
  lemma DecideOk(task: Task, db: Db, selected: Option<seq<Id>>)
    requires DbOk(task, db) && selected == db.selected
    ensures var pc := Decide(task, selected, db.outline, db.phase, db.counts);
            pc.SavePhase? || pc == Finish(AwaitingHitl, Executor)
    ensures PcOk(task, db, selected, Decide(task, selected, db.outline, db.phase, db.counts))
  {
    if selected.Some? {
      assert IsCanonicalOutlineSelection(selected, db.outline);
    }
  }

  /** What one await promises: the stored state and the execution stay in order, and others are left alone. */
  ghost predicate StepGood(task: Task, db: Db, e: Exec, after: Db, x: Option<Exec>) {
    && DbOk(task, after)
    && (x.Some? ==> ExecOk(task, after, x.value))
    && after.selected == db.selected && after.recoveryAttempts == db.recoveryAttempts
    && (e.selected.Some? ==> Frame(db, after))
    && !after.status.Queued? && !after.status.Interrupted?
    && after.counts.outline == db.counts.outline + (if e.pc.SaveRefined? && e.pc.phase.Outline? then 1 else 0)
    && (after.status.AwaitingHitl? && !db.status.AwaitingHitl? ==> x.None?)
  }

  predicate Early(pc: Pc) {
    pc.ReadOutline? || pc.ReadPipeline? || pc.SavePhase?
  }

  predicate Late(pc: Pc) {
    pc.SaveOutcome? || pc.Finish? || pc.Stamp? || pc.WorkerLog? || pc.WorkerRead?
  }

  lemma EarlyStepOk(task: Task, hasKind: bool, db: Db, e: Exec, newId: Id, ok: bool)
    requires DbOk(task, db) && ExecOk(task, db, e) && !db.status.Queued? && !db.status.Interrupted? && Early(e.pc)
    ensures var (after, x) := ExecStep(task, hasKind, db, e, newId, ok); StepGood(task, db, e, after, x)
  {
    if e.pc.ReadPipeline? { DecideOk(task, db, e.selected); }
  }

  lemma DraftStepOk(task: Task, hasKind: bool, db: Db, e: Exec, newId: Id, ok: bool)
    requires DbOk(task, db) && ExecOk(task, db, e) && !db.status.Queued? && !db.status.Interrupted?
    requires e.pc.LoadContext? || e.pc.Writer? || e.pc.Verifier? || e.pc.LogVerdict?
    ensures var (after, x) := ExecStep(task, hasKind, db, e, newId, ok); StepGood(task, db, e, after, x)
  {
  }

  lemma RefineStepOk(task: Task, hasKind: bool, db: Db, e: Exec, newId: Id, ok: bool)
    requires DbOk(task, db) && ExecOk(task, db, e) && !db.status.Queued? && !db.status.Interrupted?
    requires e.pc.Refiner? || e.pc.SaveRefined?
    ensures var (after, x) := ExecStep(task, hasKind, db, e, newId, ok); StepGood(task, db, e, after, x)
  {
  }

  lemma PersistStepOk(task: Task, hasKind: bool, db: Db, e: Exec, newId: Id, ok: bool)
    requires DbOk(task, db) && ExecOk(task, db, e) && !db.status.Queued? && !db.status.Interrupted? && e.pc.Persist?
    ensures var (after, x) := ExecStep(task, hasKind, db, e, newId, ok); StepGood(task, db, e, after, x)
  {
  }

  lemma GraphEndOk(task: Task, hasKind: bool, db: Db, e: Exec, newId: Id, ok: bool)
    requires DbOk(task, db) && ExecOk(task, db, e) && !db.status.Queued? && !db.status.Interrupted?
    requires e.pc.SavePersisted? || e.pc.FailRun?
    ensures var (after, x) := ExecStep(task, hasKind, db, e, newId, ok); StepGood(task, db, e, after, x)
  {
  }

  lemma LateStepOk(task: Task, hasKind: bool, db: Db, e: Exec, newId: Id, ok: bool)
    requires DbOk(task, db) && ExecOk(task, db, e) && !db.status.Queued? && !db.status.Interrupted? && Late(e.pc)
    ensures var (after, x) := ExecStep(task, hasKind, db, e, newId, ok); StepGood(task, db, e, after, x)
  {
  }

  lemma ExecStepOk(task: Task, hasKind: bool, db: Db, e: Exec, newId: Id, ok: bool)
    requires DbOk(task, db) && ExecOk(task, db, e) && !db.status.Queued? && !db.status.Interrupted?
    ensures var (after, x) := ExecStep(task, hasKind, db, e, newId, ok); StepGood(task, db, e, after, x)
  {
    if Early(e.pc) { EarlyStepOk(task, hasKind, db, e, newId, ok); }
    else if Late(e.pc) { LateStepOk(task, hasKind, db, e, newId, ok); }
    else if e.pc.SavePersisted? || e.pc.FailRun? { GraphEndOk(task, hasKind, db, e, newId, ok); }
    else if e.pc.LoadContext? || e.pc.Writer? || e.pc.Verifier? || e.pc.LogVerdict? {
      DraftStepOk(task, hasKind, db, e, newId, ok);
    }
    else if e.pc.Persist? { PersistStepOk(task, hasKind, db, e, newId, ok); }
    else { RefineStepOk(task, hasKind, db, e, newId, ok); }
  }

  lemma ExecThrowOk(task: Task, db: Db, e: Exec, isAbort: bool)
    requires ExecOk(task, db, e)
    ensures ExecThrow(e, isAbort).Some? ==> ExecOk(task, db, ExecThrow(e, isAbort).value)
  {
  }

  lemma DoKeeps(w: World, e: Event)
    requires Inv(w) && e.Do? && Enabled(w, e)
    ensures Inv(Next(w, e))
  {
    var x := w.execs[e.id];
    ExecStepOk(w.task, w.hasKind, w.db, x, e.newId, e.ok);
    var n := Next(w, e);
    forall i | i in n.execs && i != e.id
      ensures ExecOk(n.task, n.db, n.execs[i])
    {
      FrameKeeps(w.task, w.db, n.db, w.execs[i]);
    }
  }

  lemma ThrowKeeps(w: World, e: Event)
    requires Inv(w) && e.Throw? && Enabled(w, e)
    ensures Inv(Next(w, e))
  {
    ExecThrowOk(w.task, w.db, w.execs[e.id], e.isAbort);
  }

  lemma ClaimKeeps(w: World, e: Event)
    requires Inv(w) && e.Claim? && Enabled(w, e)
    ensures Inv(Next(w, e))
  {
  }

  lemma ResumeBeginKeeps(w: World, e: Event)
    requires Inv(w) && e.ResumeBegin? && Enabled(w, e)
    ensures Inv(Next(w, e))
  {
  }

  lemma ResumeCheckKeeps(w: World, e: Event)
    requires Inv(w) && e.ResumeStep? && Enabled(w, e) && w.resumes[e.id].CheckSelection?
    ensures Inv(Next(w, e))
  {
    var n := Next(w, e);
    var ids := w.resumes[e.id].ids;
    if IsCanonicalOutlineSelection(Some(ids), w.db.outline) { assert ids == [w.db.outline.value]; }
    forall i | i in n.resumes
      ensures ResumeOk(n.db, n.resumes[i])
    {
      assert ResumeOk(w.db, w.resumes[i]);
    }
  }

  lemma ResumeSaveKeeps(w: World, e: Event)
    requires Inv(w) && e.ResumeStep? && Enabled(w, e) && w.resumes[e.id].SaveSelected?
    ensures Inv(Next(w, e))
  {
    var n := Next(w, e);
    assert ResumeOk(w.db, w.resumes[e.id]);
    if w.db.selected.None? { assert w.execs == map[]; } else { assert n.db == w.db; }
    forall i | i in n.resumes
      ensures ResumeOk(n.db, n.resumes[i])
    {
      assert ResumeOk(w.db, w.resumes[i]);
    }
  }

  lemma ResumeRunKeeps(w: World, e: Event)
    requires Inv(w) && e.ResumeStep? && Enabled(w, e) && w.resumes[e.id].ToRunning?
    ensures Inv(Next(w, e))
  {
    var n := Next(w, e);
    assert ResumeOk(w.db, w.resumes[e.id]);
    forall i | i in n.execs
      ensures ExecOk(n.task, n.db, n.execs[i])
    {
      if i != e.execId {
        assert ExecOk(w.task, w.db, w.execs[i]);
        FrameKeeps(w.task, w.db, n.db, w.execs[i]);
      }
    }
    forall i | i in n.resumes
      ensures ResumeOk(n.db, n.resumes[i])
    {
      assert ResumeOk(w.db, w.resumes[i]);
    }
  }

  lemma ResumeKeeps(w: World, e: Event)
    requires Inv(w) && (e.ResumeBegin? || e.ResumeStep?) && Enabled(w, e)
    ensures Inv(Next(w, e))
  {
    if e.ResumeBegin? { ResumeBeginKeeps(w, e); }
    else if w.resumes[e.id].CheckSelection? { ResumeCheckKeeps(w, e); }
    else if w.resumes[e.id].SaveSelected? { ResumeSaveKeeps(w, e); }
    else { ResumeRunKeeps(w, e); }
  }

  lemma ResumeLostKeeps(w: World, e: Event)
    requires Inv(w) && e.ResumeLost? && Enabled(w, e)
    ensures Inv(Next(w, e))
  {
    var n := Next(w, e);
    forall i | i in n.resumes
      ensures ResumeOk(n.db, n.resumes[i])
    {
      assert ResumeOk(w.db, w.resumes[i]);
    }
  }

  lemma CancelSetKeeps(w: World)
    requires Inv(w) && Enabled(w, CancelSet)
    ensures Inv(Next(w, CancelSet))
  {
    StatusKeeps(w, Next(w, CancelSet));
  }

  lemma CancelTryKeeps(w: World)
    requires Inv(w) && Enabled(w, CancelTry)
    ensures Inv(Next(w, CancelTry))
  {
    StatusKeeps(w, Next(w, CancelTry));
  }

  /** Cancelling, or marking a run to be cancelled, touches nothing an execution or a resume relies on. */
  lemma StatusKeeps(w: World, n: World)
    requires Inv(w) && w.mode.Up?
    requires n == w.(db := n.db, cancelling := n.cancelling, aborting := n.aborting)
    requires n.db == w.db.(cancelRequested := n.db.cancelRequested, status := n.db.status)
    requires n.db.status == w.db.status || n.db.status.Cancelled?
    ensures Inv(n)
  {
    forall i | i in n.execs
      ensures ExecOk(n.task, n.db, n.execs[i])
    {
      assert ExecOk(w.task, w.db, w.execs[i]);
      FrameKeeps(w.task, w.db, n.db, w.execs[i]);
    }
  }

  lemma CancelAbortKeeps(w: World, heard: set<nat>)
    requires Inv(w) && Enabled(w, CancelAbort(heard))
    ensures Inv(Next(w, CancelAbort(heard)))
  {
    var n := Next(w, CancelAbort(heard));
    assert n.execs.Keys == w.execs.Keys;
    forall i | i in n.execs
      ensures ExecOk(n.task, n.db, n.execs[i])
    {
      assert ExecOk(w.task, w.db, w.execs[i]);
    }
  }

  lemma CrashKeeps(w: World)
    requires Inv(w)
    ensures Inv(Next(w, Crash))
  {
  }

  lemma BootKeeps(w: World)
    requires Inv(w) && Enabled(w, BootStep)
    ensures Inv(Next(w, BootStep))
  {
  }

  lemma StepKeeps(w: World, e: Event)
    requires Inv(w) && Enabled(w, e)
    ensures Inv(Next(w, e))
  {
    if e.Do? { DoKeeps(w, e); }
    else if e.Throw? { ThrowKeeps(w, e); }
    else if e.Claim? { ClaimKeeps(w, e); }
    else if e.ResumeBegin? || e.ResumeStep? { ResumeKeeps(w, e); }
    else if e.ResumeLost? { ResumeLostKeeps(w, e); }
    else if e.Crash? { CrashKeeps(w); }
    else if e.BootStep? { BootKeeps(w); }
    else if e.CancelSet? { CancelSetKeeps(w); }
    else if e.CancelTry? { CancelTryKeeps(w); }
    else { CancelAbortKeeps(w, e.heard); }
  }

  // ---------------------------------------------------------------------------
  // Whole runs
  // ---------------------------------------------------------------------------

  function After(w: World, run: seq<Event>): World
    requires Legal(w, run)
    decreases |run|, 1
  {
    if run == [] then w else Next(After(w, run[..|run| - 1]), run[|run| - 1])
  }

  predicate Legal(w: World, run: seq<Event>)
    decreases |run|, 0
  {
    run == [] || (Legal(w, run[..|run| - 1]) && Enabled(After(w, run[..|run| - 1]), run[|run| - 1]))
  }

  lemma {:induction false} RunKeepsInv(task: Task, hasKind: bool, run: seq<Event>)
    requires Legal(Start(task, hasKind), run)
    ensures Inv(After(Start(task, hasKind), run)) && After(Start(task, hasKind), run).task == task
    decreases |run|
  {
    if run != [] {
      RunKeepsInv(task, hasKind, run[..|run| - 1]);
      StepKeeps(After(Start(task, hasKind), run[..|run| - 1]), run[|run| - 1]);
    }
  }

  predicate InGraph(pc: Pc) {
    pc.LoadContext? || pc.Writer? || pc.Verifier? || pc.LogVerdict? || pc.Refiner? || pc.SaveRefined? || pc.Persist?
  }

  /** Over every interleaving of executions, resumes, cancellations, faults, crashes and recoveries. */
  lemma RunIsSafe(task: Task, hasKind: bool, run: seq<Event>)
    requires Legal(Start(task, hasKind), run)
    ensures var w := After(Start(task, hasKind), run);
            // the outline phase works only while no outline is stored, the copy phase only on the one selected
            && (forall i :: i in w.execs && InGraph(w.execs[i].pc) ==>
                  match w.execs[i].pc.phase
                  case Outline => task.OutlineThenCopy? && w.db.outline.None? && w.db.selected.None?
                  case Copy => w.execs[i].pc.outline == w.db.outline
                               && (task.OutlineThenCopy? ==>
                                     && w.db.outline.Some?
                                     && w.execs[i].selected == Some([w.db.outline.value]) == w.db.selected))
            // a completed run has been through the copy phase and has its document
            && (w.db.status.Completed? ==> w.db.phase == Some(Copy) && w.db.document)
            && (w.db.document && task.OutlineThenCopy? ==>
                w.db.outline.Some? && w.db.selected == Some([w.db.outline.value]))
            // a run awaiting review has an outline to review
            && (w.db.status.AwaitingHitl? ==> task.OutlineThenCopy? && w.db.outline.Some?)
            // refinements of the outline over the whole life of the run, and attempts at recovery
            && w.outlineRefines == w.db.counts.outline <= 2 && w.db.counts.copy <= 2 && w.db.recoveryAttempts <= 3
  {
    RunKeepsInv(task, hasKind, run);
  }

  /**
    Whenever the graph refines, the policy still has a count to give: the exhaustion error is never thrown, and two is
    never passed.
   */
  lemma RefineNeverExhausted(task: Task, hasKind: bool, run: seq<Event>, i: nat)
    requires Legal(Start(task, hasKind), run)
    requires var w := After(Start(task, hasKind), run); i in w.execs && w.execs[i].pc.Refiner?
    ensures var w := After(Start(task, hasKind), run);
            var pc := w.execs[i].pc;
            && NextRefineCount(CountOf(pc.phase, pc.counts)).Ok?
            && NextRefineCount(CountOf(pc.phase, pc.counts)).value
               == CountOf(pc.phase, CountedUp(pc.phase, pc.counts)) <= MAX_REFINE
            && (pc.phase.Outline? ==> NextRefineCount(pc.counts.outline).value == w.outlineRefines + 1)
  {
    RunKeepsInv(task, hasKind, run);
    var w := After(Start(task, hasKind), run);
    assert ExecOk(w.task, w.db, w.execs[i]);
  }

  // ---------------------------------------------------------------------------
  // Recovery as a loop over all runs
  // ---------------------------------------------------------------------------

  function AfterLeftovers(db: Db): Db {
    if db.cancelRequested && (db.status.Running? || db.status.Interrupted?) then CancelCas(db) else db
  }

  function AfterInterrupting(db: Db): Db {
    if !db.status.Running? || db.cancelRequested then db
    else if db.recoveryAttempts >= RECOVERY_CAP then db.(status := Failed)
    else db.(recoveryAttempts := db.recoveryAttempts + 1, status := Interrupted)
  }

  /** What recovery makes of one stored run. */
  function RecoveredRow(db: Db): Db {
    AfterInterrupting(AfterLeftovers(db))
  }

  ghost predicate EachOnce(order: seq<nat>, keys: set<nat>) {
    && (forall id :: id in keys <==> id in order)
    && (forall i, j :: 0 <= i < j < |order| ==> order[i] != order[j])
  }

  class RunTable {
    var rows: map<nat, Db>

    constructor (rows: map<nat, Db>)
      ensures this.rows == rows
    {
      this.rows := rows;
    }

    method AttemptCancel(id: nat) returns (won: bool)
      requires id in rows
      modifies this
      ensures rows == old(rows)[id := CancelCas(old(rows)[id])] && won == Cancelable(old(rows)[id].status)
    {
      won := Cancelable(rows[id].status);
      if won { rows := rows[id := rows[id].(status := Cancelled, cancelRequested := false)]; }
      assert !won ==> rows[id := CancelCas(rows[id])] == rows;
    }

    method CancelLeftovers(order: seq<nat>)
      requires EachOnce(order, rows.Keys)
      modifies this
      ensures rows.Keys == old(rows).Keys
      ensures forall id :: id in rows ==> rows[id] == AfterLeftovers(old(rows)[id])
    {
      for n := 0 to |order|
        invariant rows.Keys == old(rows).Keys
        invariant forall i :: 0 <= i < n ==> rows[order[i]] == AfterLeftovers(old(rows)[order[i]])
        invariant forall i :: n <= i < |order| ==> rows[order[i]] == old(rows)[order[i]]
      {
        var db := rows[order[n]];
        if db.cancelRequested && (db.status.Running? || db.status.Interrupted?) {
          var won := AttemptCancel(order[n]);
        }
      }
      assert forall id :: id in rows ==> id in order;
    }

    method InterruptRunning(order: seq<nat>)
      requires EachOnce(order, rows.Keys)
      modifies this
      ensures rows.Keys == old(rows).Keys
      ensures forall id :: id in rows ==> rows[id] == AfterInterrupting(old(rows)[id])
    {
      for n := 0 to |order|
        invariant rows.Keys == old(rows).Keys
        invariant forall i :: 0 <= i < n ==> rows[order[i]] == AfterInterrupting(old(rows)[order[i]])
        invariant forall i :: n <= i < |order| ==> rows[order[i]] == old(rows)[order[i]]
      {
        var db := rows[order[n]];
        if db.status.Running? && !db.cancelRequested {
          if db.recoveryAttempts >= RECOVERY_CAP {
            rows := rows[order[n] := db.(status := Failed)];
            continue;
          }
          rows := rows[order[n] := db.(recoveryAttempts := db.recoveryAttempts + 1)];
          rows := rows[order[n] := rows[order[n]].(status := Interrupted)];
        }
      }
      assert forall id :: id in rows ==> id in order;
    }

    /** `execute`: first the cancel leftovers, then the runs a crash left running. */
    method Recover(order: seq<nat>)
      requires EachOnce(order, rows.Keys)
      modifies this
      ensures rows.Keys == old(rows).Keys
      ensures forall id :: id in rows ==> rows[id] == RecoveredRow(old(rows)[id])
    {
      CancelLeftovers(order);
      InterruptRunning(order);
    }
  }

  function Boot(w: World, steps: nat): World
    decreases steps
  {
    if steps == 0 || w.mode.Up? then w else Boot(BootNext(w), steps - 1)
  }

  /**
    An undisturbed recovery leaves no run in `running`: each is interrupted with one attempt more, failed at the cap, or
    cancelled.
   */
  lemma BootRecovers(w: World)
    requires w.mode.Leftovers?
    ensures Boot(w, 4).mode.Up? && Boot(w, 4).db == RecoveredRow(w.db)
    ensures !RecoveredRow(w.db).status.Running?
    ensures RecoveredRow(w.db).status.Interrupted? && w.db.status.Running? ==>
            RecoveredRow(w.db).recoveryAttempts == w.db.recoveryAttempts + 1 <= RECOVERY_CAP
  {
    BootUnfolds(w, 3);
    BootFromScan(BootNext(w));
  }

  lemma BootUnfolds(w: World, n: nat)
    requires !w.mode.Up?
    ensures Boot(w, n + 1) == Boot(BootNext(w), n)
  {
  }

  lemma BootFromScan(w: World)
    requires w.mode.Scan?
    ensures Boot(w, 3).mode.Up? && Boot(w, 3).db == AfterInterrupting(w.db)
  {
    BootUnfolds(w, 2);
    var w1 := BootNext(w);
    if !w1.mode.Up? {
      BootUnfolds(w1, 1);
      var w2 := BootNext(w1);
      if !w2.mode.Up? { BootUnfolds(w2, 0); }
    }
  }
}
