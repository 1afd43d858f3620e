/** How often a content run is executed, and how many steps all its executions take together. */
module RunBounds {
  import opened Prelude
  import opened ContentRun
  import opened RunReach

  // ---------------------------------------------------------------------------
  // One execution
  // ---------------------------------------------------------------------------

  function Left(phase: Phase, c: Counts): nat {
    if CountOf(phase, c) >= MAX_REFINE then 0 else MAX_REFINE - CountOf(phase, c)
  }

  const STEPS: nat := 25

  /** How many steps an execution can still take. */
  function Rank(pc: Pc): nat {
    match pc
    case ReadOutline => STEPS
    case ReadPipeline(_) => 24
    case SavePhase(_, _, _) => 23
    case LoadContext(_, _, _) => 22
    case Writer(_, _, _) => 21
    case Verifier(phase, _, c) => 12 + 4 * Left(phase, c)
    case LogVerdict(phase, _, c) => 11 + 4 * Left(phase, c)
    case Refiner(phase, _, c) => 10 + 4 * Left(phase, c)
    case SaveRefined(phase, _, c) => 13 + 4 * Left(phase, c)
    case Persist(_, _, _) => 11
    case SavePersisted(_, _, _) => 10
    case FailRun(_, _, _) => 10
    case SaveOutcome(_, _, _) => 9
    case Finish(_, site) => if site.TryBlock? then 8 else if site.Executor? then 6 else 2
    case Stamp(_, site) => if site.TryBlock? then 7 else if site.Executor? then 5 else 1
    case WorkerLog => 4
    case WorkerRead => 3
  }

  lemma RankDropsRefining(task: Task, hasKind: bool, db: Db, e: Exec, newId: Id, ok: bool)
    requires e.pc.Refiner? || e.pc.SaveRefined? || e.pc.Verifier? || e.pc.LogVerdict?
    ensures var (_, x) := ExecStep(task, hasKind, db, e, newId, ok); x.Some? ==> Rank(x.value.pc) < Rank(e.pc)
  {
  }

  lemma RankDropsElsewhere(task: Task, hasKind: bool, db: Db, e: Exec, newId: Id, ok: bool)
    requires !(e.pc.Refiner? || e.pc.SaveRefined? || e.pc.Verifier? || e.pc.LogVerdict?)
    ensures var (_, x) := ExecStep(task, hasKind, db, e, newId, ok); x.Some? ==> Rank(x.value.pc) < Rank(e.pc)
  {
    if Early(e.pc) {
      assert forall seen :: Rank(Decide(task, e.selected, seen, db.phase, db.counts)) < 24;
    }
  }

  /**
    Every step, and every fault, brings an execution nearer its end: at most 25 of them, refinements and error paths
    included.
   */
  lemma RankDrops(task: Task, hasKind: bool, db: Db, e: Exec, newId: Id, ok: bool, isAbort: bool)
    ensures 0 < Rank(e.pc) <= STEPS
    ensures var (_, x) := ExecStep(task, hasKind, db, e, newId, ok); x.Some? ==> Rank(x.value.pc) < Rank(e.pc)
    ensures ExecThrow(e, isAbort).Some? ==> Rank(ExecThrow(e, isAbort).value.pc) < Rank(e.pc)
  {
    if e.pc.Refiner? || e.pc.SaveRefined? || e.pc.Verifier? || e.pc.LogVerdict? {
      RankDropsRefining(task, hasKind, db, e, newId, ok);
    } else {
      RankDropsElsewhere(task, hasKind, db, e, newId, ok);
    }
  }

  // ---------------------------------------------------------------------------
  // How many executions
  // ---------------------------------------------------------------------------

  function Total(s: Started): nat {
    s.queued + s.interrupted + s.resumed
  }

  /** With at most `k` resume requests in flight. */
  ghost predicate Budget(k: nat, w: World) {
    && w.started.queued + (if w.db.status.Queued? then 1 else 0) <= 1
    && w.started.interrupted
       + (if w.db.status.Interrupted? || w.mode.MarkInterrupted? then 1 else 0) <= w.db.recoveryAttempts
    && |w.resumes| <= k
    && (w.started.resumed > 0 ==>
          w.started.resumed + |w.resumes| <= k && w.db.selected.Some? && !w.db.status.AwaitingHitl?)
  }

  lemma WithoutOne(m: map<nat, Resume>, id: nat)
    requires id in m
    ensures |m - {id}| == |m| - 1
  {
    assert (m - {id}).Keys == m.Keys - {id};
  }

  lemma BudgetResume(k: nat, w: World, e: Event)
    requires Inv(w) && Budget(k, w) && e.ResumeStep? && Enabled(w, e)
    ensures Budget(k, Next(w, e))
  {
    WithoutOne(w.resumes, e.id);
    assert ResumeOk(w.db, w.resumes[e.id]);
    if !w.resumes[e.id].ToRunning? {
      var n := Next(w, e);
      if n.resumes != w.resumes - {e.id} { assert n.resumes.Keys == w.resumes.Keys; }
    }
  }

  lemma BudgetDo(k: nat, w: World, e: Event)
    requires Inv(w) && Budget(k, w) && e.Do? && Enabled(w, e)
    ensures Budget(k, Next(w, e))
  {
    var x := w.execs[e.id];
    assert ExecOk(w.task, w.db, x);
    ExecStepOk(w.task, w.hasKind, w.db, x, e.newId, e.ok);
    DoWritesStatus(w.task, w.hasKind, w.db, x, e.newId, e.ok);
  }

  /** The only step of an execution that writes the status is its transition, and it writes what it was to write. */
  lemma DoWritesStatus(task: Task, hasKind: bool, db: Db, e: Exec, newId: Id, ok: bool)
    ensures var (after, x) := ExecStep(task, hasKind, db, e, newId, ok);
            && after.status == (if e.pc.Finish? then e.pc.to else db.status)
            && after.cancelRequested == db.cancelRequested
            && (x.Some? ==>
                (x.value.pc.Stamp? <==> e.pc.Finish?)
                    && (x.value.pc.Stamp? ==> x.value.pc == Stamp(e.pc.to, e.pc.site)))
            && (x.Some? ==> x.value.selected == e.selected && x.value.aborted == e.aborted)
            && (e.pc.Stamp? ==> x.None?)
  {
  }

  lemma BudgetStep(k: nat, w: World, e: Event)
    requires Inv(w) && Budget(k, w) && Enabled(w, e) && |Next(w, e).resumes| <= k
    ensures Budget(k, Next(w, e))
  {
    if e.Do? {
      BudgetDo(k, w, e);
    } else if e.ResumeStep? {
      BudgetResume(k, w, e);
    } else if e.ResumeLost? {
      WithoutOne(w.resumes, e.id);
    } else if e.BootStep? || e.Crash? {
      BudgetBoot(k, w, e);
    } else {
      BudgetElsewhere(k, w, e);
    }
  }

  lemma BudgetBoot(k: nat, w: World, e: Event)
    requires Inv(w) && Budget(k, w) && Enabled(w, e) && (e.BootStep? || e.Crash?)
    ensures Budget(k, Next(w, e))
  {
  }

  lemma BudgetElsewhere(k: nat, w: World, e: Event)
    requires Inv(w) && Budget(k, w) && Enabled(w, e) && |Next(w, e).resumes| <= k
    requires e.Claim? || e.Throw? || e.ResumeBegin? || e.CancelSet? || e.CancelTry? || e.CancelAbort?
    ensures Budget(k, Next(w, e))
  {
  }

  lemma {:induction false} BudgetKept(a: Allowance, task: Task, hasKind: bool, run: seq<Event>)
    requires Legal(Start(task, hasKind), run) && Permitted(a, Start(task, hasKind), run)
    ensures Budget(a.resumes, After(Start(task, hasKind), run))
    decreases |run|
  {
    if run != [] {
      var past := run[..|run| - 1];
      BudgetKept(a, task, hasKind, past);
      RunKeepsInv(task, hasKind, past);
      BudgetStep(a.resumes, After(Start(task, hasKind), past), run[|run| - 1]);
    }
  }

  /**
    Once from the queue, at most three times after a crash, and at most as often after review as resume requests are in
    flight together.
   */
  lemma ExecutionsBounded(a: Allowance, task: Task, hasKind: bool, run: seq<Event>)
    requires Legal(Start(task, hasKind), run) && Permitted(a, Start(task, hasKind), run)
    ensures var s := After(Start(task, hasKind), run).started;
            s.queued <= 1 && s.interrupted <= 3 && s.resumed <= a.resumes && Total(s) <= 4 + a.resumes
  {
    BudgetKept(a, task, hasKind, run);
    RunKeepsInv(task, hasKind, run);
  }

  /** With at most `k` resume requests in flight, no run is resumed more than `n` times. */
  ghost predicate ResumedAtMost(k: nat, n: nat) {
    forall w: World :: Reachable(Allowance(k, true, true), w) ==> w.started.resumed <= n
  }

  /**
    The selection is saved, the requests from `m` on still have to start their execution, those below `m` have done so.
   */
  function Going(n: nat, m: nat): World
    requires m <= n
  {
    World(OutlineThenCopy, true, CHOSEN.(status := if m == 0 then AwaitingHitl else Running), Up, Fresh(m), Rest(n, m),
          0, 0, Started(1, 0, m), 0)
  }

  function Fresh(m: nat): (r: map<nat, Exec>)
    ensures forall i: nat :: i in r <==> i < m
    ensures forall i: nat :: i in r ==> r[i] == Exec(Some([0]), false, ReadOutline)
  {
    if m == 0 then map[] else Fresh(m - 1)[m - 1 := Exec(Some([0]), false, ReadOutline)]
  }

  function Rest(n: nat, m: nat): (r: map<nat, Resume>)
    requires m <= n
    ensures |r| == n - m && forall i: nat :: i in r <==> m <= i < n
    ensures forall i: nat :: i in r ==> r[i] == GO
    decreases n - m
  {
    if m == n then map[]
    else
      var late := Rest(n, m + 1);
      var all := late[m := GO];
      assert all.Keys == late.Keys + {m};
      all
  }

  lemma GoingNext(a: Allowance, n: nat, m: nat)
    requires m < n <= a.resumes
    ensures StepsTo(a, Going(n, m), ResumeStep(m, m), Going(n, m + 1))
  {
    assert Rest(n, m) - {m} == Rest(n, m + 1);
    assert Fresh(m)[m := Exec(Some([0]), false, ReadOutline)] == Fresh(m + 1);
  }

  lemma GoingReached(a: Allowance, n: nat)
    requires 0 < n <= a.resumes
    ensures Reachable(a, Going(n, n))
  {
    SavedReached(a, n);
    assert Requests(n, n, SAVE, GO) == Rest(n, 0) && Fresh(0) == map[];
    assert Saved(n, n) == Going(n, 0);
    forall i: nat | i < n
      ensures StepsTo(a, Going(n, i), ResumeStep(i, i), Going(n, i + 1))
    {
      GoingNext(a, n, i);
    }
    var at := (i: nat) => if i <= n then Going(n, i) else Start(PageCopy, true);
    PathReached(a, at, (i: nat) => ResumeStep(i, i), n);
  }

  /** The bound is exact: `k` requests in flight together can resume the run `k` times, and never more often. */
  lemma ResumedAtMostIff(k: nat, n: nat)
    ensures ResumedAtMost(k, n) <==> k <= n
  {
    var a := Allowance(k, true, true);
    if k <= n {
      forall w: World | Reachable(a, w)
        ensures w.started.resumed <= n
      {
        ReachableBudget(a, w);
      }
    } else {
      GoingReached(a, k);
      assert Going(k, k).started.resumed == k;
    }
  }

  lemma ReachableBudget(a: Allowance, w: World)
    requires Reachable(a, w)
    ensures Inv(w) && Budget(a.resumes, w)
  {
    ReachableIsSound(a, w);
    var run :| Legal(Start(w.task, w.hasKind), run) && Permitted(a, Start(w.task, w.hasKind), run)
               && After(Start(w.task, w.hasKind), run) == w;
    BudgetKept(a, w.task, w.hasKind, run);
  }

  // ---------------------------------------------------------------------------
  // One execution at a time
  // ---------------------------------------------------------------------------

  /** No two executions, no two resume requests, and no execution while a resume request is served. */
  ghost predicate Alone(w: World) {
    && (w.db.status.AwaitingHitl? || w.resumes != map[] ==> w.execs == map[])
    && (forall i, j :: i in w.execs && j in w.execs ==> i == j)
    && (forall i, j :: i in w.resumes && j in w.resumes ==> i == j)
  }

  lemma OnlyOne(m: map<nat, Resume>, i: nat, j: nat)
    requires |m| <= 1 && i in m && j in m
    ensures i == j
  {
    WithoutOne(m, i);
    if i != j { WithoutOne(m - {i}, j); }
  }

  lemma AloneDo(w: World, e: Event)
    requires Inv(w) && Alone(w) && e.Do? && Enabled(w, e)
    ensures Alone(Next(w, e))
  {
    var x := w.execs[e.id];
    ExecStepOk(w.task, w.hasKind, w.db, x, e.newId, e.ok);
    var n := Next(w, e);
    assert w.execs.Keys == {e.id};
    assert n.execs.Keys <= {e.id};
    if n.db.status.AwaitingHitl? { assert n.execs == map[]; }
  }

  lemma AloneResume(w: World, e: Event)
    requires Alone(w) && e.ResumeStep? && Enabled(w, e)
    ensures Alone(Next(w, e))
  {
    assert w.resumes.Keys == {e.id};
    if w.resumes[e.id].ToRunning? { assert Next(w, e).resumes == map[]; }
  }

  lemma AloneStep(w: World, e: Event)
    requires Inv(w) && Alone(w) && Enabled(w, e) && |Next(w, e).resumes| <= 1
    ensures Alone(Next(w, e))
  {
    if e.Do? {
      AloneDo(w, e);
    } else if e.ResumeStep? {
      AloneResume(w, e);
    } else if e.ResumeBegin? {
      forall i, j | i in Next(w, e).resumes && j in Next(w, e).resumes
        ensures i == j
      {
        OnlyOne(Next(w, e).resumes, i, j);
      }
    } else {
      AloneElsewhere(w, e);
    }
  }

  lemma AloneElsewhere(w: World, e: Event)
    requires Inv(w) && Alone(w) && Enabled(w, e) && !e.Do? && !e.ResumeStep? && !e.ResumeBegin?
    ensures Alone(Next(w, e))
  {
  }

  lemma {:induction false} AloneKept(a: Allowance, task: Task, hasKind: bool, run: seq<Event>)
    requires a.resumes <= 1 && Legal(Start(task, hasKind), run) && Permitted(a, Start(task, hasKind), run)
    ensures Alone(After(Start(task, hasKind), run))
    decreases |run|
  {
    if run != [] {
      var past := run[..|run| - 1];
      AloneKept(a, task, hasKind, past);
      RunKeepsInv(task, hasKind, past);
      AloneStep(After(Start(task, hasKind), past), run[|run| - 1]);
    }
  }

  /** A run never has two executions at once exactly when at most one resume request is in flight at a time. */
  lemma NeverTwiceAtOnceIff(k: nat)
    ensures (forall w: World, i, j :: Reachable(Allowance(k, true, true), w) && i in w.execs && j in w.execs ==> i == j)
            <==> k <= 1
  {
    var a := Allowance(k, true, true);
    if k <= 1 {
      forall w: World, i, j | Reachable(a, w) && i in w.execs && j in w.execs
        ensures i == j
      {
        var run :| Legal(Start(w.task, w.hasKind), run) && Permitted(a, Start(w.task, w.hasKind), run)
                   && After(Start(w.task, w.hasKind), run) == w;
        AloneKept(a, w.task, w.hasKind, run);
      }
    } else {
      GoingReached(a, k);
      assert 0 in Going(k, k).execs && 1 in Going(k, k).execs;
    }
  }

  // ---------------------------------------------------------------------------
  // All executions together
  // ---------------------------------------------------------------------------

  /** The steps that all executions under way can still take. */
  ghost function RankOf(execs: map<nat, Exec>): nat {
    if execs == map[] then 0
    else
      var id :| id in execs;
      Rank(execs[id].pc) + RankOf(execs - {id})
  }

  /** The sum does not depend on the order. */
  lemma {:induction false} RankWithout(execs: map<nat, Exec>, id: nat)
    requires id in execs
    ensures RankOf(execs) == Rank(execs[id].pc) + RankOf(execs - {id})
    decreases |execs|
  {
    var first :| first in execs && RankOf(execs) == Rank(execs[first].pc) + RankOf(execs - {first});
    if first != id {
      assert (execs - {first}).Keys == execs.Keys - {first};
      assert (execs - {id}).Keys == execs.Keys - {id};
      RankWithout(execs - {first}, id);
      RankWithout(execs - {id}, first);
      assert execs - {first} - {id} == execs - {id} - {first};
    }
  }

  lemma RankPut(execs: map<nat, Exec>, id: nat, x: Exec)
    ensures RankOf(execs[id := x]) == Rank(x.pc) + RankOf(execs - {id})
  {
    RankWithout(execs[id := x], id);
    assert execs[id := x] - {id} == execs - {id};
  }

  lemma {:induction false} RankSamePlaces(m: map<nat, Exec>, n: map<nat, Exec>)
    requires m.Keys == n.Keys && forall i :: i in m ==> m[i].pc == n[i].pc
    ensures RankOf(m) == RankOf(n)
    decreases |m|
  {
    if m != map[] {
      var id :| id in m;
      RankWithout(m, id);
      RankWithout(n, id);
      assert (m - {id}).Keys == m.Keys - {id} && (n - {id}).Keys == n.Keys - {id};
      RankSamePlaces(m - {id}, n - {id});
    } else {
      assert n.Keys == {};
    }
  }

  /** How many steps executions take in a run. */
  function Steps(run: seq<Event>): nat {
    if run == [] then 0 else Steps(run[..|run| - 1]) + if run[|run| - 1].Do? || run[|run| - 1].Throw? then 1 else 0
  }

  lemma WorkOfExec(w: World, e: Event)
    requires (e.Do? || e.Throw?) && Enabled(w, e)
    ensures 1 + RankOf(Next(w, e).execs) <= RankOf(w.execs) && Next(w, e).started == w.started
  {
    var x := w.execs[e.id];
    RankWithout(w.execs, e.id);
    if e.Do? {
      RankDrops(w.task, w.hasKind, w.db, x, e.newId, e.ok, false);
      var next := ExecStep(w.task, w.hasKind, w.db, x, e.newId, e.ok).1;
      if next.Some? { RankPut(w.execs, e.id, next.value); }
    } else {
      RankDrops(w.task, w.hasKind, w.db, x, 0, false, e.isAbort);
      var next := ExecThrow(x, e.isAbort);
      if next.Some? { RankPut(w.execs, e.id, next.value); }
    }
  }

  lemma WorkStep(w: World, e: Event)
    requires Enabled(w, e)
    ensures Total(w.started) <= Total(Next(w, e).started)
    ensures (if e.Do? || e.Throw? then 1 else 0) + RankOf(Next(w, e).execs) - RankOf(w.execs)
            <= STEPS * (Total(Next(w, e).started) - Total(w.started))
  {
    var n := Next(w, e);
    if e.Do? || e.Throw? {
      WorkOfExec(w, e);
    } else if e.Claim? {
      RankPut(w.execs, e.id, n.execs[e.id]);
      assert w.execs - {e.id} == w.execs;
    } else if e.ResumeStep? && w.resumes[e.id].ToRunning? {
      RankPut(w.execs, e.execId, n.execs[e.execId]);
      assert w.execs - {e.execId} == w.execs;
    } else if e.CancelAbort? {
      RankSamePlaces(w.execs, n.execs);
    }
  }

  lemma {:induction false} WorkPaid(w: World, run: seq<Event>)
    requires w.execs == map[] && Legal(w, run)
    ensures Steps(run) + RankOf(After(w, run).execs) <= STEPS * (Total(After(w, run).started) - Total(w.started))
    decreases |run|
  {
    if run != [] {
      var past := run[..|run| - 1];
      WorkPaid(w, past);
      WorkStep(After(w, past), run[|run| - 1]);
    }
  }

  /**
    However crashes, faults and cancellations fall, all executions of a run together take at most 25 steps for each of
    `4 + k`.
   */
  lemma RunEnds(a: Allowance, task: Task, hasKind: bool, run: seq<Event>)
    requires Legal(Start(task, hasKind), run) && Permitted(a, Start(task, hasKind), run)
    ensures Steps(run) <= 25 * (4 + a.resumes)
  {
    WorkPaid(Start(task, hasKind), run);
    ExecutionsBounded(a, task, hasKind, run);
  }
}
