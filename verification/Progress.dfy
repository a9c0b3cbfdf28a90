/** What loops can still bring about from a reachable state, and what they never will. */
module Progress {
  import opened Wrappers
  import opened Json
  import opened WorkState
  import opened WorkStore
  import opened Focus
  import opened Protocol
  import opened StoreInvariant
  import opened Invariant
  import opened Steps
  import opened Runs
  import opened Capacity
  import opened WorkTheorems
  import opened Outsiders
  import Overshoot

  // ----- a loop can always finish its focus --------------------------------------------

  /** Only this loop and its plane's counter have moved. */
  predicate Advanced(c: Config, s: Sys, t: Sys, w: WorkerId, pc: Pc, n: int)
    requires w in c.planeOf && c.planeOf[w] in s.counters
  {
    && t.store == s.store && t.failedCreates == s.failedCreates
    && t.workers == s.workers[w := Worker(pc, true)]
    && t.counters == s.counters[c.planeOf[w] := s.counters[c.planeOf[w]] + n]
  }

  lemma Creates(c: Config, s: Sys, w: WorkerId, job: Job) returns (t: Sys)
    requires WellShaped(c, s) && w in s.workers && s.workers[w] == Worker(Counted(job), true)
    ensures LoopsLead(c, s, t) && Advanced(c, s, t, w, Opened(job), 0)
  {
    hide LoopsLead;
    t := SetPc(s, w, Opened(job));
    LoopLeads(c, s, w, CreateFocus, t);
  }

  lemma RunsHooks(c: Config, s: Sys, w: WorkerId, job: Job, env: Env) returns (t: Sys)
    requires WellShaped(c, s) && w in s.workers && s.workers[w] == Worker(Opened(job), true)
    ensures LoopsLead(c, s, t) && Advanced(c, s, t, w, Ended(job, Execute(c.codec, job.faculty, env).result), 0)
  {
    hide LoopsLead, Execute;
    t := StepRun(c, s, w, job, env);
    LoopLeads(c, s, w, RunHooks(env), t);
  }

  lemma CountsOut(c: Config, s: Sys, w: WorkerId, job: Job, x: FocusResult) returns (t: Sys)
    requires WellShaped(c, s) && w in s.workers && s.workers[w] == Worker(Ended(job, x), true)
    ensures LoopsLead(c, s, t) && Advanced(c, s, t, w, Uncounted(job, x), -1)
  {
    hide LoopsLead;
    t := AddCounter(SetPc(s, w, Uncounted(job, x)), c.planeOf[w], -1);
    LoopLeads(c, s, w, Uncount, t);
  }

  lemma AdvancedOn(c: Config, s: Sys, m: Sys, t: Sys, w: WorkerId, pc: Pc, pc': Pc, n: int, k: int)
    requires WellShaped(c, s) && WellShaped(c, m) && w in s.workers && Advanced(c, s, m, w, pc, n) && Advanced(c, m, t, w, pc', k)
    ensures Advanced(c, s, t, w, pc', n + k)
  {
  }

  /** A focus in flight can be run to its end, whatever its hooks do. */
  lemma ToUncounted(c: Config, s: Sys, w: WorkerId, env: Env) returns (t: Sys, x: FocusResult)
    requires WellShaped(c, s) && w in s.workers && s.workers[w].up && InFlight(s.workers[w].pc)
    ensures LoopsLead(c, s, t) && Advanced(c, s, t, w, Uncounted(s.workers[w].pc.job, x), -1)
    ensures s.workers[w].pc.Counted? || s.workers[w].pc.Opened? ==> x == Execute(c.codec, s.workers[w].pc.job.faculty, env).result
  {
    hide LoopsLead, Execute;
    var job := s.workers[w].pc.job;
    assert s.workers[w] == Worker(s.workers[w].pc, true);
    if s.workers[w].pc.Ended? {
      x := s.workers[w].pc.result;
      t := CountsOut(c, s, w, job, x);
    } else if s.workers[w].pc.Opened? {
      t, x := OpenedToUncounted(c, s, w, job, env);
    } else {
      var m := Creates(c, s, w, job);
      LeadShapes(c, s, m);
      t, x := OpenedToUncounted(c, m, w, job, env);
      LoopsLeadOn(c, s, m, t);
      AdvancedOn(c, s, m, t, w, Opened(job), Uncounted(job, x), 0, -1);
    }
  }

  lemma OpenedToUncounted(c: Config, s: Sys, w: WorkerId, job: Job, env: Env) returns (t: Sys, x: FocusResult)
    requires WellShaped(c, s) && w in s.workers && s.workers[w] == Worker(Opened(job), true)
    ensures LoopsLead(c, s, t) && Advanced(c, s, t, w, Uncounted(job, x), -1) && x == Execute(c.codec, job.faculty, env).result
  {
    hide LoopsLead, Execute;
    var m := RunsHooks(c, s, w, job, env);
    LeadShapes(c, s, m);
    x := Execute(c.codec, job.faculty, env).result;
    t := CountsOut(c, m, w, job, x);
    LoopsLeadOn(c, s, m, t);
    AdvancedOn(c, s, m, t, w, Ended(job, x), Uncounted(job, x), 0, -1);
  }

  lemma LeadShapes(c: Config, s: Sys, t: Sys)
    requires LoopsLead(c, s, t)
    ensures WellShaped(c, s) && WellShaped(c, t)
  {
  }

  /** The retirement of an item that is Running changes its row. */
  lemma Retires(c: Config, s: Sys, w: WorkerId, job: Job, x: FocusResult) returns (t: Sys)
    requires WellShaped(c, s) && IndexOk(s.store.rows) && w in s.workers && s.workers[w] == Worker(Uncounted(job, x), true)
    requires job.id in s.store.rows && s.store.rows[job.id].state == Running
    ensures LoopsLead(c, s, t) && job.id in t.store.rows
    ensures t.store.rows[job.id].state == if x.FocusCompleted? then Completed else Failed
  {
    hide LoopsLead, IndexOk;
    match x
    case FocusCompleted(data, ms) => t := RetiresCompleted(c, s, w, job, data, ms);
    case FocusFailed(_, _, _) => t := RetiresFailed(c, s, w, job, x);
  }

  lemma RetiresCompleted(c: Config, s: Sys, w: WorkerId, job: Job, data: Json, ms: nat) returns (t: Sys)
    requires WellShaped(c, s) && IndexOk(s.store.rows) && w in s.workers
    requires s.workers[w] == Worker(Uncounted(job, FocusCompleted(data, ms)), true)
    requires job.id in s.store.rows && s.store.rows[job.id].state == Running
    ensures LoopsLead(c, s, t) && job.id in t.store.rows && t.store.rows[job.id].state == Completed
  {
    hide LoopsLead, IndexOk, Complete;
    t := StepRetire(s, w, job, FocusCompleted(data, ms), 0);
    CompleteCases(s.store, job.id, Outcome(true, Some(data), None, ms), 0);
    CompletedShape(s, w, job, data, ms, 0);
    LoopLeads(c, s, w, Retire(0), t);
  }

  /** An item whose focus failed goes back to its loop's plane as Failed, and its loop is idle. */
  lemma RetiresFailed(c: Config, s: Sys, w: WorkerId, job: Job, x: FocusResult) returns (t: Sys)
    requires WellShaped(c, s) && IndexOk(s.store.rows) && w in s.workers && s.workers[w] == Worker(Uncounted(job, x), true)
    requires job.id in s.store.rows && s.store.rows[job.id].state == Running && x.FocusFailed?
    ensures LoopsLead(c, s, t) && job.id in t.store.rows && t.store.rows[job.id].state == Failed
    ensures var r, r' := s.store.rows[job.id], t.store.rows[job.id];
            r'.attempts == r.attempts && r'.maxAttempts == r.maxAttempts && r'.faculty == r.faculty
    ensures t.workers == s.workers[w := Worker(Idle, true)] && t.store.live == s.store.live && t.counters == s.counters
  {
    hide LoopsLead, IndexOk, Fail, ErrorText;
    t := StepRetire(s, w, job, x, 0);
    FailCases(s.store, job.id, ErrorText(x.phase, x.error), x.ms, 0);
    FailedShape(s, w, job, x.phase, x.error, x.ms, 0);
    LoopLeads(c, s, w, Retire(0), t);
  }

  // ----- rows left behind --------------------------------------------------------------

  /** A Running item that no loop which is up holds. */
  predicate LeftBehind(s: Sys, id: WorkId) {
    && id in s.store.rows && s.store.rows[id].state == Running
    && forall w | w in s.workers && s.workers[w].up && Holding(s.workers[w].pc) :: s.workers[w].pc.job.id != id
  }

  /** A loop holds what it held before, unless it has just started an item. */
  lemma HeldBefore(c: Config, s: Sys, w: WorkerId, act: Act)
    requires WellShaped(c, s) && w in s.workers && LoopStep(c, s, w, act).Some? && !act.Start?
    ensures var t := LoopStep(c, s, w, act).value;
            w in t.workers && (Holding(t.workers[w].pc) ==> Holding(s.workers[w].pc) && t.workers[w].pc.job == s.workers[w].pc.job)
  {
    hide StepFetch, StepTransition, StepRetire, Execute, FindItem, Archived, SameKeys, WellShaped;
    ShapedLoop(c, s, w);
  }

  lemma MissesRunning(s: Sys, w: WorkerId, id: WorkId, from: State, to: State, now: Time, next: Pc, left: WorkId)
    requires w in s.workers && left in s.store.rows && s.store.rows[left].state == Running && from != Running
    ensures var t := StepTransition(s, w, id, from, to, now, next);
            && left in t.store.rows && t.store.rows[left] == s.store.rows[left]
            && (id == left ==> t == SetPc(s, w, Idle))
  {
    hide IndexOk;
  }

  lemma RetiresOther(s: Sys, w: WorkerId, job: Job, result: FocusResult, now: Time, left: WorkId)
    requires w in s.workers && left in s.store.rows && job.id != left
    ensures var t := StepRetire(s, w, job, result, now); left in t.store.rows && t.store.rows[left] == s.store.rows[left]
  {
    hide IndexOk, CompletedRow, FailedRow, Enter;
    var u := if result.FocusCompleted? then Complete(s.store, job.id, Outcome(true, Some(result.data), None, result.ms), now)
             else Fail(s.store, job.id, ErrorText(result.phase, result.error), result.ms, now);
    assert left in u.store.rows && u.store.rows[left] == s.store.rows[left];
  }

  /** No step of a loop touches the row. */
  lemma LoopKeepsRow(c: Config, s: Sys, w: WorkerId, act: Act, id: WorkId)
    requires WellShaped(c, s) && w in s.workers && s.workers[w].up && LoopStep(c, s, w, act).Some? && LeftBehind(s, id)
    ensures var t := LoopStep(c, s, w, act).value;
            && id in t.store.rows && t.store.rows[id] == s.store.rows[id]
            && (act.Start? && w in t.workers && Holding(t.workers[w].pc) ==> t.workers[w].pc.job.id != id)
  {
    hide StepFetch, StepTransition, StepRetire, StepRun, SameKeys, WellShaped, SameTrails;
    ShapedLoop(c, s, w);
    var pc := s.workers[w].pc;
    if act.Claim? {
      MissesRunning(s, w, pc.job.id, Queued, Claimed, act.now, HasClaim(pc.job), id);
    } else if act.Start? {
      MissesRunning(s, w, pc.job.id, Claimed, Running, act.now, Started(pc.job), id);
    } else if act.Retire? {
      RetiresOther(s, w, pc.job, pc.result, act.now, id);
    } else {
      OtherActsKeepTrails(c, s, w, act);
      SameRowsThen(s, LoopStep(c, s, w, act).value, id);
    }
  }

  lemma SameRowsThen(s: Sys, t: Sys, id: WorkId)
    requires SameTrails(s, t) && id in s.store.rows
    ensures id in t.store.rows && t.store.rows[id] == s.store.rows[id]
  {
  }

  lemma LoopLeaves(c: Config, s: Sys, w: WorkerId, act: Act, id: WorkId)
    requires WellShaped(c, s) && w in s.workers && s.workers[w].up && LoopStep(c, s, w, act).Some? && LeftBehind(s, id)
    ensures LeftBehind(LoopStep(c, s, w, act).value, id)
    ensures LoopStep(c, s, w, act).value.store.rows[id] == s.store.rows[id]
  {
    hide LoopStep, WellShaped;
    LoopKeepsRow(c, s, w, act, id);
    OneLoopMoves(c, s, w, act);
    if !act.Start? {
      HeldBefore(c, s, w, act);
    }
  }

  lemma OneLoopMoves(c: Config, s: Sys, w: WorkerId, act: Act)
    requires WellShaped(c, s) && w in s.workers && LoopStep(c, s, w, act).Some?
    ensures var t := LoopStep(c, s, w, act).value; w in t.workers && t.workers == s.workers[w := t.workers[w]]
  {
    hide LoopStep;
    LoopBalanced(c, s, w, act);
  }

  lemma StepLeaves(c: Config, s: Sys, l: Label, id: WorkId)
    requires WellShaped(c, s) && Step(c, s, l).Some? && LeftBehind(s, id) && !(l.Outside? && l.id == id)
    ensures LeftBehind(Step(c, s, l).value, id)
    ensures Step(c, s, l).value.store.rows[id] == s.store.rows[id]
  {
    hide LoopStep, SubmitStep, Taken, Transition;
    match l
    case Loop(w, act) => LoopLeaves(c, s, w, act, id);
    case Submit(k, what) => SubmitLeaves(s, k, what, id);
    case Outside(other, from, to, now) => TakenRows(s, other, from, to, now);
    case Foreign =>
  }

  lemma SubmitLeaves(s: Sys, k: SubmitterId, what: SubmitAct, id: WorkId)
    requires SubmitStep(s, k, what).Some? && id in s.store.rows
    ensures var t := SubmitStep(s, k, what).value;
            id in t.store.rows && t.store.rows[id] == s.store.rows[id] && t.workers == s.workers
  {
    hide Conflicts, Holds, QueuedRow, MergedRow, NewHistory;
  }

  /** Left to the loops alone, a Running row that no loop holds never changes again. */
  lemma {:induction false} LeftBehindForever(c: Config, s: Sys, labels: seq<Label>, id: WorkId)
    requires WellShaped(c, s) && LeftBehind(s, id) && Exec(c, s, labels).Some?
    requires forall i | 0 <= i < |labels| :: !(labels[i].Outside? && labels[i].id == id)
    ensures LeftBehind(Exec(c, s, labels).value, id)
    ensures Exec(c, s, labels).value.store.rows[id] == s.store.rows[id]
    decreases |labels|
  {
    hide Step;
    if labels != [] {
      StepLeaves(c, s, labels[0], id);
      LeftBehindForever(c, Step(c, s, labels[0]).value, labels[1..], id);
    }
  }

  /** Any outcome of the hooks will do. */
  const AnyEnv := Env(SpawnFailed(""), SpawnFailed(""), SpawnFailed(""), Absent(""), Absent(""), "", 0)

  lemma CountedFirst(c: Config, s: Sys, w: WorkerId) returns (t: Sys)
    requires WellShaped(c, s) && w in s.workers && s.workers[w].up && s.workers[w].pc.Started?
    ensures LoopsLead(c, s, t) && Advanced(c, s, t, w, Counted(s.workers[w].pc.job), 1)
  {
    hide LoopsLead;
    t := AddCounter(SetPc(s, w, Counted(s.workers[w].pc.job)), c.planeOf[w], 1);
    LoopLeads(c, s, w, Count, t);
  }

  /** A loop that holds an item can bring it to its retirement. */
  lemma HolderFinishes(c: Config, s: Sys, w: WorkerId) returns (t: Sys, x: FocusResult)
    requires WellShaped(c, s) && w in s.workers && s.workers[w].up && Holding(s.workers[w].pc)
    ensures LoopsLead(c, s, t) && t.store == s.store
    ensures w in t.workers && t.workers[w] == Worker(Uncounted(s.workers[w].pc.job, x), true)
  {
    hide LoopsLead, Execute;
    var pc := s.workers[w].pc;
    if pc.Uncounted? {
      t, x := s, pc.result;
      LoopsStay(c, s);
    } else if pc.Started? {
      var m := CountedFirst(c, s, w);
      LeadShapes(c, s, m);
      t, x := ToUncounted(c, m, w, AnyEnv);
      LoopsLeadOn(c, s, m, t);
    } else {
      t, x := ToUncounted(c, s, w, AnyEnv);
    }
  }

  predicate NotFromOutside(labels: seq<Label>, id: WorkId) {
    forall i | 0 <= i < |labels| :: !(labels[i].Outside? && labels[i].id == id)
  }

  /** This run changes the row. */
  ghost predicate ChangesRow(c: Config, s: Sys, labels: seq<Label>, id: WorkId)
    requires WellShaped(c, s) && id in s.store.rows
  {
    && Exec(c, s, labels).Some?
    && var t := Exec(c, s, labels).value;
       id in t.store.rows && t.store.rows[id] != s.store.rows[id]
  }

  lemma HolderChangesRow(c: Config, s: Sys, w: WorkerId, id: WorkId)
    requires Reached(c, s) && id in s.store.rows && s.store.rows[id].state == Running
    requires w in s.workers && s.workers[w].up && Holding(s.workers[w].pc) && s.workers[w].pc.job.id == id
    ensures exists labels :: NotFromOutside(labels, id) && ChangesRow(c, s, labels, id)
  {
    hide Exec, Inv;
    ReachableOk(c, s);
    Overshoot.IndexHere(c, s);
    var m, x := HolderFinishes(c, s, w);
    LeadShapes(c, s, m);
    var t := Retires(c, m, w, s.workers[w].pc.job, x);
    LoopsLeadOn(c, s, m, t);
    var labels :| OnlyLoops(labels) && Exec(c, s, labels) == Some(t);
    assert NotFromOutside(labels, id) && ChangesRow(c, s, labels, id);
  }

  /**
   Without others, a Running row can still change if and only if a loop that is up holds it; rows that a crash, a
   failed creation or a database error left behind have to be taken out by others.
   */
  lemma RunningMovesExactly(c: Config, s: Sys, id: WorkId)
    requires Reached(c, s) && id in s.store.rows && s.store.rows[id].state == Running
    ensures (exists labels :: NotFromOutside(labels, id) && ChangesRow(c, s, labels, id)) <==> !LeftBehind(s, id)
  {
    hide Exec, Reachable;
    if LeftBehind(s, id) {
      forall labels | NotFromOutside(labels, id) ensures !ChangesRow(c, s, labels, id) {
        if Exec(c, s, labels).Some? {
          LeftBehindForever(c, s, labels, id);
        }
      }
    } else {
      var w :| w in s.workers && s.workers[w].up && Holding(s.workers[w].pc) && s.workers[w].pc.job.id == id;
      HolderChangesRow(c, s, w, id);
    }
  }

  // ----- planes that take no more work -------------------------------------------------

  /** The loops of the plane that crashed inside a focus. */
  ghost function CrashedInFlight(c: Config, s: Sys, p: PlaneId): set<WorkerId> {
    set w | w in s.workers && w in c.planeOf && c.planeOf[w] == p && !s.workers[w].up && InFlight(s.workers[w].pc)
  }

  /** Failed creations and crashed foci alone fill the plane's limit. */
  ghost predicate Stuck(c: Config, s: Sys, p: PlaneId) {
    p in c.planes && p in s.failedCreates && s.failedCreates[p] + |CrashedInFlight(c, s, p)| >= c.planes[p].maxConcurrent
  }

  /** The idle loops of the plane are still idle. */
  predicate StillIdle(c: Config, s: Sys, t: Sys, p: PlaneId) {
    forall w | w in s.workers && w in c.planeOf && c.planeOf[w] == p && s.workers[w].pc == Idle ::
      w in t.workers && t.workers[w].pc == Idle
  }

  lemma IdleActs(c: Config, s: Sys, w: WorkerId, act: Act)
    requires WellShaped(c, s) && w in s.workers && LoopStep(c, s, w, act).Some? && s.workers[w].pc == Idle
    requires s.counters[c.planeOf[w]] >= c.planes[c.planeOf[w]].maxConcurrent
    ensures w in LoopStep(c, s, w, act).value.workers && LoopStep(c, s, w, act).value.workers[w].pc == Idle
  {
    hide StepFetch, StepTransition, StepRetire, StepRun, Archived, MovesOnly, AddCounter, SameKeys, WellShaped;
    ShapedLoop(c, s, w);
  }

  /** Crashed loops do not move. */
  lemma CrashedStay(c: Config, s: Sys, t: Sys, w: WorkerId, p: PlaneId)
    requires w in s.workers && s.workers[w].up && w in t.workers && t.workers == s.workers[w := t.workers[w]]
    ensures |CrashedInFlight(c, s, p)| <= |CrashedInFlight(c, t, p)|
  {
    SubsetSize(CrashedInFlight(c, s, p), CrashedInFlight(c, t, p));
  }

  lemma StuckCounter(c: Config, s: Sys, p: PlaneId)
    requires CountersOk(c, s) && Stuck(c, s, p)
    ensures p in s.counters && s.counters[p] >= c.planes[p].maxConcurrent
  {
    assert CounterOk(c, s, p);
    SubsetSize(CrashedInFlight(c, s, p), LoopsAt(c, s, p, InFlight));
  }

  lemma LoopStuck(c: Config, s: Sys, p: PlaneId, w: WorkerId, act: Act)
    requires CountersOk(c, s) && Stuck(c, s, p) && w in s.workers && s.workers[w].up && LoopStep(c, s, w, act).Some?
    ensures Stuck(c, LoopStep(c, s, w, act).value, p) && StillIdle(c, s, LoopStep(c, s, w, act).value, p)
  {
    hide LoopStep, CounterOk, Balanced, CrashedInFlight;
    var t := LoopStep(c, s, w, act).value;
    LoopBalanced(c, s, w, act);
    StuckCounter(c, s, p);
    CrashedStay(c, s, t, w, p);
    if c.planeOf[w] == p && s.workers[w].pc == Idle {
      IdleActs(c, s, w, act);
    }
  }

  lemma SameLoopsStuck(c: Config, s: Sys, t: Sys, p: PlaneId)
    requires Stuck(c, s, p) && t.workers == s.workers && t.failedCreates == s.failedCreates
    ensures Stuck(c, t, p) && StillIdle(c, s, t, p)
  {
    assert CrashedInFlight(c, t, p) == CrashedInFlight(c, s, p);
  }

  lemma StepStuck(c: Config, s: Sys, p: PlaneId, l: Label)
    requires CountersOk(c, s) && Stuck(c, s, p) && Step(c, s, l).Some?
    ensures Stuck(c, Step(c, s, l).value, p) && StillIdle(c, s, Step(c, s, l).value, p)
  {
    hide LoopStep, CountersOk, Transition, Taken, Enqueue, Merge, Stuck, StillIdle;
    Capacity.ShapeOf(c, s);
    if l.Loop? {
      LoopStuck(c, s, p, l.w, l.act);
    } else {
      SameLoopsStuck(c, s, Step(c, s, l).value, p);
    }
  }

  lemma {:induction false} RunStuck(c: Config, s: Sys, p: PlaneId, labels: seq<Label>)
    requires CountersOk(c, s) && Stuck(c, s, p) && Exec(c, s, labels).Some?
    ensures Stuck(c, Exec(c, s, labels).value, p) && StillIdle(c, s, Exec(c, s, labels).value, p)
    decreases |labels|
  {
    hide Step, CountersOk, Stuck;
    if labels != [] {
      Capacity.ShapeOf(c, s);
      var m := Step(c, s, labels[0]).value;
      StepStuck(c, s, p, labels[0]);
      StepCounters(c, s, labels[0]);
      RunStuck(c, m, p, labels[1..]);
    }
  }

  lemma ReachedCounters(c: Config, s: Sys)
    requires Reached(c, s)
    ensures CountersOk(c, s)
  {
    hide Step, Exec, CountersOk;
    var run :| Exec(c, Initial(c), run) == Some(s);
    InitialCounters(c);
    RunCounters(c, Initial(c), run);
  }

  /** The loops of the plane that are up and inside a focus. */
  ghost function LiveInFlight(c: Config, s: Sys, p: PlaneId): set<WorkerId> {
    set w | w in s.workers && w in c.planeOf && c.planeOf[w] == p && s.workers[w].up && InFlight(s.workers[w].pc)
  }

  lemma {:induction false} Drain(c: Config, s: Sys, p: PlaneId, todo: set<WorkerId>) returns (t: Sys)
    requires WellShaped(c, s) && p in s.counters && todo <= LiveInFlight(c, s, p)
    ensures LoopsLead(c, s, t) && p in t.counters && t.counters[p] == s.counters[p] - |todo|
    ensures forall v | v in s.workers && v !in todo :: v in t.workers && t.workers[v] == s.workers[v]
    decreases |todo|
  {
    hide LoopsLead, Execute;
    if todo == {} {
      t := s;
      LoopsStay(c, s);
    } else {
      var w :| w in todo;
      var m, x := ToUncounted(c, s, w, AnyEnv);
      LeadShapes(c, s, m);
      assert forall v | v in todo - {w} :: m.workers[v] == s.workers[v];
      t := Drain(c, m, p, todo - {w});
      LoopsLeadOn(c, s, m, t);
    }
  }

  ghost predicate LeavesIdle(c: Config, s: Sys, labels: seq<Label>, w: WorkerId)
    requires WellShaped(c, s)
  {
    && Exec(c, s, labels).Some?
    && var t := Exec(c, s, labels).value;
       w in t.workers && t.workers[w].pc != Idle
  }

  lemma DrainedCounter(c: Config, s: Sys, p: PlaneId)
    requires CountersOk(c, s) && p in c.planes
    ensures p in s.counters && p in s.failedCreates
    ensures s.counters[p] - |LiveInFlight(c, s, p)| == s.failedCreates[p] + |CrashedInFlight(c, s, p)|
  {
    hide InFlight;
    assert CounterOk(c, s, p);
    InFlightParts(c, s, p);
  }

  lemma InFlightParts(c: Config, s: Sys, p: PlaneId)
    ensures |LoopsAt(c, s, p, InFlight)| == |LiveInFlight(c, s, p)| + |CrashedInFlight(c, s, p)|
  {
    hide InFlight;
    var live, crashed := LiveInFlight(c, s, p), CrashedInFlight(c, s, p);
    assert LoopsAt(c, s, p, InFlight) == live + crashed;
    assert live * crashed == {};
  }

  lemma FreePlaneMoves(c: Config, s: Sys, p: PlaneId, w: WorkerId)
    requires Reached(c, s) && p in c.planes && w in s.workers && c.planeOf[w] == p && s.workers[w] == Worker(Idle, true)
    requires !Stuck(c, s, p)
    ensures exists labels :: LeavesIdle(c, s, labels, w)
  {
    hide Exec, CountersOk, Reachable, CrashedInFlight;
    ReachedCounters(c, s);
    DrainedCounter(c, s, p);
    var m := Drain(c, s, p, LiveInFlight(c, s, p));
    LeadShapes(c, s, m);
    var t := SetPc(m, w, Checked);
    LoopLeads(c, m, w, CheckCapacity, t);
    LoopsLeadOn(c, s, m, t);
    var labels :| OnlyLoops(labels) && Exec(c, s, labels) == Some(t);
    assert LeavesIdle(c, s, labels, w);
  }

  /**
   An idle loop that is up can still take work if and only if failed creations and crashed foci do not fill its plane's
   limit: otherwise it never passes the check again, whatever happens.
   */
  lemma IdleMovesExactly(c: Config, s: Sys, p: PlaneId, w: WorkerId)
    requires Reached(c, s) && p in c.planes && w in s.workers && c.planeOf[w] == p && s.workers[w] == Worker(Idle, true)
    ensures (exists labels :: LeavesIdle(c, s, labels, w)) <==> !Stuck(c, s, p)
  {
    hide Exec, CountersOk, Reachable, CrashedInFlight;
    if Stuck(c, s, p) {
      ReachedCounters(c, s);
      forall labels ensures !LeavesIdle(c, s, labels, w) {
        if Exec(c, s, labels).Some? {
          RunStuck(c, s, p, labels);
        }
      }
    } else {
      FreePlaneMoves(c, s, p, w);
    }
  }

  /** Some run leads to a plane that is stuck with all its loops idle and up. */
  lemma StuckReachable(c: Config, p: PlaneId, w: WorkerId, name: string)
    requires GoodConfig(c) && p in c.planes && w in c.planeOf && c.planeOf[w] == p && name in c.planes[p].registry
    ensures exists s :: Reachable(c, s) && Stuck(c, s, p) && s.workers == Initial(c).workers
  {
    hide Reachable;
    InitialReached(c);
    var s := Overshoot.FailMany(c, Initial(c), w, name, c.planes[p].maxConcurrent);
    ReachedCounters(c, s);
    assert CounterOk(c, s, p);
    assert LoopsAt(c, s, p, InFlight) == {};
    assert Stuck(c, s, p) && s.workers == Initial(c).workers;
  }

  // ----- attempts without a limit ------------------------------------------------------

  lemma AnyEnvFails(codec: Codec, f: Faculty)
    ensures Execute(codec, f, AnyEnv).result.FocusFailed?
  {
    hide Execute;
    assert !EveryHookSucceeds(f, AnyEnv);
    if Execute(codec, f, AnyEnv).result.FocusCompleted? {
      CompletedRanEverything(codec, f, AnyEnv);
    }
  }

  /** A queued item of a registered faculty that an idle loop below its limit can take. */
  predicate CanTake(c: Config, s: Sys, w: WorkerId, m: MsgId, id: WorkId) {
    && w in s.workers && s.workers[w] == Worker(Idle, true) && w in c.planeOf && c.planeOf[w] in s.counters
    && Overshoot.Ready(c, s, c.planeOf[w], m, id) && s.counters[c.planeOf[w]] < c.planes[c.planeOf[w]].maxConcurrent
  }

  /** As far as the lookup. */
  lemma TakesMessage(c: Config, s: Sys, w: WorkerId, m: MsgId, id: WorkId) returns (job: Job, t: Sys)
    requires Reached(c, s) && CanTake(c, s, w, m, id)
    ensures Reached(c, t) && Overshoot.OneMoved(s, t, w, Routed(job)) && t.store == s.store && job.id == id
  {
    hide Reachable;
    var s1 := Overshoot.Check(c, s, w);
    var s2 := Overshoot.Read(c, s1, w, m);
    job, t := Overshoot.Routes(c, s2, w, m, id);
  }

  /** As far as the start. */
  lemma TakesItem(c: Config, s: Sys, w: WorkerId, m: MsgId, id: WorkId) returns (job: Job, t: Sys)
    requires Reached(c, s) && CanTake(c, s, w, m, id)
    ensures Reached(c, t) && Overshoot.OneMoved(s, t, w, Started(job)) && job.id == id
    ensures Overshoot.ItemMoved(s, t, id, Running)
  {
    hide Reachable;
    var s1;
    job, s1 := TakesMessage(c, s, w, m, id);
    var s2 := Overshoot.Claims(c, s1, w, job);
    t := Overshoot.Starts(c, s2, w, job);
  }

  lemma StartedToUncounted(c: Config, s: Sys, w: WorkerId, job: Job) returns (t: Sys, x: FocusResult)
    requires WellShaped(c, s) && w in s.workers && s.workers[w] == Worker(Started(job), true)
    ensures LoopsLead(c, s, t) && Advanced(c, s, t, w, Uncounted(job, x), 0) && x.FocusFailed?
  {
    hide LoopsLead, Execute;
    var m := CountedFirst(c, s, w);
    LeadShapes(c, s, m);
    t, x := ToUncounted(c, m, w, AnyEnv);
    AnyEnvFails(c.codec, job.faculty);
    LoopsLeadOn(c, s, m, t);
    AdvancedOn(c, s, m, t, w, Counted(job), Uncounted(job, x), 1, -1);
  }

  /** From the start to a failed end. */
  lemma FailsItem(c: Config, s: Sys, w: WorkerId, job: Job) returns (t: Sys)
    requires Reached(c, s) && w in s.workers && s.workers[w] == Worker(Started(job), true)
    requires job.id in s.store.rows && s.store.rows[job.id].state == Running
    ensures Reached(c, t) && t.workers == s.workers[w := Worker(Idle, true)] && t.store.live == s.store.live
    ensures c.planeOf[w] in t.counters && t.counters[c.planeOf[w]] == s.counters[c.planeOf[w]]
    ensures job.id in t.store.rows && t.store.rows[job.id].state == Failed
    ensures var r, r' := s.store.rows[job.id], t.store.rows[job.id];
            r'.attempts == r.attempts && r'.maxAttempts == r.maxAttempts && r'.faculty == r.faculty
  {
    hide Reachable, LoopsLead, Inv, IndexOk;
    ReachableOk(c, s);
    Overshoot.IndexHere(c, s);
    var m, x := StartedToUncounted(c, s, w, job);
    LeadShapes(c, s, m);
    t := RetiresFailed(c, m, w, job, x);
    LoopsLeadOn(c, s, m, t);
    LedReached(c, s, t);
  }

  /** One more attempt, put back by others. */
  lemma OneMoreAttempt(c: Config, s: Sys, w: WorkerId, m: MsgId, id: WorkId) returns (t: Sys)
    requires Reached(c, s) && CanTake(c, s, w, m, id)
    ensures Reached(c, t) && id in t.store.rows && (t.store.rows[id].attempts < MaxI32 ==> CanTake(c, t, w, m, id))
    ensures t.store.rows[id].attempts == s.store.rows[id].attempts + 1 && t.store.rows[id].maxAttempts == s.store.rows[id].maxAttempts
  {
    hide Reachable;
    var job, s1 := TakesItem(c, s, w, m, id);
    var s2 := FailsItem(c, s1, w, job);
    t := OthersMove(c, s2, id, Failed, Queued);
  }

  lemma {:induction false} ManyAttempts(c: Config, s: Sys, w: WorkerId, m: MsgId, id: WorkId, n: nat) returns (t: Sys)
    requires Reached(c, s) && id in s.store.rows && (n > 0 ==> CanTake(c, s, w, m, id))
    requires s.store.rows[id].attempts + n <= MaxI32
    ensures Reached(c, t) && id in t.store.rows
    ensures t.store.rows[id].attempts == s.store.rows[id].attempts + n && t.store.rows[id].maxAttempts == s.store.rows[id].maxAttempts
    decreases n
  {
    hide Reached, CanTake;
    if n == 0 {
      t := s;
    } else {
      var s1 := OneMoreAttempt(c, s, w, m, id);
      t := ManyAttempts(c, s1, w, m, id, n - 1);
    }
  }

  /** No limit on attempts is enforced: whatever the item asks for, some run reaches every number its column can hold. */
  lemma AttemptsUnlimited(c: Config, w: WorkerId, name: string, limit: nat, n: nat)
    requires GoodConfig(c) && w in c.planeOf && c.planes[c.planeOf[w]].maxConcurrent >= 1
    requires name in c.planes[c.planeOf[w]].registry && n <= MaxI32
    ensures exists s, id: WorkId :: Reachable(c, s) && id in s.store.rows
              && s.store.rows[id].maxAttempts == Some(ToI32(limit)) && s.store.rows[id].attempts == n
  {
    hide Reachable, ToI32;
    InitialReached(c);
    var m, id, s := Overshoot.FreshItem(c, Initial(c), Overshoot.Plain(name).(maxAttempts := Some(limit)));
    assert Overshoot.Ready(c, s, c.planeOf[w], m, id);
    var t := ManyAttempts(c, s, w, m, id, n);
  }

  // ----- messages of finished items ----------------------------------------------------

  /** A loop that is up is about to archive the message. */
  predicate Archiving(s: Sys, m: MsgId) {
    exists w | w in s.workers :: s.workers[w].up && s.workers[w].pc.Retired? && s.workers[w].pc.job.m == m
  }

  /** A live message of an item in a terminal state, which nobody is about to archive. */
  predicate Stale(s: Sys, m: MsgId) {
    && m in s.store.live && s.store.live[m].WorkPayload?
    && s.store.live[m].workItemId in s.store.rows && IsTerminal(s.store.rows[s.store.live[m].workItemId].state)
    && !Archiving(s, m)
  }

  lemma UpdatesKeepQueue(st: Store, id: WorkId, from: State, to: State, now: Time, o: Outcome, error: string, ms: nat)
    ensures Transition(st, id, from, to, now).store.live == st.live
    ensures Complete(st, id, o, now).store.live == st.live && Fail(st, id, error, ms, now).store.live == st.live
  {
    hide IndexOk, CanTransition, TransitionedRow, CompletedRow, FailedRow;
  }

  lemma CommitKeepsQueue(c: Config, s: Sys, w: WorkerId, job: Job, x: FocusResult, from: State, to: State, now: Time, next: Pc)
    requires w in s.workers
    ensures StepTransition(s, w, job.id, from, to, now, next).store.live == s.store.live
    ensures StepRetire(s, w, job, x, now).store.live == s.store.live
  {
    hide Transition, Complete, Fail, Enter, ErrorText;
    var o := if x.FocusCompleted? then Outcome(true, Some(x.data), None, x.ms) else Outcome(false, None, None, 0);
    var error, ms := if x.FocusFailed? then ErrorText(x.phase, x.error) else "", x.ms;
    UpdatesKeepQueue(s.store, job.id, from, to, now, o, error, ms);
  }

  lemma LookupsKeepQueue(c: Config, s: Sys, w: WorkerId, m: MsgId, body: Payload, job: Job, env: Env)
    requires w in s.workers && w in c.planeOf && c.planeOf[w] in c.planes
    ensures StepFetch(c, s, w, m, body).store == s.store && StepRun(c, s, w, job, env).store == s.store
  {
    hide FindItem, Execute;
  }

  lemma LocalKeepsQueue(c: Config, s: Sys, w: WorkerId, act: Act)
    requires WellShaped(c, s) && w in s.workers && LoopStep(c, s, w, act).Some? && !Commits(act)
    ensures var t := LoopStep(c, s, w, act).value;
            t.store == s.store && w in t.workers && (t.workers[w].pc.Retired? ==> t.workers[w].pc == s.workers[w].pc)
  {
    hide StepFetch, StepTransition, StepRetire, StepRun, Archived, SameKeys, MovesOnly, WellShaped;
    ShapedLoop(c, s, w);
  }

  /** Only an archiving step takes a message out of the queue. */
  lemma LiveActs(c: Config, s: Sys, w: WorkerId, act: Act, m: MsgId)
    requires WellShaped(c, s) && w in s.workers && LoopStep(c, s, w, act).Some? && m in s.store.live
    requires act.Archive? ==> s.workers[w].pc.Retired? && s.workers[w].pc.job.m != m
    ensures var t := LoopStep(c, s, w, act).value; m in t.store.live && t.store.live[m] == s.store.live[m]
  {
    hide LoopStep, StepFetch, StepTransition, StepRetire, StepRun, WellShaped;
    ShapedLoop(c, s, w);
    var pc := s.workers[w].pc;
    if !Commits(act) {
      LocalKeepsQueue(c, s, w, act);
    } else {
      CommitResult(c, s, w, act);
      match act
      case Fetch => LookupsKeepQueue(c, s, w, pc.m, pc.body, Job(0, 0, AnyFaculty), AnyEnv);
      case RunHooks(env) => LookupsKeepQueue(c, s, w, 0, OtherPayload, pc.job, env);
      case Claim(now) => CommitKeepsQueue(c, s, w, pc.job, NoResult, Queued, Claimed, now, HasClaim(pc.job));
      case Start(now) => CommitKeepsQueue(c, s, w, pc.job, NoResult, Claimed, Running, now, Started(pc.job));
      case Retire(now) => CommitKeepsQueue(c, s, w, pc.job, pc.result, Queued, Claimed, now, Idle);
      case Archive =>
    }
  }

  const AnyFaculty := Faculty("", None, "", None)
  const NoResult := FocusFailed("", "", 0)

  /** A loop comes to its archiving only by retiring an item that was Running. */
  lemma BecomesRetired(c: Config, s: Sys, w: WorkerId, act: Act)
    requires WellShaped(c, s) && w in s.workers && LoopStep(c, s, w, act).Some?
    ensures var t, pc := LoopStep(c, s, w, act).value, s.workers[w].pc;
            w in t.workers &&
            (t.workers[w].pc.Retired? ==>
               || (pc.Retired? && t.workers[w].pc == pc)
               || (act.Retire? && pc.Uncounted? && t.workers[w].pc.job == pc.job
                   && t == StepRetire(s, w, pc.job, pc.result, act.now)))
  {
    hide LoopStep, StepFetch, StepTransition, StepRetire, StepRun, Archived, WellShaped;
    ShapedLoop(c, s, w);
    if Commits(act) {
      CommitResult(c, s, w, act);
    } else {
      LocalKeepsQueue(c, s, w, act);
    }
  }

  lemma LoopKeepsStale(c: Config, s: Sys, w: WorkerId, act: Act, m: MsgId)
    requires Inv(c, s) && WellShaped(c, s) && w in s.workers && s.workers[w].up && LoopStep(c, s, w, act).Some? && Stale(s, m)
    ensures Stale(LoopStep(c, s, w, act).value, m)
  {
    hide LoopStep, StoreOk, LoopsOk, Exclusive, SubmissionsOk, StepRetire, Later;
    var t := LoopStep(c, s, w, act).value;
    var id, pc := s.store.live[m].workItemId, s.workers[w].pc;
    ArchivesOther(c, s, w, act, m);
    LiveActs(c, s, w, act, m);
    LoopLater(c, s, w, act);
    RowStays(c, s, t, id);
    OneLoopMoves(c, s, w, act);
    BecomesRetired(c, s, w, act);
    if act.Retire? && pc.Uncounted? && pc.job.m == m {
      LoopPlace(c, s, w);
      ItemOfMessage(c, s, w, pc.job);
      RowPlace(c, s, id);
      MissedRow(s, w, act.now);
    }
  }

  lemma ArchivesOther(c: Config, s: Sys, w: WorkerId, act: Act, m: MsgId)
    requires WellShaped(c, s) && w in s.workers && s.workers[w].up && LoopStep(c, s, w, act).Some? && !Archiving(s, m)
    ensures act.Archive? ==> s.workers[w].pc.Retired? && s.workers[w].pc.job.m != m
  {
    hide StepFetch, StepTransition, StepRetire, StepRun, Archived, AddCounter, SameKeys, WellShaped;
    ShapedLoop(c, s, w);
  }

  lemma ItemOfMessage(c: Config, s: Sys, w: WorkerId, job: Job)
    requires JobOk(c, s, w, job) && job.m in s.store.live
    ensures s.store.live[job.m].WorkPayload? && s.store.live[job.m].workItemId == job.id
  {
  }

  lemma RowStays(c: Config, s: Sys, t: Sys, id: WorkId)
    requires Inv(c, s) && Later(s, t) && id in s.store.rows && IsTerminal(s.store.rows[id].state)
    ensures id in t.store.rows && t.store.rows[id] == s.store.rows[id]
  {
    hide IndexOk, MergesOk, MessagesOk, QueueOk, LoopsOk, Exclusive, SubmissionsOk, RowOk;
    SameRows(c, s);
    assert RowLater(s, t, id);
  }

  lemma StepKeepsStale(c: Config, s: Sys, l: Label, m: MsgId)
    requires Inv(c, s) && Step(c, s, l).Some? && Stale(s, m)
    ensures Stale(Step(c, s, l).value, m)
  {
    hide LoopStep, StoreOk, LoopsOk, Exclusive, SubmissionsOk, Transition, Later, SubmitStep, Taken;
    var t := Step(c, s, l).value;
    StepLater(c, s, l);
    RowStays(c, s, t, s.store.live[m].workItemId);
    match l
    case Loop(w, act) => LoopKeepsStale(c, s, w, act, m);
    case Submit(k, what) => SubmitKeepsLive(c, s, k, what, m);
    case Outside(id, from, to, now) => TakenKeepsLive(s, id, from, to, now);
    case Foreign => SendKeepsLive(c, s, OtherPayload, m);
  }

  lemma SendKeepsLive(c: Config, s: Sys, p: Payload, m: MsgId)
    requires Inv(c, s) && m in s.store.live
    ensures m != s.store.nextMsg
    ensures m in Send(s.store, p).live && Send(s.store, p).live[m] == s.store.live[m]
  {
    hide RowsOk, MergesOk, IndexOk, MessagesOk, Owned, ArchiveIsDone, LoopsOk, Exclusive, SubmissionsOk;
  }

  lemma SubmitKeepsLive(c: Config, s: Sys, k: SubmitterId, what: SubmitAct, m: MsgId)
    requires Inv(c, s) && SubmitStep(s, k, what).Some? && m in s.store.live
    ensures var t := SubmitStep(s, k, what).value;
            t.workers == s.workers && m in t.store.live && t.store.live[m] == s.store.live[m]
  {
    hide Inv, Conflicts, Holds, QueuedRow, MergedRow, NewHistory, Insertable;
    SendKeepsLive(c, s, OtherPayload, m);
  }

  lemma TakenKeepsLive(s: Sys, id: WorkId, from: State, to: State, now: Time)
    ensures Taken(s, id, from, to, now).store.live == s.store.live && Taken(s, id, from, to, now).workers == s.workers
  {
    hide Transition, Enter;
    UpdatesKeepQueue(s.store, id, from, to, now, Outcome(false, None, None, 0), "", 0);
  }

  lemma {:induction false} RunKeepsStale(c: Config, s: Sys, labels: seq<Label>, m: MsgId)
    requires Inv(c, s) && WellShaped(c, s) && Exec(c, s, labels).Some? && Stale(s, m)
    ensures Stale(Exec(c, s, labels).value, m)
    decreases |labels|
  {
    hide Step, Inv, Stale;
    if labels != [] {
      StepKeepsStale(c, s, labels[0], m);
      StepOk(c, s, labels[0]);
      RunKeepsStale(c, Step(c, s, labels[0]).value, labels[1..], m);
    }
  }

  /** This run takes the message out of the queue. */
  ghost predicate TakesOut(c: Config, s: Sys, labels: seq<Label>, m: MsgId)
    requires WellShaped(c, s)
  {
    Exec(c, s, labels).Some? && m !in Exec(c, s, labels).value.store.live
  }

  lemma ArchiverTakesOut(c: Config, s: Sys, m: MsgId)
    requires WellShaped(c, s) && Archiving(s, m)
    ensures exists labels :: TakesOut(c, s, labels, m)
  {
    hide Exec;
    var w :| w in s.workers && s.workers[w].up && s.workers[w].pc.Retired? && s.workers[w].pc.job.m == m;
    var t := SetPc(s.(store := Archived(s.store, m)), w, Idle);
    assert Step(c, s, Loop(w, Archive)) == Some(t);
    ExecOne(c, s, Loop(w, Archive));
    assert TakesOut(c, s, [Loop(w, Archive)], m);
  }

  /**
   The live message of an item in a terminal state leaves the queue in some continuation if and only if a loop that is
   up is about to archive it; otherwise it stays there whatever happens.
   */
  lemma StaleExactly(c: Config, s: Sys, m: MsgId)
    requires Reached(c, s) && m in s.store.live && s.store.live[m].WorkPayload?
    requires var id := s.store.live[m].workItemId; id in s.store.rows && IsTerminal(s.store.rows[id].state)
    ensures (exists labels :: TakesOut(c, s, labels, m)) <==> Archiving(s, m)
  {
    hide Exec, Inv, Archiving;
    if Archiving(s, m) {
      ArchiverTakesOut(c, s, m);
    } else {
      ReachableOk(c, s);
      forall labels ensures !TakesOut(c, s, labels, m) {
        if Exec(c, s, labels).Some? {
          RunKeepsStale(c, s, labels, m);
        }
      }
    }
  }
}
