/** The capacity check is not atomic with the increment: how far, and exactly when, a plane exceeds its limit. */
module Overshoot {
  import opened Wrappers
  import opened Json
  import opened WorkState
  import opened WorkStore
  import opened Protocol
  import opened Invariant
  import opened Steps
  import opened Runs
  import opened Capacity

  // ----- fresh items -------------------------------------------------------------------

  lemma {:induction false} Above(s: set<nat>) returns (k: nat)
    ensures forall x | x in s :: x < k
    decreases |s|
  {
    if s == {} {
      k := 0;
    } else {
      var x :| x in s;
      var rest := Above(s - {x});
      k := if x < rest then rest else x + 1;
      assert forall y | y in s :: y == x || y in s - {x};
    }
  }

  function Plain(name: string): NewWorkItem {
    NewWorkItem(name, None, None, Provenance("", None), Null, 0, None, None)
  }

  /** A queued item of a registered faculty with a live message. */
  predicate Ready(c: Config, s: Sys, p: PlaneId, m: MsgId, id: WorkId) {
    && m in s.store.live && s.store.live[m].WorkPayload? && s.store.live[m].workItemId == id
    && id in s.store.rows && s.store.rows[id].state == Queued && s.store.rows[id].attempts < MaxI32
    && p in c.planes && s.store.rows[id].faculty in c.planes[p].registry
  }

  /** Loops, counters and submissions are the same. */
  predicate SameLoops(s: Sys, t: Sys) {
    && t.workers == s.workers && t.counters == s.counters && t.failedCreates == s.failedCreates
  }

  lemma FreshItem(c: Config, s: Sys, n: NewWorkItem) returns (m: MsgId, id: WorkId, t: Sys)
    requires Reached(c, s) && n.dedupKey.None? && n.parentId.None?
    ensures Reached(c, t) && SameLoops(s, t)
    ensures forall p | p in c.planes && n.faculty in c.planes[p].registry :: Ready(c, t, p, m, id)
    ensures id in t.store.rows && t.store.rows[id].attempts == 0 && t.store.rows[id].faculty == n.faculty
    ensures t.store.rows[id].maxAttempts == match n.maxAttempts case None => None case Some(k) => Some(ToI32(k))
  {
    hide Reachable, WellShaped, ToI32;
    id := Above(s.store.rows.Keys);
    var k := Above(s.submissions.Keys);
    m := s.store.nextMsg;
    t := s.(store := Enqueue(s.store, id, n, 0), history := s.history[id := NewHistory(n, Queued)]);
    assert id !in s.store.rows && k !in s.submissions;
    assert SubmitStep(s, k, TryInsert(id, n, 0)) == Some(t);
    StepReached(c, s, Submit(k, TryInsert(id, n, 0)), t);
  }

  // ----- one loop ----------------------------------------------------------------------

  lemma LoopReached(c: Config, s: Sys, w: WorkerId, act: Act, t: Sys)
    requires Reached(c, s) && w in s.workers && s.workers[w].up && LoopStep(c, s, w, act) == Some(t)
    ensures Reached(c, t)
  {
    hide LoopStep, Reachable;
    StepReached(c, s, Loop(w, act), t);
  }

  /** Only this loop has moved, and it is up. */
  predicate OneMoved(s: Sys, t: Sys, w: WorkerId, pc: Pc) {
    && t.workers == s.workers[w := Worker(pc, true)]
    && t.counters == s.counters && t.failedCreates == s.failedCreates
  }

  lemma Check(c: Config, s: Sys, w: WorkerId) returns (t: Sys)
    requires Reached(c, s) && w in s.workers && s.workers[w] == Worker(Idle, true)
    requires s.counters[c.planeOf[w]] < c.planes[c.planeOf[w]].maxConcurrent
    ensures Reached(c, t) && OneMoved(s, t, w, Checked) && t.store == s.store
  {
    hide Reachable;
    t := SetPc(s, w, Checked);
    LoopReached(c, s, w, CheckCapacity, t);
  }

  lemma Read(c: Config, s: Sys, w: WorkerId, m: MsgId) returns (t: Sys)
    requires Reached(c, s) && w in s.workers && s.workers[w] == Worker(Checked, true) && m in s.store.live
    ensures Reached(c, t) && OneMoved(s, t, w, Got(m, s.store.live[m])) && t.store == s.store
  {
    hide Reachable;
    t := SetPc(s, w, Got(m, s.store.live[m]));
    LoopReached(c, s, w, ReadMessage(m), t);
  }

  lemma Routes(c: Config, s: Sys, w: WorkerId, m: MsgId, id: WorkId) returns (job: Job, t: Sys)
    requires Reached(c, s) && w in s.workers && Ready(c, s, c.planeOf[w], m, id)
    requires s.workers[w] == Worker(Got(m, s.store.live[m]), true)
    ensures Reached(c, t) && OneMoved(s, t, w, Routed(job)) && t.store == s.store && job.id == id
  {
    hide Reachable;
    job := Job(m, id, c.planes[c.planeOf[w]].registry[s.store.rows[id].faculty]);
    t := SetPc(s, w, Routed(job));
    assert StepFetch(c, s, w, m, s.store.live[m]) == t;
    LoopReached(c, s, w, Fetch, t);
  }

  /** The item's state changes and nothing else in the table. */
  predicate ItemMoved(s: Sys, t: Sys, id: WorkId, to: State) {
    && id in s.store.rows && id in t.store.rows && t.store.rows[id].state == to
    && t.store.rows[id].attempts == s.store.rows[id].attempts + (if to == Running then 1 else 0)
    && t.store.rows[id].faculty == s.store.rows[id].faculty && t.store.rows[id].maxAttempts == s.store.rows[id].maxAttempts
    && t.store.live == s.store.live
  }

  lemma Moved(c: Config, s: Sys, id: WorkId, from: State, to: State)
    requires Reached(c, s) && CanTransition(from, to) && id in s.store.rows && s.store.rows[id].state == from
    requires to == Running ==> s.store.rows[id].attempts < MaxI32
    ensures var u := Transition(s.store, id, from, to, 0);
            && u.error.None? && ItemMoved(s, s.(store := u.store), id, to)
  {
    hide Reachable, WellShaped, Inv;
    ReachableOk(c, s);
    IndexHere(c, s);
    TransitionExactly(s.store, id, from, to, 0);
  }

  lemma IndexHere(c: Config, s: Sys)
    requires Inv(c, s)
    ensures IndexOk(s.store.rows)
  {
  }

  lemma Claims(c: Config, s: Sys, w: WorkerId, job: Job) returns (t: Sys)
    requires Reached(c, s) && w in s.workers && s.workers[w] == Worker(Routed(job), true)
    requires job.id in s.store.rows && s.store.rows[job.id].state == Queued
    ensures Reached(c, t) && OneMoved(s, t, w, HasClaim(job)) && ItemMoved(s, t, job.id, Claimed)
  {
    hide Reachable, StepTransition, Transition, IndexOk, Enter;
    Moved(c, s, job.id, Queued, Claimed);
    t := StepTransition(s, w, job.id, Queued, Claimed, 0, HasClaim(job));
    TransitionParts(s, w, job.id, Queued, Claimed, 0, HasClaim(job));
    LoopReached(c, s, w, Claim(0), t);
  }

  lemma Starts(c: Config, s: Sys, w: WorkerId, job: Job) returns (t: Sys)
    requires Reached(c, s) && w in s.workers && s.workers[w] == Worker(HasClaim(job), true)
    requires job.id in s.store.rows && s.store.rows[job.id].state == Claimed && s.store.rows[job.id].attempts < MaxI32
    ensures Reached(c, t) && OneMoved(s, t, w, Started(job)) && ItemMoved(s, t, job.id, Running)
  {
    hide Reachable, StepTransition, Transition, IndexOk, Enter;
    Moved(c, s, job.id, Claimed, Running);
    t := StepTransition(s, w, job.id, Claimed, Running, 0, Started(job));
    TransitionParts(s, w, job.id, Claimed, Running, 0, Started(job));
    LoopReached(c, s, w, Start(0), t);
  }

  lemma CountsIn(c: Config, s: Sys, w: WorkerId, job: Job) returns (t: Sys)
    requires Reached(c, s) && w in s.workers && s.workers[w] == Worker(Started(job), true)
    ensures Reached(c, t) && t.workers == s.workers[w := Worker(Counted(job), true)]
    ensures t.counters == s.counters[c.planeOf[w] := s.counters[c.planeOf[w]] + 1] && t.failedCreates == s.failedCreates
  {
    hide Reachable;
    t := AddCounter(SetPc(s, w, Counted(job)), c.planeOf[w], 1);
    LoopReached(c, s, w, Count, t);
  }

  lemma Fails(c: Config, s: Sys, w: WorkerId, job: Job) returns (t: Sys)
    requires Reached(c, s) && w in s.workers && s.workers[w] == Worker(Counted(job), true)
    ensures Reached(c, t) && t.workers == s.workers[w := Worker(Idle, true)] && t.counters == s.counters
  {
    hide Reachable;
    var p := c.planeOf[w];
    t := SetPc(s, w, Idle).(failedCreates := s.failedCreates[p := s.failedCreates[p] + 1]);
    LoopReached(c, s, w, CreateFails, t);
  }

  /** A loop past the check can take a fresh item as far as the increment. */
  lemma Take(c: Config, s: Sys, w: WorkerId, name: string) returns (job: Job, t: Sys)
    requires Reached(c, s) && w in s.workers && s.workers[w] == Worker(Checked, true)
    requires name in c.planes[c.planeOf[w]].registry
    ensures Reached(c, t) && t.workers == s.workers[w := Worker(Counted(job), true)]
    ensures t.counters == s.counters[c.planeOf[w] := s.counters[c.planeOf[w]] + 1]
  {
    hide Reachable, Reached;
    var s3;
    job, s3 := TakeRouted(c, s, w, name);
    var s4 := Claims(c, s3, w, job);
    var s5 := Starts(c, s4, w, job);
    t := CountsIn(c, s5, w, job);
  }

  lemma TakeRouted(c: Config, s: Sys, w: WorkerId, name: string) returns (job: Job, t: Sys)
    requires Reached(c, s) && w in s.workers && s.workers[w] == Worker(Checked, true)
    requires name in c.planes[c.planeOf[w]].registry
    ensures Reached(c, t) && OneMoved(s, t, w, Routed(job))
    ensures job.id in t.store.rows && t.store.rows[job.id].state == Queued && t.store.rows[job.id].attempts < MaxI32 - 1
  {
    hide Reachable;
    var m, id, s1 := FreshItem(c, s, Plain(name));
    assert Ready(c, s1, c.planeOf[w], m, id);
    var s2 := Read(c, s1, w, m);
    job, t := Routes(c, s2, w, m, id);
  }

  // ----- a whole plane -----------------------------------------------------------------

  /** One failed focus creation raises the counter for good. */
  lemma FailOnce(c: Config, s: Sys, w: WorkerId, name: string) returns (t: Sys)
    requires Reached(c, s) && w in s.workers && s.workers[w] == Worker(Idle, true)
    requires name in c.planes[c.planeOf[w]].registry
    requires s.counters[c.planeOf[w]] < c.planes[c.planeOf[w]].maxConcurrent
    ensures Reached(c, t) && t.workers == s.workers
    ensures t.counters == s.counters[c.planeOf[w] := s.counters[c.planeOf[w]] + 1]
  {
    hide Reachable, Reached;
    var s1 := Check(c, s, w);
    var job, s2 := Take(c, s1, w, name);
    t := Fails(c, s2, w, job);
    assert s.workers[w := Worker(Checked, true)][w := Worker(Counted(job), true)][w := Worker(Idle, true)] == s.workers;
  }

  lemma {:induction false} FailMany(c: Config, s: Sys, w: WorkerId, name: string, n: nat) returns (t: Sys)
    requires Reached(c, s) && w in s.workers && s.workers[w] == Worker(Idle, true)
    requires name in c.planes[c.planeOf[w]].registry
    requires s.counters[c.planeOf[w]] + n <= c.planes[c.planeOf[w]].maxConcurrent
    ensures Reached(c, t) && t.workers == s.workers && c.planeOf[w] in t.counters
    ensures t.counters[c.planeOf[w]] == s.counters[c.planeOf[w]] + n
    decreases n
  {
    hide Reachable;
    if n == 0 {
      t := s;
    } else {
      var s1 := FailOnce(c, s, w, name);
      t := FailMany(c, s1, w, name, n - 1);
    }
  }

  /** These loops stand here and are up. */
  predicate AllAt(s: Sys, todo: set<WorkerId>, pc: Pc) {
    forall w | w in todo :: w in s.workers && s.workers[w] == Worker(pc, true)
  }

  lemma {:induction false} CheckAll(c: Config, s: Sys, p: PlaneId, todo: set<WorkerId>) returns (t: Sys)
    requires Reached(c, s) && p in c.planes && AllAt(s, todo, Idle) && todo <= LoopsOf(c, p)
    requires s.counters[p] < c.planes[p].maxConcurrent
    ensures Reached(c, t) && AllAt(t, todo, Checked) && t.counters == s.counters
    ensures forall v | v in s.workers && v !in todo :: v in t.workers && t.workers[v] == s.workers[v]
    decreases |todo|
  {
    hide Reachable;
    if todo == {} {
      t := s;
    } else {
      var w :| w in todo;
      var s1 := Check(c, s, w);
      t := CheckAll(c, s1, p, todo - {w});
      assert w in s1.workers && w !in todo - {w};
    }
  }

  lemma {:induction false} TakeAll(c: Config, s: Sys, p: PlaneId, name: string, todo: set<WorkerId>) returns (t: Sys)
    requires Reached(c, s) && p in c.planes && AllAt(s, todo, Checked) && todo <= LoopsOf(c, p)
    requires name in c.planes[p].registry
    ensures Reached(c, t) && p in t.counters && t.counters[p] == s.counters[p] + |todo|
    ensures forall v | v in todo :: v in t.workers && InFlight(t.workers[v].pc)
    ensures forall v | v in s.workers && v !in todo :: v in t.workers && t.workers[v] == s.workers[v]
    decreases |todo|
  {
    hide Reachable;
    if todo == {} {
      t := s;
    } else {
      var w :| w in todo;
      var job, s1 := Take(c, s, w, name);
      t := TakeAll(c, s1, p, name, todo - {w});
      assert w in s1.workers && w !in todo - {w};
    }
  }

  /** The bound of `Capacity.CounterExact` is attained by some run, for every limit and every number of loops. */
  lemma BoundAttained(c: Config, p: PlaneId, name: string)
    requires GoodConfig(c) && p in c.planes && c.planes[p].maxConcurrent >= 1 && LoopsOf(c, p) != {}
    requires name in c.planes[p].registry
    ensures exists s :: Reachable(c, s) && p in s.counters && s.counters[p] == Bound(c, p)
  {
    hide Reachable;
    var loops := LoopsOf(c, p);
    var w :| w in loops;
    InitialReached(c);
    var s1 := FailMany(c, Initial(c), w, name, c.planes[p].maxConcurrent - 1);
    var s2 := CheckAll(c, s1, p, loops);
    var s3 := TakeAll(c, s2, p, name, loops);
  }

  // ----- planes that never run anything ------------------------------------------------

  /** With an empty registry no loop of the plane ever has a job, and the counter stays at zero. */
  predicate Quiet(c: Config, s: Sys, p: PlaneId) {
    && p in s.counters && s.counters[p] == 0
    && forall w | w in s.workers && w in c.planeOf && c.planeOf[w] == p :: !HasJob(s.workers[w].pc)
  }

  lemma LoopQuiet(c: Config, s: Sys, p: PlaneId, w: WorkerId, act: Act)
    requires WellShaped(c, s) && Quiet(c, s, p) && p in c.planes && c.planes[p].registry == map[]
    requires w in s.workers && LoopStep(c, s, w, act).Some?
    ensures Quiet(c, LoopStep(c, s, w, act).value, p)
  {
    hide LoopStep;
    LoopBalanced(c, s, w, act);
    if c.planeOf[w] == p {
      JoblessActs(c, s, w, act);
    }
  }

  lemma JoblessActs(c: Config, s: Sys, w: WorkerId, act: Act)
    requires WellShaped(c, s) && w in s.workers && LoopStep(c, s, w, act).Some?
    requires c.planes[c.planeOf[w]].registry == map[] && !HasJob(s.workers[w].pc)
    ensures var t := LoopStep(c, s, w, act).value;
            w in t.workers && !HasJob(t.workers[w].pc) && t.counters == s.counters
  {
    hide StepTransition, StepRetire, StepRun, StepFetch, Archived, SameKeys, MovesOnly, WellShaped;
    ShapedLoop(c, s, w);
    if act.Fetch? {
      JoblessFetch(c, s, w, s.workers[w].pc.m, s.workers[w].pc.body);
    }
  }

  lemma JoblessFetch(c: Config, s: Sys, w: WorkerId, m: MsgId, body: Payload)
    requires w in s.workers && w in c.planeOf && c.planeOf[w] in c.planes && c.planes[c.planeOf[w]].registry == map[]
    ensures StepFetch(c, s, w, m, body) == SetPc(s, w, Idle)
  {
    hide FindItem, SetPc;
  }

  lemma {:induction false} RunQuiet(c: Config, s: Sys, p: PlaneId, labels: seq<Label>)
    requires WellShaped(c, s) && Quiet(c, s, p) && p in c.planes && c.planes[p].registry == map[] && Exec(c, s, labels).Some?
    ensures Quiet(c, Exec(c, s, labels).value, p)
    decreases |labels|
  {
    hide Step, Quiet;
    if labels != [] {
      StepQuiet(c, s, p, labels[0]);
      RunQuiet(c, Step(c, s, labels[0]).value, p, labels[1..]);
    }
  }

  lemma StepQuiet(c: Config, s: Sys, p: PlaneId, l: Label)
    requires WellShaped(c, s) && Quiet(c, s, p) && p in c.planes && c.planes[p].registry == map[] && Step(c, s, l).Some?
    ensures Quiet(c, Step(c, s, l).value, p)
  {
    hide LoopStep, Transition, Taken, Enqueue, Merge;
    if l.Loop? {
      LoopQuiet(c, s, p, l.w, l.act);
    }
  }

  /**
   Some run takes a plane over its limit if and only if the plane has two loops or more, a limit above zero, and a
   registered faculty.
   */
  lemma ExceededExactly(c: Config, p: PlaneId)
    requires GoodConfig(c) && p in c.planes
    ensures (exists s :: Reachable(c, s) && p in s.counters && s.counters[p] > c.planes[p].maxConcurrent)
            <==> |LoopsOf(c, p)| >= 2 && c.planes[p].maxConcurrent >= 1 && c.planes[p].registry != map[]
  {
    hide Exec;
    if |LoopsOf(c, p)| >= 2 && c.planes[p].maxConcurrent >= 1 && c.planes[p].registry != map[] {
      var name :| name in c.planes[p].registry;
      BoundAttained(c, p, name);
    }
    forall s | Reachable(c, s) && p in s.counters && s.counters[p] > c.planes[p].maxConcurrent
      ensures |LoopsOf(c, p)| >= 2 && c.planes[p].maxConcurrent >= 1 && c.planes[p].registry != map[]
    {
      CounterExact(c, s, p);
      if c.planes[p].registry == map[] {
        var labels :| Exec(c, Initial(c), labels) == Some(s);
        RunQuiet(c, Initial(c), p, labels);
      }
    }
  }

  /** All loops of a plane can be inside a focus at once. */
  lemma AllInFlight(c: Config, p: PlaneId, name: string) returns (s: Sys)
    requires GoodConfig(c) && p in c.planes && c.planes[p].maxConcurrent >= 1 && name in c.planes[p].registry
    ensures Reachable(c, s) && |LoopsAt(c, s, p, InFlight)| >= |LoopsOf(c, p)|
  {
    hide Reachable, InFlight;
    var loops := LoopsOf(c, p);
    InitialReached(c);
    var m := CheckAll(c, Initial(c), p, loops);
    s := TakeAll(c, m, p, name, loops);
    SubsetSize(loops, LoopsAt(c, s, p, InFlight));
  }

  /**
   Some run has more foci in flight than the limit if and only if the plane has more loops than that, a limit above
   zero, and a registered faculty. The rest of the counter's excess is failed creations.
   */
  lemma FociExceedExactly(c: Config, p: PlaneId)
    requires GoodConfig(c) && p in c.planes
    ensures (exists s :: Reachable(c, s) && |LoopsAt(c, s, p, InFlight)| > c.planes[p].maxConcurrent)
            <==> |LoopsOf(c, p)| > c.planes[p].maxConcurrent >= 1 && c.planes[p].registry != map[]
  {
    hide Reachable, InFlight;
    if |LoopsOf(c, p)| > c.planes[p].maxConcurrent >= 1 && c.planes[p].registry != map[] {
      var name :| name in c.planes[p].registry;
      var s := AllInFlight(c, p, name);
    }
    forall s | Reachable(c, s) && |LoopsAt(c, s, p, InFlight)| > c.planes[p].maxConcurrent
      ensures |LoopsOf(c, p)| > c.planes[p].maxConcurrent >= 1 && c.planes[p].registry != map[]
    {
      CounterExact(c, s, p);
      SubsetSize(LoopsAt(c, s, p, InFlight), LoopsOf(c, p));
      assert s.counters[p] > c.planes[p].maxConcurrent;
      ExceededExactly(c, p);
    }
  }
}
