/** What other programs may do to Running rows. */
module Outsiders {
  import opened Wrappers
  import opened WorkState
  import opened WorkStore
  import opened Focus
  import opened Protocol
  import opened StoreInvariant
  import opened Invariant
  import opened Steps
  import opened Runs
  import opened Overshoot
  import opened Capacity
  import opened WorkTheorems

  // ----- exactly when work is done once ------------------------------------------------

  /** The unique index holds, no two loops hold the same item, and held items are Running. */
  ghost predicate Core(c: Config, s: Sys) {
    && IndexOk(s.store.rows)
    && Exclusive(c, s)
    && HeldAreRunning(c, s)
  }

  predicate HeldAreRunning(c: Config, s: Sys) {
    forall w | w in s.workers && Holder(c, s.workers[w]) ::
      s.workers[w].pc.job.id in s.store.rows && s.store.rows[s.workers[w].pc.job.id].state == Running
  }

  /** A successful `transition_state` by others keeps this if and only if it takes no held item out of Running. */
  lemma OutsideExactly(c: Config, s: Sys, id: WorkId, from: State, to: State, now: Time)
    requires Core(c, s) && Transition(s.store, id, from, to, now).error.None?
    ensures Core(c, Taken(s, id, from, to, now)) <==> (from == Running ==> !Held(c, s, id))
  {
    hide IndexOk, Transition, Enter;
    TransitionExactly(s.store, id, from, to, now);
    TakenRows(s, id, from, to, now);
    var t := Taken(s, id, from, to, now);
    if from == Running && Held(c, s, id) {
      var w :| w in s.workers && HoldsItem(c, s, w, id);
      assert Holder(c, t.workers[w]) && t.store.rows[id].state != Running;
    } else {
      assert forall w | w in s.workers && Holder(c, s.workers[w]) :: !HoldsItem(c, s, w, id);
    }
  }

  lemma TakenRows(s: Sys, id: WorkId, from: State, to: State, now: Time)
    requires Transition(s.store, id, from, to, now).error.None?
    ensures var t := Taken(s, id, from, to, now);
            && t.store == Transition(s.store, id, from, to, now).store
            && id in s.store.rows && s.store.rows[id].state == from && from != to
            && id in t.store.rows && t.store.rows[id].state == to
            && forall x | x in s.store.rows && x != id :: x in t.store.rows && t.store.rows[x] == s.store.rows[x]
  {
  }

  function Free(c: Config): Config {
    c.(others := Unrestricted)
  }

  /** The others' discretion does not matter to the steps of loops and submissions. */
  lemma LoopStepFree(c: Config, s: Sys, w: WorkerId, act: Act)
    requires WellShaped(c, s) && w in s.workers
    ensures LoopStep(Free(c), s, w, act) == LoopStep(c, s, w, act)
  {
    hide Transition, StepTransition, StepRetire, Archived, FindItem, SameKeys, MovesOnly, WellShaped, SetPc, AddCounter, Execute;
    ShapedLoop(c, s, w);
  }

  lemma StepFree(c: Config, s: Sys, l: Label)
    requires WellShaped(c, s) && Step(Free(c), s, l).Some?
    ensures Step(c, s, l) == if l.Outside? && l.from == Running && Held(c, s, l.id) then None else Step(Free(c), s, l)
    ensures WellShaped(Free(c), Step(Free(c), s, l).value) && WellShaped(c, Step(Free(c), s, l).value)
  {
    hide LoopStep, SubmitStep, Transition, Taken, Send;
    if l.Loop? {
      LoopStepFree(c, s, l.w, l.act);
    }
  }

  /** Work is done once in every state of this run of unrestricted others. */
  ghost predicate OnceThroughout(c: Config, s: Sys, labels: seq<Label>)
    requires WellShaped(c, s)
    decreases |labels|
  {
    && Core(c, s)
    && (labels == [] ||
        var next := Step(Free(c), s, labels[0]);
        next.Some? && WellShaped(c, next.value) && OnceThroughout(c, next.value, labels[1..]))
  }

  lemma {:induction false} OnceIsCareful(c: Config, s: Sys, labels: seq<Label>)
    requires WellShaped(c, s) && OnceThroughout(c, s, labels)
    ensures Exec(c, s, labels).Some?
    decreases |labels|
  {
    hide Core, Step, Taken, Transition;
    if labels != [] {
      var l := labels[0];
      var next := Step(Free(c), s, l).value;
      FirstOnce(c, s, labels);
      if l.Outside? && l.from == Running && Held(c, s, l.id) {
        OutsideTaken(c, s, l);
        OutsideExactly(c, s, l.id, l.from, l.to, l.now);
        assert false;
      }
      StepFree(c, s, l);
      OnceIsCareful(c, next, labels[1..]);
    }
  }

  lemma FirstOnce(c: Config, s: Sys, labels: seq<Label>)
    requires WellShaped(c, s) && OnceThroughout(c, s, labels) && labels != []
    ensures Core(c, s) && Step(Free(c), s, labels[0]).Some?
    ensures WellShaped(c, Step(Free(c), s, labels[0]).value) && Core(c, Step(Free(c), s, labels[0]).value)
  {
    hide Core, Step;
  }

  lemma OutsideTaken(c: Config, s: Sys, l: Label)
    requires WellShaped(c, s) && Step(Free(c), s, l).Some? && l.Outside?
    ensures Transition(s.store, l.id, l.from, l.to, l.now).error.None?
    ensures Step(Free(c), s, l).value == Taken(s, l.id, l.from, l.to, l.now)
  {
    hide Taken, Transition;
  }

  lemma {:induction false} CarefulIsOnce(c: Config, s: Sys, labels: seq<Label>)
    requires WellShaped(c, s) && Inv(c, s) && c.others != Unrestricted && Exec(c, s, labels).Some?
    ensures Exec(Free(c), s, labels) == Exec(c, s, labels) ==> OnceThroughout(c, s, labels)
    decreases |labels|
  {
    hide Inv, Step, Core;
    InvCore(c, s);
    if labels != [] && Exec(Free(c), s, labels) == Exec(c, s, labels) {
      StepFree(c, s, labels[0]);
      StepOk(c, s, labels[0]);
      CarefulIsOnce(c, Step(c, s, labels[0]).value, labels[1..]);
    }
  }

  lemma InvCore(c: Config, s: Sys)
    requires Inv(c, s) && c.others != Unrestricted
    ensures Core(c, s)
  {
    hide RowsOk, MergesOk, MessagesOk, QueueOk, SubmissionsOk, Exclusive, IndexOk;
    HoldersExist(c, s);
  }

  /** A run of careful others is also a run of unrestricted ones. */
  lemma {:induction false} CarefulIsFree(c: Config, s: Sys, labels: seq<Label>)
    requires WellShaped(c, s) && Exec(c, s, labels).Some?
    ensures WellShaped(Free(c), s) && Exec(Free(c), s, labels) == Exec(c, s, labels)
    decreases |labels|
  {
    hide Step;
    if labels != [] {
      StepOfFree(c, s, labels[0]);
      CarefulIsFree(c, Step(c, s, labels[0]).value, labels[1..]);
    }
  }

  lemma StepOfFree(c: Config, s: Sys, l: Label)
    requires WellShaped(c, s) && Step(c, s, l).Some?
    ensures WellShaped(Free(c), s) && Step(Free(c), s, l) == Step(c, s, l)
  {
    hide LoopStep, SubmitStep, Transition, Taken, Send;
    if l.Loop? {
      LoopStepFree(c, s, l.w, l.act);
    }
  }

  /**
   In a run in which others may do anything, work is done once in every state if and only if others never take an
   item out of Running that a loop holds. A loop counts as a holder while it is up (`SpareUp`), or always (`SpareAll`).
   */
  lemma OnceExactly(c: Config, labels: seq<Label>)
    requires Careful(c) && Exec(Free(c), Initial(Free(c)), labels).Some?
    ensures Initial(Free(c)) == Initial(c)
    ensures OnceThroughout(c, Initial(c), labels) <==> Exec(c, Initial(c), labels).Some?
  {
    hide Exec, OnceThroughout, Inv;
    InitialOk(c);
    if OnceThroughout(c, Initial(c), labels) {
      OnceIsCareful(c, Initial(c), labels);
    }
    if Exec(c, Initial(c), labels).Some? {
      CarefulIsFree(c, Initial(c), labels);
      CarefulIsOnce(c, Initial(c), labels);
    }
  }

  // ----- a run in which an item is held twice ------------------------------------------

  /** Others move the item. */
  lemma OthersMove(c: Config, s: Sys, id: WorkId, from: State, to: State) returns (t: Sys)
    requires Reached(c, s) && CanTransition(from, to) && (from == Running ==> c.others == Unrestricted)
    requires id in s.store.rows && s.store.rows[id].state == from && (to == Running ==> s.store.rows[id].attempts < MaxI32)
    ensures t == Taken(s, id, from, to, 0) && Reached(c, t) && SameLoops(s, t) && ItemMoved(s, t, id, to)
  {
    hide Reachable, Transition;
    Moved(c, s, id, from, to);
    t := Taken(s, id, from, to, 0);
    StepReached(c, s, Outside(id, from, to, 0), t);
  }

  lemma TransitionKeepsKeys(st: Store, id: WorkId, from: State, to: State, now: Time)
    ensures Transition(st, id, from, to, now).store.rows.Keys == st.rows.Keys
  {
    hide IndexOk, CanTransition, TransitionedRow;
  }

  lemma MoveKeepsKeys(s: Sys, id: WorkId, from: State, to: State)
    ensures Taken(s, id, from, to, 0).submissions == s.submissions && Taken(s, id, from, to, 0).store.rows.Keys == s.store.rows.Keys
  {
    hide Transition;
    TransitionKeepsKeys(s.store, id, from, to, 0);
  }

  /** Two loops with the same queued item, both past the lookup. */
  lemma BothRouted(c: Config, v: WorkerId, w: WorkerId, name: string) returns (job: Job, job': Job, t: Sys)
    requires GoodConfig(c) && v in c.planeOf && w in c.planeOf && v != w
    requires c.planes[c.planeOf[v]].maxConcurrent >= 1 && name in c.planes[c.planeOf[v]].registry
    requires c.planes[c.planeOf[w]].maxConcurrent >= 1 && name in c.planes[c.planeOf[w]].registry
    ensures Reached(c, t) && v in t.workers && w in t.workers && job.id == job'.id
    ensures t.workers[v] == Worker(Routed(job), true) && t.workers[w] == Worker(Routed(job'), true)
    ensures job.id in t.store.rows && t.store.rows[job.id].state == Queued && t.store.rows[job.id].attempts == 0
  {
    hide Reachable;
    InitialReached(c);
    var m, id, s1 := FreshItem(c, Initial(c), Plain(name));
    assert Ready(c, s1, c.planeOf[v], m, id) && Ready(c, s1, c.planeOf[w], m, id);
    var s2 := Check(c, s1, v);
    var s3 := Check(c, s2, w);
    var s4 := Read(c, s3, v, m);
    var s5 := Read(c, s4, w, m);
    var s6;
    job, s6 := Routes(c, s5, v, m, id);
    job', t := Routes(c, s6, w, m, id);
  }

  /** One loop has started the item, others have queued it again, and the other loop still wants it. */
  lemma QueuedAgain(c: Config, v: WorkerId, w: WorkerId, name: string) returns (job: Job, job': Job, t: Sys)
    requires GoodConfig(c) && c.others == Unrestricted && v in c.planeOf && w in c.planeOf && v != w
    requires c.planes[c.planeOf[v]].maxConcurrent >= 1 && name in c.planes[c.planeOf[v]].registry
    requires c.planes[c.planeOf[w]].maxConcurrent >= 1 && name in c.planes[c.planeOf[w]].registry
    ensures Reached(c, t) && v in t.workers && w in t.workers && job.id == job'.id
    ensures t.workers[v] == Worker(Started(job), true) && t.workers[w] == Worker(Routed(job'), true)
    ensures job.id in t.store.rows && t.store.rows[job.id].state == Queued && t.store.rows[job.id].attempts == 1
  {
    hide Reached;
    var s1;
    job, job', s1 := BothRouted(c, v, w, name);
    var s2 := Claims(c, s1, v, job);
    var s3 := Starts(c, s2, v, job);
    var s4 := OthersMove(c, s3, job.id, Running, Failed);
    t := OthersMove(c, s4, job.id, Failed, Queued);
  }

  /** If others fail a Running item and queue it again, a second loop starts it while the first still holds it. */
  lemma DoubleRun(c: Config, v: WorkerId, w: WorkerId, name: string)
    requires GoodConfig(c) && v in c.planeOf && w in c.planeOf && v != w
    requires c.planes[c.planeOf[v]].maxConcurrent >= 1 && name in c.planes[c.planeOf[v]].registry
    requires c.planes[c.planeOf[w]].maxConcurrent >= 1 && name in c.planes[c.planeOf[w]].registry
    ensures exists s, id: WorkId :: Reachable(Free(c), s) && HoldsItem(c.(others := SpareUp), s, v, id) && HoldsItem(c.(others := SpareUp), s, w, id)
  {
    hide Reachable, WellShaped;
    var job, job', s1 := QueuedAgain(Free(c), v, w, name);
    var s2 := Claims(Free(c), s1, w, job');
    var s3 := Starts(Free(c), s2, w, job');
    assert HoldsItem(c.(others := SpareUp), s3, v, job.id) && HoldsItem(c.(others := SpareUp), s3, w, job.id);
  }
}
