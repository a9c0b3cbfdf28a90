/** Every step of the protocol keeps the invariant, so every run does. */
module Steps {
  import opened Wrappers
  import opened Json
  import opened WorkState
  import opened WorkStore
  import opened Focus
  import opened Protocol
  import opened StoreInvariant
  import opened Invariant

  // ----- steps of a loop ---------------------------------------------------------------

  lemma FetchOk(c: Config, s: Sys, w: WorkerId)
    requires Inv(c, s) && w in s.workers && s.workers[w].up && s.workers[w].pc.Got?
    ensures Inv(c, StepFetch(c, s, w, s.workers[w].pc.m, s.workers[w].pc.body))
  {
    hide StoreOk, Exclusive, SubmissionsOk;
    var pc := s.workers[w].pc;
    var t := StepFetch(c, s, w, pc.m, pc.body);
    LoopPlace(c, s, w);
    if pc.body.WorkPayload? && t.workers[w].pc.Routed? {
      CarriedItem(c, s, pc.m, pc.body.workItemId);
    }
    LocalStep(c, s, t, w, t.workers[w]);
  }

  lemma LoopPlace(c: Config, s: Sys, w: WorkerId)
    requires LoopsOk(c, s) && w in s.workers && Active(c, s.workers[w])
    ensures PcOk(c, s, w, s.workers[w].pc)
  {
  }

  lemma CarriedItem(c: Config, s: Sys, m: MsgId, id: WorkId)
    requires StoreOk(c, s) && Carries(s.store, m, id)
    ensures id in s.store.rows && id in s.history && s.store.rows[id].msgId == Some(m)
  {
  }

  lemma OthersDiffer(c: Config, s: Sys, t: Sys, w: WorkerId, id: WorkId)
    requires Inv(c, s)
    requires forall v | v in s.workers && v != w :: !HoldsItem(c, s, v, id)
    requires forall x | x in s.store.rows && x in s.history && x != id :: Still(s, t, x)
    ensures OthersStill(c, s, t, w)
  {
    HoldersExist(c, s);
    forall v | v in s.workers && v != w && Holder(c, s.workers[v]) ensures Still(s, t, s.workers[v].pc.job.id) {
      assert !HoldsItem(c, s, v, id);
    }
  }

  lemma NobodyHolds(c: Config, s: Sys, id: WorkId)
    requires Inv(c, s) && id in s.store.rows && s.store.rows[id].state != Running
    ensures forall v | v in s.workers :: !HoldsItem(c, s, v, id)
  {
    HoldersExist(c, s);
  }

  /** The claim and the start: the compare-and-set moves the row, or the loop gives up. */
  lemma TransitionStepOk(c: Config, s: Sys, w: WorkerId, to: State, now: Time, next: Pc)
    requires Inv(c, s) && w in s.workers && s.workers[w].up && HasJob(s.workers[w].pc) && HasJob(next)
    requires next.job == s.workers[w].pc.job
    requires (to == Claimed && next.HasClaim?) || (to == Running && next.Started?)
    ensures Inv(c, StepTransition(s, w, next.job.id, if to == Claimed then Queued else Claimed, to, now, next))
  {
    hide Inv, StepTransition, Transition;
    var id, from := next.job.id, if to == Claimed then Queued else Claimed;
    TransitionParts(s, w, id, from, to, now, next);
    if Transition(s.store, id, from, to, now).error.Some? {
      BackToIdle(c, s, w);
    } else {
      TransitionCommit(c, s, w, to, now, next);
    }
  }

  lemma TransitionParts(s: Sys, w: WorkerId, id: WorkId, from: State, to: State, now: Time, next: Pc)
    requires w in s.workers
    ensures StepTransition(s, w, id, from, to, now, next)
            == if Transition(s.store, id, from, to, now).error.Some? then SetPc(s, w, Idle)
               else SetPc(Enter(s, Transition(s.store, id, from, to, now).store, id, to), w, next)
  {
    hide Transition, Enter, SetPc;
  }

  lemma BackToIdle(c: Config, s: Sys, w: WorkerId)
    requires Inv(c, s) && w in s.workers
    ensures Inv(c, SetPc(s, w, Idle))
  {
    hide StoreOk, Exclusive, SubmissionsOk, LoopsOk;
    LocalStep(c, s, SetPc(s, w, Idle), w, s.workers[w].(pc := Idle));
  }

  lemma TransitionCommit(c: Config, s: Sys, w: WorkerId, to: State, now: Time, next: Pc)
    requires Inv(c, s) && w in s.workers && s.workers[w].up && HasJob(s.workers[w].pc) && HasJob(next)
    requires next.job == s.workers[w].pc.job
    requires (to == Claimed && next.HasClaim?) || (to == Running && next.Started?)
    requires Transition(s.store, next.job.id, if to == Claimed then Queued else Claimed, to, now).error.None?
    ensures var from := if to == Claimed then Queued else Claimed;
            Inv(c, SetPc(Enter(s, Transition(s.store, next.job.id, from, to, now).store, next.job.id, to), w, next))
  {
    hide StoreOk, Exclusive, SubmissionsOk, LoopsOk, JobOk, HoldsItem, Transition, Enter, RowOk, GotResult, CanTransition, IsTerminal,
      MessageAt, WellShaped, Moves;
    var id, from := next.job.id, if to == Claimed then Queued else Claimed;
    LoopPlace(c, s, w);
    TransitionShape(c, s, id, from, to, now);
    var r, h := s.store.rows[id], s.history[id];
    TransitionedRowOk(c, r, h, to, now);
    NobodyHolds(c, s, id);
    ReplacedJob(c, s, w, next.job, TransitionedRow(r, to, now), EnteredFrom(h, from, to));
    var t := SetPc(Enter(s, Transition(s.store, id, from, to, now).store, id, to), w, next);
    ItemCommit(c, s, t, w, id, TransitionedRow(r, to, now), EnteredFrom(h, from, to));
  }

  /** A step that commits a change and then moves the loop. */
  lemma CommitStep(c: Config, s: Sys, mid: Sys, t: Sys, w: WorkerId, x: Worker)
    requires Inv(c, s) && w in s.workers && WellShaped(c, t)
    requires StoreOk(c, mid) && Grows(s, mid) && OthersStill(c, s, mid, w)
    requires t.store == mid.store && t.history == mid.history && t.submissions == s.submissions
    requires t.workers == s.workers[w := x]
    requires Active(c, x) ==> PcOk(c, mid, w, x.pc)
    requires Holder(c, x) ==> forall v | v in s.workers && v != w :: !HoldsItem(c, s, v, x.pc.job.id)
    ensures Inv(c, t)
  {
    SameStore(c, mid, t);
    GrowsSame(s, mid, t);
    if Active(c, x) {
      PcSame(c, mid, t, w, x.pc);
    }
    Advance(c, s, t, w, x);
  }

  lemma GrowsSame(s: Sys, mid: Sys, t: Sys)
    requires Grows(s, mid) && t.store == mid.store && t.history == mid.history
    ensures Grows(s, t)
  {
    forall id | id in s.store.rows && id in s.history ensures RowGrows(s, t, id) {
      assert RowGrows(s, mid, id);
    }
  }

  lemma PcSame(c: Config, s: Sys, t: Sys, w: WorkerId, pc: Pc)
    requires PcOk(c, s, w, pc) && t.store == s.store && t.history == s.history
    ensures PcOk(c, t, w, pc)
  {
  }

  lemma HolderAlone(c: Config, s: Sys, w: WorkerId)
    requires Exclusive(c, s) && w in s.workers && Active(c, s.workers[w]) && Holding(s.workers[w].pc)
    ensures forall v | v in s.workers && v != w :: !HoldsItem(c, s, v, s.workers[w].pc.job.id)
  {
  }

  lemma RegisteredRun(c: Config, name: string, run: RunRecord)
    requires Registered(c, run.plane, name, run.faculty)
    ensures RunOk(c, name, run)
  {
  }

  /** A loop commits a change of one item that no other loop holds, and moves. */
  lemma ItemCommit(c: Config, s: Sys, t: Sys, w: WorkerId, id: WorkId, r: Row, h: History)
    requires Inv(c, s) && w in s.workers && SameKeys(s, t) && StoreOk(c, s)
    requires id in s.store.rows && id in s.history && s.store.rows[id].state != State.Created
    requires RowOk(c, r, h) && Moves(s.store.rows[id], r) && h.submitted == s.history[id].submitted
    requires s.history[id].runs <= h.runs
    requires t.store == Replaced(s, id, r, h).store && t.history == Replaced(s, id, r, h).history
    requires t.submissions == s.submissions && w in t.workers && t.workers == s.workers[w := t.workers[w]]
    requires forall v | v in s.workers && v != w :: !HoldsItem(c, s, v, id)
    requires Active(c, t.workers[w]) ==> PcOk(c, Replaced(s, id, r, h), w, t.workers[w].pc)
    requires Holder(c, t.workers[w]) ==> t.workers[w].pc.job.id == id
    ensures Inv(c, t)
  {
    hide StoreOk, Exclusive, SubmissionsOk, LoopsOk, PcOk, Grows, Still, RowOk, Moves, Replaced, HoldsItem, OthersStill;
    var mid := Replaced(s, id, r, h);
    ReplacedOk(c, s, id, r, h);
    ReplacedGrows(s, id, r, h);
    OthersDiffer(c, s, mid, w, id);
    CommitStep(c, s, mid, t, w, t.workers[w]);
  }

  /** The job stays in order when its item changes. */
  lemma ReplacedJob(c: Config, s: Sys, w: WorkerId, job: Job, r: Row, h: History)
    requires JobOk(c, s, w, job) && Moves(s.store.rows[job.id], r)
    ensures JobOk(c, Replaced(s, job.id, r, h), w, job)
  {
  }

  /** The hooks are run: the run is recorded with the item. */
  lemma RunStepOk(c: Config, s: Sys, w: WorkerId, env: Env)
    requires Inv(c, s) && w in s.workers && s.workers[w].up && s.workers[w].pc.Opened?
    ensures Inv(c, StepRun(c, s, w, s.workers[w].pc.job, env))
  {
    hide StoreOk, Exclusive, SubmissionsOk, LoopsOk, RowOk, RunOk, Execute, JobOk, HoldsItem, Held;
    LoopPlace(c, s, w);
    var job := s.workers[w].pc.job;
    var id := job.id;
    JobHere(c, s, w, job);
    RowPlace(c, s, id);
    var r, h := s.store.rows[id], s.history[id];
    var run := RunRecord(c.planeOf[w], job.faculty, env);
    var h' := h.(runs := h.runs + [run]);
    RegisteredRun(c, r.faculty, run);
    RunRecordedOk(c, r, h, run);
    HolderAlone(c, s, w);
    ReplacedJob(c, s, w, job, r, h');
    assert s.store.rows[id := r] == s.store.rows;
    ItemCommit(c, s, StepRun(c, s, w, job, env), w, id, r, h');
  }

  lemma JobHere(c: Config, s: Sys, w: WorkerId, job: Job)
    requires JobOk(c, s, w, job)
    ensures job.id in s.store.rows && job.id in s.history && w in c.planeOf
    ensures Registered(c, c.planeOf[w], s.store.rows[job.id].faculty, job.faculty)
  {
  }

  lemma RetireCommit(c: Config, s: Sys, t: Sys, w: WorkerId, r: Row, to: State)
    requires Inv(c, s) && w in s.workers && s.workers[w].up && s.workers[w].pc.Uncounted? && SameKeys(s, t)
    requires var id := s.workers[w].pc.job.id;
             && id in s.store.rows && id in s.history
             && RowOk(c, r, Entered(s.history[id], to)) && Moves(s.store.rows[id], r)
             && t.store == s.store.(rows := s.store.rows[id := r])
             && t.history == s.history[id := Entered(s.history[id], to)]
    requires t.submissions == s.submissions && w in t.workers && t.workers == s.workers[w := t.workers[w]]
    requires t.workers[w].pc == Idle || (r.state == Completed && t.workers[w].pc == Retired(s.workers[w].pc.job))
    ensures Inv(c, t)
  {
    hide StoreOk, Exclusive, SubmissionsOk, LoopsOk, RowOk, Moves, JobOk, HoldsItem, GotResult, MessageAt, WellShaped;
    var job := s.workers[w].pc.job;
    var h := Entered(s.history[job.id], to);
    LoopPlace(c, s, w);
    RowPlace(c, s, job.id);
    HolderAlone(c, s, w);
    ReplacedJob(c, s, w, job, r, h);
    ItemCommit(c, s, t, w, job.id, r, h);
  }

  lemma CompletedShape(s: Sys, w: WorkerId, job: Job, data: Json, ms: nat, now: Time)
    requires w in s.workers
    ensures var u := Complete(s.store, job.id, Outcome(true, Some(data), None, ms), now);
            StepRetire(s, w, job, FocusCompleted(data, ms), now)
            == if u.error.Some? then SetPc(s, w, Idle) else SetPc(Enter(s, u.store, job.id, Completed), w, Retired(job))
  {
    hide Complete, Enter, SetPc;
  }

  lemma FailedShape(s: Sys, w: WorkerId, job: Job, phase: string, error: string, ms: nat, now: Time)
    requires w in s.workers
    ensures var u := Fail(s.store, job.id, ErrorText(phase, error), ms, now);
            StepRetire(s, w, job, FocusFailed(phase, error, ms), now)
            == if u.error.Some? then SetPc(s, w, Idle) else SetPc(Enter(s, u.store, job.id, Failed), w, Idle)
  {
    hide Fail, Enter, SetPc;
  }

  /** The item is retired, or the update misses a row that others took out of Running. */
  lemma RetireStepOk(c: Config, s: Sys, w: WorkerId, now: Time)
    requires Inv(c, s) && w in s.workers && s.workers[w].up && s.workers[w].pc.Uncounted?
    ensures Inv(c, StepRetire(s, w, s.workers[w].pc.job, s.workers[w].pc.result, now))
  {
    hide StoreOk, LoopsOk, Exclusive, SubmissionsOk, StepRetire, JobOk;
    var job := s.workers[w].pc.job;
    LoopPlace(c, s, w);
    JobHere(c, s, w, job);
    RowPlace(c, s, job.id);
    if s.store.rows[job.id].state != Running {
      MissedRow(s, w, now);
      BackToIdle(c, s, w);
    } else if s.workers[w].pc.result.FocusCompleted? {
      RetireCompletedOk(c, s, w, now);
    } else {
      RetireFailedOk(c, s, w, now);
    }
  }

  lemma MissedRow(s: Sys, w: WorkerId, now: Time)
    requires IndexOk(s.store.rows) && w in s.workers && s.workers[w].pc.Uncounted?
    requires var id := s.workers[w].pc.job.id; id in s.store.rows && s.store.rows[id].state != Running
    ensures StepRetire(s, w, s.workers[w].pc.job, s.workers[w].pc.result, now) == SetPc(s, w, Idle)
  {
  }

  lemma RetireCompletedOk(c: Config, s: Sys, w: WorkerId, now: Time)
    requires Inv(c, s) && w in s.workers && s.workers[w].up && s.workers[w].pc.Uncounted? && s.workers[w].pc.result.FocusCompleted?
    requires var id := s.workers[w].pc.job.id; id in s.store.rows && id in s.history && s.store.rows[id].state == Running
    ensures Inv(c, StepRetire(s, w, s.workers[w].pc.job, s.workers[w].pc.result, now))
  {
    hide StoreOk, Exclusive, SubmissionsOk, LoopsOk, RowOk, GotResult, StepRetire, CompletedRow, Moves;
    var pc := s.workers[w].pc;
    var x, id := pc.result, pc.job.id;
    LoopPlace(c, s, w);
    RowPlace(c, s, id);
    CompletedRowOk(c, s.store.rows[id], s.history[id], x, now);
    RetiredStore(s, w, now);
    CompletedState(s.store.rows[id], CompletedOutcome(x), now);
    RetireCommit(c, s, StepRetire(s, w, pc.job, x, now), w, CompletedRow(s.store.rows[id], CompletedOutcome(x), now), Completed);
  }

  lemma CompletedState(r: Row, o: Outcome, now: Time)
    ensures CompletedRow(r, o, now).state == Completed
  {
  }

  lemma RetireFailedOk(c: Config, s: Sys, w: WorkerId, now: Time)
    requires Inv(c, s) && w in s.workers && s.workers[w].up && s.workers[w].pc.Uncounted? && s.workers[w].pc.result.FocusFailed?
    requires var id := s.workers[w].pc.job.id; id in s.store.rows && id in s.history && s.store.rows[id].state == Running
    ensures Inv(c, StepRetire(s, w, s.workers[w].pc.job, s.workers[w].pc.result, now))
  {
    hide StoreOk, Exclusive, SubmissionsOk, LoopsOk, RowOk, GotResult, StepRetire, FailedRow, Moves;
    var pc := s.workers[w].pc;
    var x, id := pc.result, pc.job.id;
    LoopPlace(c, s, w);
    RowPlace(c, s, id);
    FailedRowOk(c, s.store.rows[id], s.history[id], x, now);
    RetiredStore(s, w, now);
    RetireCommit(c, s, StepRetire(s, w, pc.job, x, now), w, FailedRow(s.store.rows[id], ErrorText(x.phase, x.error), x.ms, now), Failed);
  }

  lemma RowPlace(c: Config, s: Sys, id: WorkId)
    requires StoreOk(c, s) && id in s.store.rows
    ensures id in s.history && RowOk(c, s.store.rows[id], s.history[id])
    ensures s.store.rows[id].state != State.Created && IndexOk(s.store.rows)
  {
  }

  lemma RetiredStore(s: Sys, w: WorkerId, now: Time)
    requires IndexOk(s.store.rows) && w in s.workers && s.workers[w].pc.Uncounted?
    requires var id := s.workers[w].pc.job.id; id in s.store.rows && id in s.history && s.store.rows[id].state == Running
    ensures var pc := s.workers[w].pc;
            var id, x := pc.job.id, pc.result;
            var r, h := s.store.rows[id], s.history[id];
            var t := StepRetire(s, w, pc.job, x, now);
            && t.submissions == s.submissions
            && (x.FocusCompleted? ==>
                  && t.store == Replaced(s, id, CompletedRow(r, CompletedOutcome(x), now), Entered(h, Completed)).store
                  && t.history == s.history[id := Entered(h, Completed)]
                  && t.workers == s.workers[w := s.workers[w].(pc := Retired(pc.job))])
            && (x.FocusFailed? ==>
                  && t.store == Replaced(s, id, FailedRow(r, ErrorText(x.phase, x.error), x.ms, now), Entered(h, Failed)).store
                  && t.history == s.history[id := Entered(h, Failed)]
                  && t.workers == s.workers[w := s.workers[w].(pc := Idle)])
  {
    var pc := s.workers[w].pc;
    var x := pc.result;
    if x.FocusCompleted? {
      RetireExactly(s.store, pc.job.id, CompletedOutcome(x), "", 0, now);
    } else {
      RetireExactly(s.store, pc.job.id, Outcome(false, None, None, 0), ErrorText(x.phase, x.error), x.ms, now);
    }
  }

  lemma ArchiveGrows(c: Config, s: Sys, m: MsgId, id: WorkId)
    requires StoreOk(c, s) && Carries(s.store, m, id) && id in s.store.rows && s.store.rows[id].state == Completed
    ensures Grows(s, s.(store := Archived(s.store, m)))
    ensures forall x | x in s.store.rows && x in s.history :: Still(s, s.(store := Archived(s.store, m)), x)
  {
    hide RowsOk, MergesOk, IndexOk;
    ArchiveMessages(s.store, m, id);
  }

  lemma ArchiveStepOk(c: Config, s: Sys, w: WorkerId)
    requires Inv(c, s) && w in s.workers && s.workers[w].up && s.workers[w].pc.Retired?
    ensures Inv(c, SetPc(s.(store := Archived(s.store, s.workers[w].pc.job.m)), w, Idle))
  {
    hide StoreOk, Exclusive, SubmissionsOk, LoopsOk, Archived, Grows, Still;
    var job := s.workers[w].pc.job;
    var mid := s.(store := Archived(s.store, job.m));
    var t := SetPc(mid, w, Idle);
    LoopPlace(c, s, w);
    ArchiveOk(c, s, job.m, job.id);
    ArchiveGrows(c, s, job.m, job.id);
    HoldersExist(c, s);
    CommitStep(c, s, mid, t, w, t.workers[w]);
  }

  /** Where a step that commits nothing leaves its loop. */
  predicate MovesLoop(c: Config, s: Sys, t: Sys, w: WorkerId) {
    && t.store == s.store && t.history == s.history && t.submissions == s.submissions
    && w in s.workers && w in t.workers && t.workers == s.workers[w := t.workers[w]]
    && (Active(c, t.workers[w]) ==> PcOk(c, s, w, t.workers[w].pc))
    && (Holder(c, t.workers[w]) ==> HoldsItem(c, s, w, t.workers[w].pc.job.id))
  }

  lemma CountPlaces(c: Config, s: Sys, w: WorkerId, act: Act)
    requires WellShaped(c, s) && w in s.workers && s.workers[w].up && Counts(act) && LoopStep(c, s, w, act).Some?
    requires PcOk(c, s, w, s.workers[w].pc)
    ensures MovesLoop(c, s, LoopStep(c, s, w, act).value, w)
  {
    hide JobOk, GotResult, StepFetch, StepTransition, StepRun, StepRetire, Archived, SameKeys, MovesOnly, WellShaped, MessageAt;
    ShapedLoop(c, s, w);
  }

  lemma QuietPlaces(c: Config, s: Sys, w: WorkerId, act: Act)
    requires WellShaped(c, s) && w in s.workers && s.workers[w].up && !Commits(act) && !Counts(act)
    requires LoopStep(c, s, w, act).Some? && PcOk(c, s, w, s.workers[w].pc)
    ensures MovesLoop(c, s, LoopStep(c, s, w, act).value, w)
  {
    hide JobOk, GotResult, StepFetch, StepTransition, StepRun, StepRetire, Archived, SameKeys, MovesOnly, WellShaped, AddCounter;
    ShapedLoop(c, s, w);
  }

  /** The steps that only move the loop or a counter. */
  lemma LocalActOk(c: Config, s: Sys, w: WorkerId, act: Act)
    requires Inv(c, s) && w in s.workers && s.workers[w].up && !Commits(act) && LoopStep(c, s, w, act).Some?
    ensures Inv(c, LoopStep(c, s, w, act).value)
  {
    hide StoreOk, Exclusive, SubmissionsOk, LoopsOk, PcOk, HoldsItem, LoopStep;
    LoopPlace(c, s, w);
    if Counts(act) {
      CountPlaces(c, s, w, act);
    } else {
      QuietPlaces(c, s, w, act);
    }
    var t := LoopStep(c, s, w, act).value;
    LocalStep(c, s, t, w, t.workers[w]);
  }

  /** What each committing step is. */
  lemma CommitResult(c: Config, s: Sys, w: WorkerId, act: Act)
    requires WellShaped(c, s) && w in s.workers && LoopStep(c, s, w, act).Some? && Commits(act)
    ensures var t, pc := LoopStep(c, s, w, act).value, s.workers[w].pc;
            match act
            case Fetch => pc.Got? && t == StepFetch(c, s, w, pc.m, pc.body)
            case Claim(now) => pc.Routed? && t == StepTransition(s, w, pc.job.id, Queued, Claimed, now, HasClaim(pc.job))
            case Start(now) => pc.HasClaim? && t == StepTransition(s, w, pc.job.id, Claimed, Running, now, Started(pc.job))
            case RunHooks(env) => pc.Opened? && t == StepRun(c, s, w, pc.job, env)
            case Retire(now) => pc.Uncounted? && t == StepRetire(s, w, pc.job, pc.result, now)
            case Archive => pc.Retired? && t == SetPc(s.(store := Archived(s.store, pc.job.m)), w, Idle)
            case _ => true
  {
    hide StepFetch, StepTransition, StepRun, StepRetire, Archived, SameKeys, MovesOnly;
  }

  /** Every step of a loop keeps the invariant. */
  lemma LoopStepOk(c: Config, s: Sys, w: WorkerId, act: Act)
    requires Inv(c, s) && WellShaped(c, s) && w in s.workers && s.workers[w].up && LoopStep(c, s, w, act).Some?
    ensures Inv(c, LoopStep(c, s, w, act).value)
  {
    hide Inv, LoopStep, WellShaped, StepFetch, StepTransition, StepRun, StepRetire, Archived, SetPc;
    ShapedLoop(c, s, w);
    if !Commits(act) {
      LocalActOk(c, s, w, act);
    } else {
      CommitResult(c, s, w, act);
      match act
      case Fetch => FetchOk(c, s, w);
      case Claim(now) => TransitionStepOk(c, s, w, Claimed, now, HasClaim(s.workers[w].pc.job));
      case Start(now) => TransitionStepOk(c, s, w, Running, now, Started(s.workers[w].pc.job));
      case RunHooks(env) => RunStepOk(c, s, w, env);
      case Retire(now) => RetireStepOk(c, s, w, now);
      case Archive => ArchiveStepOk(c, s, w);
    }
  }

  // ----- steps of a submission and of others -------------------------------------------

  /** A commit by something that is not a loop. */
  lemma OtherCommit(c: Config, s: Sys, t: Sys)
    requires Inv(c, s) && StoreOk(c, t) && Grows(s, t) && SameKeys(s, t)
    requires t.workers == s.workers
    requires forall v | v in s.workers && Holder(c, s.workers[v]) :: Still(s, t, s.workers[v].pc.job.id)
    requires SubmissionsOk(t)
    ensures Inv(c, t)
  {
    forall v | v in t.workers && Active(c, t.workers[v]) ensures PcOk(c, t, v, t.workers[v].pc) {
      assert PcOk(c, s, v, s.workers[v].pc);
      PcFrame(c, s, t, v, s.workers[v].pc);
    }
  }

  /** A call of `transition_state` that takes no held item out of Running. */
  lemma OutsideStepOk(c: Config, s: Sys, id: WorkId, from: State, to: State, now: Time)
    requires Inv(c, s) && OutsideStep(c, s, id, from, to, now).Some?
    ensures Inv(c, OutsideStep(c, s, id, from, to, now).value)
  {
    hide StoreOk, Exclusive, SubmissionsOk, LoopsOk, Grows, Still, Transition, Taken;
    var t := Taken(s, id, from, to, now);
    TransitionOk(c, s, id, from, to, now);
    if from != Running {
      NobodyHolds(c, s, id);
    }
    HoldersExist(c, s);
    forall v | v in s.workers && Holder(c, s.workers[v]) ensures Still(s, t, s.workers[v].pc.job.id) {
      assert !HoldsItem(c, s, v, id);
    }
    SubmissionsFrame(s, t);
    OtherCommit(c, s, t);
  }

  lemma ForeignGrows(c: Config, s: Sys)
    requires StoreOk(c, s)
    ensures var t := s.(store := Send(s.store, OtherPayload));
            Grows(s, t) && forall x | x in s.store.rows && x in s.history :: Still(s, t, x)
  {
    hide RowsOk, MergesOk, IndexOk;
    SendOk(s.store, OtherPayload);
  }

  lemma ForeignStepOk(c: Config, s: Sys)
    requires Inv(c, s)
    ensures Inv(c, s.(store := Send(s.store, OtherPayload)))
  {
    hide StoreOk, Exclusive, SubmissionsOk, LoopsOk, Grows, Still, Send;
    var t := s.(store := Send(s.store, OtherPayload));
    ForeignOk(c, s);
    ForeignGrows(c, s);
    HoldersExist(c, s);
    SubmissionsFrame(s, t);
    OtherCommit(c, s, t);
  }

  /** A new row leaves all others alone. */
  lemma InsertGrows(s: Sys, t: Sys, id: WorkId)
    requires id !in s.store.rows
    requires t.store.rows.Keys == s.store.rows.Keys + {id} && t.history.Keys == s.history.Keys + {id}
    requires forall x | x in s.store.rows :: t.store.rows[x] == s.store.rows[x]
    requires forall x | x in s.history && x != id :: t.history[x] == s.history[x]
    requires forall m: MsgId | MessageAt(s.store, m).Some? :: MessageAt(t.store, m) == MessageAt(s.store, m)
    ensures Grows(s, t)
    ensures forall x | x in s.store.rows && x in s.history :: Still(s, t, x)
  {
    forall x | x in s.store.rows && x in s.history ensures RowGrows(s, t, x) && Still(s, t, x) {
    }
  }

  lemma TryInsertOk(c: Config, s: Sys, id: WorkId, n: NewWorkItem, now: Time)
    requires Inv(c, s) && Insertable(s.store, id, n)
    requires n.dedupKey.Some? ==> !Conflicts(s.store.rows, (n.faculty, n.dedupKey.value))
    ensures Inv(c, s.(store := Enqueue(s.store, id, n, now), history := s.history[id := NewHistory(n, Queued)]))
  {
    hide StoreOk, Exclusive, SubmissionsOk, LoopsOk, Grows, Still, Send, MessageAt, NewHistory, QueuedRow;
    var t := s.(store := Enqueue(s.store, id, n, now), history := s.history[id := NewHistory(n, Queued)]);
    EnqueueOk(c, s, id, n, now);
    EnqueueGrows(c, s, id, n, now);
    HoldersExist(c, s);
    SubmissionsFrame(s, t);
    OtherCommit(c, s, t);
  }

  lemma EnqueueGrows(c: Config, s: Sys, id: WorkId, n: NewWorkItem, now: Time)
    requires StoreOk(c, s) && id !in s.store.rows
    ensures var t := s.(store := Enqueue(s.store, id, n, now), history := s.history[id := NewHistory(n, Queued)]);
            Grows(s, t) && forall x | x in s.store.rows && x in s.history :: Still(s, t, x)
  {
    hide StoreOk, MessageAt, Grows, Still, QueuedRow, NewHistory;
    var t := s.(store := Enqueue(s.store, id, n, now), history := s.history[id := NewHistory(n, Queued)]);
    EnqueueKeepsMessages(c, s, id, n, now);
    SameRows(c, s);
    InsertGrows(s, t, id);
  }

  lemma EnqueueKeepsMessages(c: Config, s: Sys, id: WorkId, n: NewWorkItem, now: Time)
    requires StoreOk(c, s)
    ensures forall m: MsgId | MessageAt(s.store, m).Some? :: MessageAt(Enqueue(s.store, id, n, now), m) == MessageAt(s.store, m)
  {
    hide RowsOk, MergesOk, IndexOk, QueuedRow;
    var st := Enqueue(s.store, id, n, now);
    SendOk(s.store, WorkPayload(id, n.params));
    assert forall m: MsgId :: MessageAt(st, m) == MessageAt(Send(s.store, WorkPayload(id, n.params)), m);
  }

  lemma SameRows(c: Config, s: Sys)
    requires StoreOk(c, s)
    ensures s.history.Keys == s.store.rows.Keys
  {
  }

  lemma MergeGrows(c: Config, s: Sys, id: WorkId, n: NewWorkItem, canonical: WorkId, now: Time)
    requires StoreOk(c, s) && id !in s.store.rows
    ensures var t := s.(store := Merge(s.store, id, n, canonical, now), history := s.history[id := NewHistory(n, State.Merged)]);
            Grows(s, t) && forall x | x in s.store.rows && x in s.history :: Still(s, t, x)
  {
    hide RowsOk, MergesOk, IndexOk, MergedRow, NewHistory;
    var t := s.(store := Merge(s.store, id, n, canonical, now), history := s.history[id := NewHistory(n, State.Merged)]);
    assert forall m: MsgId :: MessageAt(t.store, m) == MessageAt(s.store, m);
    SameRows(c, s);
    InsertGrows(s, t, id);
  }

  lemma InsertMergedOk(c: Config, s: Sys, k: SubmitterId)
    requires Inv(c, s) && k in s.submissions && s.submissions[k].Found?
    requires Insertable(s.store, s.submissions[k].id, s.submissions[k].n)
    ensures var q := s.submissions[k];
            Inv(c, s.(submissions := s.submissions - {k}, store := Merge(s.store, q.id, q.n, q.canonical, q.now),
                      history := s.history[q.id := NewHistory(q.n, State.Merged)]))
  {
    hide StoreOk, Exclusive, LoopsOk, Grows, Still, MessageAt, NewHistory, MergedRow;
    var q := s.submissions[k];
    assert SubmissionOk(s, q);
    var mid := s.(store := Merge(s.store, q.id, q.n, q.canonical, q.now), history := s.history[q.id := NewHistory(q.n, State.Merged)]);
    var t := mid.(submissions := s.submissions - {k});
    MergeInsertOk(c, s, q.id, q.n, q.canonical, q.now);
    MergeGrows(c, s, q.id, q.n, q.canonical, q.now);
    HoldersExist(c, s);
    SubmissionsFrame(s, mid);
    OtherCommit(c, s, mid);
    OnlySubmissions(c, mid, t);
  }

  lemma OnlySubmissions(c: Config, s: Sys, t: Sys)
    requires Inv(c, s) && t == s.(submissions := t.submissions) && SubmissionsOk(t)
    ensures Inv(c, t)
  {
    SameStore(c, s, t);
    HoldersExist(c, s);
    OtherCommit(c, s, t);
  }

  lemma SubmitStepOk(c: Config, s: Sys, k: SubmitterId, what: SubmitAct)
    requires Inv(c, s) && SubmitStep(s, k, what).Some?
    ensures Inv(c, SubmitStep(s, k, what).value)
  {
    hide StoreOk, Exclusive, LoopsOk, Enqueue, Merge, IndexOk, NewHistory;
    var t := SubmitStep(s, k, what).value;
    match what
    case TryInsert(id, n, now) =>
      if n.dedupKey.Some? && Conflicts(s.store.rows, (n.faculty, n.dedupKey.value)) {
        OnlySubmissions(c, s, t);
      } else if Insertable(s.store, id, n) {
        TryInsertOk(c, s, id, n, now);
      }
    case Lookup(canonical) =>
      FoundIsFit(c, s, canonical);
      OnlySubmissions(c, s, t);
    case LookupMisses => OnlySubmissions(c, s, t);
    case InsertMerged =>
      if Insertable(s.store, s.submissions[k].id, s.submissions[k].n) {
        InsertMergedOk(c, s, k);
      } else {
        OnlySubmissions(c, s, t);
      }
    case RollBack => OnlySubmissions(c, s, t);
  }

  lemma FoundIsFit(c: Config, s: Sys, canonical: WorkId)
    requires Inv(c, s) && canonical in s.store.rows
    ensures canonical in s.history
    ensures s.store.rows[canonical].dedupKey.Some? ==>
              && s.store.rows[canonical].state != State.Merged
              && s.history[canonical].submitted.dedupKey == s.store.rows[canonical].dedupKey
  {
    assert RowOk(c, s.store.rows[canonical], s.history[canonical]);
  }

  // ----- runs --------------------------------------------------------------------------

  /** Every step keeps the invariant. */
  lemma StepOk(c: Config, s: Sys, l: Label)
    requires Inv(c, s) && Step(c, s, l).Some?
    ensures Inv(c, Step(c, s, l).value)
  {
    match l
    case Loop(w, act) => LoopStepOk(c, s, w, act);
    case Submit(k, what) => SubmitStepOk(c, s, k, what);
    case Outside(id, from, to, now) => OutsideStepOk(c, s, id, from, to, now);
    case Foreign => ForeignStepOk(c, s);
  }

  lemma {:induction false} RunOkFrom(c: Config, s: Sys, labels: seq<Label>)
    requires Inv(c, s) && Exec(c, s, labels).Some?
    ensures Inv(c, Exec(c, s, labels).value)
    decreases |labels|
  {
    if labels != [] {
      StepOk(c, s, labels[0]);
      RunOkFrom(c, Step(c, s, labels[0]).value, labels[1..]);
    }
  }

  lemma InitialOk(c: Config)
    requires GoodConfig(c)
    ensures Inv(c, Initial(c))
  {
  }

  /** Every reachable state satisfies the invariant. */
  lemma ReachableOk(c: Config, s: Sys)
    requires Reachable(c, s)
    ensures Inv(c, s)
  {
    var labels :| Exec(c, Initial(c), labels) == Some(s);
    InitialOk(c);
    RunOkFrom(c, Initial(c), labels);
  }
}
