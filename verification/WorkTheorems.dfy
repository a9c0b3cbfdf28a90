/** What every run of submitters and control planes guarantees. */
module WorkTheorems {
  import opened Wrappers
  import opened Json
  import opened WorkState
  import opened WorkStore
  import opened Focus
  import opened Protocol
  import opened StoreInvariant
  import opened Invariant
  import opened Steps

  // ----- work is done by one loop at a time --------------------------------------------

  /**
   If others leave held items in Running, no two loops hold the same item, and the item of a loop that holds one is
   Running. With `SpareAll` this includes crashed loops; with `SpareUp` others may take over what a crashed loop held.
   */
  lemma WorkOnce(c: Config, s: Sys, v: WorkerId, w: WorkerId)
    requires Careful(c) && Reachable(c, s) && v in s.workers && w in s.workers && v != w
    requires Active(c, s.workers[v]) && Holding(s.workers[v].pc)
    ensures s.workers[v].pc.job.id in s.store.rows && s.store.rows[s.workers[v].pc.job.id].state == Running
    ensures Active(c, s.workers[w]) && Holding(s.workers[w].pc) ==> s.workers[v].pc.job.id != s.workers[w].pc.job.id
  {
    hide StoreOk, SubmissionsOk, Exec, JobOk;
    ReachableOk(c, s);
    LoopPlace(c, s, v);
    JobHere(c, s, v, s.workers[v].pc.job);
  }

  /** So the update that retires a finished focus never misses its row. */
  lemma RetirementNeverMisses(c: Config, s: Sys, w: WorkerId, now: Time)
    requires Careful(c) && Reachable(c, s) && w in s.workers && s.workers[w].up && s.workers[w].pc.Uncounted?
    ensures var pc := s.workers[w].pc;
            var t := StepRetire(s, w, pc.job, pc.result, now);
            && pc.job.id in t.store.rows
            && t.workers[w].pc == (if pc.result.FocusCompleted? then Retired(pc.job) else Idle)
            && t.store.rows[pc.job.id].state == (if pc.result.FocusCompleted? then Completed else Failed)
  {
    hide StoreOk, SubmissionsOk, Exclusive, Exec, JobOk, LoopsOk, StepRetire, CompletedRow, FailedRow;
    ReachableOk(c, s);
    LoopPlace(c, s, w);
    JobHere(c, s, w, s.workers[w].pc.job);
    RowPlace(c, s, s.workers[w].pc.job.id);
    RetiredStore(s, w, now);
    RetiredStates(s.store.rows[s.workers[w].pc.job.id], s.workers[w].pc.result, now);
  }

  lemma RetiredStates(r: Row, x: FocusResult, now: Time)
    ensures x.FocusCompleted? ==> CompletedRow(r, CompletedOutcome(x), now).state == Completed
    ensures x.FocusFailed? ==> FailedRow(r, ErrorText(x.phase, x.error), x.ms, now).state == Failed
  {
  }

  // ----- nothing is lost ---------------------------------------------------------------

  /** An item that was not merged has exactly one message, which stays live until the item is Completed. */
  ghost predicate HasItsMessage(st: Store, id: WorkId)
    requires id in st.rows
  {
    var r := st.rows[id];
    && r.msgId.Some?
    && MessageAt(st, r.msgId.value) == Some(WorkPayload(id, r.params))
    && (forall m: MsgId :: Carries(st, m, id) ==> m == r.msgId.value)
    && (r.state != Completed ==> r.msgId.value in st.live)
  }

  lemma NothingLost(c: Config, s: Sys, id: WorkId)
    requires Reachable(c, s) && id in s.store.rows
    ensures s.store.rows[id].state != State.Merged ==> HasItsMessage(s.store, id)
    ensures s.store.rows[id].state == State.Merged ==> forall m: MsgId :: !Carries(s.store, m, id)
  {
    ReachableOk(c, s);
    MessageFacts(s.store, id);
  }

  lemma MessageFacts(st: Store, id: WorkId)
    requires MessagesOk(st) && QueueOk(st) && id in st.rows
    ensures st.rows[id].state != State.Merged ==> HasItsMessage(st, id)
    ensures st.rows[id].state == State.Merged ==> forall m: MsgId :: !Carries(st, m, id)
  {
    assert MessageOk(st, id);
    if st.rows[id].state != State.Merged && st.rows[id].state != Completed {
      assert st.rows[id].msgId.value !in st.archived;
    }
  }

  /** Every message in the queue or the archive that names an item is that item's one message. */
  lemma ArchivedIsCompleted(c: Config, s: Sys, m: MsgId)
    requires Reachable(c, s) && m in s.store.archived
    ensures s.store.archived[m].WorkPayload?
    ensures var id := s.store.archived[m].workItemId;
            id in s.store.rows && s.store.rows[id].state == Completed && s.store.rows[id].msgId == Some(m)
    ensures m !in s.store.live
  {
    ReachableOk(c, s);
    ArchiveFacts(s.store, m);
  }

  lemma ArchiveFacts(st: Store, m: MsgId)
    requires QueueOk(st) && m in st.archived
    ensures st.archived[m].WorkPayload? && m !in st.live
    ensures var id := st.archived[m].workItemId;
            id in st.rows && st.rows[id].state == Completed && st.rows[id].msgId == Some(m)
  {
    assert m !in st.live;
    assert Carries(st, m, st.archived[m].workItemId);
  }

  // ----- rows over time ----------------------------------------------------------------

  /** A row stays, its history only grows, and in a terminal state it never changes again. */
  predicate RowLater(s: Sys, t: Sys, id: WorkId)
    requires id in s.store.rows && id in s.history
  {
    && id in t.store.rows && id in t.history
    && s.history[id].trail <= t.history[id].trail
    && t.history[id].submitted == s.history[id].submitted
    && (IsTerminal(s.store.rows[id].state) ==> t.store.rows[id] == s.store.rows[id])
  }

  predicate Later(s: Sys, t: Sys) {
    forall id | id in s.store.rows && id in s.history :: RowLater(s, t, id)
  }

  lemma EnterLater(s: Sys, id: WorkId, r: Row, st: Store, to: State)
    requires id in s.store.rows && !IsTerminal(s.store.rows[id].state)
    requires st.rows == s.store.rows[id := r]
    ensures Later(s, Enter(s, st, id, to))
  {
  }

  lemma TransitionLater(s: Sys, id: WorkId, from: State, to: State, now: Time)
    requires Transition(s.store, id, from, to, now).error.None?
    ensures Later(s, Enter(s, Transition(s.store, id, from, to, now).store, id, to))
  {
    EnterLater(s, id, TransitionedRow(s.store.rows[id], to, now), Transition(s.store, id, from, to, now).store, to);
  }

  lemma TakenLater(s: Sys, id: WorkId, from: State, to: State, now: Time)
    requires Transition(s.store, id, from, to, now).error.None?
    ensures Later(s, Taken(s, id, from, to, now))
  {
    hide Transition;
    TransitionLater(s, id, from, to, now);
  }

  lemma RetireLater(s: Sys, w: WorkerId, job: Job, result: FocusResult, now: Time)
    requires w in s.workers
    ensures Later(s, StepRetire(s, w, job, result, now))
  {
    var id := job.id;
    if id in s.store.rows && s.store.rows[id].state == Running {
      if result.FocusCompleted? {
        var u := Complete(s.store, id, CompletedOutcome(result), now);
        if u.error.None? {
          EnterLater(s, id, CompletedRow(s.store.rows[id], CompletedOutcome(result), now), u.store, Completed);
        }
      } else {
        var u := Fail(s.store, id, ErrorText(result.phase, result.error), result.ms, now);
        if u.error.None? {
          EnterLater(s, id, FailedRow(s.store.rows[id], ErrorText(result.phase, result.error), result.ms, now), u.store, Failed);
        }
      }
    }
  }

  /** Rows and trails are the same. */
  predicate SameTrails(s: Sys, t: Sys) {
    && t.store.rows == s.store.rows && t.history.Keys == s.history.Keys
    && forall id | id in s.history :: t.history[id].trail == s.history[id].trail && t.history[id].submitted == s.history[id].submitted
  }

  lemma RunKeepsTrails(c: Config, s: Sys, w: WorkerId, job: Job, env: Env)
    requires w in s.workers && w in c.planeOf
    ensures SameTrails(s, StepRun(c, s, w, job, env))
  {
    hide Execute;
  }

  lemma FetchKeepsTrails(c: Config, s: Sys, w: WorkerId, m: MsgId, body: Payload)
    requires w in s.workers && w in c.planeOf && c.planeOf[w] in c.planes
    ensures SameTrails(s, StepFetch(c, s, w, m, body))
  {
    hide FindItem;
  }

  /** Only a claim, a start and a retirement change rows or trails. */
  lemma OtherActsKeepTrails(c: Config, s: Sys, w: WorkerId, act: Act)
    requires WellShaped(c, s) && w in s.workers && LoopStep(c, s, w, act).Some?
    requires !act.Claim? && !act.Start? && !act.Retire?
    ensures SameTrails(s, LoopStep(c, s, w, act).value)
  {
    hide StepTransition, StepRetire, StepRun, StepFetch, SameTrails, SameKeys, MovesOnly, WellShaped;
    ShapedLoop(c, s, w);
    var pc := s.workers[w].pc;
    if act.RunHooks? {
      RunKeepsTrails(c, s, w, pc.job, act.env);
    } else if act.Fetch? {
      FetchKeepsTrails(c, s, w, pc.m, pc.body);
    } else {
      LocalKeepsTrails(c, s, w, act);
    }
  }

  lemma LocalKeepsTrails(c: Config, s: Sys, w: WorkerId, act: Act)
    requires WellShaped(c, s) && w in s.workers && LoopStep(c, s, w, act).Some? && (!Commits(act) || act.Archive?)
    ensures SameTrails(s, LoopStep(c, s, w, act).value)
  {
    hide StepTransition, StepRetire, StepRun, StepFetch, SameKeys, MovesOnly, WellShaped, SameTrails;
    ShapedLoop(c, s, w);
    var t := LoopStep(c, s, w, act).value;
    assert t.store.rows == s.store.rows && t.history == s.history;
    SameHistoryTrails(s, t);
  }

  lemma SameHistoryTrails(s: Sys, t: Sys)
    requires t.store.rows == s.store.rows && t.history == s.history
    ensures SameTrails(s, t)
  {
  }

  lemma SameLater(s: Sys, t: Sys)
    requires SameTrails(s, t)
    ensures Later(s, t)
  {
  }

  lemma StepTransitionLater(s: Sys, w: WorkerId, id: WorkId, from: State, to: State, now: Time, next: Pc)
    requires w in s.workers
    ensures Later(s, StepTransition(s, w, id, from, to, now, next))
  {
    hide Transition;
    if Transition(s.store, id, from, to, now).error.None? {
      TransitionLater(s, id, from, to, now);
    }
  }

  lemma LoopLater(c: Config, s: Sys, w: WorkerId, act: Act)
    requires WellShaped(c, s) && w in s.workers && LoopStep(c, s, w, act).Some?
    ensures Later(s, LoopStep(c, s, w, act).value)
  {
    hide Later, StepTransition, StepRetire, StepFetch, StepRun, SameTrails, WellShaped, SameKeys, MovesOnly;
    ShapedLoop(c, s, w);
    var pc := s.workers[w].pc;
    if act.Claim? {
      StepTransitionLater(s, w, pc.job.id, Queued, Claimed, act.now, HasClaim(pc.job));
    } else if act.Start? {
      StepTransitionLater(s, w, pc.job.id, Claimed, Running, act.now, Started(pc.job));
    } else if act.Retire? {
      RetireLater(s, w, pc.job, pc.result, act.now);
    } else {
      OtherActsKeepTrails(c, s, w, act);
      SameLater(s, LoopStep(c, s, w, act).value);
    }
  }

  lemma SubmitLater(s: Sys, k: SubmitterId, what: SubmitAct)
    requires SubmitStep(s, k, what).Some?
    ensures Later(s, SubmitStep(s, k, what).value)
  {
    hide QueuedRow, MergedRow, NewHistory, Conflicts, Holds;
  }

  lemma StepLater(c: Config, s: Sys, l: Label)
    requires WellShaped(c, s) && Step(c, s, l).Some?
    ensures Later(s, Step(c, s, l).value)
  {
    hide Transition, LoopStep, SubmitStep, Later, Taken;
    match l
    case Loop(w, act) => LoopLater(c, s, w, act);
    case Outside(id, from, to, now) => TakenLater(s, id, from, to, now);
    case Submit(k, what) => SubmitLater(s, k, what);
    case Foreign => SameLater(s, Step(c, s, l).value);
  }

  /** Along every run rows stay, histories grow, and terminal rows are final. */
  lemma {:induction false} RunLater(c: Config, s: Sys, labels: seq<Label>)
    requires WellShaped(c, s) && Exec(c, s, labels).Some?
    ensures Later(s, Exec(c, s, labels).value)
    decreases |labels|
  {
    if labels != [] {
      var m := Step(c, s, labels[0]).value;
      StepLater(c, s, labels[0]);
      RunLater(c, m, labels[1..]);
      var t := Exec(c, m, labels[1..]).value;
      forall id | id in s.store.rows && id in s.history ensures RowLater(s, t, id) {
        assert RowLater(s, m, id) && RowLater(m, t, id);
      }
    }
  }

  // ----- merges ------------------------------------------------------------------------

  /**
   Merges form a forest of depth one forever: a merged row points to an existing row of the same faculty that was
   submitted with the same key, and in every later state it still does and that target is still not merged.
   */
  lemma MergedForever(c: Config, s: Sys, labels: seq<Label>, id: WorkId)
    requires Reachable(c, s) && id in s.store.rows && s.store.rows[id].state == State.Merged
    requires WellShaped(c, s) && Exec(c, s, labels).Some?
    ensures s.store.rows[id].mergedInto.Some? && id in s.history
    ensures var t, x := Exec(c, s, labels).value, s.store.rows[id].mergedInto.value;
            && id in t.store.rows && t.store.rows[id] == s.store.rows[id]
            && x in t.store.rows && t.store.rows[x].state != State.Merged
            && t.store.rows[x].faculty == t.store.rows[id].faculty
            && id in t.history && x in t.history
            && t.history[id].submitted.dedupKey.Some?
            && t.history[x].submitted.dedupKey == t.history[id].submitted.dedupKey
            && t.history[id].submitted == s.history[id].submitted
  {
    hide StoreOk, Exec, Step, Inv;
    var t := Exec(c, s, labels).value;
    ReachableOk(c, s);
    RunOkFrom(c, s, labels);
    RunLater(c, s, labels);
    MergeFacts(c, s, id);
    assert RowLater(s, t, id);
    MergeFacts(c, t, id);
  }

  lemma MergeFacts(c: Config, s: Sys, id: WorkId)
    requires Inv(c, s) && id in s.store.rows
    ensures id in s.history && MergeOk(s.store.rows, s.history, id)
    ensures s.store.rows[id].state == State.Merged <==> s.store.rows[id].mergedInto.Some?
  {
    hide QueueOk, MessagesOk, IndexOk;
    RowPlace(c, s, id);
  }

  /** The parent of every item exists. */
  lemma ParentExists(c: Config, s: Sys, id: WorkId)
    requires Reachable(c, s) && id in s.store.rows && s.store.rows[id].parentId.Some?
    ensures s.store.rows[id].parentId.value in s.store.rows
  {
    hide Exec, Inv;
    ReachableOk(c, s);
    MergeFacts(c, s, id);
  }

  // ----- dedup -------------------------------------------------------------------------

  /** At every committed state at most one row that is not terminal exists per faculty and key. */
  lemma DedupSafety(c: Config, s: Sys, a: WorkId, b: WorkId)
    requires Reachable(c, s) && a in s.store.rows && b in s.store.rows && a != b
    requires !IsTerminal(s.store.rows[a].state) && !IsTerminal(s.store.rows[b].state)
    requires s.store.rows[a].faculty == s.store.rows[b].faculty
    ensures s.store.rows[a].dedupKey.Some? ==> s.store.rows[a].dedupKey != s.store.rows[b].dedupKey
  {
    hide RowsOk, MergesOk, MessagesOk, QueueOk;
    ReachableOk(c, s);
    assert IndexKey(s.store.rows[a]).Some? ==> IndexKey(s.store.rows[a]) != IndexKey(s.store.rows[b]);
  }

  // ----- one row at any time -----------------------------------------------------------

  /** Timestamps, outcomes and histories agree with the state, and attempts count the entries into Running. */
  lemma LifecycleFacts(c: Config, s: Sys, id: WorkId)
    requires Reachable(c, s) && id in s.store.rows
    ensures id in s.history
    ensures var r, h := s.store.rows[id], s.history[id];
            && r.state != State.Created
            && (r.resolvedAt.Some? <==> IsTerminal(r.state))
            && (r.outcomeData.Some? ==> r.state == Completed)
            && IsPath(h.trail) && Last(h.trail) == r.state
  {
    hide Inv, RowOk;
    ReachableOk(c, s);
    RowPlaceOf(c, s, id);
    RowFacts(c, s.store.rows[id], s.history[id]);
  }

  lemma RowPlaceOf(c: Config, s: Sys, id: WorkId)
    requires Inv(c, s) && id in s.store.rows
    ensures id in s.history && RowOk(c, s.store.rows[id], s.history[id])
  {
    hide RowOk;
    RowPlace(c, s, id);
  }

  lemma RowFacts(c: Config, r: Row, h: History)
    requires RowOk(c, r, h)
    ensures r.state != State.Created && (r.resolvedAt.Some? <==> IsTerminal(r.state))
    ensures r.outcomeData.Some? ==> r.state == Completed
    ensures IsPath(h.trail) && Last(h.trail) == r.state && r.attempts == Visits(h.trail, Running)
    ensures OutcomeOk(c, r, h) && RunsOk(c, r.faculty, h.runs)
  {
  }

  /** With r the retries in its history, an item has made r attempts while it waits and r + 1 once it has started. */
  lemma ExactAttempts(c: Config, s: Sys, id: WorkId)
    requires Reachable(c, s) && id in s.store.rows
    ensures id in s.history
    ensures var a, r := s.store.rows[id].attempts, Retries(s.history[id].trail);
            match s.store.rows[id].state
            case Queued => a == r
            case Claimed => a == r
            case Running => a == r + 1
            case Failed => a == r + 1
            case Completed => a == r + 1
            case Dead => a == r || a == r + 1
            case Merged => a == 0 && r == 0
            case Created => false
  {
    hide Inv, RowOk;
    ReachableOk(c, s);
    RowPlaceOf(c, s, id);
    RowFacts(c, s.store.rows[id], s.history[id]);
    AttemptAccounting(s.history[id].trail);
  }

  /**
   What is read of an item: the attempts are those of `ExactAttempts`, and everything its submitter gave is there
   unchanged, apart from the key of a merged one.
   */
  lemma ItemOfRow(c: Config, s: Sys, id: WorkId)
    requires Reachable(c, s) && id in s.store.rows
    ensures id in s.history && FindItem(s.store, id).Ok?
    ensures var item, n := FindItem(s.store, id).value, s.history[id].submitted;
            && item.attempts == s.store.rows[id].attempts && item.state == s.store.rows[id].state
            && item.mergedInto == s.store.rows[id].mergedInto && item.createdAt == s.store.rows[id].createdAt
            && item.updatedAt == s.store.rows[id].updatedAt && item.resolvedAt == s.store.rows[id].resolvedAt
            && item.faculty == n.faculty && item.skill == n.skill && item.provenance == n.provenance
            && item.params == n.params && item.priority == n.priority && item.parentId == n.parentId
            && item.dedupKey == (if item.state == State.Merged then None else n.dedupKey)
            && (n.maxAttempts.None? ==> item.maxAttempts == None)
            && (n.maxAttempts.Some? && n.maxAttempts.value < 0x1_0000_0000 ==> item.maxAttempts == n.maxAttempts)
  {
    hide Inv, RowOk, Exec;
    ReachableOk(c, s);
    RowPlaceOf(c, s, id);
    RowSubmitted(c, s.store.rows[id], s.history[id]);
    ItemReads(s.store, id);
    if s.history[id].submitted.maxAttempts.Some? {
      CastsRoundTrip(s.history[id].submitted.maxAttempts.value);
    }
  }

  lemma RowSubmitted(c: Config, r: Row, h: History)
    requires RowOk(c, r, h)
    ensures HoldsSubmitted(r, h.submitted) && 0 <= r.attempts <= MaxI32
    ensures r.dedupKey == (if r.state == State.Merged then None else h.submitted.dedupKey)
  {
  }

  // ----- outcomes ----------------------------------------------------------------------

  /** What reading the item gives for this result. */
  function ReadsAs(x: FocusResult): Outcome {
    match x
    case FocusCompleted(data, ms) => Outcome(true, Some(data), None, ms)
    case FocusFailed(phase, error, ms) => Outcome(false, None, Some(ErrorText(phase, error)), ms)
  }

  lemma ShownReads(st: Store, id: WorkId, codec: Codec, f: Faculty, env: Env)
    requires id in st.rows && Shows(st.rows[id], Execute(codec, f, env).result)
    requires st.rows[id].state == Failed ==> st.rows[id].outcomeData == None
    ensures FindItem(st, id).Ok? && FindItem(st, id).value.outcome == Some(ReadsAs(Execute(codec, f, env).result))
  {
    hide Execute;
    Durations(codec, f, env);
    CastsRoundTrip(Execute(codec, f, env).result.ms);
  }

  /** The item reads as this run of a faculty that is registered under its name. */
  predicate ReadsAsRun(c: Config, s: Sys, id: WorkId, run: RunRecord) {
    && id in s.store.rows && Registered(c, run.plane, s.store.rows[id].faculty, run.faculty)
    && FindItem(s.store, id).Ok?
    && FindItem(s.store, id).value.outcome == Some(ReadsAs(ResultOf(c, run)))
  }

  /** A run that completed executed every hook of its faculty once and in order, and its data is its outcome file's. */
  predicate RanFully(c: Config, run: RunRecord) {
    var x := Execute(c.codec, run.faculty, run.env);
    && x.result.FocusCompleted?
    && x.ran == EveryHook(run.faculty) && EveryHookSucceeds(run.faculty, run.env)
    && UsableOutcome(c.codec, run.env) == Some(x.result.data)
  }

  lemma RetiredRow(c: Config, s: Sys, id: WorkId)
    requires Reachable(c, s) && id in s.store.rows
    ensures id in s.history && OutcomeOk(c, s.store.rows[id], s.history[id])
    ensures RunsOk(c, s.store.rows[id].faculty, s.history[id].runs)
    ensures s.store.rows[id].outcomeData.Some? ==> s.store.rows[id].state == Completed
  {
    hide Inv, RowOk, OutcomeOk, Exec;
    ReachableOk(c, s);
    RowPlaceOf(c, s, id);
    RowFacts(c, s.store.rows[id], s.history[id]);
  }

  /**
   Reading an item that a loop completed gives success with the data and the duration of one of its runs and with no
   error of another, whatever others did in between; that run was of the registered faculty and ran all of it.
   */
  lemma OutcomeOfCompleted(c: Config, s: Sys, id: WorkId) returns (i: nat)
    requires Reachable(c, s) && id in s.store.rows && s.store.rows[id].state == Completed
    requires id in s.history && RetiredByLoop(s.history[id])
    ensures i < |s.history[id].runs|
    ensures ReadsAsRun(c, s, id, s.history[id].runs[i]) && RanFully(c, s.history[id].runs[i])
  {
    hide Reachable, Execute, EveryHook, EveryHookSucceeds, UsableOutcome;
    RetiredRow(c, s, id);
    var h := s.history[id];
    i :| 0 <= i < |h.runs| && Shows(s.store.rows[id], ResultOf(c, h.runs[i]));
    ShownReads(s.store, id, c.codec, h.runs[i].faculty, h.runs[i].env);
    CompletedRanEverything(c.codec, h.runs[i].faculty, h.runs[i].env);
  }

  /** Reading an item that a loop failed gives the failure of one of its runs, whatever others did in between. */
  lemma OutcomeOfFailed(c: Config, s: Sys, id: WorkId) returns (i: nat)
    requires Reachable(c, s) && id in s.store.rows && s.store.rows[id].state == Failed
    requires id in s.history && RetiredByLoop(s.history[id])
    ensures i < |s.history[id].runs|
    ensures ReadsAsRun(c, s, id, s.history[id].runs[i]) && ResultOf(c, s.history[id].runs[i]).FocusFailed?
    ensures var x, o := ResultOf(c, s.history[id].runs[i]), FindItem(s.store, id).value.outcome;
            o.Some? && !o.value.success && o.value.error == Some(x.phase + ": " + x.error) && o.value.durationMs == x.ms
  {
    hide Reachable, Execute;
    RetiredRow(c, s, id);
    var h := s.history[id];
    i :| 0 <= i < |h.runs| && Shows(s.store.rows[id], ResultOf(c, h.runs[i]));
    ShownReads(s.store, id, c.codec, h.runs[i].faculty, h.runs[i].env);
  }

  /** Where others leave held items in Running, it is the latest run. */
  lemma LatestOutcome(c: Config, s: Sys, id: WorkId)
    requires Careful(c) && Reachable(c, s) && id in s.store.rows && id in s.history && RetiredByLoop(s.history[id])
    requires s.store.rows[id].state == Completed || s.store.rows[id].state == Failed
    ensures var runs := s.history[id].runs;
            && runs != [] && ReadsAsRun(c, s, id, runs[|runs| - 1])
            && (s.store.rows[id].state == Completed ==> RanFully(c, runs[|runs| - 1]))
  {
    hide Reachable, Execute, EveryHook, EveryHookSucceeds, UsableOutcome;
    RetiredRow(c, s, id);
    var run := s.history[id].runs[|s.history[id].runs| - 1];
    ShownReads(s.store, id, c.codec, run.faculty, run.env);
    if s.store.rows[id].state == Completed {
      CompletedRanEverything(c.codec, run.faculty, run.env);
    }
  }

  lemma Durations(codec: Codec, f: Faculty, env: Env)
    ensures Execute(codec, f, env).result.ms < 0x1_0000_0000_0000_0000
  {
  }

  // ----- retries come from outside -----------------------------------------------------

  predicate IsRetry(l: Label) {
    l.Outside? && l.from == Failed && l.to == Queued
  }

  predicate NoRetries(s: Sys) {
    forall id | id in s.history :: Retries(s.history[id].trail) == 0
  }

  /** The histories before and after, when one of them enters a state. */
  predicate EntersFrom(s: Sys, t: Sys, from: State, to: State) {
    && t.history.Keys == s.history.Keys
    && forall id | id in s.history ::
         || t.history[id].trail == s.history[id].trail
         || (t.history[id].trail == s.history[id].trail + [to] && s.history[id].trail != [] && Last(s.history[id].trail) == from)
  }

  lemma EntersNoRetry(s: Sys, t: Sys, from: State, to: State)
    requires NoRetries(s) && EntersFrom(s, t, from, to) && !(from == Failed && to == Queued)
    ensures NoRetries(t)
  {
    forall id | id in t.history ensures Retries(t.history[id].trail) == 0 {
      var h := s.history[id].trail;
      if t.history[id].trail != h {
        assert (h + [to])[..|h|] == h;
      }
    }
  }

  lemma EnterEnters(s: Sys, st: Store, id: WorkId, from: State, to: State)
    requires id in s.history ==> s.history[id].trail != [] && Last(s.history[id].trail) == from
    ensures EntersFrom(s, Enter(s, st, id, to), from, to)
  {
  }

  lemma TrailEnd(c: Config, s: Sys, id: WorkId)
    requires Inv(c, s) && id in s.store.rows
    ensures id in s.history && s.history[id].trail != [] && Last(s.history[id].trail) == s.store.rows[id].state
  {
    hide RowOk;
    RowPlaceOf(c, s, id);
    RowFacts(c, s.store.rows[id], s.history[id]);
  }

  lemma TransitionEnters(c: Config, s: Sys, id: WorkId, from: State, to: State, now: Time)
    requires Inv(c, s) && Transition(s.store, id, from, to, now).error.None?
    ensures EntersFrom(s, Enter(s, Transition(s.store, id, from, to, now).store, id, to), from, to)
    ensures EntersFrom(s, Taken(s, id, from, to, now), from, to)
  {
    hide RowOk, StoreOk, Transition, Enter, LoopsOk, Exclusive, SubmissionsOk;
    TransitionFound(s.store, id, from, to, now);
    TrailEnd(c, s, id);
    EnterEnters(s, Transition(s.store, id, from, to, now).store, id, from, to);
  }

  lemma TransitionFound(st: Store, id: WorkId, from: State, to: State, now: Time)
    requires Transition(st, id, from, to, now).error.None?
    ensures id in st.rows && st.rows[id].state == from
  {
  }

  lemma RetireEnters(c: Config, s: Sys, w: WorkerId, now: Time)
    requires Inv(c, s) && w in s.workers && s.workers[w].up && s.workers[w].pc.Uncounted?
    ensures var pc := s.workers[w].pc;
            EntersFrom(s, StepRetire(s, w, pc.job, pc.result, now), Running, if pc.result.FocusCompleted? then Completed else Failed)
  {
    hide StepRetire, StoreOk, LoopsOk, Exclusive, SubmissionsOk, JobOk, GotResult, RowOk, IndexOk, CompletedRow, FailedRow;
    var job := s.workers[w].pc.job;
    LoopPlace(c, s, w);
    JobHere(c, s, w, job);
    RowPlace(c, s, job.id);
    TrailEnd(c, s, job.id);
    if s.store.rows[job.id].state == Running {
      RetiredStore(s, w, now);
    } else {
      MissedRow(s, w, now);
    }
  }

  lemma SameTrailsNoRetry(s: Sys, t: Sys)
    requires NoRetries(s) && SameTrails(s, t)
    ensures NoRetries(t)
  {
  }

  lemma MoveNeverRetries(c: Config, s: Sys, w: WorkerId, id: WorkId, from: State, to: State, now: Time, next: Pc)
    requires Inv(c, s) && NoRetries(s) && w in s.workers && !(from == Failed && to == Queued)
    ensures NoRetries(StepTransition(s, w, id, from, to, now, next))
  {
    hide Inv, Transition, StepTransition, EntersFrom, Enter;
    TransitionParts(s, w, id, from, to, now, next);
    if Transition(s.store, id, from, to, now).error.None? {
      TransitionEnters(c, s, id, from, to, now);
      EntersNoRetry(s, Enter(s, Transition(s.store, id, from, to, now).store, id, to), from, to);
    }
  }

  lemma LoopNeverRetries(c: Config, s: Sys, w: WorkerId, act: Act)
    requires Inv(c, s) && WellShaped(c, s) && NoRetries(s) && w in s.workers && s.workers[w].up && LoopStep(c, s, w, act).Some?
    ensures NoRetries(LoopStep(c, s, w, act).value)
  {
    hide Inv, StepTransition, StepRetire, StepRun, StepFetch, EntersFrom, NoRetries, SameTrails, WellShaped, SameKeys, MovesOnly;
    ShapedLoop(c, s, w);
    var pc := s.workers[w].pc;
    if act.Claim? {
      MoveNeverRetries(c, s, w, pc.job.id, Queued, Claimed, act.now, HasClaim(pc.job));
    } else if act.Start? {
      MoveNeverRetries(c, s, w, pc.job.id, Claimed, Running, act.now, Started(pc.job));
    } else if act.Retire? {
      RetireEnters(c, s, w, act.now);
      EntersNoRetry(s, StepRetire(s, w, pc.job, pc.result, act.now), Running, if pc.result.FocusCompleted? then Completed else Failed);
    } else {
      OtherActsKeepTrails(c, s, w, act);
      SameTrailsNoRetry(s, LoopStep(c, s, w, act).value);
    }
  }

  lemma SubmitNeverRetries(s: Sys, k: SubmitterId, what: SubmitAct)
    requires NoRetries(s) && SubmitStep(s, k, what).Some?
    ensures NoRetries(SubmitStep(s, k, what).value)
  {
    hide Conflicts, Holds, Enqueue, Merge, Retries;
    FreshHistory();
  }

  lemma StepNeverRetries(c: Config, s: Sys, l: Label)
    requires Inv(c, s) && NoRetries(s) && Step(c, s, l).Some? && !IsRetry(l)
    ensures NoRetries(Step(c, s, l).value)
  {
    hide Inv, Transition, LoopStep, SubmitStep, EntersFrom, NoRetries, Taken;
    ShapeOf(c, s);
    match l
    case Loop(w, act) => LoopNeverRetries(c, s, w, act);
    case Outside(id, from, to, now) =>
      TransitionEnters(c, s, id, from, to, now);
      EntersNoRetry(s, Taken(s, id, from, to, now), from, to);
    case Submit(k, what) => SubmitNeverRetries(s, k, what);
    case Foreign => SameTrailsNoRetry(s, Step(c, s, l).value);
  }

  lemma FreshHistory()
    ensures Retries([State.Created, Queued]) == 0 && Retries([State.Created, State.Merged]) == 0
  {
    assert [State.Created, Queued][..1] == [State.Created] && [State.Created, State.Merged][..1] == [State.Created];
  }

  lemma {:induction false} RunNeverRetries(c: Config, s: Sys, labels: seq<Label>)
    requires Inv(c, s) && NoRetries(s) && Exec(c, s, labels).Some?
    requires forall i | 0 <= i < |labels| :: !IsRetry(labels[i])
    ensures NoRetries(Exec(c, s, labels).value)
    decreases |labels|
  {
    hide Inv, Step, NoRetries;
    if labels != [] {
      ShapeOf(c, s);
      StepOk(c, s, labels[0]);
      StepNeverRetries(c, s, labels[0]);
      RunNeverRetries(c, Step(c, s, labels[0]).value, labels[1..]);
    }
  }

  lemma ShapeOf(c: Config, s: Sys)
    requires Inv(c, s)
    ensures WellShaped(c, s)
  {
  }

  /** In a run in which nobody outside retries a failed item, every item enters Running at most once. */
  lemma StartedAtMostOnce(c: Config, labels: seq<Label>, s: Sys, id: WorkId)
    requires GoodConfig(c) && Exec(c, Initial(c), labels) == Some(s) && id in s.store.rows
    requires forall i | 0 <= i < |labels| :: !IsRetry(labels[i])
    ensures s.store.rows[id].attempts <= 1
  {
    hide Inv, Exec, Step;
    InitialOk(c);
    RunNeverRetries(c, Initial(c), labels);
    assert Reachable(c, s);
    ExactAttempts(c, s, id);
  }
}
