/** What holds of the committed table, the queue and the histories in every run, and how each commit keeps it. */
module StoreInvariant {
  import opened Wrappers
  import opened WorkState
  import opened WorkStore
  import opened Focus
  import opened Protocol

  // ----- one row -----------------------------------------------------------------------

  function ResultOf(c: Config, r: RunRecord): FocusResult {
    Execute(c.codec, r.faculty, r.env).result
  }

  /** The result of the item's latest focus run. */
  predicate LatestResult(c: Config, h: History, result: FocusResult) {
    h.runs != [] && ResultOf(c, h.runs[|h.runs| - 1]) == result
  }

  /** The plane's registry has this faculty under this name. */
  predicate Registered(c: Config, p: PlaneId, name: string, f: Faculty) {
    p in c.planes && name in c.planes[p].registry && c.planes[p].registry[name] == f
  }

  /** The faculty that ran is the one registered under the item's name. */
  predicate RunOk(c: Config, name: string, run: RunRecord) {
    Registered(c, run.plane, name, run.faculty)
  }

  predicate RunsOk(c: Config, faculty: string, runs: seq<RunRecord>) {
    forall i | 0 <= i < |runs| :: RunOk(c, faculty, runs[i])
  }

  function CompletedOutcome(result: FocusResult): Outcome
    requires result.FocusCompleted?
  {
    Outcome(true, Some(result.data), None, result.ms)
  }

  /** A loop, and nobody else, took the item out of Running last. */
  predicate RetiredByLoop(h: History) {
    h.takenAt < |h.trail|
  }

  /** The row shows this result. */
  predicate Shows(r: Row, x: FocusResult) {
    match x
    case FocusCompleted(data, ms) =>
      r.state == Completed && r.outcomeData == Some(data) && r.outcomeError == None && r.outcomeMs == Some(ToI64(ms))
    case FocusFailed(phase, error, ms) =>
      r.state == Failed && r.outcomeError == Some(ErrorText(phase, error)) && r.outcomeMs == Some(ToI64(ms))
  }

  /** One of the item's focus runs has this result. */
  predicate SomeResult(c: Config, h: History, x: FocusResult) {
    exists i :: 0 <= i < |h.runs| && ResultOf(c, h.runs[i]) == x
  }

  /** A loop that has run its focus has this result. */
  predicate GotResult(c: Config, h: History, x: FocusResult) {
    SomeResult(c, h, x) && (c.others != Unrestricted ==> LatestResult(c, h, x))
  }

  predicate ShowsSomeRun(c: Config, r: Row, h: History) {
    exists i :: 0 <= i < |h.runs| && Shows(r, ResultOf(c, h.runs[i]))
  }

  /**
   A row that a loop retired shows the result of one of the item's runs and nothing of another; where others spare held
   items it is the latest one.
   */
  predicate OutcomeOk(c: Config, r: Row, h: History) {
    (r.state == Completed || r.state == Failed) && RetiredByLoop(h) ==>
      && ShowsSomeRun(c, r, h)
      && (c.others != Unrestricted ==> h.runs != [] && Shows(r, ResultOf(c, h.runs[|h.runs| - 1])))
  }

  /** The columns that a submission fills and no update changes. */
  predicate HoldsSubmitted(r: Row, n: NewWorkItem) {
    && r.faculty == n.faculty && r.skill == n.skill && r.source == n.provenance.source && r.triggerInfo == n.provenance.trigger
    && r.params == n.params && r.priority == n.priority && r.parentId == n.parentId
    && r.maxAttempts == match n.maxAttempts case None => None case Some(k) => Some(ToI32(k))
  }

  predicate RowOk(c: Config, r: Row, h: History) {
    && r.state != State.Created
    && (r.resolvedAt.Some? <==> IsTerminal(r.state))
    && (r.outcomeData.Some? ==> r.state == Completed)
    && (r.mergedInto.Some? <==> r.state == State.Merged)
    && HoldsSubmitted(r, h.submitted)
    && r.dedupKey == (if r.state == State.Merged then None else h.submitted.dedupKey)
    && IsPath(h.trail) && Last(h.trail) == r.state
    && r.attempts == Visits(h.trail, Running) && r.attempts <= MaxI32
    && h.takenAt <= |h.trail|
    && RunsOk(c, r.faculty, h.runs)
    && OutcomeOk(c, r, h)
  }

  // ----- the table and the queue -------------------------------------------------------

  /**
   The parent of a row exists, and a merged row points to a row of the same faculty that was submitted with the same key
   and is not merged itself.
   */
  predicate MergeOk(rows: map<WorkId, Row>, history: map<WorkId, History>, id: WorkId)
    requires id in rows
  {
    && (rows[id].parentId.Some? ==> rows[id].parentId.value in rows)
    && (rows[id].mergedInto.Some? ==>
      var t := rows[id].mergedInto.value;
      && t in rows && rows[t].state != State.Merged && rows[t].faculty == rows[id].faculty
      && t in history && id in history
      && history[id].submitted.dedupKey.Some?
      && history[t].submitted.dedupKey == history[id].submitted.dedupKey)
  }

  /** The message with this id, live or archived. */
  function MessageAt(st: Store, m: MsgId): Option<Payload> {
    if m in st.live then Some(st.live[m]) else if m in st.archived then Some(st.archived[m]) else None
  }

  predicate Carries(st: Store, m: MsgId, id: WorkId) {
    MessageAt(st, m).Some? && MessageAt(st, m).value.WorkPayload? && MessageAt(st, m).value.workItemId == id
  }

  /** An item that was not merged has the message its row names, with its parameters; a merged one has none. */
  predicate MessageOk(st: Store, id: WorkId)
    requires id in st.rows
  {
    var r := st.rows[id];
    if r.state == State.Merged then r.msgId == None
    else r.msgId.Some? && MessageAt(st, r.msgId.value) == Some(WorkPayload(id, r.params))
  }

  predicate Apart(st: Store) {
    && (forall m | m in st.live :: m !in st.archived && m < st.nextMsg)
    && (forall m | m in st.archived :: m < st.nextMsg)
  }

  /** Every work message is the one of its item. */
  ghost predicate Owned(st: Store) {
    forall m: MsgId, id: WorkId | Carries(st, m, id) :: id in st.rows && st.rows[id].msgId == Some(m)
  }

  /** A message is archived only when its item is Completed. */
  predicate ArchiveIsDone(st: Store) {
    forall m | m in st.archived ::
      && st.archived[m].WorkPayload?
      && st.archived[m].workItemId in st.rows
      && st.rows[st.archived[m].workItemId].state == Completed
  }

  ghost predicate QueueOk(st: Store) {
    Apart(st) && Owned(st) && ArchiveIsDone(st)
  }

  predicate RowsOk(c: Config, s: Sys) {
    && s.history.Keys == s.store.rows.Keys
    && forall id | id in s.store.rows :: RowOk(c, s.store.rows[id], s.history[id])
  }

  predicate MergesOk(s: Sys) {
    forall id | id in s.store.rows :: MergeOk(s.store.rows, s.history, id)
  }

  predicate MessagesOk(st: Store) {
    forall id | id in st.rows :: MessageOk(st, id)
  }

  ghost predicate StoreOk(c: Config, s: Sys) {
    && RowsOk(c, s)
    && IndexOk(s.store.rows)
    && MergesOk(s)
    && MessagesOk(s.store)
    && QueueOk(s.store)
  }

  // ----- commits -----------------------------------------------------------------------

  /** The state after a row and its history are replaced. */
  function Replaced(s: Sys, id: WorkId, r: Row, h: History): Sys {
    s.(store := s.store.(rows := s.store.rows[id := r]), history := s.history[id := h])
  }

  /** Only the state columns of a row change, along an allowed transition or not at all. */
  predicate Moves(r: Row, r': Row) {
    && r'.faculty == r.faculty && r'.skill == r.skill && r'.dedupKey == r.dedupKey
    && r'.source == r.source && r'.triggerInfo == r.triggerInfo && r'.params == r.params && r'.priority == r.priority
    && r'.parentId == r.parentId && r'.maxAttempts == r.maxAttempts && r'.createdAt == r.createdAt
    && r'.msgId == r.msgId && r'.mergedInto == r.mergedInto
    && (CanTransition(r.state, r'.state) || r'.state == r.state)
  }

  lemma ReplacedIndex(rows: map<WorkId, Row>, id: WorkId, r: Row)
    requires IndexOk(rows) && id in rows && Moves(rows[id], r)
    ensures IndexOk(rows[id := r])
  {
    assert IndexKey(r).Some? ==> IndexKey(r) == IndexKey(rows[id]);
  }

  lemma ReplacedMerges(s: Sys, id: WorkId, r: Row, h: History)
    requires MergesOk(s) && id in s.store.rows && id in s.history && Moves(s.store.rows[id], r)
    requires s.store.rows[id].state != State.Created && h.submitted == s.history[id].submitted
    ensures MergesOk(Replaced(s, id, r, h))
  {
    var t := Replaced(s, id, r, h);
    forall x | x in t.store.rows ensures MergeOk(t.store.rows, t.history, x) {
      assert MergeOk(s.store.rows, s.history, x);
    }
  }

  lemma ReplacedMessages(st: Store, id: WorkId, r: Row)
    requires MessagesOk(st) && QueueOk(st) && id in st.rows && Moves(st.rows[id], r)
    requires st.rows[id].state != State.Created
    ensures MessagesOk(st.(rows := st.rows[id := r])) && QueueOk(st.(rows := st.rows[id := r]))
  {
    var st' := st.(rows := st.rows[id := r]);
    assert forall m: MsgId :: MessageAt(st', m) == MessageAt(st, m);
    assert forall m: MsgId, x: WorkId :: Carries(st', m, x) == Carries(st, m, x);
    forall x | x in st'.rows ensures MessageOk(st', x) {
      assert MessageOk(st, x);
    }
  }

  /** Moving one row along its history keeps the store in order. */
  lemma ReplacedOk(c: Config, s: Sys, id: WorkId, r: Row, h: History)
    requires StoreOk(c, s) && id in s.store.rows && Moves(s.store.rows[id], r)
    requires RowOk(c, r, h) && h.submitted == s.history[id].submitted
    ensures StoreOk(c, Replaced(s, id, r, h))
  {
    hide IndexOk, MergesOk, MessagesOk, QueueOk, Moves, IsPath, Visits, RunsOk, OutcomeOk;
    assert RowOk(c, s.store.rows[id], s.history[id]);
    ReplacedIndex(s.store.rows, id, r);
    ReplacedMerges(s, id, r, h);
    ReplacedMessages(s.store, id, r);
  }

  function Entered(h: History, to: State): History {
    h.(trail := h.trail + [to])
  }

  /** The history after a transition outside a retirement. */
  function EnteredFrom(h: History, from: State, to: State): History {
    if from == Running then Entered(h, to).(takenAt := |h.trail| + 1) else Entered(h, to)
  }

  /** A transition gives a row that fits its longer history. */
  lemma TransitionedRowOk(c: Config, r: Row, h: History, to: State, now: Time)
    requires RowOk(c, r, h) && CanTransition(r.state, to)
    requires to == Running ==> r.attempts < MaxI32
    ensures RowOk(c, TransitionedRow(r, to, now), EnteredFrom(h, r.state, to)) && Moves(r, TransitionedRow(r, to, now))
  {
    PathSnoc(h.trail, to);
  }

  lemma CompletedRowOk(c: Config, r: Row, h: History, x: FocusResult, now: Time)
    requires RowOk(c, r, h) && r.state == Running && x.FocusCompleted?
    requires GotResult(c, h, x)
    ensures RowOk(c, CompletedRow(r, CompletedOutcome(x), now), Entered(h, Completed))
    ensures Moves(r, CompletedRow(r, CompletedOutcome(x), now))
  {
    hide IsPath, Visits, RunsOk, ResultOf, ToI64;
    PathSnoc(h.trail, Completed);
    var i :| 0 <= i < |h.runs| && ResultOf(c, h.runs[i]) == x;
    assert Shows(CompletedRow(r, CompletedOutcome(x), now), ResultOf(c, h.runs[i]));
  }

  lemma FailedRowOk(c: Config, r: Row, h: History, x: FocusResult, now: Time)
    requires RowOk(c, r, h) && r.state == Running && x.FocusFailed?
    requires GotResult(c, h, x)
    ensures RowOk(c, FailedRow(r, ErrorText(x.phase, x.error), x.ms, now), Entered(h, Failed))
    ensures Moves(r, FailedRow(r, ErrorText(x.phase, x.error), x.ms, now))
  {
    hide IsPath, Visits, RunsOk, ResultOf, ToI64, ErrorText;
    PathSnoc(h.trail, Failed);
    var i :| 0 <= i < |h.runs| && ResultOf(c, h.runs[i]) == x;
    assert Shows(FailedRow(r, ErrorText(x.phase, x.error), x.ms, now), ResultOf(c, h.runs[i]));
  }

  lemma RunRecordedOk(c: Config, r: Row, h: History, run: RunRecord)
    requires RowOk(c, r, h) && (c.others != Unrestricted ==> r.state == Running) && RunOk(c, r.faculty, run)
    ensures RowOk(c, r, h.(runs := h.runs + [run])) && GotResult(c, h.(runs := h.runs + [run]), ResultOf(c, run))
  {
    hide IsPath, Visits, ResultOf, Shows;
    var runs := h.runs + [run];
    assert runs[|h.runs|] == run;
    if ShowsSomeRun(c, r, h) {
      var i :| 0 <= i < |h.runs| && Shows(r, ResultOf(c, h.runs[i]));
      assert runs[i] == h.runs[i];
    }
  }

  // ----- new rows and messages ---------------------------------------------------------

  lemma NewPath(to: State)
    requires to == Queued || to == State.Merged
    ensures IsPath([State.Created, to]) && Visits([State.Created, to], Running) == 0
  {
    var trail := [State.Created, to];
    assert trail[..1] == [State.Created] && [State.Created][..0] == [];
    assert Visits([State.Created], Running) == 0;
  }

  lemma EnqueuedRowOk(c: Config, n: NewWorkItem, m: MsgId, now: Time)
    ensures RowOk(c, QueuedRow(n, m, now), NewHistory(n, Queued))
  {
    NewPath(Queued);
  }

  lemma MergedRowOk(c: Config, n: NewWorkItem, canonical: WorkId, now: Time)
    ensures RowOk(c, MergedRow(n, canonical, now), NewHistory(n, State.Merged))
  {
    NewPath(State.Merged);
  }

  /** A message is added under the next id. */
  lemma SendOk(st: Store, p: Payload)
    requires MessagesOk(st) && QueueOk(st)
    ensures MessageAt(Send(st, p), st.nextMsg) == Some(p)
    ensures forall m: MsgId | m != st.nextMsg :: MessageAt(Send(st, p), m) == MessageAt(st, m)
    ensures MessageAt(st, st.nextMsg) == None
    ensures Apart(Send(st, p)) && ArchiveIsDone(Send(st, p)) && MessagesOk(Send(st, p))
  {
    var st' := Send(st, p);
    forall x | x in st'.rows ensures MessageOk(st', x) {
      assert MessageOk(st, x);
    }
  }

  lemma InsertMerges(s: Sys, id: WorkId, r: Row, h: History)
    requires MergesOk(s) && id !in s.store.rows && id !in s.history
    requires r.parentId.Some? ==> r.parentId.value in s.store.rows
    requires r.mergedInto.Some? ==>
               var t := r.mergedInto.value;
               && t in s.store.rows && t in s.history
               && s.store.rows[t].state != State.Merged && s.store.rows[t].faculty == r.faculty
               && h.submitted.dedupKey.Some? && s.history[t].submitted.dedupKey == h.submitted.dedupKey
    ensures MergesOk(Replaced(s, id, r, h))
  {
    var t := Replaced(s, id, r, h);
    forall x | x in t.store.rows ensures MergeOk(t.store.rows, t.history, x) {
      if x != id {
        assert MergeOk(s.store.rows, s.history, x);
      }
    }
  }

  lemma EnqueueMessages(st: Store, id: WorkId, n: NewWorkItem, now: Time)
    requires MessagesOk(st) && QueueOk(st) && id !in st.rows
    ensures MessagesOk(Enqueue(st, id, n, now)) && QueueOk(Enqueue(st, id, n, now))
  {
    var p, m := WorkPayload(id, n.params), st.nextMsg;
    var sent, st' := Send(st, p), Enqueue(st, id, n, now);
    SendOk(st, p);
    assert forall k: MsgId :: MessageAt(st', k) == MessageAt(sent, k);
    forall x | x in st'.rows ensures MessageOk(st', x) {
      if x != id {
        assert MessageOk(sent, x);
      }
    }
    forall k: MsgId, x: WorkId | Carries(st', k, x) ensures x in st'.rows && st'.rows[x].msgId == Some(k) {
      if k != m {
        assert Carries(st, k, x);
      }
    }
  }

  /** A queued insert keeps the store in order. */
  lemma EnqueueOk(c: Config, s: Sys, id: WorkId, n: NewWorkItem, now: Time)
    requires StoreOk(c, s) && Insertable(s.store, id, n)
    requires n.dedupKey.Some? ==> !Conflicts(s.store.rows, (n.faculty, n.dedupKey.value))
    ensures StoreOk(c, s.(store := Enqueue(s.store, id, n, now), history := s.history[id := NewHistory(n, Queued)]))
  {
    hide MessagesOk, QueueOk, IsPath, Visits, RunsOk, OutcomeOk, IndexOk;
    var r, h := QueuedRow(n, s.store.nextMsg, now), NewHistory(n, Queued);
    EnqueuedRowOk(c, n, s.store.nextMsg, now);
    InsertKeepsIndex(s.store.rows, id, r);
    EnqueueMessages(s.store, id, n, now);
    InsertMerges(s, id, r, h);
    var t := s.(store := Enqueue(s.store, id, n, now), history := s.history[id := h]);
    assert t.store.rows == Replaced(s, id, r, h).store.rows;
    forall x | x in t.store.rows ensures MergeOk(t.store.rows, t.history, x) {
      assert MergeOk(Replaced(s, id, r, h).store.rows, t.history, x);
    }
  }

  lemma MergedMessages(st: Store, id: WorkId, r: Row)
    requires MessagesOk(st) && QueueOk(st) && id !in st.rows && r.state == State.Merged && r.msgId == None
    ensures MessagesOk(st.(rows := st.rows[id := r])) && QueueOk(st.(rows := st.rows[id := r]))
  {
    var st' := st.(rows := st.rows[id := r]);
    assert forall m: MsgId :: MessageAt(st', m) == MessageAt(st, m);
    assert forall m: MsgId, x: WorkId :: Carries(st', m, x) == Carries(st, m, x);
    forall x | x in st'.rows ensures MessageOk(st', x) {
      if x != id {
        assert MessageOk(st, x);
      }
    }
  }

  /** A merged insert keeps the store in order when its target is fit to be one. */
  lemma MergeInsertOk(c: Config, s: Sys, id: WorkId, n: NewWorkItem, canonical: WorkId, now: Time)
    requires StoreOk(c, s) && Insertable(s.store, id, n)
    requires canonical in s.store.rows && s.store.rows[canonical].state != State.Merged
    requires s.store.rows[canonical].faculty == n.faculty
    requires n.dedupKey.Some? && s.history[canonical].submitted.dedupKey == n.dedupKey
    ensures StoreOk(c, s.(store := Merge(s.store, id, n, canonical, now), history := s.history[id := NewHistory(n, State.Merged)]))
  {
    hide MessagesOk, QueueOk, IsPath, Visits, RunsOk, OutcomeOk, IndexOk;
    var r, h := MergedRow(n, canonical, now), NewHistory(n, State.Merged);
    MergedRowOk(c, n, canonical, now);
    InsertKeepsIndex(s.store.rows, id, r);
    MergedMessages(s.store, id, r);
    InsertMerges(s, id, r, h);
  }

  lemma ForeignMessages(st: Store)
    requires MessagesOk(st) && QueueOk(st)
    ensures MessagesOk(Send(st, OtherPayload)) && QueueOk(Send(st, OtherPayload))
  {
    SendOk(st, OtherPayload);
    assert forall m: MsgId, x: WorkId :: Carries(Send(st, OtherPayload), m, x) ==> Carries(st, m, x);
  }

  /** A foreign message changes nothing of ours. */
  lemma ForeignOk(c: Config, s: Sys)
    requires StoreOk(c, s)
    ensures StoreOk(c, s.(store := Send(s.store, OtherPayload)))
  {
    ForeignMessages(s.store);
    var t := s.(store := Send(s.store, OtherPayload));
    forall x | x in t.store.rows ensures MergeOk(t.store.rows, t.history, x) {
      assert MergeOk(s.store.rows, s.history, x);
    }
  }

  lemma ArchiveMessages(st: Store, m: MsgId, id: WorkId)
    requires MessagesOk(st) && QueueOk(st) && Carries(st, m, id) && id in st.rows && st.rows[id].state == Completed
    ensures MessagesOk(Archived(st, m)) && QueueOk(Archived(st, m))
    ensures forall k: MsgId :: MessageAt(Archived(st, m), k) == MessageAt(st, k)
  {
    var st' := Archived(st, m);
    assert forall k: MsgId :: MessageAt(st', k) == MessageAt(st, k);
    assert forall k: MsgId, x: WorkId :: Carries(st', k, x) == Carries(st, k, x);
    forall x | x in st'.rows ensures MessageOk(st', x) {
      assert MessageOk(st, x);
    }
  }

  /** Archiving the message of a Completed item moves it and loses nothing. */
  lemma ArchiveOk(c: Config, s: Sys, m: MsgId, id: WorkId)
    requires StoreOk(c, s) && Carries(s.store, m, id) && id in s.store.rows && s.store.rows[id].state == Completed
    ensures StoreOk(c, s.(store := Archived(s.store, m)))
  {
    ArchiveMessages(s.store, m, id);
    var t := s.(store := Archived(s.store, m));
    forall x | x in t.store.rows ensures MergeOk(t.store.rows, t.history, x) {
      assert MergeOk(s.store.rows, s.history, x);
    }
  }
}
