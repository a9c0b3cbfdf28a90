/**
 The committed contents of the `work_items` table and the `work` queue, and what each statement of
 src/db/work.rs and src/db/pgmq.rs does to them.
 */
module WorkStore {
  import opened Wrappers
  import opened Json
  import opened WorkState

  /** A UUID. */
  type WorkId = nat
  type MsgId = nat
  type Time = int

  datatype Provenance = Provenance(source: string, trigger: Option<string>)

  datatype NewWorkItem = NewWorkItem(
    faculty: string,
    skill: Option<string>,
    dedupKey: Option<string>,
    provenance: Provenance,
    params: Json,
    priority: int,
    parentId: Option<WorkId>,
    maxAttempts: Option<nat>)

  datatype Row = Row(
    faculty: string,
    skill: Option<string>,
    dedupKey: Option<string>,
    source: string,
    triggerInfo: Option<string>,
    params: Json,
    priority: int,
    state: State,
    mergedInto: Option<WorkId>,
    parentId: Option<WorkId>,
    attempts: int,
    maxAttempts: Option<int>,
    createdAt: Time,
    updatedAt: Time,
    resolvedAt: Option<Time>,
    outcomeData: Option<Json>,
    outcomeError: Option<string>,
    outcomeMs: Option<int>,
    msgId: Option<MsgId>)

  datatype Outcome = Outcome(success: bool, data: Option<Json>, error: Option<string>, durationMs: nat)

  datatype WorkItem = WorkItem(
    id: WorkId,
    faculty: string,
    skill: Option<string>,
    dedupKey: Option<string>,
    provenance: Provenance,
    params: Json,
    priority: int,
    state: State,
    mergedInto: Option<WorkId>,
    parentId: Option<WorkId>,
    attempts: nat,
    maxAttempts: Option<nat>,
    createdAt: Time,
    updatedAt: Time,
    resolvedAt: Option<Time>,
    outcome: Option<Outcome>)

  /** What a queue message holds: a submitted item, or something else. */
  datatype Payload = WorkPayload(workItemId: WorkId, params: Json) | OtherPayload

  datatype Store = Store(rows: map<WorkId, Row>, live: map<MsgId, Payload>, archived: map<MsgId, Payload>, nextMsg: MsgId)

  datatype DbError =
    | InvalidTransition(from: State, to: State)
    | NotFound(id: WorkId)
    | Database(fault: Fault)

  /** What the database itself can refuse. */
  datatype Fault = DuplicateKey | IntegerOutOfRange | BadReference | NoSuchRow | ConnectionLost

  datatype SubmitResult = Created(item: WorkItem) | Merged(newId: WorkId, canonicalId: WorkId)

  // ----- casts -------------------------------------------------------------------------

  /** `u64 as i64` and back. */
  function ToI64(n: nat): int {
    var k := n % 0x1_0000_0000_0000_0000;
    if k < 0x8000_0000_0000_0000 then k else k - 0x1_0000_0000_0000_0000
  }

  function ToU64(n: int): nat {
    n % 0x1_0000_0000_0000_0000
  }

  /** `u32 as i32` and back. */
  function ToI32(n: nat): int {
    var k := n % 0x1_0000_0000;
    if k < 0x8000_0000 then k else k - 0x1_0000_0000
  }

  function IntToU32(n: int): nat {
    n % 0x1_0000_0000
  }

  const MaxI32 := 0x7fff_ffff

  /** The casts are undone on their ranges, and their values fit the columns. */
  lemma CastsRoundTrip(n: nat)
    ensures n < 0x1_0000_0000_0000_0000 ==> ToU64(ToI64(n)) == n
    ensures n < 0x1_0000_0000 ==> IntToU32(ToI32(n)) == n
    ensures -0x8000_0000_0000_0000 <= ToI64(n) < 0x8000_0000_0000_0000 && -0x8000_0000 <= ToI32(n) <= MaxI32
  {
  }

  // ----- reading a row -----------------------------------------------------------------

  /** `try_into_work_item`. */
  function ToItem(id: WorkId, r: Row): WorkItem {
    var outcome :=
      if r.outcomeData.Some? || r.outcomeError.Some? then
        Some(Outcome(r.outcomeError.None?, r.outcomeData, r.outcomeError, ToU64(r.outcomeMs.GetOr(0))))
      else None;
    WorkItem(id, r.faculty, r.skill, r.dedupKey, Provenance(r.source, r.triggerInfo), r.params, r.priority, r.state,
      r.mergedInto, r.parentId, IntToU32(r.attempts), match r.maxAttempts case None => None case Some(n) => Some(IntToU32(n)),
      r.createdAt, r.updatedAt, r.resolvedAt, outcome)
  }

  function FindItem(st: Store, id: WorkId): Result<WorkItem, DbError> {
    if id in st.rows then Ok(ToItem(id, st.rows[id])) else Err(NotFound(id))
  }

  /** An item reads as the columns of its row, with its two counts as they are where they fit 32 bits. */
  lemma ItemReads(st: Store, id: WorkId)
    ensures id !in st.rows ==> FindItem(st, id) == Err(NotFound(id))
    ensures id in st.rows ==>
              && FindItem(st, id).Ok?
              && var item, r := FindItem(st, id).value, st.rows[id];
                 && item.id == id && item.faculty == r.faculty && item.skill == r.skill && item.dedupKey == r.dedupKey
                 && item.provenance.source == r.source && item.provenance.trigger == r.triggerInfo
                 && item.params == r.params && item.priority == r.priority && item.state == r.state
                 && item.mergedInto == r.mergedInto && item.parentId == r.parentId
                 && item.createdAt == r.createdAt && item.updatedAt == r.updatedAt && item.resolvedAt == r.resolvedAt
                 && (0 <= r.attempts <= MaxI32 ==> item.attempts == r.attempts)
                 && (r.maxAttempts.None? ==> item.maxAttempts == None)
                 && (r.maxAttempts.Some? && 0 <= r.maxAttempts.value <= MaxI32 ==> item.maxAttempts == r.maxAttempts)
                 && (item.outcome.Some? <==> r.outcomeData.Some? || r.outcomeError.Some?)
                 && (item.outcome.Some? ==>
                       && item.outcome.value.data == r.outcomeData && item.outcome.value.error == r.outcomeError
                       && (item.outcome.value.success <==> r.outcomeError.None?)
                       && (r.outcomeMs.None? ==> item.outcome.value.durationMs == 0)
                       && (r.outcomeMs.Some? && r.outcomeMs.value >= 0 && r.outcomeMs.value < 0x1_0000_0000_0000_0000 ==>
                             item.outcome.value.durationMs == r.outcomeMs.value))
  {
  }

  // ----- the unique partial index ------------------------------------------------------

  /**
   The index entry of a row: only rows with a key in an active state have one. `WorkState.TextFaithful` shows that
   the states the SQL text predicate picks are those that are not terminal.
   */
  function IndexKey(r: Row): Option<(string, string)> {
    if r.dedupKey.Some? && !IsTerminal(r.state) then Some((r.faculty, r.dedupKey.value)) else None
  }

  /** At most one active row per faculty and dedup key. */
  predicate IndexOk(rows: map<WorkId, Row>) {
    forall a, b | a in rows && b in rows && a != b && IndexKey(rows[a]).Some? :: IndexKey(rows[a]) != IndexKey(rows[b])
  }

  predicate Holds(rows: map<WorkId, Row>, id: WorkId, key: (string, string)) {
    id in rows && IndexKey(rows[id]) == Some(key)
  }

  predicate Conflicts(rows: map<WorkId, Row>, key: (string, string)) {
    exists id | id in rows :: Holds(rows, id, key)
  }

  // ----- state updates -----------------------------------------------------------------

  datatype Written = Written(store: Store, error: Option<DbError>)

  /** One `UPDATE ... WHERE id = $1 AND state = $2`, with the errors the database can raise. */
  function UpdateWhere(st: Store, id: WorkId, from: State, to: State, r: Row): Written {
    if id !in st.rows || st.rows[id].state != from then Written(st, Some(InvalidTransition(from, to)))
    else if !IndexOk(st.rows[id := r]) then Written(st, Some(Database(DuplicateKey)))
    else Written(st.(rows := st.rows[id := r]), None)
  }

  function TransitionedRow(r: Row, to: State, now: Time): Row {
    r.(state := to, updatedAt := now,
       resolvedAt := if IsTerminal(to) then Some(now) else r.resolvedAt,
       attempts := r.attempts + if to == Running then 1 else 0)
  }

  function Transition(st: Store, id: WorkId, from: State, to: State, now: Time): Written {
    if !CanTransition(from, to) then Written(st, Some(InvalidTransition(from, to)))
    else if id !in st.rows || st.rows[id].state != from then Written(st, Some(InvalidTransition(from, to)))
    else if to == Running && st.rows[id].attempts >= MaxI32 then Written(st, Some(Database(IntegerOutOfRange)))
    else UpdateWhere(st, id, from, to, TransitionedRow(st.rows[id], to, now))
  }

  function CompletedRow(r: Row, o: Outcome, now: Time): Row {
    r.(state := Completed, updatedAt := now, resolvedAt := Some(now),
       outcomeData := o.data, outcomeError := o.error, outcomeMs := Some(ToI64(o.durationMs)))
  }

  function Complete(st: Store, id: WorkId, o: Outcome, now: Time): Written {
    if id !in st.rows then Written(st, Some(InvalidTransition(Running, Completed)))
    else UpdateWhere(st, id, Running, Completed, CompletedRow(st.rows[id], o, now))
  }

  function FailedRow(r: Row, error: string, ms: nat, now: Time): Row {
    r.(state := Failed, updatedAt := now, outcomeError := Some(error), outcomeMs := Some(ToI64(ms)))
  }

  function Fail(st: Store, id: WorkId, error: string, ms: nat, now: Time): Written {
    if id !in st.rows then Written(st, Some(InvalidTransition(Running, Failed)))
    else UpdateWhere(st, id, Running, Failed, FailedRow(st.rows[id], error, ms, now))
  }

  // ----- submitting --------------------------------------------------------------------

  function NewRow(n: NewWorkItem, s: State, now: Time): Row {
    Row(n.faculty, n.skill, if s == State.Merged then None else n.dedupKey, n.provenance.source, n.provenance.trigger, n.params,
      n.priority, s, None, n.parentId, 0, match n.maxAttempts case None => None case Some(k) => Some(ToI32(k)),
      now, now, None, None, None, None, None)
  }

  function MergedRow(n: NewWorkItem, canonical: WorkId, now: Time): Row {
    NewRow(n, State.Merged, now).(mergedInto := Some(canonical), resolvedAt := Some(now))
  }

  function QueuedRow(n: NewWorkItem, m: MsgId, now: Time): Row {
    NewRow(n, State.Queued, now).(msgId := Some(m))
  }

  /** Primary key and foreign key of an inserted row. */
  predicate Insertable(st: Store, id: WorkId, n: NewWorkItem) {
    id !in st.rows && (n.parentId.Some? ==> n.parentId.value in st.rows)
  }

  function Send(st: Store, p: Payload): Store {
    st.(live := st.live[st.nextMsg := p], nextMsg := st.nextMsg + 1)
  }

  function Archived(st: Store, m: MsgId): Store {
    if m in st.live then st.(archived := st.archived[m := st.live[m]], live := st.live - {m}) else st
  }

  /** What commits when the insert succeeds: a queued row and its message. */
  function Enqueue(st: Store, id: WorkId, n: NewWorkItem, now: Time): Store {
    var st' := Send(st, WorkPayload(id, n.params));
    st'.(rows := st'.rows[id := QueuedRow(n, st.nextMsg, now)])
  }

  function Merge(st: Store, id: WorkId, n: NewWorkItem, canonical: WorkId, now: Time): Store {
    st.(rows := st.rows[id := MergedRow(n, canonical, now)])
  }

  // ----- what the statements write ----

  /** Only these columns of a row can change after it is committed. */
  predicate OtherColumnsSame(r: Row, r': Row) {
    r' == r.(state := r'.state, attempts := r'.attempts, updatedAt := r'.updatedAt, resolvedAt := r'.resolvedAt,
             outcomeData := r'.outcomeData, outcomeError := r'.outcomeError, outcomeMs := r'.outcomeMs)
  }

  /** Only this row changes. */
  predicate OneRow(st: Store, st': Store, id: WorkId) {
    id in st.rows && id in st'.rows && st' == st.(rows := st.rows[id := st'.rows[id]]) && OtherColumnsSame(st.rows[id], st'.rows[id])
  }

  /** A transition stamps the row, resolves it when it ends there, counts an entry into Running, and that is all. */
  lemma TransitionWrites(st: Store, id: WorkId, from: State, to: State, now: Time)
    requires Transition(st, id, from, to, now).error.None?
    ensures var st' := Transition(st, id, from, to, now).store;
            && OneRow(st, st', id)
            && var r, r' := st.rows[id], st'.rows[id];
               && r'.state == to && r'.updatedAt == now
               && r'.resolvedAt == (if to == Completed || to == Dead || to == State.Merged then Some(now) else r.resolvedAt)
               && r'.attempts - r.attempts == (if to == Running then 1 else 0)
               && r'.outcomeData == r.outcomeData && r'.outcomeError == r.outcomeError && r'.outcomeMs == r.outcomeMs
  {
    hide IndexOk, CanTransition;
  }

  /** A completion writes the outcome and both times. */
  lemma CompletionWrites(st: Store, id: WorkId, o: Outcome, now: Time)
    requires Complete(st, id, o, now).error.None?
    ensures var st' := Complete(st, id, o, now).store;
            && OneRow(st, st', id)
            && var r, r' := st.rows[id], st'.rows[id];
               && r'.state == Completed && r'.updatedAt == now && r'.resolvedAt == Some(now) && r'.attempts == r.attempts
               && r'.outcomeData == o.data && r'.outcomeError == o.error
               && r'.outcomeMs.Some? && (o.durationMs < 0x8000_0000_0000_0000 ==> r'.outcomeMs == Some(o.durationMs))
  {
    hide IndexOk;
  }

  /** A failure writes the error and the duration, leaves earlier data, and resolves nothing. */
  lemma FailureWrites(st: Store, id: WorkId, error: string, ms: nat, now: Time)
    requires Fail(st, id, error, ms, now).error.None?
    ensures var st' := Fail(st, id, error, ms, now).store;
            && OneRow(st, st', id)
            && var r, r' := st.rows[id], st'.rows[id];
               && r'.state == Failed && r'.updatedAt == now && r'.resolvedAt == r.resolvedAt && r'.attempts == r.attempts
               && r'.outcomeData == r.outcomeData && r'.outcomeError == Some(error)
               && r'.outcomeMs.Some? && (ms < 0x8000_0000_0000_0000 ==> r'.outcomeMs == Some(ms))
  {
    hide IndexOk;
  }

  /** The columns of a new row that do not depend on what becomes of it. */
  predicate Fresh(r: Row, n: NewWorkItem, now: Time) {
    && r.faculty == n.faculty && r.skill == n.skill && r.source == n.provenance.source && r.triggerInfo == n.provenance.trigger
    && r.params == n.params && r.priority == n.priority && r.parentId == n.parentId && r.attempts == 0
    && (n.maxAttempts.None? ==> r.maxAttempts == None)
    && (n.maxAttempts.Some? && n.maxAttempts.value <= MaxI32 ==> r.maxAttempts == n.maxAttempts)
    && r.createdAt == now && r.updatedAt == now && r.outcomeData == None && r.outcomeError == None && r.outcomeMs == None
  }

  /** A row can be inserted if and only if its id is new and the parent it names exists. */
  lemma InsertableExactly(st: Store, id: WorkId, n: NewWorkItem)
    ensures Insertable(st, id, n) <==> id !in st.rows && (n.parentId == None || exists p | p in st.rows :: n.parentId == Some(p))
  {
  }

  /** A submission that meets no conflict inserts a queued row and the message that names it. */
  lemma EnqueueWrites(st: Store, id: WorkId, n: NewWorkItem, now: Time)
    ensures var st' := Enqueue(st, id, n, now);
            && id in st'.rows && st'.rows == st.rows[id := st'.rows[id]] && Fresh(st'.rows[id], n, now)
            && st'.rows[id].state == Queued && st'.rows[id].dedupKey == n.dedupKey && st'.rows[id].mergedInto == None
            && st'.rows[id].resolvedAt == None && st'.rows[id].msgId == Some(st.nextMsg)
            && st'.live == st.live[st.nextMsg := WorkPayload(id, n.params)] && st'.archived == st.archived
            && st'.nextMsg > st.nextMsg
  {
  }

  /** A merge inserts a resolved row without a key that points to its target, and no message. */
  lemma MergeWrites(st: Store, id: WorkId, n: NewWorkItem, canonical: WorkId, now: Time)
    ensures var st' := Merge(st, id, n, canonical, now);
            && id in st'.rows && st' == st.(rows := st.rows[id := st'.rows[id]]) && Fresh(st'.rows[id], n, now)
            && st'.rows[id].state == State.Merged && st'.rows[id].dedupKey == None
            && st'.rows[id].mergedInto == Some(canonical) && st'.rows[id].resolvedAt == Some(now) && st'.rows[id].msgId == None
  {
  }

  /** Archiving moves a live message and changes nothing else. */
  lemma ArchiveMoves(st: Store, m: MsgId)
    ensures var st' := Archived(st, m);
            && st'.rows == st.rows && st'.nextMsg == st.nextMsg && st'.live == st.live - {m}
            && (m in st.live ==> st'.archived == st.archived[m := st.live[m]])
            && (m !in st.live ==> st'.archived == st.archived)
  {
    assert m !in st.live ==> st.live - {m} == st.live;
  }

  // ----- the index is never violated by an update --------------------------------------

  /** An update that keeps faculty and key and takes an allowed transition cannot create a duplicate. */
  lemma UpdateKeepsIndex(rows: map<WorkId, Row>, id: WorkId, r: Row)
    requires IndexOk(rows) && id in rows
    requires r.faculty == rows[id].faculty && r.dedupKey == rows[id].dedupKey
    requires CanTransition(rows[id].state, r.state)
    ensures IndexOk(rows[id := r])
  {
    assert IndexKey(r).Some? ==> IndexKey(r) == IndexKey(rows[id]);
  }

  /** A transition succeeds exactly when it is allowed and the row is still in the expected state. */
  lemma TransitionExactly(st: Store, id: WorkId, from: State, to: State, now: Time)
    requires IndexOk(st.rows)
    ensures Transition(st, id, from, to, now).error.None?
            <==> CanTransition(from, to) && id in st.rows && st.rows[id].state == from
                 && (to == Running ==> st.rows[id].attempts < MaxI32)
    ensures Transition(st, id, from, to, now).error != Some(Database(DuplicateKey))
    ensures IndexOk(Transition(st, id, from, to, now).store.rows)
  {
    if CanTransition(from, to) && id in st.rows && st.rows[id].state == from {
      UpdateKeepsIndex(st.rows, id, TransitionedRow(st.rows[id], to, now));
    }
  }

  /** Retiring a row succeeds exactly when it is Running. */
  lemma RetireExactly(st: Store, id: WorkId, o: Outcome, error: string, ms: nat, now: Time)
    requires IndexOk(st.rows)
    ensures Complete(st, id, o, now).error.None? <==> id in st.rows && st.rows[id].state == Running
    ensures Fail(st, id, error, ms, now).error.None? <==> id in st.rows && st.rows[id].state == Running
    ensures IndexOk(Complete(st, id, o, now).store.rows)
    ensures IndexOk(Fail(st, id, error, ms, now).store.rows)
  {
    if id in st.rows && st.rows[id].state == Running {
      UpdateKeepsIndex(st.rows, id, CompletedRow(st.rows[id], o, now));
      UpdateKeepsIndex(st.rows, id, FailedRow(st.rows[id], error, ms, now));
    }
  }

  lemma CompleteCases(st: Store, id: WorkId, o: Outcome, now: Time)
    requires IndexOk(st.rows) && id in st.rows
    ensures var u := Complete(st, id, o, now);
            && id in u.store.rows
            && (st.rows[id].state == Running ==> u.error == None && u.store.rows[id].state == Completed)
            && (st.rows[id].state != Running ==> u == Written(st, Some(InvalidTransition(Running, Completed))))
  {
    hide IndexOk;
    RetireExactly(st, id, o, "", 0, now);
  }

  lemma FailCases(st: Store, id: WorkId, error: string, ms: nat, now: Time)
    requires IndexOk(st.rows) && id in st.rows
    ensures var u := Fail(st, id, error, ms, now);
            && id in u.store.rows
            && (st.rows[id].state == Running ==>
                  u == Written(st.(rows := st.rows[id := FailedRow(st.rows[id], error, ms, now)]), None) && u.store.rows[id].state == Failed)
            && (st.rows[id].state != Running ==> u == Written(st, Some(InvalidTransition(Running, Failed))))
  {
    hide IndexOk;
    RetireExactly(st, id, Outcome(false, None, None, 0), error, ms, now);
  }

  lemma InsertKeepsIndex(rows: map<WorkId, Row>, id: WorkId, r: Row)
    requires IndexOk(rows) && id !in rows
    requires IndexKey(r).Some? ==> !Conflicts(rows, IndexKey(r).value)
    ensures IndexOk(rows[id := r])
  {
    forall a | a in rows && IndexKey(r).Some? ensures IndexKey(rows[a]) != IndexKey(r) {
      assert !Holds(rows, a, IndexKey(r).value);
    }
  }
}
