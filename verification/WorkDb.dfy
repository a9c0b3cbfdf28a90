/**
 The database handle of src/db: the committed state, changed in place by each operation. Updates and submissions read
 the row back after the commit; `lost` says whether that read fails, in which case the change stays.
 */
module WorkDb {
  import opened Wrappers
  import opened WorkState
  import opened WorkStore

  /** An active item has the faculty and the key of the new one. */
  predicate Duplicates(rows: map<WorkId, Row>, n: NewWorkItem) {
    n.dedupKey.Some? && Conflicts(rows, (n.faculty, n.dedupKey.value))
  }

  /**
   What a submission returns and leaves behind. `lost` says that the error of a commit that went through, or of the read
   after it, is returned.
   */
  predicate Submitted(st: Store, n: NewWorkItem, id: WorkId, now: Time, lost: bool, r: Result<SubmitResult, DbError>, st': Store) {
    if !Insertable(st, id, n) then
      r == Err(Database(if id in st.rows then DuplicateKey else BadReference)) && st' == st
    else if Duplicates(st.rows, n) then
      exists x | x in st.rows ::
        && Holds(st.rows, x, (n.faculty, n.dedupKey.value))
        && st' == Merge(st, id, n, x, now)
        && r == if lost then Err(Database(ConnectionLost)) else Ok(SubmitResult.Merged(id, x))
    else
      && st' == Enqueue(st, id, n, now)
      && r == if lost then Err(Database(ConnectionLost)) else Ok(SubmitResult.Created(ToItem(id, QueuedRow(n, st.nextMsg, now))))
  }

  /** What the read after a commit gives. */
  function ReadBack(lost: bool, st: Store, id: WorkId): Result<WorkItem, DbError> {
    if lost then Err(Database(ConnectionLost)) else FindItem(st, id)
  }

  class Db {
    var rows: map<WorkId, Row>
    var live: map<MsgId, Payload>
    var archived: map<MsgId, Payload>
    var nextMsg: MsgId

    function Snapshot(): Store
      reads this
    {
      Store(rows, live, archived, nextMsg)
    }

    constructor ()
      ensures Snapshot() == Store(map[], map[], map[], 1)
    {
      rows, live, archived, nextMsg := map[], map[], map[], 1;
    }

    /** `get_work_item`. */
    method GetWorkItem(id: WorkId) returns (r: Result<WorkItem, DbError>)
      ensures r == FindItem(Snapshot(), id)
    {
      if id !in rows {
        return Err(NotFound(id));
      }
      return Ok(ToItem(id, rows[id]));
    }

    /** The read after a commit. */
    method GetBack(id: WorkId, lost: bool) returns (r: Result<WorkItem, DbError>)
      ensures r == ReadBack(lost, Snapshot(), id)
    {
      if lost {
        return Err(Database(ConnectionLost));
      }
      r := GetWorkItem(id);
    }

    /** Sets the row unless the unique index refuses it. */
    method Update(id: WorkId, r: Row) returns (error: Option<DbError>)
      requires id in rows
      modifies this`rows
      ensures error == if IndexOk(old(rows)[id := r]) then None else Some(Database(DuplicateKey))
      ensures rows == if IndexOk(old(rows)[id := r]) then old(rows)[id := r] else old(rows)
    {
      if !IndexOk(rows[id := r]) {
        return Some(Database(DuplicateKey));
      }
      rows := rows[id := r];
      return None;
    }

    /**
     `transition_state`: with a sound index the row moves exactly when the transition is allowed and the row is
     still in the expected state; otherwise nothing changes. A lost read-back is an error after the move.
     */
    method TransitionState(id: WorkId, from: State, to: State, now: Time, lost: bool) returns (r: Result<WorkItem, DbError>)
      requires IndexOk(rows)
      modifies this`rows
      ensures Snapshot() == Transition(old(Snapshot()), id, from, to, now).store && IndexOk(rows)
      ensures var w := Transition(old(Snapshot()), id, from, to, now);
              r == if w.error.Some? then Err(w.error.value) else ReadBack(lost, w.store, id)
      ensures r.Ok? <==> !lost && CanTransition(from, to) && id in old(rows) && old(rows)[id].state == from
                         && (to == Running ==> old(rows)[id].attempts < MaxI32)
      ensures r.Ok? ==> r.value.state == to
    {
      hide IndexOk;
      ghost var before := Snapshot();
      TransitionExactly(before, id, from, to, now);
      if !CanTransition(from, to) {
        return Err(InvalidTransition(from, to));
      }
      if id !in rows || rows[id].state != from {
        return Err(InvalidTransition(from, to));
      }
      var row := rows[id];
      var resolvedAt := if IsTerminal(to) then Some(now) else None;
      var increment := if to == Running then 1 else 0;
      if increment == 1 && row.attempts >= MaxI32 {
        return Err(Database(IntegerOutOfRange));
      }
      var updated := row.(state := to, updatedAt := now,
        resolvedAt := if resolvedAt.Some? then resolvedAt else row.resolvedAt, attempts := row.attempts + increment);
      assert updated == TransitionedRow(row, to, now);
      var error := Update(id, updated);
      match error
      case Some(e) => r := Err(e);
      case None => r := GetBack(id, lost);
    }

    /** `complete_work`: commits exactly on a Running row; a lost read-back is an error after that. */
    method CompleteWork(id: WorkId, outcome: Outcome, now: Time, lost: bool) returns (r: Result<WorkItem, DbError>)
      requires IndexOk(rows)
      modifies this`rows
      ensures Snapshot() == Complete(old(Snapshot()), id, outcome, now).store && IndexOk(rows)
      ensures r.Ok? <==> !lost && id in old(rows) && old(rows)[id].state == Running
      ensures r.Ok? ==> r == FindItem(Snapshot(), id) && r.value.state == Completed
      ensures r.Err? ==> r.error == Complete(old(Snapshot()), id, outcome, now).error.GetOr(Database(ConnectionLost))
    {
      ghost var before := Snapshot();
      if id !in rows || rows[id].state != Running {
        return Err(InvalidTransition(Running, Completed));
      }
      var error := Update(id, rows[id].(state := Completed, updatedAt := now, resolvedAt := Some(now),
        outcomeData := outcome.data, outcomeError := outcome.error, outcomeMs := Some(ToI64(outcome.durationMs))));
      if error.Some? {
        r := Err(error.value);
      } else {
        r := GetBack(id, lost);
      }
      RetireExactly(before, id, outcome, "", 0, now);
    }

    /** `fail_work`: commits exactly on a Running row; a lost read-back is an error after that. */
    method FailWork(id: WorkId, message: string, ms: nat, now: Time, lost: bool) returns (r: Result<WorkItem, DbError>)
      requires IndexOk(rows)
      modifies this`rows
      ensures Snapshot() == Fail(old(Snapshot()), id, message, ms, now).store && IndexOk(rows)
      ensures r.Ok? <==> !lost && id in old(rows) && old(rows)[id].state == Running
      ensures r.Ok? ==> r == FindItem(Snapshot(), id) && r.value.state == Failed
      ensures r.Err? ==> r.error == Fail(old(Snapshot()), id, message, ms, now).error.GetOr(Database(ConnectionLost))
    {
      ghost var before := Snapshot();
      if id !in rows || rows[id].state != Running {
        return Err(InvalidTransition(Running, Failed));
      }
      var error := Update(id, rows[id].(state := Failed, updatedAt := now, outcomeError := Some(message),
        outcomeMs := Some(ToI64(ms))));
      if error.Some? {
        r := Err(error.value);
      } else {
        r := GetBack(id, lost);
      }
      RetireExactly(before, id, Outcome(false, None, None, 0), message, ms, now);
    }

    /** `send_to_queue`. */
    method SendToQueue(p: Payload) returns (m: MsgId)
      modifies this`live, this`nextMsg
      ensures m == old(nextMsg) && live == old(live)[m := p] && Snapshot() == Send(old(Snapshot()), p)
    {
      m := nextMsg;
      live := live[m := p];
      nextMsg := nextMsg + 1;
    }

    /** `read_from_queue`: some live message, or none when the queue is empty or everything in it is invisible. */
    method ReadFromQueue(allInvisible: bool) returns (msg: Option<(MsgId, Payload)>)
      ensures msg.Some? ==> msg.value.0 in live && live[msg.value.0] == msg.value.1
      ensures msg.None? <==> allInvisible || live == map[]
    {
      if allInvisible || live == map[] {
        return None;
      }
      assert live.Keys != {};
      var m :| m in live;
      return Some((m, live[m]));
    }

    /** `archive_message`: moves a live message to the archive. */
    method ArchiveMessage(m: MsgId)
      modifies this`live, this`archived
      ensures Snapshot() == Archived(old(Snapshot()), m)
    {
      if m in live {
        archived := archived[m := live[m]];
        live := live - {m};
      }
    }

    /**
     `submit_work` with nothing committing in between: a new item is queued with its message, or merged into the
     one active item with its key. An error leaves everything as it was, except that of a lost commit or read-back.
     */
    method SubmitWork(n: NewWorkItem, id: WorkId, now: Time, lost: bool) returns (r: Result<SubmitResult, DbError>)
      requires IndexOk(rows)
      modifies this
      ensures IndexOk(rows) && Submitted(old(Snapshot()), n, id, now, lost, r, Snapshot())
    {
      if id in rows {
        return Err(Database(DuplicateKey));
      }
      if n.parentId.Some? && n.parentId.value !in rows {
        return Err(Database(BadReference));
      }
      if n.dedupKey.Some? && Conflicts(rows, (n.faculty, n.dedupKey.value)) {
        var canonical :| canonical in rows && Holds(rows, canonical, (n.faculty, n.dedupKey.value));
        InsertKeepsIndex(rows, id, MergedRow(n, canonical, now));
        rows := rows[id := MergedRow(n, canonical, now)];
        if lost {
          return Err(Database(ConnectionLost));
        }
        return Ok(SubmitResult.Merged(id, canonical));
      }
      InsertKeepsIndex(rows, id, NewRow(n, State.Created, now));
      rows := rows[id := NewRow(n, State.Created, now)];
      var m := SendToQueue(WorkPayload(id, n.params));
      ghost var created := rows;
      rows := rows[id := rows[id].(state := Queued, msgId := Some(m))];
      UpdateKeepsIndex(created, id, rows[id]);
      assert rows == old(rows)[id := QueuedRow(n, m, now)];
      var item := GetBack(id, lost);
      if item.Err? {
        return Err(item.error);
      }
      return Ok(SubmitResult.Created(item.value));
    }
  }

  /** Every submitted field reads back from a new item. */
  lemma SubmittedReadsBack(n: NewWorkItem, id: WorkId, m: MsgId, now: Time)
    requires n.maxAttempts.Some? ==> n.maxAttempts.value < 0x1_0000_0000
    ensures var item := ToItem(id, QueuedRow(n, m, now));
            && item.faculty == n.faculty && item.skill == n.skill && item.dedupKey == n.dedupKey
            && item.provenance == n.provenance && item.params == n.params && item.priority == n.priority
            && item.parentId == n.parentId && item.maxAttempts == n.maxAttempts
            && item.state == Queued && item.attempts == 0 && item.outcome == None && item.resolvedAt == None
  {
    if n.maxAttempts.Some? {
      CastsRoundTrip(n.maxAttempts.value);
    }
  }
}
