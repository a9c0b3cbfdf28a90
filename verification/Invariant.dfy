/** The inductive invariant that ties loops, submissions, rows, histories and messages together. */
module Invariant {
  import opened Wrappers
  import opened WorkState
  import opened WorkStore
  import opened Focus
  import opened Protocol
  import opened StoreInvariant

  // ----- loops and submissions ---------------------------------------------------------

  predicate HasJob(pc: Pc) {
    !pc.Idle? && !pc.Checked? && !pc.Got?
  }

  /** The job's message names its item, and its faculty is the registered one. */
  predicate JobOk(c: Config, s: Sys, w: WorkerId, job: Job) {
    && Carries(s.store, job.m, job.id)
    && job.id in s.store.rows && job.id in s.history
    && w in c.planeOf
    && Registered(c, c.planeOf[w], s.store.rows[job.id].faculty, job.faculty)
  }

  predicate PcOk(c: Config, s: Sys, w: WorkerId, pc: Pc) {
    && (pc.Got? ==> MessageAt(s.store, pc.m) == Some(pc.body))
    && (HasJob(pc) ==>
          && JobOk(c, s, w, pc.job)
          && (c.others != Unrestricted && Holding(pc) ==> s.store.rows[pc.job.id].state == Running)
          && (pc.Ended? || pc.Uncounted? ==> GotResult(c, s.history[pc.job.id], pc.result))
          && (pc.Retired? ==> s.store.rows[pc.job.id].state == Completed))
  }

  predicate LoopsOk(c: Config, s: Sys) {
    forall w | w in s.workers && Active(c, s.workers[w]) :: PcOk(c, s, w, s.workers[w].pc)
  }

  /** No two loops hold the same item. */
  predicate Exclusive(c: Config, s: Sys) {
    forall v, w | v in s.workers && w in s.workers && v != w && Holder(c, s.workers[v]) && Holder(c, s.workers[w]) ::
      s.workers[v].pc.job.id != s.workers[w].pc.job.id
  }

  /** A canonical row that was found is fit to be merged into. */
  predicate SubmissionOk(s: Sys, q: Submission) {
    && q.n.dedupKey.Some?
    && (q.Found? ==>
          && q.canonical in s.store.rows && q.canonical in s.history
          && s.store.rows[q.canonical].state != State.Merged
          && s.store.rows[q.canonical].faculty == q.n.faculty
          && s.history[q.canonical].submitted.dedupKey == q.n.dedupKey)
  }

  predicate SubmissionsOk(s: Sys) {
    forall k | k in s.submissions :: SubmissionOk(s, s.submissions[k])
  }

  ghost predicate Inv(c: Config, s: Sys) {
    && WellShaped(c, s)
    && StoreOk(c, s)
    && LoopsOk(c, s)
    && Exclusive(c, s)
    && SubmissionsOk(s)
  }

  // ----- what every step leaves alone --------------------------------------------------

  predicate RowGrows(s: Sys, t: Sys, id: WorkId)
    requires id in s.store.rows && id in s.history
  {
    && id in t.store.rows && id in t.history
    && t.store.rows[id].faculty == s.store.rows[id].faculty
    && t.history[id].submitted == s.history[id].submitted
    && s.history[id].runs <= t.history[id].runs
    && (s.store.rows[id].state == Completed ==> t.store.rows[id].state == Completed)
    && (s.store.rows[id].state != State.Merged ==> t.store.rows[id].state != State.Merged)
  }

  /** Rows and messages stay; completed items stay completed; nothing becomes merged. */
  ghost predicate Grows(s: Sys, t: Sys) {
    && (forall id | id in s.store.rows && id in s.history :: RowGrows(s, t, id))
    && (forall m: MsgId | MessageAt(s.store, m).Some? :: MessageAt(t.store, m) == MessageAt(s.store, m))
  }

  /** The item's state and runs are untouched. */
  predicate Still(s: Sys, t: Sys, id: WorkId) {
    && id in s.store.rows && id in t.store.rows && id in s.history && id in t.history
    && t.store.rows[id].state == s.store.rows[id].state
    && t.history[id].runs == s.history[id].runs
  }

  predicate OthersStill(c: Config, s: Sys, t: Sys, w: WorkerId) {
    forall v | v in s.workers && v != w && Holder(c, s.workers[v]) :: Still(s, t, s.workers[v].pc.job.id)
  }

  lemma PcFrame(c: Config, s: Sys, t: Sys, w: WorkerId, pc: Pc)
    requires PcOk(c, s, w, pc) && Grows(s, t)
    requires c.others != Unrestricted && Holding(pc) ==> Still(s, t, pc.job.id)
    ensures PcOk(c, t, w, pc)
  {
    if HasJob(pc) {
      assert RowGrows(s, t, pc.job.id);
      assert MessageAt(s.store, pc.job.m).Some?;
      if pc.Ended? || pc.Uncounted? {
        ResultStays(c, s.history[pc.job.id], t.history[pc.job.id], pc.result);
      }
    }
  }

  lemma ResultStays(c: Config, h: History, h': History, x: FocusResult)
    requires GotResult(c, h, x) && h.runs <= h'.runs && (c.others != Unrestricted ==> h'.runs == h.runs)
    ensures GotResult(c, h', x)
  {
    hide ResultOf;
    var i :| 0 <= i < |h.runs| && ResultOf(c, h.runs[i]) == x;
    assert h'.runs[i] == h.runs[i];
  }

  lemma SubmissionsFrame(s: Sys, t: Sys)
    requires SubmissionsOk(s) && Grows(s, t) && t.submissions == s.submissions
    ensures SubmissionsOk(t)
  {
    forall k | k in t.submissions ensures SubmissionOk(t, t.submissions[k]) {
      var q := s.submissions[k];
      assert SubmissionOk(s, q);
      if q.Found? {
        assert RowGrows(s, t, q.canonical);
      }
    }
  }

  lemma AdvanceLoops(c: Config, s: Sys, t: Sys, w: WorkerId, x: Worker)
    requires LoopsOk(c, s) && Grows(s, t) && OthersStill(c, s, t, w)
    requires t.workers == s.workers[w := x] && (Active(c, x) ==> PcOk(c, t, w, x.pc))
    ensures LoopsOk(c, t)
  {
    forall v | v in t.workers && Active(c, t.workers[v]) ensures PcOk(c, t, v, t.workers[v].pc) {
      if v != w {
        assert PcOk(c, s, v, s.workers[v].pc);
        PcFrame(c, s, t, v, s.workers[v].pc);
      }
    }
  }

  lemma AdvanceExclusive(c: Config, s: Sys, t: Sys, w: WorkerId, x: Worker)
    requires Exclusive(c, s) && t.workers == s.workers[w := x]
    requires Holder(c, x) ==> forall v | v in s.workers && v != w :: !HoldsItem(c, s, v, x.pc.job.id)
    ensures Exclusive(c, t)
  {
    assert Holder(c, x) ==> forall v | v in s.workers && v != w && Holder(c, s.workers[v]) ::
        !HoldsItem(c, s, v, x.pc.job.id) && s.workers[v].pc.job.id != x.pc.job.id;
  }

  /** A step of one loop: the others are framed, and its own new place is justified. */
  lemma Advance(c: Config, s: Sys, t: Sys, w: WorkerId, x: Worker)
    requires Inv(c, s) && w in s.workers
    requires WellShaped(c, t) && StoreOk(c, t) && Grows(s, t) && OthersStill(c, s, t, w)
    requires t.workers == s.workers[w := x] && t.submissions == s.submissions
    requires Active(c, x) ==> PcOk(c, t, w, x.pc)
    requires Holder(c, x) ==> forall v | v in s.workers && v != w :: !HoldsItem(c, s, v, x.pc.job.id)
    ensures Inv(c, t)
  {
    AdvanceLoops(c, s, t, w, x);
    AdvanceExclusive(c, s, t, w, x);
    SubmissionsFrame(s, t);
  }

  lemma SameStore(c: Config, s: Sys, t: Sys)
    requires StoreOk(c, s) && t.store == s.store && t.history == s.history
    ensures StoreOk(c, t) && Grows(s, t)
  {
    forall x | x in t.store.rows ensures MergeOk(t.store.rows, t.history, x) {
      assert MergeOk(s.store.rows, s.history, x);
    }
  }

  lemma HoldersExist(c: Config, s: Sys)
    requires Inv(c, s)
    ensures forall v | v in s.workers && Holder(c, s.workers[v]) ::
              && s.workers[v].pc.job.id in s.store.rows && s.workers[v].pc.job.id in s.history
              && s.store.rows[s.workers[v].pc.job.id].state == Running
  {
    forall v | v in s.workers && Holder(c, s.workers[v])
      ensures && s.workers[v].pc.job.id in s.store.rows && s.workers[v].pc.job.id in s.history
              && s.store.rows[s.workers[v].pc.job.id].state == Running
    {
      assert PcOk(c, s, v, s.workers[v].pc);
    }
  }

  /** A step that commits nothing. */
  lemma LocalStep(c: Config, s: Sys, t: Sys, w: WorkerId, x: Worker)
    requires Inv(c, s) && w in s.workers && WellShaped(c, t)
    requires t.store == s.store && t.history == s.history && t.submissions == s.submissions
    requires t.workers == s.workers[w := x]
    requires Active(c, x) ==> PcOk(c, s, w, x.pc)
    requires Holder(c, x) ==> HoldsItem(c, s, w, x.pc.job.id)
    ensures Inv(c, t)
  {
    SameStore(c, s, t);
    HoldersExist(c, s);
    if Active(c, x) {
      PcFrame(c, s, t, w, x.pc);
    }
    Advance(c, s, t, w, x);
  }

  /** Replacing a row along its history grows the system, and leaves every other item alone. */
  lemma ReplacedGrows(s: Sys, id: WorkId, r: Row, h: History)
    requires id in s.store.rows && id in s.history && Moves(s.store.rows[id], r)
    requires s.store.rows[id].state != State.Created && h.submitted == s.history[id].submitted
    requires s.history[id].runs <= h.runs
    ensures Grows(s, Replaced(s, id, r, h))
    ensures forall x | x in s.store.rows && x in s.history && x != id :: Still(s, Replaced(s, id, r, h), x)
  {
    var t := Replaced(s, id, r, h);
    assert RowGrows(s, t, id);
    assert forall m: MsgId :: MessageAt(t.store, m) == MessageAt(s.store, m);
  }

  lemma TransitionShape(c: Config, s: Sys, id: WorkId, from: State, to: State, now: Time)
    requires StoreOk(c, s) && Transition(s.store, id, from, to, now).error.None?
    ensures id in s.store.rows && id in s.history && s.store.rows[id].state == from && CanTransition(from, to)
    ensures from != State.Created && RowOk(c, s.store.rows[id], s.history[id])
    ensures EnteredFrom(s.history[id], from, to).submitted == s.history[id].submitted
    ensures EnteredFrom(s.history[id], from, to).runs == s.history[id].runs
    ensures to == Running ==> s.store.rows[id].attempts < MaxI32
    ensures var t := Taken(s, id, from, to, now);
            && t == Replaced(s, id, TransitionedRow(s.store.rows[id], to, now), EnteredFrom(s.history[id], from, to))
            && (from != Running ==> t == Enter(s, Transition(s.store, id, from, to, now).store, id, to))
  {
    hide IndexOk, MergesOk, MessagesOk, QueueOk, RowOk;
    var r, h := s.store.rows[id], s.history[id];
    assert RowOk(c, r, h);
    NotCreated(c, r, h);
    assert s.history[id := Entered(h, to)][id := EnteredFrom(h, from, to)] == s.history[id := EnteredFrom(h, from, to)];
  }

  lemma NotCreated(c: Config, r: Row, h: History)
    requires RowOk(c, r, h)
    ensures r.state != State.Created
  {
  }

  /** The state after a transition. */
  lemma TransitionOk(c: Config, s: Sys, id: WorkId, from: State, to: State, now: Time)
    requires StoreOk(c, s) && Transition(s.store, id, from, to, now).error.None?
    ensures id in s.store.rows && id in s.history && s.store.rows[id].state == from && CanTransition(from, to)
    ensures var t := Taken(s, id, from, to, now);
            && t == Replaced(s, id, TransitionedRow(s.store.rows[id], to, now), EnteredFrom(s.history[id], from, to))
            && (from != Running ==> t == Enter(s, Transition(s.store, id, from, to, now).store, id, to))
            && StoreOk(c, t) && Grows(s, t)
            && forall x | x in s.store.rows && x in s.history && x != id :: Still(s, t, x)
  {
    hide StoreOk, Grows, Still, RowOk, Replaced, Taken, TransitionedRow, EnteredFrom, Transition, Enter;
    TransitionShape(c, s, id, from, to, now);
    var r, h := s.store.rows[id], s.history[id];
    TransitionedRowOk(c, r, h, to, now);
    ReplacedOk(c, s, id, TransitionedRow(r, to, now), EnteredFrom(h, from, to));
    ReplacedGrows(s, id, TransitionedRow(r, to, now), EnteredFrom(h, from, to));
  }
}
