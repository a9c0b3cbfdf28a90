/** Submissions of work as runs: what a conflict can end in, and that `submit_work` is one of these runs. */
module Submissions {
  import opened Wrappers
  import opened Json
  import opened WorkState
  import opened WorkStore
  import opened WorkDb
  import opened Protocol
  import opened StoreInvariant
  import opened Invariant
  import opened Steps
  import opened Runs
  import Outsiders

  /** A submission that met a conflict leaves everything as it was unless it ends merged. */
  lemma ConflictEndsMergedOrNothing(c: Config, s: Sys, k: SubmitterId, what: SubmitAct)
    requires Reachable(c, s) && k in s.submissions && SubmitStep(s, k, what).Some?
    ensures var t := SubmitStep(s, k, what).value;
            if what.InsertMerged? && Insertable(s.store, s.submissions[k].id, s.submissions[k].n) then
              var q := s.submissions[k];
              && t.store == Merge(s.store, q.id, q.n, q.canonical, q.now)
              && q.canonical in s.store.rows && s.store.rows[q.canonical].state != State.Merged
            else t.store == s.store && t.history == s.history
  {
    hide StoreOk, LoopsOk, Exclusive;
    ReachableOk(c, s);
    assert SubmissionOk(s, s.submissions[k]);
  }

  predicate NotBy(labels: seq<Label>, k: SubmitterId) {
    forall i | 0 <= i < |labels| :: !(labels[i].Submit? && labels[i].k == k)
  }

  lemma OthersKeepSubmission(c: Config, s: Sys, l: Label, k: SubmitterId)
    requires WellShaped(c, s) && Step(c, s, l).Some? && k in s.submissions && !(l.Submit? && l.k == k)
    ensures k in Step(c, s, l).value.submissions && Step(c, s, l).value.submissions[k] == s.submissions[k]
  {
    hide LoopStep, Taken, Transition, Enqueue, Merge, Conflicts, Holds, Insertable;
    if l.Loop? {
      LoopKeepsSubmissions(c, s, l.w, l.act);
    }
  }

  lemma LoopKeepsSubmissions(c: Config, s: Sys, w: WorkerId, act: Act)
    requires WellShaped(c, s) && w in s.workers && LoopStep(c, s, w, act).Some?
    ensures LoopStep(c, s, w, act).value.submissions == s.submissions
  {
    hide StepFetch, StepTransition, StepRetire, StepRun, Archived, SameKeys, WellShaped;
    ShapedLoop(c, s, w);
  }

  lemma {:induction false} SubmissionKept(c: Config, s: Sys, labels: seq<Label>, k: SubmitterId)
    requires WellShaped(c, s) && Exec(c, s, labels).Some? && k in s.submissions && NotBy(labels, k)
    ensures k in Exec(c, s, labels).value.submissions && Exec(c, s, labels).value.submissions[k] == s.submissions[k]
    decreases |labels|
  {
    hide Step;
    if labels != [] {
      OthersKeepSubmission(c, s, labels[0], k);
      SubmissionKept(c, Step(c, s, labels[0]).value, labels[1..], k);
    }
  }

  /** An active item of the faculty that has the key. */
  predicate ActiveWith(st: Store, x: WorkId, n: NewWorkItem) {
    && x in st.rows && !IsTerminal(st.rows[x].state)
    && st.rows[x].faculty == n.faculty && st.rows[x].dedupKey == n.dedupKey && n.dedupKey.Some?
  }

  /**
   From the lookup to the merged insert, whatever others do in between: the target was active with the key when it was
   looked up, and if a row is inserted it is merged into that target, which is still there, of the same faculty and not
   merged itself.
   */
  lemma LookupToMerge(c: Config, s: Sys, k: SubmitterId, x: WorkId, labels: seq<Label>)
    requires Reached(c, s) && k in s.submissions && SubmitStep(s, k, Lookup(x)).Some?
    requires var s1 := SubmitStep(s, k, Lookup(x)).value;
             WellShaped(c, s1) && NotBy(labels, k) && Exec(c, s1, labels).Some?
    ensures ActiveWith(s.store, x, s.submissions[k].n)
    ensures var q, s2 := s.submissions[k], Exec(c, SubmitStep(s, k, Lookup(x)).value, labels).value;
            var t := SubmitStep(s2, k, InsertMerged);
            && t.Some?
            && (if Insertable(s2.store, q.id, q.n) then
                  && t.value.store == Merge(s2.store, q.id, q.n, x, q.now)
                  && x in s2.store.rows && s2.store.rows[x].state != State.Merged && s2.store.rows[x].faculty == q.n.faculty
                else t.value.store == s2.store)
  {
    hide Exec, Step, Inv, Insertable, Merge;
    var s1 := SubmitStep(s, k, Lookup(x)).value;
    LookupStep(c, s, k, x);
    StepReached(c, s, Submit(k, Lookup(x)), s1);
    SubmissionKept(c, s1, labels, k);
    ReachableOk(c, s1);
    RunOkFrom(c, s1, labels);
    FoundFits(c, Exec(c, s1, labels).value, k);
  }

  lemma LookupStep(c: Config, s: Sys, k: SubmitterId, x: WorkId)
    requires WellShaped(c, s) && k in s.submissions && SubmitStep(s, k, Lookup(x)).Some?
    ensures ActiveWith(s.store, x, s.submissions[k].n)
    ensures var q := s.submissions[k];
            && Step(c, s, Submit(k, Lookup(x))) == SubmitStep(s, k, Lookup(x))
            && k in SubmitStep(s, k, Lookup(x)).value.submissions
            && SubmitStep(s, k, Lookup(x)).value.submissions[k] == Found(q.id, q.n, q.now, x)
  {
  }

  lemma FoundFits(c: Config, s: Sys, k: SubmitterId)
    requires Inv(c, s) && k in s.submissions && s.submissions[k].Found?
    ensures var q := s.submissions[k];
            q.canonical in s.store.rows && s.store.rows[q.canonical].state != State.Merged && s.store.rows[q.canonical].faculty == q.n.faculty
  {
    hide StoreOk, LoopsOk, Exclusive;
    assert SubmissionOk(s, s.submissions[k]);
  }

  /** A duplicate is about to be merged into an item that is no longer active. */
  predicate MergesIntoTerminal(s: Sys, k: SubmitterId) {
    && k in s.submissions && s.submissions[k].Found? && Insertable(s.store, s.submissions[k].id, s.submissions[k].n)
    && s.submissions[k].canonical in s.store.rows && IsTerminal(s.store.rows[s.submissions[k].canonical].state)
  }

  function Keyed(name: string, key: string): NewWorkItem {
    NewWorkItem(name, None, Some(key), Provenance("", None), Null, 0, None, None)
  }

  /** The target need not be active any more at the commit: others can finish it between the lookup and the insert. */
  lemma TargetMayBeTerminal(c: Config, name: string, key: string)
    requires GoodConfig(c)
    ensures exists s, k: SubmitterId :: Reachable(c, s) && MergesIntoTerminal(s, k)
  {
    hide Reachable, WellShaped;
    var n := Keyed(name, key);
    InitialReached(c);
    var s0 := Initial(c);
    var s1 := s0.(store := Enqueue(s0.store, 1, n, 0), history := s0.history[1 := NewHistory(n, Queued)]);
    StepReached(c, s0, Submit(0, TryInsert(1, n, 0)), s1);
    assert Holds(s1.store.rows, 1, (name, key));
    var s2 := s1.(submissions := s1.submissions[0 := Conflicted(2, n, 0)]);
    StepReached(c, s1, Submit(0, TryInsert(2, n, 0)), s2);
    var s3 := s2.(submissions := s2.submissions[0 := Found(2, n, 0, 1)]);
    StepReached(c, s2, Submit(0, Lookup(1)), s3);
    var s4 := Outsiders.OthersMove(c, s3, 1, Queued, Dead);
    Outsiders.MoveKeepsKeys(s3, 1, Queued, Dead);
    assert MergesIntoTerminal(s4, 0);
  }

  // ----- the method is one of these runs -----------------------------------------------

  predicate OnlyBy(labels: seq<Label>, k: SubmitterId) {
    forall i | 0 <= i < |labels| :: labels[i].Submit? && labels[i].k == k
  }

  /** Steps of this submitter alone lead to this store, with nothing of it pending. */
  ghost predicate SubmitsTo(c: Config, s: Sys, labels: seq<Label>, k: SubmitterId, st: Store)
    requires WellShaped(c, s)
  {
    && OnlyBy(labels, k) && Exec(c, s, labels).Some?
    && Exec(c, s, labels).value.store == st && Exec(c, s, labels).value.submissions == s.submissions
  }

  lemma InsertRun(c: Config, s: Sys, k: SubmitterId, n: NewWorkItem, id: WorkId, now: Time)
    requires WellShaped(c, s) && k !in s.submissions && !Duplicates(s.store.rows, n)
    ensures SubmitsTo(c, s, [Submit(k, TryInsert(id, n, now))], k,
              if Insertable(s.store, id, n) then Enqueue(s.store, id, n, now) else s.store)
  {
    hide Exec, Enqueue, Conflicts, Insertable;
    ExecOne(c, s, Submit(k, TryInsert(id, n, now)));
  }

  lemma MergeRun(c: Config, s: Sys, k: SubmitterId, n: NewWorkItem, id: WorkId, now: Time, x: WorkId)
    requires WellShaped(c, s) && k !in s.submissions && n.dedupKey.Some? && Holds(s.store.rows, x, (n.faculty, n.dedupKey.value))
    ensures SubmitsTo(c, s, [Submit(k, TryInsert(id, n, now))] + [Submit(k, Lookup(x))] + [Submit(k, InsertMerged)], k,
              if Insertable(s.store, id, n) then Merge(s.store, id, n, x, now) else s.store)
  {
    hide Exec, Step, SubmitStep, Merge, Insertable, Holds;
    var l1, l2, l3 := Submit(k, TryInsert(id, n, now)), Submit(k, Lookup(x)), Submit(k, InsertMerged);
    var s1 := s.(submissions := s.submissions[k := Conflicted(id, n, now)]);
    var s2 := s.(submissions := s.submissions[k := Found(id, n, now, x)]);
    MergeSteps(c, s, k, n, id, now, x);
    ExecOne(c, s, l1);
    ExecOne(c, s1, l2);
    ExecOne(c, s2, l3);
    ExecAppend(c, s, [l1], [l2]);
    ExecAppend(c, s, [l1] + [l2], [l3]);
    assert s.submissions[k := Found(id, n, now, x)] - {k} == s.submissions;
  }

  lemma ConflictOf(rows: map<WorkId, Row>, x: WorkId, key: (string, string))
    requires Holds(rows, x, key)
    ensures Conflicts(rows, key) && x in rows
  {
  }

  lemma TryConflicts(c: Config, s: Sys, k: SubmitterId, n: NewWorkItem, id: WorkId, now: Time)
    requires WellShaped(c, s) && k !in s.submissions && Duplicates(s.store.rows, n)
    ensures Step(c, s, Submit(k, TryInsert(id, n, now))) == Some(s.(submissions := s.submissions[k := Conflicted(id, n, now)]))
  {
    hide Insertable, Enqueue, Conflicts;
  }

  lemma LookupFinds(c: Config, s: Sys, k: SubmitterId, x: WorkId)
    requires WellShaped(c, s) && k in s.submissions && s.submissions[k].Conflicted?
    requires var n := s.submissions[k].n; n.dedupKey.Some? && Holds(s.store.rows, x, (n.faculty, n.dedupKey.value))
    ensures var q := s.submissions[k];
            Step(c, s, Submit(k, Lookup(x))) == Some(s.(submissions := s.submissions[k := Found(q.id, q.n, q.now, x)]))
  {
    hide Holds;
  }

  lemma InsertsMerged(c: Config, s: Sys, k: SubmitterId)
    requires WellShaped(c, s) && k in s.submissions && s.submissions[k].Found? && s.submissions[k].canonical in s.store.rows
    ensures var q, t := s.submissions[k], Step(c, s, Submit(k, InsertMerged));
            && t.Some? && t.value.submissions == s.submissions - {k}
            && t.value.store == if Insertable(s.store, q.id, q.n) then Merge(s.store, q.id, q.n, q.canonical, q.now) else s.store
  {
    hide Insertable, Merge;
  }

  lemma MergeSteps(c: Config, s: Sys, k: SubmitterId, n: NewWorkItem, id: WorkId, now: Time, x: WorkId)
    requires WellShaped(c, s) && k !in s.submissions && n.dedupKey.Some? && Holds(s.store.rows, x, (n.faculty, n.dedupKey.value))
    ensures var s1 := s.(submissions := s.submissions[k := Conflicted(id, n, now)]);
            var s2 := s.(submissions := s.submissions[k := Found(id, n, now, x)]);
            && Step(c, s, Submit(k, TryInsert(id, n, now))) == Some(s1)
            && Step(c, s1, Submit(k, Lookup(x))) == Some(s2)
            && var t := Step(c, s2, Submit(k, InsertMerged));
               && t.Some? && t.value.submissions == s2.submissions - {k}
               && t.value.store == if Insertable(s.store, id, n) then Merge(s.store, id, n, x, now) else s.store
  {
    hide Step, Merge, Insertable, Holds, Conflicts;
    var s1 := s.(submissions := s.submissions[k := Conflicted(id, n, now)]);
    var s2 := s.(submissions := s.submissions[k := Found(id, n, now, x)]);
    ConflictOf(s.store.rows, x, (n.faculty, n.dedupKey.value));
    TryConflicts(c, s, k, n, id, now);
    assert s1.submissions[k := Found(id, n, now, x)] == s2.submissions;
    LookupFinds(c, s1, k, x);
    InsertsMerged(c, s2, k);
  }

  /** Whatever `submit_work` returns, what it leaves behind is where an uninterrupted run of its submission ends. */
  lemma SubmitWorkIsRun(c: Config, s: Sys, k: SubmitterId, n: NewWorkItem, id: WorkId, now: Time, lost: bool,
      r: Result<SubmitResult, DbError>, st: Store)
    requires WellShaped(c, s) && k !in s.submissions && Submitted(s.store, n, id, now, lost, r, st)
    ensures exists labels :: SubmitsTo(c, s, labels, k, st)
  {
    hide SubmitsTo, WellShaped, Insertable, Merge, Enqueue, ToItem, QueuedRow;
    if Duplicates(s.store.rows, n) {
      var x :| x in s.store.rows && Holds(s.store.rows, x, (n.faculty, n.dedupKey.value))
               && (Insertable(s.store, id, n) ==> st == Merge(s.store, id, n, x, now));
      MergeRun(c, s, k, n, id, now, x);
    } else {
      InsertRun(c, s, k, n, id, now);
    }
  }
}
