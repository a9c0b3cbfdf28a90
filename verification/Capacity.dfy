/** The shared counter of a control plane, and how far it can exceed the limit. */
module Capacity {
  import opened Wrappers
  import opened WorkStore
  import opened Protocol

  /** The loops of a plane that are at such a place. */
  ghost function LoopsAt(c: Config, s: Sys, p: PlaneId, at: Pc -> bool): set<WorkerId> {
    set w | w in s.workers && w in c.planeOf && c.planeOf[w] == p && at(s.workers[w].pc)
  }

  ghost function LoopsOf(c: Config, p: PlaneId): set<WorkerId> {
    set w | w in c.planeOf && c.planeOf[w] == p
  }

  /** With k loops and limit n: n + k - 1, and 0 when either is 0. */
  ghost function Bound(c: Config, p: PlaneId): nat
    requires p in c.planes
  {
    var k := |LoopsOf(c, p)|;
    if k == 0 || c.planes[p].maxConcurrent == 0 then 0 else c.planes[p].maxConcurrent + k - 1
  }

  ghost predicate CounterOk(c: Config, s: Sys, p: PlaneId)
    requires p in c.planes && p in s.counters && p in s.failedCreates
  {
    && s.counters[p] == |LoopsAt(c, s, p, InFlight)| + s.failedCreates[p]
    && s.counters[p] + |LoopsAt(c, s, p, Pending)| <= Bound(c, p)
  }

  ghost predicate CountersOk(c: Config, s: Sys) {
    && WellShaped(c, s)
    && forall p | p in c.planes :: CounterOk(c, s, p)
  }

  function One(b: bool): int {
    if b then 1 else 0
  }

  lemma AddOne<T>(a: set<T>, x: T)
    ensures |a + {x}| == |a| + One(x !in a)
    ensures |a - {x}| == |a| - One(x in a)
  {
    if x in a {
      assert a + {x} == a;
      assert (a - {x}) + {x} == a;
    } else {
      assert a - {x} == a;
    }
  }

  lemma SubsetSize<T>(a: set<T>, b: set<T>)
    requires a <= b
    ensures |a| <= |b|
  {
    assert a + (b - a) == b;
  }

  /** The set of loops of a plane that are at such a place, after one loop has moved. */
  lemma MovedLoops(c: Config, s: Sys, t: Sys, w: WorkerId, p: PlaneId, at: Pc -> bool)
    requires w in s.workers && w in c.planeOf && w in t.workers && t.workers == s.workers[w := t.workers[w]]
    ensures c.planeOf[w] != p ==> LoopsAt(c, t, p, at) == LoopsAt(c, s, p, at)
    ensures c.planeOf[w] == p && at(t.workers[w].pc) ==> LoopsAt(c, t, p, at) == LoopsAt(c, s, p, at) + {w}
    ensures c.planeOf[w] == p && !at(t.workers[w].pc) ==> LoopsAt(c, t, p, at) == LoopsAt(c, s, p, at) - {w}
    ensures w in LoopsAt(c, s, p, at) <==> c.planeOf[w] == p && at(s.workers[w].pc)
  {
  }

  /** Moving one loop changes the count of its plane by at most one. */
  lemma MoveCounts(c: Config, s: Sys, t: Sys, w: WorkerId, p: PlaneId, at: Pc -> bool)
    requires w in s.workers && w in c.planeOf && w in t.workers && t.workers == s.workers[w := t.workers[w]]
    ensures |LoopsAt(c, t, p, at)| ==
            |LoopsAt(c, s, p, at)|
            + if c.planeOf[w] == p then One(at(t.workers[w].pc)) - One(at(s.workers[w].pc)) else 0
  {
    hide LoopsAt;
    MovedLoops(c, s, t, w, p, at);
    AddOne(LoopsAt(c, s, p, at), w);
  }

  lemma PendingBounded(c: Config, s: Sys, p: PlaneId)
    ensures |LoopsAt(c, s, p, Pending)| <= |LoopsOf(c, p)|
  {
    SubsetSize(LoopsAt(c, s, p, Pending), LoopsOf(c, p));
  }

  function Minus(a: int, b: int): int {
    a - b
  }

  /** How a step of one loop changes its plane's numbers. */
  predicate Balanced(s: Sys, t: Sys, p: PlaneId, before: Pc, after: Pc)
    requires p in s.counters && p in t.counters && p in s.failedCreates && p in t.failedCreates
  {
    && t.counters[p] - s.counters[p] == One(InFlight(after)) - One(InFlight(before)) + Minus(t.failedCreates[p], s.failedCreates[p])
    && (t.counters[p] - s.counters[p] + One(Pending(after)) - One(Pending(before)) <= 0
        || (before == Idle && after == Checked && t.counters[p] == s.counters[p]))
  }

  /** Where a committing step leaves its loop. */
  predicate Placed(s: Sys, t: Sys, w: WorkerId) {
    && MovesOnly(s, t, w)
    && InFlight(t.workers[w].pc) == InFlight(s.workers[w].pc)
    && One(Pending(t.workers[w].pc)) <= One(Pending(s.workers[w].pc))
    && t.workers[w].pc != Checked
  }

  lemma UpdatePlaces(c: Config, s: Sys, w: WorkerId, act: Act)
    requires WellShaped(c, s) && w in s.workers && LoopStep(c, s, w, act).Some? && (act.Claim? || act.Start? || act.Retire?)
    ensures Placed(s, LoopStep(c, s, w, act).value, w)
  {
    hide StepFetch, StepTransition, StepRetire, StepRun, Archived, SameKeys, WellShaped;
    ShapedLoop(c, s, w);
  }

  lemma CommitPlaces(c: Config, s: Sys, w: WorkerId, act: Act)
    requires WellShaped(c, s) && w in s.workers && LoopStep(c, s, w, act).Some? && Commits(act)
    ensures Placed(s, LoopStep(c, s, w, act).value, w)
  {
    hide StepFetch, StepTransition, StepRetire, StepRun, Archived, SameKeys, WellShaped;
    ShapedLoop(c, s, w);
    if act.Claim? || act.Start? || act.Retire? {
      hide LoopStep;
      UpdatePlaces(c, s, w, act);
    }
  }

  lemma CountBalanced(c: Config, s: Sys, w: WorkerId, act: Act)
    requires WellShaped(c, s) && w in s.workers && LoopStep(c, s, w, act).Some? && Counts(act)
    ensures var t, p := LoopStep(c, s, w, act).value, c.planeOf[w];
            && w in t.workers && t.workers == s.workers[w := t.workers[w]]
            && Balanced(s, t, p, s.workers[w].pc, t.workers[w].pc)
            && t.workers[w].pc != Checked
            && t.counters == s.counters[p := t.counters[p]]
            && t.failedCreates == s.failedCreates[p := t.failedCreates[p]] && t.failedCreates[p] >= s.failedCreates[p]
  {
    hide StepFetch, StepTransition, StepRetire, StepRun, Archived, MovesOnly, SameKeys, Holding, CanGiveUp, WellShaped;
    ShapedLoop(c, s, w);
  }

  lemma QuietBalanced(c: Config, s: Sys, w: WorkerId, act: Act)
    requires WellShaped(c, s) && w in s.workers && LoopStep(c, s, w, act).Some? && !Commits(act) && !Counts(act)
    ensures var t, p := LoopStep(c, s, w, act).value, c.planeOf[w];
            && w in t.workers && t.workers == s.workers[w := t.workers[w]]
            && t.counters == s.counters && t.failedCreates == s.failedCreates
            && Balanced(s, t, p, s.workers[w].pc, t.workers[w].pc)
            && (s.workers[w].pc == Idle && t.workers[w].pc == Checked ==> s.counters[p] < c.planes[p].maxConcurrent)
  {
    hide StepFetch, StepTransition, StepRetire, StepRun, Archived, MovesOnly, AddCounter, SameKeys, WellShaped;
    ShapedLoop(c, s, w);
  }

  lemma LoopBalanced(c: Config, s: Sys, w: WorkerId, act: Act)
    requires WellShaped(c, s) && w in s.workers && LoopStep(c, s, w, act).Some?
    ensures var t, p := LoopStep(c, s, w, act).value, c.planeOf[w];
            && w in t.workers && t.workers == s.workers[w := t.workers[w]]
            && SameKeys(s, t)
            && Balanced(s, t, p, s.workers[w].pc, t.workers[w].pc)
            && (s.workers[w].pc == Idle && t.workers[w].pc == Checked ==> s.counters[p] < c.planes[p].maxConcurrent)
            && (forall q | q in s.counters && q != p :: t.counters[q] == s.counters[q])
            && (forall q | q in s.failedCreates && q != p :: t.failedCreates[q] == s.failedCreates[q])
            && t.failedCreates[p] >= s.failedCreates[p]
  {
    hide LoopStep;
    if Commits(act) {
      CommitPlaces(c, s, w, act);
    } else if Counts(act) {
      CountBalanced(c, s, w, act);
    } else {
      QuietBalanced(c, s, w, act);
    }
  }

  lemma LoopCounters(c: Config, s: Sys, w: WorkerId, act: Act)
    requires CountersOk(c, s) && w in s.workers && LoopStep(c, s, w, act).Some?
    ensures CountersOk(c, LoopStep(c, s, w, act).value)
  {
    hide LoopStep, CounterOk;
    var t := LoopStep(c, s, w, act).value;
    forall p | p in c.planes ensures CounterOk(c, t, p) {
      LoopCounter(c, s, w, act, p);
    }
  }

  lemma LoopCounter(c: Config, s: Sys, w: WorkerId, act: Act, p: PlaneId)
    requires CountersOk(c, s) && w in s.workers && LoopStep(c, s, w, act).Some? && p in c.planes
    ensures CounterOk(c, LoopStep(c, s, w, act).value, p)
  {
    hide LoopStep, InFlight, Pending, LoopsAt, LoopsOf, Balanced;
    var t := LoopStep(c, s, w, act).value;
    LoopBalanced(c, s, w, act);
    assert CounterOk(c, s, p);
    MoveCounts(c, s, t, w, p, InFlight);
    MoveCounts(c, s, t, w, p, Pending);
    if p == c.planeOf[w] {
      BalancedCounter(c, s, t, w);
    }
  }

  /** A balanced step keeps the plane's numbers in order. */
  lemma BalancedCounter(c: Config, s: Sys, t: Sys, w: WorkerId)
    requires WellShaped(c, s) && w in s.workers && w in t.workers && SameKeys(s, t) && CounterOk(c, s, c.planeOf[w])
    requires Balanced(s, t, c.planeOf[w], s.workers[w].pc, t.workers[w].pc)
    requires var p := c.planeOf[w];
             && |LoopsAt(c, t, p, InFlight)| == |LoopsAt(c, s, p, InFlight)| + One(InFlight(t.workers[w].pc)) - One(InFlight(s.workers[w].pc))
             && |LoopsAt(c, t, p, Pending)| == |LoopsAt(c, s, p, Pending)| + One(Pending(t.workers[w].pc)) - One(Pending(s.workers[w].pc))
             && (s.workers[w].pc == Idle && t.workers[w].pc == Checked ==> s.counters[p] < c.planes[p].maxConcurrent)
    ensures CounterOk(c, t, c.planeOf[w])
  {
    hide LoopsAt, WellShaped;
    ShapedLoop(c, s, w);
    PendingBounded(c, t, c.planeOf[w]);
    assert w in LoopsOf(c, c.planeOf[w]);
  }

  lemma OtherCounters(c: Config, s: Sys, t: Sys)
    requires CountersOk(c, s) && t.workers == s.workers && t.counters == s.counters && t.failedCreates == s.failedCreates
    ensures CountersOk(c, t)
  {
    forall p | p in c.planes ensures CounterOk(c, t, p) {
      assert CounterOk(c, s, p);
      assert LoopsAt(c, t, p, InFlight) == LoopsAt(c, s, p, InFlight);
      assert LoopsAt(c, t, p, Pending) == LoopsAt(c, s, p, Pending);
    }
  }

  lemma StepCounters(c: Config, s: Sys, l: Label)
    requires CountersOk(c, s) && Step(c, s, l).Some?
    ensures CountersOk(c, Step(c, s, l).value)
  {
    hide LoopStep, CountersOk, Transition, Enqueue, Merge, Taken, Insertable, Conflicts, Holds;
    ShapeOf(c, s);
    match l
    case Loop(w, act) => LoopCounters(c, s, w, act);
    case Submit(k, what) => OtherCounters(c, s, Step(c, s, l).value);
    case Outside(_, _, _, _) => OtherCounters(c, s, Step(c, s, l).value);
    case Foreign => OtherCounters(c, s, Step(c, s, l).value);
  }

  lemma ShapeOf(c: Config, s: Sys)
    requires CountersOk(c, s)
    ensures WellShaped(c, s)
  {
  }

  lemma {:induction false} RunCounters(c: Config, s: Sys, labels: seq<Label>)
    requires CountersOk(c, s) && Exec(c, s, labels).Some?
    ensures CountersOk(c, Exec(c, s, labels).value)
    decreases |labels|
  {
    hide Step, CountersOk;
    if labels != [] {
      ShapeOf(c, s);
      StepCounters(c, s, labels[0]);
      RunCounters(c, Step(c, s, labels[0]).value, labels[1..]);
    }
  }

  lemma InitialCounters(c: Config)
    requires GoodConfig(c)
    ensures CountersOk(c, Initial(c))
  {
    forall p | p in c.planes ensures CounterOk(c, Initial(c), p) {
      assert LoopsAt(c, Initial(c), p, InFlight) == {};
      assert LoopsAt(c, Initial(c), p, Pending) == {};
    }
  }

  /**
   In every run the counter of a plane is the number of its foci in flight plus its failed focus creations, and with
   k loops the counter and the loops past the check together never exceed the limit by more than k - 1.
   */
  lemma CounterExact(c: Config, s: Sys, p: PlaneId)
    requires Reachable(c, s) && p in c.planes
    ensures p in s.counters && p in s.failedCreates
    ensures s.counters[p] == |LoopsAt(c, s, p, InFlight)| + s.failedCreates[p]
    ensures s.counters[p] + |LoopsAt(c, s, p, Pending)| <= Bound(c, p)
  {
    hide Step, Exec;
    var labels :| Exec(c, Initial(c), labels) == Some(s);
    InitialCounters(c);
    RunCounters(c, Initial(c), labels);
    assert CounterOk(c, s, p);
  }

  /** A plane with one loop never exceeds its limit. */
  lemma OneLoopKeepsLimit(c: Config, s: Sys, p: PlaneId, w: WorkerId)
    requires Reachable(c, s) && p in c.planes && LoopsOf(c, p) == {w}
    ensures p in s.counters && s.counters[p] <= c.planes[p].maxConcurrent
  {
    CounterExact(c, s, p);
  }

  /** The decrement never takes the counter below zero. */
  lemma NeverUnderflows(c: Config, s: Sys, w: WorkerId)
    requires Reachable(c, s) && w in s.workers && w in c.planeOf && InFlight(s.workers[w].pc)
    ensures c.planeOf[w] in s.counters && s.counters[c.planeOf[w]] >= 1
  {
    var p := c.planeOf[w];
    CounterExact(c, s, p);
    SubsetSize({w}, LoopsAt(c, s, p, InFlight));
  }
}
