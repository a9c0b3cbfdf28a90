/**
 `process_work` and `run` of src/engine/control.rs, one loop among any others. Whatever the others do between its
 accesses, its steps are steps of the protocol, so everything proved of the protocol holds of it.
 */
module ControlPlanes {
  import opened Wrappers
  import opened Json
  import opened WorkState
  import opened WorkStore
  import opened WorkDb
  import opened Focus
  import opened Protocol
  import opened StoreInvariant
  import opened Invariant
  import opened Steps
  import Capacity
  import Runs
  import Seqs

  datatype Failure = BadPayload | Refused(error: DbError) | DbDown | Io(what: string)

  /**
   What the surroundings do during one call: the steps others take before each access, which statements fail (`down`),
   and which errors come after a commit (`lost`).
   */
  datatype Surroundings = Surroundings(
    others: nat -> seq<Label>,
    down: nat -> bool,
    lost: nat -> bool,
    invisible: bool,
    createFails: bool,
    env: Env,
    clock: nat -> Time)

  datatype Wake = Notified | ListenerError | PollTimeout | Shutdown

  /** What one loop did in a run. */
  function Own(labels: seq<Label>, w: WorkerId): seq<Act> {
    if labels == [] then []
    else
      var l := labels[|labels| - 1];
      Own(labels[..|labels| - 1], w) + if l.Loop? && l.w == w then [l.act] else []
  }

  lemma OwnGrows(labels: seq<Label>, mark: nat, l: Label, w: WorkerId)
    requires mark <= |labels|
    ensures Own((labels + [l])[mark..], w) == Own(labels[mark..], w) + if l.Loop? && l.w == w then [l.act] else []
  {
    var since, longer := labels[mark..], (labels + [l])[mark..];
    assert longer == since + [l];
    assert longer[..|longer| - 1] == since;
  }

  lemma NothingOwn(labels: seq<Label>, mark: nat)
    requires mark == |labels|
    ensures forall w: WorkerId :: Own(labels[mark..], w) == []
  {
  }

  lemma {:induction false} OwnAppend(a: seq<Label>, b: seq<Label>, w: WorkerId)
    ensures Own(a + b, w) == Own(a, w) + Own(b, w)
    decreases |b|
  {
    if b == [] {
      Seqs.Unit(a);
      Seqs.Unit(Own(a, w));
    } else {
      var n := |b| - 1;
      var last := if b[n].Loop? && b[n].w == w then [b[n].act] else [];
      assert (a + b)[..|a + b| - 1] == a + b[..n] && (a + b)[|a + b| - 1] == b[n];
      OwnAppend(a, b[..n], w);
      Seqs.Assoc(Own(a, w), Own(b[..n], w), last);
    }
  }

  lemma OwnSum(before: seq<Label>, labels: seq<Label>, start: nat, w: WorkerId)
    requires before <= labels && start <= |before|
    ensures Own(labels[start..], w) == Own(before[start..], w) + Own(labels[|before|..], w)
  {
    OwnAppend(before[start..], labels[|before|..], w);
    assert labels[start..] == before[start..] + labels[|before|..];
  }

  /** What one call did and returned. */
  datatype CallRecord = CallRecord(path: seq<Act>, m: MsgId, result: Result<(), Failure>)

  ghost predicate Recorded(others: Others, x: Surroundings, call: CallRecord) {
    Followed(others, x, call.m, call.path, call.result)
  }

  lemma WasRecorded(others: Others, x: Surroundings, call: CallRecord)
    requires Followed(others, x, call.m, call.path, call.result)
    ensures Recorded(others, x, call)
  {
  }

  function Paths(calls: seq<CallRecord>): seq<Act> {
    if calls == [] then [] else Paths(calls[..|calls| - 1]) + calls[|calls| - 1].path
  }

  lemma PathsSnoc(calls: seq<CallRecord>, call: CallRecord)
    ensures Paths(calls + [call]) == Paths(calls) + call.path
  {
    assert (calls + [call])[..|calls|] == calls;
  }

  /** The accesses of a call that reads this message and goes all the way. */
  function FullPath(x: Surroundings, m: MsgId): seq<Act> {
    [CheckCapacity, ReadMessage(m), Fetch, Claim(x.clock(0)), Start(x.clock(1)), Count, CreateFocus, RunHooks(x.env), Uncount,
     Retire(x.clock(2)), Archive]
  }

  /** Which accesses a call makes, for each of its results. */
  ghost predicate Followed(others: Others, x: Surroundings, m: MsgId, path: seq<Act>, r: Result<(), Failure>) {
    var full := FullPath(x, m);
    match r
    case Ok(_) =>
      // at the limit; nothing to read; no faculty; the focus failed; the focus completed
      path == full[..1] || path == [CheckCapacity, ReadNothing] || path == full[..3] || path == full[..10] || path == full
    case Err(BadPayload) => path == full[..3]
    case Err(Refused(e)) =>
      || (path == full[..3] && e.NotFound?)
      || (path == full[..4] && e == InvalidTransition(Queued, Claimed))
      || (path == full[..5] && e in {InvalidTransition(Claimed, Running), Database(IntegerOutOfRange)})
      || (path == full[..10] && others == Unrestricted
          && e in {InvalidTransition(Running, Completed), InvalidTransition(Running, Failed)})
    case Err(DbDown) => GaveUp(x, full, path) || (x.lost(10) && path == full[..10]) || (x.lost(11) && path == full)
    case Err(Io(_)) => x.createFails && path == full[..6] + [CreateFails]
  }

  ghost predicate GaveUp(x: Surroundings, full: seq<Act>, path: seq<Act>)
    requires |full| == 11
  {
    exists k: nat :: (k <= 5 || 9 <= k <= 10) && (x.down(k) || x.lost(k)) && path == full[..k] + [GiveUp]
  }

  lemma Extended(c: Config, labels: seq<Label>, s: Sys, l: Label, t: Sys)
    requires GoodConfig(c) && Exec(c, Initial(c), labels) == Some(s) && WellShaped(c, s) && Step(c, s, l) == Some(t)
    ensures Exec(c, Initial(c), labels + [l]) == Some(t) && WellShaped(c, t)
  {
    hide Step;
    Runs.ExecOne(c, s, l);
    Runs.ExecAppend(c, Initial(c), labels, [l]);
  }

  /** Nobody moves this loop but itself. */
  lemma OthersKeep(c: Config, s: Sys, l: Label, w: WorkerId)
    requires WellShaped(c, s) && Step(c, s, l).Some? && w in s.workers
    requires l.Loop? ==> l.w != w
    ensures w in Step(c, s, l).value.workers && Step(c, s, l).value.workers[w] == s.workers[w]
  {
    hide LoopStep, Transition;
    if l.Loop? {
      Capacity.LoopBalanced(c, s, l.w, l.act);
    }
  }

  class ControlPlane {
    const c: Config
    const w: WorkerId
    const db: Db
    /** The counter shared by the loops of this plane. */
    var activeFoci: int
    /** The rest of the system, with this loop's own place in it. */
    var rest: Sys
    /** All steps taken so far, by anyone. */
    ghost var labels: seq<Label>
    /** The steps of this loop since the mark. */
    ghost var path: seq<Act>
    ghost var mark: nat

    predicate Shaped()
      reads this
    {
      w in c.planeOf && GoodPlane() && c.planeOf[w] in rest.counters && w in rest.workers
    }

    predicate GoodPlane() {
      w in c.planeOf && c.planeOf[w] in c.planes
    }

    function Now(): Sys
      requires Shaped()
      reads this, db
    {
      rest.(store := db.Snapshot(), counters := rest.counters[c.planeOf[w] := activeFoci])
    }

    function Pc(): Protocol.Pc
      requires Shaped()
      reads this
    {
      rest.workers[w].pc
    }

    /** The faculties this loop knows. */
    function Registry(): map<string, Faculty> {
      if w in c.planeOf && c.planeOf[w] in c.planes then c.planes[c.planeOf[w]].registry else map[]
    }

    /** The current state is one that the steps so far lead to, and this loop is up. */
    ghost predicate Valid()
      reads this, db
    {
      && GoodConfig(c) && Shaped()
      && WellShaped(c, Now())
      && Exec(c, Initial(c), labels) == Some(Now())
      && rest.workers[w].up
      && Tracked()
    }

    ghost predicate Tracked()
      reads this
    {
      mark <= |labels| && path == Own(labels[mark..], w)
    }

    /** One more step of this loop. */
    ghost method Took(act: Act)
      requires Tracked()
      modifies this`labels, this`path
      ensures Tracked() && labels == old(labels) + [Loop(w, act)] && path == old(path) + [act]
    {
      OwnGrows(labels, mark, Loop(w, act), w);
      labels := labels + [Loop(w, act)];
      path := path + [act];
    }

    /** One more step of someone else. */
    ghost method Saw(l: Label)
      requires Tracked() && !(l.Loop? && l.w == w)
      modifies this`labels
      ensures Tracked() && labels == old(labels) + [l]
    {
      OwnGrows(labels, mark, l, w);
      labels := labels + [l];
    }

    /** This loop stands here. */
    ghost predicate At(pc: Protocol.Pc)
      reads this, db
    {
      Valid() && Pc() == pc
    }

    /** A fresh system seen by one of its loops. */
    constructor (c: Config, w: WorkerId, db: Db)
      requires GoodConfig(c) && w in c.planeOf
      requires db.Snapshot() == Store(map[], map[], map[], 1)
      ensures At(Idle) && labels == [] && this.db == db && this.c == c && this.w == w
    {
      this.c, this.w, this.db := c, w, db;
      activeFoci := 0;
      rest := Initial(c);
      labels, path, mark := [], [], 0;
      new;
      assert Now() == Initial(c);
    }

    /** Between two accesses others take any number of steps; a step that is not possible is skipped. */
    method Await(others: seq<Label>)
      requires Valid()
      modifies this`rest, this`labels, this`activeFoci, db
      ensures Valid() && Pc() == old(Pc()) && old(labels) <= labels
    {
      hide Exec, Step, Own, GoodConfig, WellShaped;
      var i := 0;
      while i < |others|
        invariant 0 <= i <= |others|
        invariant Valid() && Pc() == old(Pc()) && old(labels) <= labels
      {
        var l := others[i];
        i := i + 1;
        if !(l.Loop? && l.w == w) && Step(c, Now(), l).Some? {
          LetStep(l);
        }
      }
    }

    /** One step of someone else. */
    method LetStep(l: Label)
      requires Valid() && !(l.Loop? && l.w == w) && Step(c, Now(), l).Some?
      modifies this`rest, this`labels, this`activeFoci, db
      ensures Valid() && Pc() == old(Pc()) && labels == old(labels) + [l]
      ensures Some(Now()) == old(Step(c, Now(), l))
    {
      hide Exec, Step, Own;
      ghost var s := Now();
      var t := Step(c, Now(), l).value;
      OthersKeep(c, s, l, w);
      Extended(c, labels, s, l, t);
      Saw(l);
      rest := t;
      activeFoci := t.counters[c.planeOf[w]];
      db.rows, db.live, db.archived, db.nextMsg := t.store.rows, t.store.live, t.store.archived, t.store.nextMsg;
      assert t.counters[c.planeOf[w] := activeFoci] == t.counters;
      assert Now() == t;
    }

    /** The fields are as after the step; now it is recorded. */
    ghost method Landed(s: Sys, act: Act)
      requires GoodConfig(c) && Shaped() && Tracked() && rest.workers[w].up
      requires WellShaped(c, s) && Exec(c, Initial(c), labels) == Some(s) && Step(c, s, Loop(w, act)) == Some(Now())
      modifies this`labels, this`path
      ensures Valid() && Pc() == old(Pc())
      ensures labels == old(labels) + [Loop(w, act)] && path == old(path) + [act]
    {
      hide Exec, Step, Own, GoodConfig;
      Extended(c, labels, s, Loop(w, act), Now());
      Took(act);
    }

    /** A step that only moves this loop. */
    method MoveTo(pc: Protocol.Pc, ghost act: Act)
      requires Valid() && Step(c, Now(), Loop(w, act)) == Some(SetPc(Now(), w, pc))
      modifies this`rest, this`labels, this`path
      ensures At(pc)
      ensures labels == old(labels) + [Loop(w, act)] && path == old(path) + [act]
    {
      hide Exec, Step, Own, GoodConfig;
      ghost var s := Now();
      rest := SetPc(rest, w, pc);
      assert Now() == SetPc(s, w, pc);
      Landed(s, act);
    }

    /** The row is updated already; the step is recorded and the loop goes on. */
    method MoveOn(ghost s: Sys, id: WorkId, to: State, next: Protocol.Pc, ghost act: Act)
      requires GoodConfig(c) && Shaped() && Tracked() && rest.workers[w].up && Now() == s.(store := db.Snapshot())
      requires WellShaped(c, s) && Exec(c, Initial(c), labels) == Some(s)
      requires Step(c, s, Loop(w, act)) == Some(SetPc(Enter(s, db.Snapshot(), id, to), w, next))
      modifies this`rest, this`labels, this`path
      ensures At(next) && labels == old(labels) + [Loop(w, act)] && path == old(path) + [act]
    {
      hide Exec, Step, Own, GoodConfig;
      rest := SetPc(Enter(rest, rest.store, id, to), w, next);
      assert Now() == SetPc(Enter(s, db.Snapshot(), id, to), w, next);
      Landed(s, act);
    }

    /** A compare-and-set update before the focus; when the read-back is lost, the update stays. */
    method MoveItem(job: Job, from: State, to: State, next: Protocol.Pc, now: Time, lost: bool, ghost act: Act)
      returns (r: Result<(), Failure>)
      requires Valid() && CanTransition(from, to) && CanGiveUp(next)
      requires Step(c, Now(), Loop(w, act)) == Some(StepTransition(Now(), w, job.id, from, to, now, next))
      modifies this`rest, this`labels, this`path, db`rows
      ensures old(labels) <= labels && path == old(path) + [act] + if r == Err(DbDown) then [GiveUp] else []
      ensures At(if r.Ok? then next else Idle)
      ensures r.Err? ==> || (lost && r.error == DbDown)
                         || r.error == Refused(InvalidTransition(from, to))
                         || (to == Running && r.error == Refused(Database(IntegerOutOfRange)))
    {
      hide Exec, Step, StepTransition, Transition, Enter, FindItem, IndexOk, CanGiveUp, Own, GoodConfig, WellShaped, CanTransition, SetPc;
      ghost var s := Now();
      Indexed();
      TransitionErrors(s.store, job.id, from, to, now);
      var u := db.TransitionState(job.id, from, to, now, lost);
      TransitionParts(s, w, job.id, from, to, now, next);
      if u.Err? && u.error != Database(ConnectionLost) {
        assert Now() == s;
        MoveTo(Idle, act);
        return Err(Refused(u.error));
      }
      MoveOn(s, job.id, to, next, act);
      if u.Err? {
        Abandon(next);
        return Err(DbDown);
      }
      return Ok(());
    }

    /** A database error is returned. */
    method Abandon(ghost pc: Protocol.Pc)
      requires At(pc) && CanGiveUp(pc)
      modifies this`rest, this`labels, this`path
      ensures At(Idle) && labels == old(labels) + [Loop(w, GiveUp)] && path == old(path) + [GiveUp]
    {
      hide Exec;
      MoveTo(Idle, GiveUp);
    }

    method ClaimItem(job: Job, now: Time, lost: bool) returns (r: Result<(), Failure>)
      requires At(Routed(job))
      modifies this`rest, this`labels, this`path, db`rows
      ensures old(labels) <= labels && path == old(path) + [Claim(now)] + if r == Err(DbDown) then [GiveUp] else []
      ensures At(if r.Ok? then HasClaim(job) else Idle)
      ensures r.Err? ==> (lost && r.error == DbDown) || r.error == Refused(InvalidTransition(Queued, Claimed))
    {
      hide Exec, StepTransition;
      r := MoveItem(job, Queued, Claimed, HasClaim(job), now, lost, Claim(now));
    }

    method StartItem(job: Job, now: Time, lost: bool) returns (r: Result<(), Failure>)
      requires At(HasClaim(job))
      modifies this`rest, this`labels, this`path, db`rows
      ensures old(labels) <= labels && path == old(path) + [Start(now)] + if r == Err(DbDown) then [GiveUp] else []
      ensures At(if r.Ok? then Started(job) else Idle)
      ensures r.Err? ==> || (lost && r.error == DbDown)
                         || r.error in {Refused(InvalidTransition(Claimed, Running)), Refused(Database(IntegerOutOfRange))}
    {
      hide Exec, StepTransition;
      r := MoveItem(job, Claimed, Running, Started(job), now, lost, Start(now));
    }

    /** `fetch_add` and `fetch_sub` on the shared counter. */
    method AddToCounter(pc: Protocol.Pc, n: int, ghost act: Act)
      requires Valid() && Step(c, Now(), Loop(w, act)) == Some(AddCounter(SetPc(Now(), w, pc), c.planeOf[w], n))
      modifies this`rest, this`labels, this`path, this`activeFoci
      ensures At(pc) && activeFoci == old(activeFoci) + n
      ensures labels == old(labels) + [Loop(w, act)] && path == old(path) + [act]
    {
      hide Exec, Step, Own, GoodConfig;
      ghost var s := Now();
      ghost var t := AddCounter(SetPc(s, w, pc), c.planeOf[w], n);
      activeFoci := activeFoci + n;
      rest := SetPc(rest, w, pc);
      assert Now().counters == t.counters;
      assert Now() == t;
      Landed(s, act);
    }

    /** A failing `Focus::create` returns at once and leaves the counter as it is. */
    method FailCreate(job: Job)
      requires At(Counted(job))
      modifies this`rest, this`labels, this`path
      ensures At(Idle) && activeFoci == old(activeFoci)
      ensures labels == old(labels) + [Loop(w, CreateFails)] && path == old(path) + [CreateFails]
    {
      hide Exec, Step, Own, GoodConfig;
      ghost var s := Now();
      FailLabel(c, s, w);
      var p := c.planeOf[w];
      rest := SetPc(rest, w, Idle).(failedCreates := rest.failedCreates[p := rest.failedCreates[p] + 1]);
      assert Now() == SetPc(s, w, Idle).(failedCreates := s.failedCreates[p := s.failedCreates[p] + 1]);
      Landed(s, CreateFails);
    }

    /** `Focus::run`. */
    method RunFocus(job: Job, env: Env) returns (result: FocusResult)
      requires At(Opened(job))
      modifies this`rest, this`labels, this`path
      ensures At(Ended(job, result)) && result == Execute(c.codec, job.faculty, env).result
      ensures labels == old(labels) + [Loop(w, RunHooks(env))] && path == old(path) + [RunHooks(env)]
    {
      hide Exec, Step, Execute, Own, GoodConfig, Holding;
      ghost var s := Now();
      var x := Focus.Run(c.codec, job.faculty, env);
      result := x.result;
      RunLabel(c, s, w, env);
      rest := SetPc(rest, w, Ended(job, result));
      if job.id in rest.history {
        var h := rest.history[job.id];
        rest := rest.(history := rest.history[job.id := h.(runs := h.runs + [RunRecord(c.planeOf[w], job.faculty, env)])]);
      }
      assert Now() == StepRun(c, s, w, job, env);
      Landed(s, RunHooks(env));
    }

    /** The item of a loop at its retirement; only where others may do anything can it have left Running. */
    lemma RetireFacts(job: Job, result: FocusResult)
      requires At(Uncounted(job, result))
      ensures job.id in db.rows && IndexOk(db.rows) && (c.others != Unrestricted ==> db.rows[job.id].state == Running)
    {
      hide Exec, StepRetire, StoreOk, Exclusive, SubmissionsOk, JobOk, GotResult, LoopsOk;
      ReachedOk();
      LoopPlace(c, Now(), w);
      JobHere(c, Now(), w, job);
    }

    method CompleteItem(job: Job, data: Json, ms: nat, now: Time, lost: bool) returns (e: Option<Failure>)
      requires At(Uncounted(job, FocusCompleted(data, ms)))
      modifies this`rest, this`labels, this`path, db`rows
      ensures labels == old(labels) + [Loop(w, Retire(now))] && path == old(path) + [Retire(now)]
      ensures job.id in old(db.rows) && job.id in db.rows
      ensures old(db.rows)[job.id].state == Running ==>
                e == (if lost then Some(DbDown) else None) && At(Retired(job)) && db.rows[job.id].state == Completed
      ensures old(db.rows)[job.id].state != Running ==>
                && e == Some(Refused(InvalidTransition(Running, Completed)))
                && At(Idle) && db.rows == old(db.rows) && c.others == Unrestricted
    {
      hide Exec, Step, StepRetire, IndexOk, SetPc, Enter, Own, GoodConfig, WellShaped, Complete, FindItem;
      ghost var s := Now();
      RetireFacts(job, FocusCompleted(data, ms));
      RetireLabel(c, s, w, now);
      CompleteCases(s.store, job.id, Outcome(true, Some(data), None, ms), now);
      CompletedShape(s, w, job, data, ms, now);
      var item := db.CompleteWork(job.id, Outcome(true, Some(data), None, ms), now, lost);
      if item.Err? && item.error != Database(ConnectionLost) {
        assert Now() == s;
        MoveTo(Idle, Retire(now));
        return Some(Refused(item.error));
      }
      MoveOn(s, job.id, Completed, Retired(job), Retire(now));
      e := if item.Err? then Some(DbDown) else None;
    }

    method FailItem(job: Job, phase: string, error: string, ms: nat, now: Time, lost: bool) returns (e: Option<Failure>)
      requires At(Uncounted(job, FocusFailed(phase, error, ms)))
      modifies this`rest, this`labels, this`path, db`rows
      ensures labels == old(labels) + [Loop(w, Retire(now))] && path == old(path) + [Retire(now)]
      ensures job.id in old(db.rows) && job.id in db.rows && At(Idle)
      ensures old(db.rows)[job.id].state == Running ==>
                e == (if lost then Some(DbDown) else None) && db.rows[job.id].state == Failed
      ensures old(db.rows)[job.id].state != Running ==>
                e == Some(Refused(InvalidTransition(Running, Failed))) && db.rows == old(db.rows) && c.others == Unrestricted
    {
      hide Exec, Step, StepRetire, IndexOk, SetPc, Enter, Own, GoodConfig, WellShaped, Fail, FindItem, ErrorText;
      ghost var s := Now();
      RetireFacts(job, FocusFailed(phase, error, ms));
      RetireLabel(c, s, w, now);
      FailCases(s.store, job.id, ErrorText(phase, error), ms, now);
      FailedShape(s, w, job, phase, error, ms, now);
      var item := db.FailWork(job.id, ErrorText(phase, error), ms, now, lost);
      if item.Err? && item.error != Database(ConnectionLost) {
        assert Now() == s;
        MoveTo(Idle, Retire(now));
        return Some(Refused(item.error));
      }
      MoveOn(s, job.id, Failed, Idle, Retire(now));
      e := if item.Err? then Some(DbDown) else None;
    }

    /** Where a retirement leads: `Completed` or `Failed` by the result. */
    static function RetiredState(result: FocusResult): State {
      if result.FocusCompleted? then Completed else Failed
    }

    /**
     The item is retired: the update commits if and only if the row is still Running, and it always is where others
     leave held items in Running; otherwise it is refused and changes nothing.
     */
    method RetireItem(job: Job, result: FocusResult, now: Time, lost: bool) returns (e: Option<Failure>)
      requires At(Uncounted(job, result))
      modifies this`rest, this`labels, this`path, db`rows
      ensures labels == old(labels) + [Loop(w, Retire(now))] && path == old(path) + [Retire(now)]
      ensures job.id in old(db.rows) && job.id in db.rows
      ensures old(db.rows)[job.id].state == Running ==>
                && e == (if lost then Some(DbDown) else None) && db.rows[job.id].state == RetiredState(result)
                && At(if result.FocusCompleted? then Retired(job) else Idle)
      ensures old(db.rows)[job.id].state != Running ==>
                && e == Some(Refused(InvalidTransition(Running, RetiredState(result))))
                && At(Idle) && db.rows == old(db.rows) && c.others == Unrestricted
    {
      hide At;
      match result
      case FocusCompleted(data, ms) => e := CompleteItem(job, data, ms, now, lost);
      case FocusFailed(phase, error, ms) => e := FailItem(job, phase, error, ms, now, lost);
    }

    /** The message of a completed item is archived. */
    method ArchiveItem(job: Job)
      requires At(Retired(job))
      modifies this`rest, this`labels, this`path, db`live, db`archived
      ensures At(Idle) && labels == old(labels) + [Loop(w, Archive)] && path == old(path) + [Archive]
    {
      hide Exec, Step, Archived, Own, GoodConfig;
      ghost var s := Now();
      ArchiveLabel(c, s, w);
      db.ArchiveMessage(job.m);
      rest := SetPc(rest, w, Idle);
      assert Now() == SetPc(s.(store := Archived(s.store, job.m)), w, Idle);
      Landed(s, Archive);
    }

    /** An await that others can interleave with. */
    method AwaitAt(others: seq<Label>, ghost pc: Protocol.Pc)
      requires At(pc)
      modifies this`rest, this`labels, this`activeFoci, db
      ensures At(pc) && old(labels) <= labels
    {
      hide Exec;
      Await(others);
    }

    /** An await on the database, which can also fail. */
    method AwaitDb(others: seq<Label>, down: bool, ghost pc: Protocol.Pc) returns (ok: bool)
      requires At(pc) && CanGiveUp(pc)
      modifies this`rest, this`labels, this`activeFoci, db, this`path
      ensures old(labels) <= labels && ok == !down && path == old(path) + if ok then [] else [GiveUp]
      ensures At(if ok then pc else Idle)
    {
      hide At;
      AwaitAt(others, pc);
      if down {
        Abandon(pc);
      }
      ok := !down;
    }

    /** `read_from_queue`. */
    method ReadOne(invisible: bool) returns (msg: Option<(MsgId, Payload)>)
      requires At(Checked)
      modifies this`rest, this`labels, this`path
      ensures old(labels) <= labels && path == old(path) + [if msg.Some? then ReadMessage(msg.value.0) else ReadNothing]
      ensures At(if msg.Some? then Got(msg.value.0, msg.value.1) else Idle)
    {
      hide Exec;
      msg := db.ReadFromQueue(invisible);
      if msg.None? {
        MoveTo(Idle, ReadNothing);
      } else {
        MoveTo(Got(msg.value.0, msg.value.1), ReadMessage(msg.value.0));
      }
    }

    /** `get_work_item` and the registry lookup; nothing is found for an item whose faculty is not registered. */
    method FetchItem(m: MsgId, id: WorkId, ghost params: Json) returns (r: Result<Option<Job>, Failure>)
      requires At(Got(m, WorkPayload(id, params)))
      modifies this`rest, this`labels, this`path
      ensures old(labels) <= labels && path == old(path) + [Fetch]
      ensures At(if r.Ok? && r.value.Some? then Routed(r.value.value) else Idle)
      ensures r == if id !in db.rows then Err(Refused(NotFound(id)))
                   else if db.rows[id].faculty !in Registry() then Ok(None)
                   else Ok(Some(Job(m, id, Registry()[db.rows[id].faculty])))
    {
      hide Exec;
      var item := db.GetWorkItem(id);
      if item.Err? {
        MoveTo(Idle, Fetch);
        return Err(Refused(item.error));
      }
      var registry := Registry();
      if item.value.faculty !in registry {
        MoveTo(Idle, Fetch);
        return Ok(None);
      }
      var job := Job(m, id, registry[item.value.faculty]);
      MoveTo(Routed(job), Fetch);
      return Ok(Some(job));
    }

    /** A payload that names no item. */
    method RejectPayload(m: MsgId)
      requires At(Got(m, OtherPayload))
      modifies this`rest, this`labels, this`path
      ensures At(Idle) && old(labels) <= labels && path == old(path) + [Fetch]
    {
      hide Exec;
      MoveTo(Idle, Fetch);
    }

    /**
     `process_work`: claim one item and run it to its retirement. However the others interleave, the call is a run of
     the protocol that ends idle; its result says which accesses it made, each once and in order. A missing item, the
     claim and the start can be refused; the retirement only where others take held items out of Running.
     */
    method ProcessWork(x: Surroundings) returns (r: Result<(), Failure>, ghost m: MsgId)
      requires At(Idle)
      modifies this, db
      ensures At(Idle) && old(labels) <= labels
      ensures mark == |old(labels)| && Followed(c.others, x, m, path, r)
    {
      hide At;
      StartPath();
      AwaitAt(x.others(0), Idle);
      var below := CheckLimit();
      if !below {
        return Ok(()), 0;
      }
      var ok := AwaitDb(x.others(1), x.down(1), Checked);
      if !ok {
        NowGaveUp(x, 0, 1);
        return Err(DbDown), 0;
      }
      var msg := ReadOne(x.invisible);
      if msg.None? {
        return Ok(()), 0;
      }
      m := msg.value.0;
      r := HandleMessage(msg.value.0, msg.value.1, x);
    }

    /** A new call begins. */
    ghost method StartPath()
      requires At(Idle)
      modifies this`mark, this`path
      ensures At(Idle) && mark == |labels| && path == []
    {
      hide Exec;
      mark, path := |labels|, [];
    }

    lemma NowGaveUp(x: Surroundings, m: MsgId, k: nat)
      requires (k <= 5 || 9 <= k <= 10) && (x.down(k) || x.lost(k)) && path == FullPath(x, m)[..k] + [GiveUp]
      ensures GaveUp(x, FullPath(x, m), path)
    {
    }

    /** The capacity check. */
    method CheckLimit() returns (below: bool)
      requires At(Idle)
      modifies this`rest, this`labels, this`path
      ensures old(labels) <= labels && path == old(path) + [CheckCapacity] && Shaped()
      ensures below <==> activeFoci < c.planes[c.planeOf[w]].maxConcurrent
      ensures At(if below then Checked else Idle)
    {
      hide Exec;
      below := activeFoci < c.planes[c.planeOf[w]].maxConcurrent;
      if below {
        MoveTo(Checked, CheckCapacity);
      } else {
        assert Step(c, Now(), Loop(w, CheckCapacity)) == Some(Now());
        Extended(c, labels, Now(), Loop(w, CheckCapacity), Now());
        Took(CheckCapacity);
      }
    }

    /** From the message to the faculty. */
    method HandleMessage(m: MsgId, body: Payload, x: Surroundings) returns (r: Result<(), Failure>)
      requires At(Got(m, body)) && path == FullPath(x, m)[..2]
      modifies this`rest, this`labels, this`path, this`activeFoci, db
      ensures At(Idle) && old(labels) <= labels && Followed(c.others, x, m, path, r)
    {
      hide At;
      if body.OtherPayload? {
        RejectPayload(m);
        return Err(BadPayload);
      }
      var ok := AwaitDb(x.others(2), x.down(2), Got(m, body));
      if !ok {
        NowGaveUp(x, m, 2);
        return Err(DbDown);
      }
      var fetched := FetchItem(m, body.workItemId, body.params);
      if fetched.Err? {
        return Err(fetched.error);
      }
      if fetched.value.None? {
        return Ok(());
      }
      r := RunJob(m, fetched.value.value, x);
    }

    /** From the lookup to the claim. */
    method RunJob(m: MsgId, job: Job, x: Surroundings) returns (r: Result<(), Failure>)
      requires At(Routed(job)) && path == FullPath(x, m)[..3]
      modifies this`rest, this`labels, this`path, this`activeFoci, db
      ensures At(Idle) && old(labels) <= labels && Followed(c.others, x, m, path, r)
    {
      hide At;
      var ok := AwaitDb(x.others(3), x.down(3), Routed(job));
      if !ok {
        NowGaveUp(x, m, 3);
        return Err(DbDown);
      }
      r := ClaimItem(job, x.clock(0), x.lost(4));
      assert FullPath(x, m)[..3] + [Claim(x.clock(0))] == FullPath(x, m)[..4];
      if r.Err? {
        if r.error == DbDown {
          NowGaveUp(x, m, 4);
        }
        return;
      }
      r := RunClaimed(m, job, x);
    }

    /** From the claim to the start. */
    method RunClaimed(m: MsgId, job: Job, x: Surroundings) returns (r: Result<(), Failure>)
      requires At(HasClaim(job)) && path == FullPath(x, m)[..4]
      modifies this`rest, this`labels, this`path, this`activeFoci, db
      ensures At(Idle) && old(labels) <= labels && Followed(c.others, x, m, path, r)
    {
      hide At;
      var ok := AwaitDb(x.others(4), x.down(4), HasClaim(job));
      if !ok {
        NowGaveUp(x, m, 4);
        return Err(DbDown);
      }
      r := StartItem(job, x.clock(1), x.lost(5));
      assert FullPath(x, m)[..4] + [Start(x.clock(1))] == FullPath(x, m)[..5];
      if r.Err? {
        if r.error == DbDown {
          NowGaveUp(x, m, 5);
        }
        return;
      }
      AwaitAt(x.others(5), Started(job));
      r := RunStarted(m, job, x);
    }

    method CountIn(job: Job)
      requires At(Started(job))
      modifies this`rest, this`labels, this`path, this`activeFoci
      ensures At(Counted(job)) && activeFoci == old(activeFoci) + 1
      ensures old(labels) <= labels && path == old(path) + [Count]
    {
      hide Exec;
      AddToCounter(Counted(job), 1, Count);
    }

    /** The counter is positive when it is decremented, whatever the other loops did. */
    method CountOut(job: Job, result: FocusResult)
      requires At(Ended(job, result))
      modifies this`rest, this`labels, this`path, this`activeFoci
      ensures At(Uncounted(job, result)) && activeFoci == old(activeFoci) - 1 && activeFoci >= 0
      ensures old(labels) <= labels && path == old(path) + [Uncount]
    {
      hide Exec;
      assert Reachable(c, Now());
      Capacity.NeverUnderflows(c, Now(), w);
      AddToCounter(Uncounted(job, result), -1, Uncount);
    }

    method OpenFocus(job: Job)
      requires At(Counted(job))
      modifies this`rest, this`labels, this`path
      ensures At(Opened(job)) && old(labels) <= labels && path == old(path) + [CreateFocus]
    {
      hide Exec;
      MoveTo(Opened(job), CreateFocus);
    }

    /** From the increment to the retirement. */
    method RunStarted(m: MsgId, job: Job, x: Surroundings) returns (r: Result<(), Failure>)
      requires At(Started(job)) && path == FullPath(x, m)[..5]
      modifies this`rest, this`labels, this`path, this`activeFoci, db
      ensures At(Idle) && old(labels) <= labels && Followed(c.others, x, m, path, r)
    {
      hide At;
      CountIn(job);
      AwaitAt(x.others(6), Counted(job));
      if x.createFails {
        FailCreate(job);
        return Err(Io("cannot create focus"));
      }
      OpenFocus(job);
      assert path == FullPath(x, m)[..7];
      r := RunOpened(m, job, x);
    }

    /** From the focus to the decrement. */
    method RunOpened(m: MsgId, job: Job, x: Surroundings) returns (r: Result<(), Failure>)
      requires At(Opened(job)) && path == FullPath(x, m)[..7]
      modifies this`rest, this`labels, this`path, this`activeFoci, db
      ensures At(Idle) && old(labels) <= labels && Followed(c.others, x, m, path, r)
    {
      hide At, Followed;
      AwaitAt(x.others(7), Opened(job));
      var result := RunFocus(job, x.env);
      AwaitAt(x.others(8), Ended(job, result));
      CountOut(job, result);
      assert path == FullPath(x, m)[..9];
      r := RetireAndArchive(m, job, result, x);
    }

    /** From the decrement to the end of the call. */
    method RetireAndArchive(m: MsgId, job: Job, result: FocusResult, x: Surroundings) returns (r: Result<(), Failure>)
      requires At(Uncounted(job, result)) && path == FullPath(x, m)[..9]
      modifies this`rest, this`labels, this`path, this`activeFoci, db
      ensures At(Idle) && old(labels) <= labels && Followed(c.others, x, m, path, r)
      ensures r.Ok? ==> path == if result.FocusCompleted? then FullPath(x, m) else FullPath(x, m)[..10]
    {
      hide At;
      var ok := AwaitDb(x.others(9), x.down(9), Uncounted(job, result));
      if !ok {
        NowGaveUp(x, m, 9);
        return Err(DbDown);
      }
      var e := RetireItem(job, result, x.clock(2), x.lost(10));
      assert path == FullPath(x, m)[..10];
      if e.Some? && e.value.Refused? {
        return Err(e.value);
      }
      if result.FocusFailed? {
        return if e.None? then Ok(()) else Err(DbDown);
      }
      if e.Some? {
        Abandon(Retired(job));
        NowGaveUp(x, m, 10);
        return Err(DbDown);
      }
      ok := AwaitDb(x.others(10), x.down(10), Retired(job));
      if !ok {
        NowGaveUp(x, m, 10);
        return Err(DbDown);
      }
      ArchiveItem(job);
      return if x.lost(11) then Err(DbDown) else Ok(());
    }

    /**
     `run`: each wake-up but the shutdown leads to one call; its errors are logged and the loop goes on. All that the
     loop does is what these calls do, each along one of the paths that go with its result.
     */
    method Run(wakes: seq<Wake>, surroundings: nat -> Surroundings) returns (calls: nat, ghost records: seq<CallRecord>)
      requires At(Idle)
      modifies this, db
      ensures At(Idle) && old(labels) <= labels
      ensures calls <= |wakes| && forall i | 0 <= i < calls :: wakes[i] != Shutdown
      ensures calls < |wakes| ==> wakes[calls] == Shutdown
      ensures |records| == calls
      ensures forall i | 0 <= i < calls :: Recorded(c.others, surroundings(i), records[i])
      ensures Own(labels[|old(labels)|..], w) == Paths(records)
    {
      hide At, Own, Recorded;
      calls, records := 0, [];
      ghost var start := |labels|;
      assert Own(labels[start..], w) == [] by {
        NothingOwn(labels, start);
      }
      while calls < |wakes|
        invariant 0 <= calls <= |wakes| && forall i | 0 <= i < calls :: wakes[i] != Shutdown
        invariant At(Idle) && old(labels) <= labels && start == |old(labels)|
        invariant |records| == calls && forall i | 0 <= i < calls :: Recorded(c.others, surroundings(i), records[i])
        invariant Own(labels[start..], w) == Paths(records)
      {
        if wakes[calls] == Shutdown {
          return;
        }
        ghost var before := labels;
        var result, m := ProcessWork(surroundings(calls));
        ghost var record := CallRecord(path, m, result);
        WasRecorded(c.others, surroundings(calls), record);
        PathSinceMark();
        OwnSum(before, labels, start, w);
        PathsSnoc(records, record);
        records := records + [record];
        calls := calls + 1;
      }
    }

    lemma PathSinceMark()
      requires At(Idle)
      ensures mark <= |labels| && path == Own(labels[mark..], w)
    {
      hide Exec;
    }

    lemma Indexed()
      requires Valid()
      ensures IndexOk(db.Snapshot().rows)
    {
      hide Exec, IndexOk;
      ReachedOk();
    }

    /** Every state reached satisfies the invariant. */
    lemma ReachedOk()
      requires Valid()
      ensures Reachable(c, Now()) && Inv(c, Now()) && IndexOk(db.rows)
    {
      hide Exec, Inv;
      assert Reachable(c, Now());
      ReachableOk(c, Now());
      IndexOf(c, Now());
    }
  }

  lemma IndexOf(c: Config, s: Sys)
    requires Inv(c, s)
    ensures IndexOk(s.store.rows)
  {
  }

  lemma FailLabel(c: Config, s: Sys, w: WorkerId)
    requires WellShaped(c, s) && w in s.workers && s.workers[w].up && s.workers[w].pc.Counted?
    ensures var p := c.planeOf[w];
            Step(c, s, Loop(w, CreateFails)) == Some(SetPc(s, w, Idle).(failedCreates := s.failedCreates[p := s.failedCreates[p] + 1]))
  {
  }

  lemma RunLabel(c: Config, s: Sys, w: WorkerId, env: Env)
    requires WellShaped(c, s) && w in s.workers && s.workers[w].up && s.workers[w].pc.Opened?
    ensures Step(c, s, Loop(w, RunHooks(env))) == Some(StepRun(c, s, w, s.workers[w].pc.job, env))
  {
    hide StepRun;
  }

  lemma ArchiveLabel(c: Config, s: Sys, w: WorkerId)
    requires WellShaped(c, s) && w in s.workers && s.workers[w].up && s.workers[w].pc.Retired?
    ensures Step(c, s, Loop(w, Archive)) == Some(SetPc(s.(store := Archived(s.store, s.workers[w].pc.job.m)), w, Idle))
  {
    hide Archived, SetPc;
  }

  lemma RetireLabel(c: Config, s: Sys, w: WorkerId, now: Time)
    requires WellShaped(c, s) && w in s.workers && s.workers[w].up && s.workers[w].pc.Uncounted?
    ensures Step(c, s, Loop(w, Retire(now))) == Some(StepRetire(s, w, s.workers[w].pc.job, s.workers[w].pc.result, now))
  {
    hide StepRetire;
  }

  lemma TransitionErrors(st: Store, id: WorkId, from: State, to: State, now: Time)
    requires IndexOk(st.rows) && CanTransition(from, to)
    ensures Transition(st, id, from, to, now).error.None?
            <==> id in st.rows && st.rows[id].state == from && (to == Running ==> st.rows[id].attempts < MaxI32)
    ensures var e := Transition(st, id, from, to, now).error;
            e.Some? ==> && (e.value == InvalidTransition(from, to) || (to == Running && e.value == Database(IntegerOutOfRange)))
                        && Transition(st, id, from, to, now).store == st
  {
    TransitionExactly(st, id, from, to, now);
  }
}
