/**
 Any number of submitters and control-plane loops over one table and one queue. Every label is one atomic
 step: a committed statement, a counter access, or a local decision between two awaits.
 */
module Protocol {
  import opened Wrappers
  import opened Json
  import opened WorkState
  import opened WorkStore
  import opened Focus

  type WorkerId = nat
  type PlaneId = nat
  type SubmitterId = nat

  /** One control plane: loops cloned from it share its counter, limit and registry. */
  datatype Plane = Plane(maxConcurrent: nat, registry: map<string, Faculty>)

  /** When other programs may take a row out of Running: always, or unless a loop that is up, or any loop, holds it. */
  datatype Others = Unrestricted | SpareUp | SpareAll

  datatype Config = Config(codec: Codec, planeOf: map<WorkerId, PlaneId>, planes: map<PlaneId, Plane>, others: Others)

  /** What a loop works on: the message it read, the item it names, and the faculty found for it. */
  datatype Job = Job(m: MsgId, id: WorkId, faculty: Faculty)

  /** Where a loop stands in `process_work`. */
  datatype Pc =
    | Idle
    | Checked                                     // below the limit
    | Got(m: MsgId, body: Payload)                // message read
    | Routed(job: Job)                            // item fetched, faculty found
    | HasClaim(job: Job)                          // Queued -> Claimed done
    | Started(job: Job)                           // Claimed -> Running done
    | Counted(job: Job)                           // counter incremented
    | Opened(job: Job)                            // focus created
    | Ended(job: Job, result: FocusResult)        // focus run
    | Uncounted(job: Job, result: FocusResult)    // counter decremented
    | Retired(job: Job)                           // Running -> Completed done

  datatype Worker = Worker(pc: Pc, up: bool)

  /** A submission between its failed insert and its end. */
  datatype Submission =
    | Conflicted(id: WorkId, n: NewWorkItem, now: Time)
    | Found(id: WorkId, n: NewWorkItem, now: Time, canonical: WorkId)

  /** One focus run for an item. */
  datatype RunRecord = RunRecord(plane: PlaneId, faculty: Faculty, env: Env)

  /**
   What happened to an item so far. No step reads it. `takenAt` is the length the trail had when others last took the
   item out of Running.
   */
  datatype History = History(submitted: NewWorkItem, trail: seq<State>, runs: seq<RunRecord>, takenAt: nat)

  datatype Sys = Sys(
    store: Store,
    history: map<WorkId, History>,
    counters: map<PlaneId, int>,
    failedCreates: map<PlaneId, nat>,
    workers: map<WorkerId, Worker>,
    submissions: map<SubmitterId, Submission>)

  datatype Act =
    | CheckCapacity
    | ReadMessage(m: MsgId)
    | ReadNothing
    | Fetch
    | Claim(now: Time)
    | Start(now: Time)
    | Count
    | CreateFocus
    | CreateFails
    | RunHooks(env: Env)
    | Uncount
    | Retire(now: Time)
    | Archive
    | GiveUp                                      // a database error is returned
    | Crash

  datatype SubmitAct =
    | TryInsert(id: WorkId, n: NewWorkItem, now: Time)
    | Lookup(canonical: WorkId)
    | LookupMisses
    | InsertMerged
    | RollBack

  datatype Label =
    | Loop(w: WorkerId, act: Act)
    | Submit(k: SubmitterId, what: SubmitAct)
    | Outside(id: WorkId, from: State, to: State, now: Time)
    | Foreign

  // ----- helpers -----------------------------------------------------------------------

  /** The same loops and counters. */
  predicate SameKeys(s: Sys, t: Sys) {
    && t.workers.Keys == s.workers.Keys
    && t.counters.Keys == s.counters.Keys
    && t.failedCreates.Keys == s.failedCreates.Keys
  }

  /** Only this loop moves, and no counter does. */
  predicate MovesOnly(s: Sys, t: Sys, w: WorkerId) {
    && w in s.workers && w in t.workers && t.workers == s.workers[w := t.workers[w]]
    && t.counters == s.counters && t.failedCreates == s.failedCreates && t.submissions == s.submissions
  }

  function SetPc(s: Sys, w: WorkerId, pc: Pc): (t: Sys)
    requires w in s.workers
    ensures SameKeys(s, t) && MovesOnly(s, t, w)
  {
    s.(workers := s.workers[w := s.workers[w].(pc := pc)])
  }

  /** The store after an update, and the state entered in the item's history. */
  function Enter(s: Sys, st: Store, id: WorkId, to: State): (t: Sys)
    ensures SameKeys(s, t) && t.workers == s.workers && t.store == st
    ensures t.counters == s.counters && t.failedCreates == s.failedCreates && t.submissions == s.submissions
  {
    if id in s.history then
      s.(store := st, history := s.history[id := s.history[id].(trail := s.history[id].trail + [to])])
    else s.(store := st)
  }

  ghost predicate GoodConfig(c: Config) {
    forall w | w in c.planeOf :: c.planeOf[w] in c.planes
  }

  /** A focus is being run for the item, or was and has not been retired. */
  predicate Holding(pc: Pc) {
    pc.Started? || pc.Counted? || pc.Opened? || pc.Ended? || pc.Uncounted?
  }

  /** Others take no held item out of Running. */
  ghost predicate Careful(c: Config) {
    GoodConfig(c) && c.others != Unrestricted
  }

  /** Whether a loop can still go on, as far as others have to care. */
  predicate Active(c: Config, x: Worker) {
    x.up || c.others == SpareAll
  }

  /** A loop whose item others must leave in Running. */
  predicate Holder(c: Config, x: Worker) {
    c.others != Unrestricted && Active(c, x) && Holding(x.pc)
  }

  predicate HoldsItem(c: Config, s: Sys, w: WorkerId, id: WorkId) {
    w in s.workers && Holder(c, s.workers[w]) && s.workers[w].pc.job.id == id
  }

  predicate Held(c: Config, s: Sys, id: WorkId) {
    exists w | w in s.workers :: HoldsItem(c, s, w, id)
  }

  /** Between the increment and the decrement of the counter. */
  predicate InFlight(pc: Pc) {
    pc.Counted? || pc.Opened? || pc.Ended?
  }

  /** Between the capacity check and the increment. */
  predicate Pending(pc: Pc) {
    pc.Checked? || pc.Got? || pc.Routed? || pc.HasClaim? || pc.Started?
  }

  /** Where the next await can return a database error. */
  predicate CanGiveUp(pc: Pc) {
    Pending(pc) || pc.Uncounted? || pc.Retired?
  }

  /** The steps that can commit a change, and the lookup before them. */
  predicate Commits(act: Act) {
    act.Fetch? || act.Claim? || act.Start? || act.RunHooks? || act.Retire? || act.Archive?
  }

  /** The steps that can change a counter. */
  predicate Counts(act: Act) {
    act.Count? || act.Uncount? || act.CreateFails?
  }

  function ErrorText(phase: string, error: string): string {
    phase + ": " + error
  }

  // ----- the steps of a loop -----------------------------------------------------------

  function StepFetch(c: Config, s: Sys, w: WorkerId, m: MsgId, body: Payload): (t: Sys)
    requires w in s.workers && w in c.planeOf && c.planeOf[w] in c.planes
    ensures SameKeys(s, t) && MovesOnly(s, t, w)
    ensures t.workers[w].pc.Idle? || t.workers[w].pc.Routed?
  {
    match body
    case OtherPayload => SetPc(s, w, Idle)
    case WorkPayload(id, _) =>
      match FindItem(s.store, id)
      case Err(_) => SetPc(s, w, Idle)
      case Ok(item) =>
        var registry := c.planes[c.planeOf[w]].registry;
        if item.faculty in registry then SetPc(s, w, Routed(Job(m, id, registry[item.faculty]))) else SetPc(s, w, Idle)
  }

  function StepTransition(s: Sys, w: WorkerId, id: WorkId, from: State, to: State, now: Time, next: Pc): (t: Sys)
    requires w in s.workers
    ensures SameKeys(s, t) && MovesOnly(s, t, w)
    ensures t.workers[w].pc == Idle || t.workers[w].pc == next
  {
    var u := Transition(s.store, id, from, to, now);
    if u.error.Some? then SetPc(s, w, Idle) else SetPc(Enter(s, u.store, id, to), w, next)
  }

  function StepRetire(s: Sys, w: WorkerId, job: Job, result: FocusResult, now: Time): (t: Sys)
    requires w in s.workers
    ensures SameKeys(s, t) && MovesOnly(s, t, w)
    ensures t.workers[w].pc == Idle || t.workers[w].pc == Retired(job)
  {
    match result
    case FocusCompleted(data, ms) =>
      var u := Complete(s.store, job.id, Outcome(true, Some(data), None, ms), now);
      if u.error.Some? then SetPc(s, w, Idle) else SetPc(Enter(s, u.store, job.id, Completed), w, Retired(job))
    case FocusFailed(phase, error, ms) =>
      var u := Fail(s.store, job.id, ErrorText(phase, error), ms, now);
      if u.error.Some? then SetPc(s, w, Idle) else SetPc(Enter(s, u.store, job.id, Failed), w, Idle)
  }

  function StepRun(c: Config, s: Sys, w: WorkerId, job: Job, env: Env): (t: Sys)
    requires w in s.workers && w in c.planeOf
    ensures SameKeys(s, t) && MovesOnly(s, t, w)
    ensures t.workers[w].pc.Ended?
  {
    var x := Execute(c.codec, job.faculty, env);
    var s' := SetPc(s, w, Ended(job, x.result));
    if job.id in s.history then
      var h := s.history[job.id];
      s'.(history := s.history[job.id := h.(runs := h.runs + [RunRecord(c.planeOf[w], job.faculty, env)])])
    else s'
  }

  function AddCounter(s: Sys, p: PlaneId, n: int): (t: Sys)
    requires p in s.counters
    ensures SameKeys(s, t)
  {
    s.(counters := s.counters[p := s.counters[p] + n])
  }

  /** One step of a loop that is up, or nothing when the step is not possible there. */
  function LoopStep(c: Config, s: Sys, w: WorkerId, act: Act): (t: Option<Sys>)
    requires w in s.workers && w in c.planeOf && c.planeOf[w] in c.planes
    requires c.planeOf[w] in s.counters && c.planeOf[w] in s.failedCreates
    ensures t.Some? ==> SameKeys(s, t.value)
  {
    var pc := s.workers[w].pc;
    var p := c.planeOf[w];
    match act
    case CheckCapacity =>
      if !pc.Idle? then None
      else if s.counters[p] >= c.planes[p].maxConcurrent then Some(s)
      else Some(SetPc(s, w, Checked))
    case ReadMessage(m) => if pc.Checked? && m in s.store.live then Some(SetPc(s, w, Got(m, s.store.live[m]))) else None
    case ReadNothing => if pc.Checked? then Some(SetPc(s, w, Idle)) else None
    case Fetch => if pc.Got? then Some(StepFetch(c, s, w, pc.m, pc.body)) else None
    case Claim(now) => if pc.Routed? then Some(StepTransition(s, w, pc.job.id, Queued, Claimed, now, HasClaim(pc.job))) else None
    case Start(now) => if pc.HasClaim? then Some(StepTransition(s, w, pc.job.id, Claimed, Running, now, Started(pc.job))) else None
    case Count => if pc.Started? then Some(AddCounter(SetPc(s, w, Counted(pc.job)), p, 1)) else None
    case CreateFocus => if pc.Counted? then Some(SetPc(s, w, Opened(pc.job))) else None
    case CreateFails =>
      if pc.Counted? then Some(SetPc(s, w, Idle).(failedCreates := s.failedCreates[p := s.failedCreates[p] + 1])) else None
    case RunHooks(env) => if pc.Opened? then Some(StepRun(c, s, w, pc.job, env)) else None
    case Uncount => if pc.Ended? then Some(AddCounter(SetPc(s, w, Uncounted(pc.job, pc.result)), p, -1)) else None
    case Retire(now) => if pc.Uncounted? then Some(StepRetire(s, w, pc.job, pc.result, now)) else None
    case Archive => if pc.Retired? then Some(SetPc(s.(store := Archived(s.store, pc.job.m)), w, Idle)) else None
    case GiveUp => if CanGiveUp(pc) then Some(SetPc(s, w, Idle)) else None
    case Crash => Some(s.(workers := s.workers[w := s.workers[w].(up := false)]))
  }

  // ----- the steps of a submission -----------------------------------------------------

  function NewHistory(n: NewWorkItem, to: State): History {
    History(n, [State.Created, to], [], 0)
  }

  function SubmitStep(s: Sys, k: SubmitterId, what: SubmitAct): (t: Option<Sys>)
    ensures t.Some? ==> SameKeys(s, t.value)
  {
    match what
    case TryInsert(id, n, now) =>
      if k in s.submissions then None
      else if n.dedupKey.Some? && Conflicts(s.store.rows, (n.faculty, n.dedupKey.value)) then
        Some(s.(submissions := s.submissions[k := Conflicted(id, n, now)]))
      else if !Insertable(s.store, id, n) then Some(s)
      else Some(s.(store := Enqueue(s.store, id, n, now), history := s.history[id := NewHistory(n, Queued)]))
    case Lookup(canonical) =>
      if k in s.submissions && s.submissions[k].Conflicted? then
        var q := s.submissions[k];
        if q.n.dedupKey.Some? && Holds(s.store.rows, canonical, (q.n.faculty, q.n.dedupKey.value)) then
          Some(s.(submissions := s.submissions[k := Found(q.id, q.n, q.now, canonical)]))
        else None
      else None
    case LookupMisses =>
      if k in s.submissions && s.submissions[k].Conflicted? then
        var q := s.submissions[k];
        if q.n.dedupKey.Some? && Conflicts(s.store.rows, (q.n.faculty, q.n.dedupKey.value)) then None
        else Some(s.(submissions := s.submissions - {k}))
      else None
    case InsertMerged =>
      if k in s.submissions && s.submissions[k].Found? then
        var q := s.submissions[k];
        var s' := s.(submissions := s.submissions - {k});
        if Insertable(s.store, q.id, q.n) && q.canonical in s.store.rows then
          Some(s'.(store := Merge(s.store, q.id, q.n, q.canonical, q.now), history := s.history[q.id := NewHistory(q.n, State.Merged)]))
        else Some(s')
      else None
    case RollBack => if k in s.submissions then Some(s.(submissions := s.submissions - {k})) else None
  }

  /** The state after a transition by another program. */
  function Taken(s: Sys, id: WorkId, from: State, to: State, now: Time): (t: Sys)
    ensures SameKeys(s, t) && t.workers == s.workers
    ensures t.counters == s.counters && t.failedCreates == s.failedCreates && t.submissions == s.submissions
  {
    var t := Enter(s, Transition(s.store, id, from, to, now).store, id, to);
    if from == Running && id in t.history then
      t.(history := t.history[id := t.history[id].(takenAt := |t.history[id].trail|)])
    else t
  }

  /** Another program calls `transition_state`, on a Running row only as far as it may. */
  function OutsideStep(c: Config, s: Sys, id: WorkId, from: State, to: State, now: Time): (t: Option<Sys>)
    ensures t.Some? ==> SameKeys(s, t.value)
  {
    if Transition(s.store, id, from, to, now).error.Some? then None
    else if from == Running && Held(c, s, id) then None
    else Some(Taken(s, id, from, to, now))
  }

  // ----- runs --------------------------------------------------------------------------

  predicate WellShaped(c: Config, s: Sys) {
    && s.workers.Keys == c.planeOf.Keys
    && s.counters.Keys == c.planes.Keys
    && s.failedCreates.Keys == c.planes.Keys
    && forall w | w in c.planeOf :: c.planeOf[w] in c.planes
  }

  lemma ShapedLoop(c: Config, s: Sys, w: WorkerId)
    requires WellShaped(c, s) && w in s.workers
    ensures w in c.planeOf && c.planeOf[w] in c.planes && c.planeOf[w] in s.counters && c.planeOf[w] in s.failedCreates
  {
  }

  function Step(c: Config, s: Sys, l: Label): (t: Option<Sys>)
    requires WellShaped(c, s)
    ensures t.Some? ==> WellShaped(c, t.value)
  {
    match l
    case Loop(w, act) => if w in s.workers && s.workers[w].up then LoopStep(c, s, w, act) else None
    case Submit(k, what) => SubmitStep(s, k, what)
    case Outside(id, from, to, now) => OutsideStep(c, s, id, from, to, now)
    case Foreign => Some(s.(store := Send(s.store, OtherPayload)))
  }

  function Initial(c: Config): Sys {
    Sys(
      Store(map[], map[], map[], 1),
      map[],
      map p | p in c.planes :: 0,
      map p | p in c.planes :: 0,
      map w | w in c.planeOf :: Worker(Idle, true),
      map[])
  }

  /** The state a list of labels leads to, if every step of it is possible. */
  function Exec(c: Config, s: Sys, labels: seq<Label>): Option<Sys>
    requires WellShaped(c, s)
    decreases |labels|
  {
    if labels == [] then Some(s)
    else
      var next := Step(c, s, labels[0]);
      if next.None? then None else Exec(c, next.value, labels[1..])
  }

  /** A state some run leads to. */
  ghost predicate Reachable(c: Config, s: Sys) {
    && GoodConfig(c)
    && exists labels :: Exec(c, Initial(c), labels) == Some(s)
  }
}
