/** The hook pipeline of src/engine/focus.rs. Processes, files and clocks are inputs. */
module Focus {
  import opened Wrappers
  import opened Text
  import opened Json
  import Seqs

  /** A faculty's hooks: orient and consolidate are optional. */
  datatype Faculty = Faculty(name: string, orient: Option<string>, engage: string, consolidate: Option<string>)

  datatype HookEnd = SpawnFailed(error: string) | Exited(code: Option<int>)

  datatype File = Absent(error: string) | Unreadable(error: string) | Contents(text: string)

  /** How each hook ends, what the outcome files hold afterwards, and how long it took. */
  datatype Env = Env(orient: HookEnd, engage: HookEnd, consolidate: HookEnd,
    consolidateOut: File, engageOut: File, parseError: string, elapsedMs: nat)

  datatype FocusResult =
    | FocusCompleted(data: Json, ms: nat)
    | FocusFailed(phase: string, error: string, ms: nat)

  datatype Phase = Phase(name: string, command: string)

  /** One hook that was started. */
  datatype HookRun = HookRun(phase: Phase, ok: bool)

  datatype Execution = Execution(result: FocusResult, ran: seq<HookRun>)

  /** The file that errors name, whichever was read. */
  const NamedFile := "consolidate-out.json"

  // ----- specification -----------------------------------------------------------------

  function Phases(f: Faculty): seq<Phase> {
    (match f.orient case Some(c) => [Phase("orient", c)] case None => [])
    + [Phase("engage", f.engage)]
    + (match f.consolidate case Some(c) => [Phase("consolidate", c)] case None => [])
  }

  function EndOf(env: Env, phase: string): HookEnd {
    if phase == "orient" then env.orient else if phase == "engage" then env.engage else env.consolidate
  }

  predicate Succeeds(env: Env, phase: string) {
    EndOf(env, phase) == Exited(Some(0))
  }

  function HookError(env: Env, phase: string): string {
    match EndOf(env, phase)
    case SpawnFailed(error) => error
    case Exited(code) => phase + " hook exited with status " + Decimal(code.GetOr(-1))
  }

  /** `as_millis() as u64`. */
  function Duration(env: Env): nat {
    env.elapsedMs % 0x1_0000_0000_0000_0000
  }

  function Ran(phases: seq<Phase>): seq<HookRun> {
    if phases == [] then [] else [HookRun(phases[0], true)] + Ran(phases[1..])
  }

  function OutcomeFile(env: Env): File {
    if env.consolidateOut.Absent? then env.engageOut else env.consolidateOut
  }

  /** The outcome file is there, readable and JSON. */
  predicate HasOutcome(codec: Codec, env: Env) {
    OutcomeFile(env).Contents? && codec.parse(OutcomeFile(env).text).Some?
  }

  predicate SucceedTo(env: Env, phases: seq<Phase>, k: nat)
    requires k <= |phases|
  {
    forall i | 0 <= i < k :: Succeeds(env, phases[i].name)
  }

  predicate AllSucceed(env: Env, phases: seq<Phase>) {
    SucceedTo(env, phases, |phases|)
  }

  /** Which phase, from the given one on, is the first to fail. */
  function FirstFailure(env: Env, phases: seq<Phase>, from: nat := 0): (k: nat)
    requires from <= |phases| && SucceedTo(env, phases, from)
    ensures k <= |phases| && SucceedTo(env, phases, k)
    ensures k < |phases| ==> !Succeeds(env, phases[k].name)
    decreases |phases| - from
  {
    if from == |phases| || !Succeeds(env, phases[from].name) then from else FirstFailure(env, phases, from + 1)
  }

  // ----- the pipeline ------------------------------------------------------------------

  method RunHook(env: Env, phase: string) returns (r: Result<(), string>)
    ensures Succeeds(env, phase) ==> r.Ok?
    ensures !Succeeds(env, phase) ==> r == Err(HookError(env, phase))
  {
    match EndOf(env, phase)
    case SpawnFailed(error) => r := Err(error);
    case Exited(code) =>
      if code == Some(0) {
        r := Ok(());
      } else {
        r := Err(phase + " hook exited with status " + Decimal(code.GetOr(-1)));
      }
  }

  /**
   Completed exactly when every configured hook succeeds and the outcome file is JSON, with that JSON; the hooks
   run in order up to the first that fails, each once, and a failing hook is reported.
   */
  method Run(codec: Codec, f: Faculty, env: Env) returns (x: Execution)
    ensures x == Execute(codec, f, env)
    ensures x.result.FocusCompleted? <==> AllSucceed(env, Phases(f)) && HasOutcome(codec, env)
  {
    hide Execute, HookError, Duration, Succeeds, Decimal;
    var phases: seq<Phase> := [];
    if f.orient.Some? {
      phases := phases + [Phase("orient", f.orient.value)];
    }
    phases := phases + [Phase("engage", f.engage)];
    if f.consolidate.Some? {
      phases := phases + [Phase("consolidate", f.consolidate.value)];
    }
    assert phases == Phases(f);
    var ran: seq<HookRun> := [];
    var i := 0;
    assert ran == Ran(phases[..i]);
    hide Phases, Ran;
    while i < |phases|
      invariant 0 <= i <= |phases|
      invariant SucceedTo(env, phases, i)
      invariant ran == Ran(phases[..i])
    {
      var r := RunHook(env, phases[i].name);
      if r.Err? {
        ran := ran + [HookRun(phases[i], false)];
        FailedAt(codec, f, env, i);
        return Execution(FocusFailed(phases[i].name, r.error, Duration(env)), ran);
      }
      assert phases[..i + 1] == phases[..i] + [phases[i]];
      RanSnoc(phases[..i], phases[i]);
      ran := ran + [HookRun(phases[i], true)];
      i := i + 1;
    }
    assert phases[..i] == phases;
    AllPassed(codec, f, env);
    var file := if env.consolidateOut.Absent? then env.engageOut else env.consolidateOut;
    match file
    case Contents(text) =>
      var parsed := codec.parse(text);
      if parsed.Some? {
        x := Execution(FocusCompleted(parsed.value, Duration(env)), ran);
      } else {
        x := Execution(FocusFailed("consolidate", "bad " + NamedFile + ": " + env.parseError, Duration(env)), ran);
      }
    case Absent(error) =>
      x := Execution(FocusFailed("consolidate", "missing " + NamedFile + ": " + error, Duration(env)), ran);
    case Unreadable(error) =>
      x := Execution(FocusFailed("consolidate", "missing " + NamedFile + ": " + error, Duration(env)), ran);
  }

  function ReadOutcome(codec: Codec, env: Env): FocusResult {
    match OutcomeFile(env)
    case Contents(text) =>
      (match codec.parse(text)
       case Some(data) => FocusCompleted(data, Duration(env))
       case None => FocusFailed("consolidate", "bad " + NamedFile + ": " + env.parseError, Duration(env)))
    case Absent(error) => FocusFailed("consolidate", "missing " + NamedFile + ": " + error, Duration(env))
    case Unreadable(error) => FocusFailed("consolidate", "missing " + NamedFile + ": " + error, Duration(env))
  }

  /** The execution as a function: hooks up to the first failure, then the outcome file. */
  function Execute(codec: Codec, f: Faculty, env: Env): Execution {
    var phases := Phases(f);
    var k := FirstFailure(env, phases);
    if k < |phases| then
      Execution(FocusFailed(phases[k].name, HookError(env, phases[k].name), Duration(env)), Ran(phases[..k]) + [HookRun(phases[k], false)])
    else
      Execution(ReadOutcome(codec, env), Ran(phases))
  }

  lemma {:induction false} RanSnoc(phases: seq<Phase>, p: Phase)
    ensures Ran(phases + [p]) == Ran(phases) + [HookRun(p, true)]
  {
    if phases == [] {
      assert [] + [p] == [p] && [p][1..] == [];
    } else {
      Seqs.TailOfSum(phases, [p]);
      RanSnoc(phases[1..], p);
    }
  }

  lemma FailedAt(codec: Codec, f: Faculty, env: Env, i: nat)
    requires i < |Phases(f)| && SucceedTo(env, Phases(f), i) && !Succeeds(env, Phases(f)[i].name)
    ensures var p := Phases(f)[i];
            Execute(codec, f, env)
            == Execution(FocusFailed(p.name, HookError(env, p.name), Duration(env)), Ran(Phases(f)[..i]) + [HookRun(p, false)])
    ensures !AllSucceed(env, Phases(f))
  {
    hide Succeeds;
    assert FirstFailure(env, Phases(f)) == i;
  }

  lemma AllPassed(codec: Codec, f: Faculty, env: Env)
    requires AllSucceed(env, Phases(f))
    ensures Execute(codec, f, env) == Execution(ReadOutcome(codec, env), Ran(Phases(f)))
  {
    hide Succeeds;
    assert FirstFailure(env, Phases(f)) == |Phases(f)|;
  }

  function OutcomeName(env: Env): string {
    if env.consolidateOut.Absent? then "engage-out.json" else NamedFile
  }

  /** The error of a missing or malformed outcome names this file. */
  predicate NamesFile(error: string, file: string) {
    StartsWith(error, "missing " + file) || StartsWith(error, "bad " + file)
  }

  /**
   When all hooks succeed and the outcome file cannot be used, the error names consolidate-out.json; that is the file
   that was read if and only if it was there.
   */
  lemma NamedFileExactly(codec: Codec, f: Faculty, env: Env)
    requires EveryHookSucceeds(f, env) && UsableOutcome(codec, env).None?
    ensures var x := Execute(codec, f, env).result;
            && x.FocusFailed? && x.phase == "consolidate" && NamesFile(x.error, NamedFile)
            && (NamesFile(x.error, OutcomeName(env)) <==> !env.consolidateOut.Absent?)
  {
    hide Execute, Duration, NamesFile, AllSucceed, Phases;
    SucceedByHook(f, env);
    AllPassed(codec, f, env);
    match OutcomeFile(env)
    case Contents(_) => NamedOnly("bad ", env.parseError);
    case Absent(error) => NamedOnly("missing ", error);
    case Unreadable(error) => NamedOnly("missing ", error);
  }

  lemma NamedOnly(what: string, rest: string)
    requires what == "bad " || what == "missing "
    ensures NamesFile(what + NamedFile + ": " + rest, NamedFile)
    ensures !NamesFile(what + NamedFile + ": " + rest, "engage-out.json")
  {
    var error := what + NamedFile + ": " + rest;
    Seqs.Assoc(what + NamedFile, ": ", rest);
    PrefixOfSum(what + NamedFile, ": " + rest);
    assert error[0] == what[0] && error[|what|] == 'c';
    if what == "bad " {
      NotPrefix(error, "missing " + "engage-out.json", 0);
      NotPrefix(error, "bad " + "engage-out.json", 4);
    } else {
      NotPrefix(error, "bad " + "engage-out.json", 0);
      NotPrefix(error, "missing " + "engage-out.json", 8);
    }
  }

  // ----- what that means for the configured hooks --------------------------------------

  /** All configured hooks, in order, as run to success. */
  function EveryHook(f: Faculty): seq<HookRun> {
    (match f.orient case None => [] case Some(command) => [HookRun(Phase("orient", command), true)])
    + [HookRun(Phase("engage", f.engage), true)]
    + (match f.consolidate case None => [] case Some(command) => [HookRun(Phase("consolidate", command), true)])
  }

  predicate EveryHookSucceeds(f: Faculty, env: Env) {
    && (f.orient.Some? ==> env.orient == Exited(Some(0)))
    && env.engage == Exited(Some(0))
    && (f.consolidate.Some? ==> env.consolidate == Exited(Some(0)))
  }

  /** The JSON of consolidate-out.json when that file is there, and of engage-out.json otherwise. */
  function UsableOutcome(codec: Codec, env: Env): Option<Json> {
    if env.consolidateOut.Absent? then
      if env.engageOut.Contents? then codec.parse(env.engageOut.text) else None
    else if env.consolidateOut.Contents? then codec.parse(env.consolidateOut.text)
    else None
  }

  lemma PhasesAre(f: Faculty)
    ensures Phases(f) ==
              match f.orient
              case None =>
                (match f.consolidate
                 case None => [Phase("engage", f.engage)]
                 case Some(z) => [Phase("engage", f.engage), Phase("consolidate", z)])
              case Some(o) =>
                (match f.consolidate
                 case None => [Phase("orient", o), Phase("engage", f.engage)]
                 case Some(z) => [Phase("orient", o), Phase("engage", f.engage), Phase("consolidate", z)])
  {
  }

  lemma SucceedByHook(f: Faculty, env: Env)
    ensures AllSucceed(env, Phases(f)) <==> EveryHookSucceeds(f, env)
  {
    PhasesAre(f);
    assert forall p: string :: Succeeds(env, p) <==> EndOf(env, p) == Exited(Some(0));
    if EveryHookSucceeds(f, env) {
      assert forall i | 0 <= i < |Phases(f)| :: Succeeds(env, Phases(f)[i].name);
    }
    if AllSucceed(env, Phases(f)) {
      var k := if f.orient.Some? then 1 else 0;
      assert Succeeds(env, Phases(f)[k].name);
      assert f.orient.Some? ==> Succeeds(env, Phases(f)[0].name);
      assert f.consolidate.Some? ==> Succeeds(env, Phases(f)[k + 1].name);
    }
  }

  lemma {:induction false} RanAppend(a: seq<Phase>, b: seq<Phase>)
    ensures Ran(a + b) == Ran(a) + Ran(b)
  {
    if a == [] {
      Seqs.Unit(b);
      Seqs.Unit(Ran(b));
    } else {
      Seqs.TailOfSum(a, b);
      RanAppend(a[1..], b);
      Seqs.Assoc([HookRun(a[0], true)], Ran(a[1..]), Ran(b));
    }
  }

  lemma RanOne(p: Phase)
    ensures Ran([p]) == [HookRun(p, true)] && Ran([]) == []
  {
    assert [p][1..] == [];
  }

  lemma RanIsEveryHook(f: Faculty)
    ensures Ran(Phases(f)) == EveryHook(f)
  {
    hide Ran;
    var o := match f.orient case Some(c) => [Phase("orient", c)] case None => [];
    var z := match f.consolidate case Some(c) => [Phase("consolidate", c)] case None => [];
    RanAppend(o + [Phase("engage", f.engage)], z);
    RanAppend(o, [Phase("engage", f.engage)]);
    RanOne(Phase("engage", f.engage));
    RanOne(Phase("orient", f.orient.GetOr("")));
    RanOne(Phase("consolidate", f.consolidate.GetOr("")));
  }

  /**
   A focus completes if and only if every configured hook exits with zero and the outcome is JSON: then every
   configured hook ran once and in order, and the data is that JSON.
   */
  lemma CompletedExactly(codec: Codec, f: Faculty, env: Env)
    ensures var x := Execute(codec, f, env);
            && (x.result.FocusCompleted? <==> EveryHookSucceeds(f, env) && UsableOutcome(codec, env).Some?)
            && (x.result.FocusCompleted? ==> x.ran == EveryHook(f) && Some(x.result.data) == UsableOutcome(codec, env))
            && (x.result.FocusCompleted? && env.elapsedMs < 0x1_0000_0000_0000_0000 ==> x.result.ms == env.elapsedMs)
  {
    hide Phases, Ran, Succeeds, EveryHook;
    SucceedByHook(f, env);
    RanIsEveryHook(f);
    if AllSucceed(env, Phases(f)) {
      AllPassed(codec, f, env);
    } else {
      var k := FirstFailure(env, Phases(f));
      FailedAt(codec, f, env, k);
    }
  }

  /** The error of a hook that does not exit with zero. */
  predicate HookFailed(end: HookEnd, phase: string, error: string) {
    match end
    case SpawnFailed(e) => error == e
    case Exited(None) => error == phase + " hook exited with status -1"
    case Exited(Some(code)) => code != 0 && error == phase + " hook exited with status " + Decimal(code)
  }

  /** The run stopped at this hook after these. */
  predicate StoppedAt(x: Execution, before: seq<HookRun>, phase: string, command: string, end: HookEnd, ms: nat) {
    && x.result.FocusFailed? && x.result.phase == phase && HookFailed(end, phase, x.result.error)
    && x.ran == before + [HookRun(Phase(phase, command), false)]
    && (ms < 0x1_0000_0000_0000_0000 ==> x.result.ms == ms)
  }

  lemma StopsAt(codec: Codec, f: Faculty, env: Env, i: nat)
    requires i < |Phases(f)| && SucceedTo(env, Phases(f), i) && !Succeeds(env, Phases(f)[i].name)
    ensures var p := Phases(f)[i];
            StoppedAt(Execute(codec, f, env), Ran(Phases(f)[..i]), p.name, p.command, EndOf(env, p.name), env.elapsedMs)
  {
    hide Execute, Phases, EndOf, DecimalNat;
    FailedAt(codec, f, env, i);
    assert Decimal(-1) == "-1" by {
      MinusOne();
    }
  }

  lemma MinusOne()
    ensures Decimal(-1) == "-1"
  {
  }

  /** The first hook that does not exit with zero stops the run, after those before it, and its error is reported. */
  lemma FailedExactly(codec: Codec, f: Faculty, env: Env)
    ensures var x := Execute(codec, f, env);
            if f.orient.Some? && env.orient != Exited(Some(0)) then
              StoppedAt(x, [], "orient", f.orient.value, env.orient, env.elapsedMs)
            else if env.engage != Exited(Some(0)) then
              StoppedAt(x, match f.orient case None => [] case Some(o) => [HookRun(Phase("orient", o), true)],
                "engage", f.engage, env.engage, env.elapsedMs)
            else if f.consolidate.Some? && env.consolidate != Exited(Some(0)) then
              StoppedAt(x, (match f.orient case None => [] case Some(o) => [HookRun(Phase("orient", o), true)])
                  + [HookRun(Phase("engage", f.engage), true)],
                "consolidate", f.consolidate.value, env.consolidate, env.elapsedMs)
            else
              x.ran == EveryHook(f)
  {
    hide Execute, Ran, StoppedAt, EveryHook;
    PhasesAre(f);
    var k := if f.orient.Some? then 1 else 0;
    if f.orient.Some? && env.orient != Exited(Some(0)) {
      StopsAt(codec, f, env, 0);
      assert Phases(f)[..0] == [];
      RanOne(Phases(f)[0]);
    } else if env.engage != Exited(Some(0)) {
      OrientPassed(f, env);
      StopsAt(codec, f, env, k);
    } else if f.consolidate.Some? && env.consolidate != Exited(Some(0)) {
      EngagePassed(f, env);
      StopsAt(codec, f, env, k + 1);
    } else {
      SucceedByHook(f, env);
      AllPassed(codec, f, env);
      RanIsEveryHook(f);
    }
  }

  lemma OrientPassed(f: Faculty, env: Env)
    requires f.orient.Some? ==> env.orient == Exited(Some(0))
    ensures var k := if f.orient.Some? then 1 else 0;
            && k < |Phases(f)| && Phases(f)[k] == Phase("engage", f.engage) && SucceedTo(env, Phases(f), k)
            && Ran(Phases(f)[..k]) == match f.orient case None => [] case Some(o) => [HookRun(Phase("orient", o), true)]
  {
    hide Ran;
    PhasesAre(f);
    if f.orient.Some? {
      assert Phases(f)[..1] == [Phase("orient", f.orient.value)];
      RanOne(Phases(f)[0]);
    } else {
      assert Phases(f)[..0] == [];
      RanOne(Phases(f)[0]);
    }
  }

  lemma EngagePassed(f: Faculty, env: Env)
    requires f.orient.Some? ==> env.orient == Exited(Some(0))
    requires env.engage == Exited(Some(0)) && f.consolidate.Some?
    ensures var k := if f.orient.Some? then 2 else 1;
            && k < |Phases(f)| && Phases(f)[k] == Phase("consolidate", f.consolidate.value) && SucceedTo(env, Phases(f), k)
            && Ran(Phases(f)[..k]) == (match f.orient case None => [] case Some(o) => [HookRun(Phase("orient", o), true)])
                                      + [HookRun(Phase("engage", f.engage), true)]
  {
    hide Ran;
    OrientPassed(f, env);
    PhasesAre(f);
    var k := if f.orient.Some? then 1 else 0;
    assert Phases(f)[..k + 1] == Phases(f)[..k] + [Phase("engage", f.engage)];
    RanSnoc(Phases(f)[..k], Phase("engage", f.engage));
  }

  /** A completed focus ran every configured hook once, in order, all succeeding, and its data is its outcome file's JSON. */
  lemma CompletedRanEverything(codec: Codec, f: Faculty, env: Env)
    requires Execute(codec, f, env).result.FocusCompleted?
    ensures Execute(codec, f, env).ran == EveryHook(f) && EveryHookSucceeds(f, env)
    ensures UsableOutcome(codec, env) == Some(Execute(codec, f, env).result.data)
    ensures Execute(codec, f, env).result.ms < 0x1_0000_0000_0000_0000
  {
    hide EveryHook, EveryHookSucceeds, UsableOutcome;
    CompletedExactly(codec, f, env);
  }
}
