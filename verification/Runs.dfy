/** Runs of the protocol, step by step. */
module Runs {
  import opened Wrappers
  import opened Protocol
  import Seqs

  lemma {:induction false} ExecAppend(c: Config, s: Sys, a: seq<Label>, b: seq<Label>)
    requires WellShaped(c, s) && Exec(c, s, a).Some?
    ensures WellShaped(c, Exec(c, s, a).value)
    ensures Exec(c, s, a + b) == Exec(c, Exec(c, s, a).value, b)
    decreases |a|
  {
    hide Step;
    if a == [] {
      Seqs.Unit(b);
    } else {
      Seqs.TailOfSum(a, b);
      ExecAppend(c, Step(c, s, a[0]).value, a[1..], b);
    }
  }

  lemma ExecOne(c: Config, s: Sys, l: Label)
    requires WellShaped(c, s) && Step(c, s, l).Some?
    ensures Exec(c, s, [l]) == Step(c, s, l)
  {
    hide Step;
    assert [l][1..] == [];
  }

  /** A reachable state that has the loops and counters it should have. */
  ghost predicate Reached(c: Config, s: Sys) {
    Reachable(c, s) && WellShaped(c, s)
  }

  lemma InitialReached(c: Config)
    requires GoodConfig(c)
    ensures Reached(c, Initial(c))
  {
    hide Step;
    assert Exec(c, Initial(c), []) == Some(Initial(c));
  }

  lemma StepReached(c: Config, s: Sys, l: Label, t: Sys)
    requires Reached(c, s) && Step(c, s, l) == Some(t)
    ensures Reached(c, t)
  {
    hide Exec, Step;
    var labels :| Exec(c, Initial(c), labels) == Some(s);
    ExecOne(c, s, l);
    ExecAppend(c, Initial(c), labels, [l]);
    assert Exec(c, Initial(c), labels + [l]) == Some(t);
  }

  // ----- what loops alone can bring about ----------------------------------------------

  predicate OnlyLoops(labels: seq<Label>) {
    forall i | 0 <= i < |labels| :: labels[i].Loop?
  }

  /** Steps of loops alone lead from one state to the other. */
  ghost predicate LoopsLead(c: Config, s: Sys, t: Sys) {
    WellShaped(c, s) && WellShaped(c, t) && exists labels :: OnlyLoops(labels) && Exec(c, s, labels) == Some(t)
  }

  lemma LoopsStay(c: Config, s: Sys)
    requires WellShaped(c, s)
    ensures LoopsLead(c, s, s)
  {
    hide Step;
    assert OnlyLoops([]) && Exec(c, s, []) == Some(s);
  }

  lemma LoopLeads(c: Config, s: Sys, w: WorkerId, act: Act, t: Sys)
    requires WellShaped(c, s) && w in s.workers && s.workers[w].up && LoopStep(c, s, w, act) == Some(t)
    ensures LoopsLead(c, s, t)
  {
    hide LoopStep, Exec;
    ExecOne(c, s, Loop(w, act));
    assert OnlyLoops([Loop(w, act)]) && Exec(c, s, [Loop(w, act)]) == Some(t);
  }

  lemma LoopsLeadOn(c: Config, s: Sys, m: Sys, t: Sys)
    requires LoopsLead(c, s, m) && LoopsLead(c, m, t)
    ensures LoopsLead(c, s, t)
  {
    hide Exec, Step, WellShaped;
    var a :| OnlyLoops(a) && Exec(c, s, a) == Some(m);
    var b :| OnlyLoops(b) && Exec(c, m, b) == Some(t);
    ExecAppend(c, s, a, b);
    assert OnlyLoops(a + b);
  }

  lemma LedReached(c: Config, s: Sys, t: Sys)
    requires Reached(c, s) && LoopsLead(c, s, t)
    ensures Reached(c, t)
  {
    hide Exec, Step;
    var run :| Exec(c, Initial(c), run) == Some(s);
    var labels :| OnlyLoops(labels) && Exec(c, s, labels) == Some(t);
    ExecAppend(c, Initial(c), run, labels);
    assert Exec(c, Initial(c), run + labels) == Some(t);
  }
}
