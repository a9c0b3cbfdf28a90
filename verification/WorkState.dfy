/** The lifecycle of src/model/work.rs and its text form in the table. */
module WorkState {
  import opened Wrappers

  datatype State = Created | Queued | Claimed | Running | Completed | Failed | Dead | Merged

  predicate CanTransition(from: State, to: State) {
    match from
    case Created => to == Queued || to == Merged
    case Queued => to == Claimed || to == Dead
    case Claimed => to == Running || to == Queued
    case Running => to == Completed || to == Failed
    case Failed => to == Queued || to == Dead
    case Completed => false
    case Dead => false
    case Merged => false
  }

  predicate IsTerminal(s: State) {
    s == Completed || s == Dead || s == Merged
  }

  /** `Display`. */
  function Show(s: State): string {
    match s
    case Created => "created"
    case Queued => "queued"
    case Claimed => "claimed"
    case Running => "running"
    case Completed => "completed"
    case Failed => "failed"
    case Dead => "dead"
    case Merged => "merged"
  }

  /** `FromStr`. */
  function FromText(t: string): Option<State> {
    if t == "created" then Some(Created)
    else if t == "queued" then Some(Queued)
    else if t == "claimed" then Some(Claimed)
    else if t == "running" then Some(Running)
    else if t == "completed" then Some(Completed)
    else if t == "failed" then Some(Failed)
    else if t == "dead" then Some(Dead)
    else if t == "merged" then Some(Merged)
    else None
  }

  /** The predicate of the partial index and of the conflict clause, over the stored text. */
  predicate SqlActive(t: string) {
    t !in {"completed", "dead", "merged"}
  }

  /** The text column determines the state, and the SQL predicate picks exactly the states that are not terminal. */
  lemma TextFaithful(s: State, t: string)
    ensures FromText(Show(s)) == Some(s)
    ensures FromText(t) == Some(s) <==> t == Show(s)
    ensures SqlActive(Show(s)) <==> !IsTerminal(s)
  {
  }

  /** The transitions that are allowed. */
  lemma EdgesExactly(from: State, to: State)
    ensures CanTransition(from, to) <==>
              (from, to) in {(Created, Queued), (Created, Merged), (Queued, Claimed), (Queued, Dead), (Claimed, Running),
                (Claimed, Queued), (Running, Completed), (Running, Failed), (Failed, Queued), (Failed, Dead)}
  {
  }

  /** The texts that statements spell out or bind for the states. */
  lemma TextTable()
    ensures Show(Created) == "created" && Show(Queued) == "queued" && Show(Claimed) == "claimed" && Show(Running) == "running"
    ensures Show(Completed) == "completed" && Show(Failed) == "failed" && Show(Dead) == "dead" && Show(Merged) == "merged"
  {
  }

  // ----- histories ---------------------------------------------------------------------

  predicate IsPath(trail: seq<State>) {
    && |trail| >= 1 && trail[0] == Created
    && forall i | 0 <= i < |trail| - 1 :: CanTransition(trail[i], trail[i + 1])
  }

  function Last(trail: seq<State>): State
    requires trail != []
  {
    trail[|trail| - 1]
  }

  function Visits(trail: seq<State>, s: State): nat {
    if trail == [] then 0 else Visits(trail[..|trail| - 1], s) + if Last(trail) == s then 1 else 0
  }

  /** How often a history goes from Failed back to Queued. */
  function Retries(trail: seq<State>): nat {
    if |trail| < 2 then 0
    else
      var n := |trail| - 1;
      Retries(trail[..n]) + if trail[n - 1] == Failed && trail[n] == Queued then 1 else 0
  }

  lemma PathSnoc(trail: seq<State>, to: State)
    requires IsPath(trail) && CanTransition(Last(trail), to)
    ensures IsPath(trail + [to])
    ensures Visits(trail + [to], Running) == Visits(trail, Running) + if to == Running then 1 else 0
    ensures Retries(trail + [to]) == Retries(trail) + if Last(trail) == Failed && to == Queued then 1 else 0
  {
    assert (trail + [to])[..|trail|] == trail;
  }

  /** The attempts of a history that ends here, by the retries in it. */
  predicate Accounts(last: State, attempts: nat, retries: nat) {
    match last
    case Created => attempts == 0 && retries == 0
    case Merged => attempts == 0 && retries == 0
    case Queued => attempts == retries
    case Claimed => attempts == retries
    case Running => attempts == retries + 1
    case Failed => attempts == retries + 1
    case Completed => attempts == retries + 1
    case Dead => attempts == retries || attempts == retries + 1
  }

  lemma AccountsOn(from: State, to: State, attempts: nat, retries: nat)
    requires CanTransition(from, to) && Accounts(from, attempts, retries)
    ensures Accounts(to, attempts + (if to == Running then 1 else 0), retries + if from == Failed && to == Queued then 1 else 0)
  {
  }

  lemma PathInit(trail: seq<State>)
    requires IsPath(trail) && |trail| > 1
    ensures var n := |trail| - 1;
            && IsPath(trail[..n]) && CanTransition(Last(trail[..n]), trail[n]) && trail == trail[..n] + [trail[n]]
  {
    var n := |trail| - 1;
    assert CanTransition(trail[n - 1], trail[n]);
  }

  lemma FirstPath(trail: seq<State>)
    requires IsPath(trail) && |trail| == 1
    ensures Last(trail) == Created && Visits(trail, Running) == 0 && Retries(trail) == 0
  {
    assert trail[..0] == [];
  }

  /** Between two entries into Running lies exactly one retry. */
  lemma {:induction false} AttemptAccounting(trail: seq<State>)
    requires IsPath(trail)
    ensures Accounts(Last(trail), Visits(trail, Running), Retries(trail))
    decreases |trail|
  {
    hide IsPath, Visits, Retries, CanTransition, Accounts;
    if |trail| > 1 {
      var n := |trail| - 1;
      PathInit(trail);
      AttemptAccounting(trail[..n]);
      PathSnoc(trail[..n], trail[n]);
      AccountsOn(Last(trail[..n]), trail[n], Visits(trail[..n], Running), Retries(trail[..n]));
    } else {
      StartsAtNothing(trail);
    }
  }

  lemma StartsAtNothing(trail: seq<State>)
    requires IsPath(trail) && |trail| <= 1
    ensures Accounts(Last(trail), Visits(trail, Running), Retries(trail))
  {
    FirstPath(trail);
  }

  /** A terminal state is the end of a history. */
  lemma TerminalAbsorbs(trail: seq<State>, i: nat)
    requires IsPath(trail) && i < |trail| && IsTerminal(trail[i])
    ensures i == |trail| - 1
  {
    assert i < |trail| - 1 ==> CanTransition(trail[i], trail[i + 1]);
  }
}
