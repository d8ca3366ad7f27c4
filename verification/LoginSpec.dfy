/** The four-state machine a client of the login service may rely on. */
module LoginSpec {
  import opened Options
  import opened LoginFlow
  import opened LoginProtocol

  /** The published state, and the kind of the attempt in progress. */
  datatype Spec = Spec(state: LoginState, owner: Option<Kind>)

  const INITIAL := Spec(LoggedOut, None)

  datatype Action = Stutter | BeginCode | BeginQr | NeedCode | NeedPassword | Succeed | Fail | Reset

  predicate Allowed(s: Spec, a: Action) {
    match a
    case Stutter => true
    case BeginCode => s.owner.None?
    case BeginQr => true
    case NeedCode => s.owner == Some(CodeLogin) && !s.state.WaitCode? && !s.state.WaitPassword?
    case NeedPassword => s.owner == Some(CodeLogin) && s.state.WaitCode?
    case Succeed => s.owner.Some?
    case Fail => s.owner.Some?
    case Reset => true
  }

  function Act(s: Spec, a: Action): Spec {
    match a
    case Stutter => s
    case BeginCode => s.(owner := Some(CodeLogin))
    case BeginQr => Spec(LoggedOut, Some(QrLogin))
    case NeedCode => s.(state := WaitCode)
    case NeedPassword => s.(state := WaitPassword)
    case Succeed => Spec(LoggedIn, None)
    case Fail => Spec(LoggedOut, None)
    case Reset => INITIAL
  }

  predicate Legal(acts: seq<Action>) {
    |acts| == 0
    || (Legal(acts[..|acts| - 1]) && Allowed(Outcome(acts[..|acts| - 1]), acts[|acts| - 1]))
  }

  function Outcome(acts: seq<Action>): Spec {
    if |acts| == 0 then INITIAL else Act(Outcome(acts[..|acts| - 1]), acts[|acts| - 1])
  }

  /** While a code is waited for, the last thing that happened is that it was asked for. */
  lemma {:induction false} CodeAsked(acts: seq<Action>) returns (i: nat)
    requires Legal(acts) && Outcome(acts).state.WaitCode?
    ensures i < |acts| && acts[i].NeedCode? && Outcome(acts).owner == Some(CodeLogin)
    ensures forall j | i < j < |acts| :: acts[j].Stutter?
    decreases |acts|
  {
    var n := |acts| - 1;
    if acts[n].Stutter? {
      i := CodeAsked(acts[..n]);
      assert acts[..n][i] == acts[i];
    } else {
      if acts[n].BeginCode? {
        var _ := CodeAsked(acts[..n]);
      }
      i := n;
    }
  }

  /** A password is only waited for by a login that asked for a code before: nothing but the request
      for the password has happened since. */
  lemma {:induction false} PasswordAfterCode(acts: seq<Action>) returns (i: nat)
    requires Legal(acts) && Outcome(acts).state.WaitPassword?
    ensures i < |acts| && acts[i].NeedCode? && Outcome(acts).owner == Some(CodeLogin)
    ensures forall j | i < j < |acts| :: acts[j].Stutter? || acts[j].NeedPassword?
    decreases |acts|
  {
    var n := |acts| - 1;
    if acts[n].NeedPassword? {
      i := CodeAsked(acts[..n]);
    } else {
      i := PasswordAfterCode(acts[..n]);
    }
    assert acts[..n][i] == acts[i];
  }
}
