/** The mutex-guarded record of the login service (internal/telegram/auth/flow.go).

    `Rec` is the record as a value, with one function per lock-protected region.  `Flow` is
    the record as the source keeps it, a mutable object whose methods are those regions; every
    method is tied to the function of the same region, so that whatever the protocol modules
    prove about the functions holds of the object.

    Contexts, authenticators and done channels are named by the generation they were made for. */
module LoginFlow {
  import opened Options

  datatype LoginState = LoggedOut | WaitCode | WaitPassword | LoggedIn

  /** What a backend run ends with: nil, or an error. */
  datatype RunResult = Authorized | Rejected(why: string)

  datatype Rec = Rec(
    state: LoginState,
    inProgress: bool,
    gen: nat,
    cancel: Option<nat>,
    auth: Option<nat>,
    done: Option<nat>)
  {
    /** The per-attempt fields belong to attempt `gen` and are set exactly while it is in
        progress, and a waiting state has an authenticator to deliver to. */
    predicate Coherent() {
      && cancel == done == (if inProgress then Some(gen) else None)
      && (auth.Some? ==> inProgress && auth == Some(gen))
      && (state.WaitCode? || state.WaitPassword? ==> auth.Some?)
    }

    function Reset(): Rec {
      this.(cancel := None, auth := None, done := None, inProgress := false, gen := gen + 1)
    }

    function WinStartLogin(): Rec {
      var cleared := Reset();
      cleared.(inProgress := true,
               cancel := Some(cleared.gen), auth := Some(cleared.gen), done := Some(cleared.gen))
    }

    function StartQR(): Rec {
      var cleared := Reset();
      cleared.(inProgress := true, state := LoggedOut,
               cancel := Some(cleared.gen), done := Some(cleared.gen))
    }

    function Logout(): Rec {
      Reset().(state := LoggedOut)
    }

    function Abandon(g: nat): Rec {
      if gen != g then this else Reset().(state := LoggedOut)
    }

    function Transition(g: nat, st: LoginState): Rec {
      if gen != g then this else this.(state := st)
    }

    function Finish(g: nat, r: RunResult): Rec {
      if gen != g then this
      else Rec(if r.Authorized? then LoggedIn else LoggedOut, false, gen, None, None, None)
    }
  }

  const NEW_REC := Rec(LoggedOut, false, 0, None, None, None)

  /** The context an attempt runs under: `context.WithCancel`. */
  class Context {
    const gen: nat
    var cancelled: bool

    constructor (gen: nat)
      ensures this.gen == gen && !cancelled
    {
      this.gen := gen;
      cancelled := false;
    }

    method Cancel()
      modifies this
      ensures cancelled
    {
      cancelled := true;
    }
  }

  class Authenticator {
    const gen: nat
    const phone: string

    constructor (gen: nat, phone: string)
      ensures this.gen == gen && this.phone == phone
    {
      this.gen := gen;
      this.phone := phone;
    }
  }

  /** A done channel; its one-place buffer belongs to the protocol modules. */
  class DoneChannel {
    const gen: nat

    constructor (gen: nat)
      ensures this.gen == gen
    {
      this.gen := gen;
    }
  }

  class Flow {
    var state: LoginState
    var inProgress: bool
    var gen: nat
    var cancel: Context?
    var auth: Authenticator?
    var done: DoneChannel?

    ghost function View(): Rec
      reads this
    {
      Rec(state, inProgress, gen,
          if cancel == null then None else Some(cancel.gen),
          if auth == null then None else Some(auth.gen),
          if done == null then None else Some(done.gen))
    }

    /** The object's own invariant: a coherent record whose context is still live. */
    ghost predicate Valid()
      reads this, cancel
    {
      View().Coherent() && (cancel != null ==> !cancel.cancelled)
    }

    constructor ()
      ensures Valid() && View() == NEW_REC
    {
      state, inProgress, gen := LoggedOut, false, 0;
      cancel, auth, done := null, null, null;
    }

    method ResetLocked()
      modifies this, cancel
      ensures View() == old(View()).Reset()
      ensures old(cancel) != null ==> old(cancel).cancelled
    {
      if cancel != null {
        cancel.Cancel();
        cancel := null;
      }
      auth := null;
      done := null;
      inProgress := false;
      gen := gen + 1;
    }

    /** The locked region of StartLogin.  A loser changes nothing; a winner starts from a record
        with no attempt, so its reset has no context to cancel. */
    method EnterStartLogin(phone: string) returns (won: bool, a: Authenticator?, ctx: Context?, d: DoneChannel?)
      requires Valid()
      modifies this, cancel
      ensures Valid()
      ensures won == (phone != "" && !old(inProgress))
      ensures !won ==> View() == old(View()) && a == null && ctx == null && d == null && cancel == old(cancel)
      ensures won ==> View() == old(View()).WinStartLogin()
      ensures won ==> old(cancel) == null
      ensures won ==> a == auth && ctx == cancel && d == done && a != null && ctx != null && d != null
      ensures won ==> fresh(a) && fresh(ctx) && fresh(d) && a.phone == phone
    {
      won, a, ctx, d := false, null, null, null;
      if phone == "" || inProgress {
        return;
      }
      ResetLocked();
      inProgress := true;
      won := true;
      ctx := new Context(gen);
      a := new Authenticator(gen, phone);
      d := new DoneChannel(gen);
      cancel, auth, done := ctx, a, d;
    }

    /** The locked region of SubmitCode and SubmitPassword, which differ in the state they need. */
    method EnterSubmit(expected: LoginState) returns (ok: bool, a: Authenticator?, d: DoneChannel?)
      requires Valid() && (expected.WaitCode? || expected.WaitPassword?)
      ensures ok == (state == expected)
      ensures ok ==> a != null && d != null && a.gen == d.gen == gen
      ensures !ok ==> a == null && d == null
    {
      ok := state == expected;
      if ok {
        a, d := auth, done;
      } else {
        a, d := null, null;
      }
    }

    method EnterStartQR() returns (prevDone: DoneChannel?, prevInProgress: bool, ctx: Context, d: DoneChannel)
      requires Valid()
      modifies this, cancel
      ensures Valid() && View() == old(View()).StartQR()
      ensures prevDone == old(done) && prevInProgress == old(inProgress)
      ensures prevInProgress ==> prevDone != null && prevDone.gen == old(gen) == gen - 1
      ensures old(cancel) != null ==> old(cancel).cancelled
      ensures fresh(ctx) && fresh(d) && cancel == ctx && done == d
    {
      prevDone, prevInProgress := done, inProgress;
      ResetLocked();
      inProgress := true;
      state := LoggedOut;
      ctx := new Context(gen);
      d := new DoneChannel(gen);
      cancel, done := ctx, d;
    }

    method Logout()
      requires Valid()
      modifies this, cancel
      ensures Valid() && View() == old(View()).Logout()
      ensures old(cancel) != null ==> old(cancel).cancelled
    {
      ResetLocked();
      state := LoggedOut;
    }

    method Abandon(g: nat)
      requires Valid()
      modifies this, cancel
      ensures Valid() && View() == old(View()).Abandon(g)
      ensures old(cancel) != null ==> old(cancel).cancelled == (g == old(gen))
    {
      if gen != g {
        return;
      }
      ResetLocked();
      state := LoggedOut;
    }

    method Transition(g: nat, st: LoginState)
      requires Valid()
      modifies this`state
      ensures View() == old(View()).Transition(g, st)
      ensures g != gen || auth != null ==> Valid()
    {
      if gen == g {
        state := st;
      }
    }

    method FinishAttempt(g: nat, r: RunResult)
      requires Valid()
      modifies this, cancel
      ensures Valid() && View() == old(View()).Finish(g, r)
      ensures old(cancel) != null ==> old(cancel).cancelled == (g == old(gen))
    {
      if gen != g {
        return;
      }
      if cancel != null {
        cancel.Cancel();
        cancel := null;
      }
      auth := null;
      done := null;
      inProgress := false;
      state := if r.Authorized? then LoggedIn else LoggedOut;
    }
  }
}
