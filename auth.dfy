/** The app shell's session state: the authentication reducer with its
    initial state, the single-active-toast gate of `notify`, and the decision
    the startup effect takes when it restores a stored session. */
module Auth {
  import opened Common

  // ---------------------------------------------------------------------
  // The reducer
  // ---------------------------------------------------------------------

  /** `userToken` is `None` for `null` (and for a token the store did not hold). */
  datatype AuthState = AuthState(isLoading: bool, isSignout: bool, userToken: Option<string>)

  const Initial := AuthState(true, false, None)

  /** The dispatched actions; `Unknown` is any other action type. */
  datatype Action = RestoreToken(token: Option<string>) | SignIn(token: Option<string>) | SignOut | Unknown(tag: string)

  function Reduce(s: AuthState, a: Action): AuthState {
    match a
    case RestoreToken(t) => s.(userToken := t, isLoading := false)
    case SignIn(t) => s.(isSignout := false, userToken := t)
    case SignOut => s.(isSignout := true, userToken := None)
    case Unknown(_) => s
  }

  /** The state after the actions are dispatched one after the other. */
  function ReduceAll(s: AuthState, acts: seq<Action>): AuthState {
    if acts == [] then s else Reduce(ReduceAll(s, acts[..|acts| - 1]), acts[|acts| - 1])
  }

  /** Each action changes only the fields it names. */
  lemma ReduceFields(s: AuthState, a: Action)
    ensures a.RestoreToken? ==> Reduce(s, a) == AuthState(false, s.isSignout, a.token)
    ensures a.SignIn? ==> Reduce(s, a) == AuthState(s.isLoading, false, a.token)
    ensures a.SignOut? ==> Reduce(s, a) == AuthState(s.isLoading, true, None)
    ensures a.Unknown? ==> Reduce(s, a) == s
  {
  }

  /** Signing out twice is the same as signing out once. */
  lemma SignOutIdempotent(s: AuthState)
    ensures Reduce(Reduce(s, SignOut), SignOut) == Reduce(s, SignOut)
  {
  }

  /** Once cleared, the loading flag stays cleared whatever is dispatched. */
  lemma {:induction false} LoadingStaysCleared(s: AuthState, acts: seq<Action>)
    requires !s.isLoading
    ensures !ReduceAll(s, acts).isLoading
  {
    if acts != [] {
      LoadingStaysCleared(s, acts[..|acts| - 1]);
    }
  }

  /** From the initial state the app is loading exactly until a token is restored. */
  lemma {:induction false} LoadingUntilRestored(acts: seq<Action>)
    ensures ReduceAll(Initial, acts).isLoading <==> forall i :: 0 <= i < |acts| ==> !acts[i].RestoreToken?
  {
    if acts != [] {
      var init := acts[..|acts| - 1];
      LoadingUntilRestored(init);
      assert forall i :: 0 <= i < |init| ==> init[i] == acts[i];
    }
  }

  /** The last sign-in or sign-out among the actions, if any. */
  function LastSession(acts: seq<Action>): Option<Action> {
    if acts == [] then None
    else if acts[|acts| - 1].SignIn? || acts[|acts| - 1].SignOut? then Some(acts[|acts| - 1])
    else LastSession(acts[..|acts| - 1])
  }

  /** The last action that sets the token (a restore, a sign-in or a sign-out), if any. */
  function LastTokenWrite(acts: seq<Action>): Option<Action> {
    if acts == [] then None
    else if !acts[|acts| - 1].Unknown? then Some(acts[|acts| - 1])
    else LastTokenWrite(acts[..|acts| - 1])
  }

  /** From the initial state, `isSignout` says whether the latest sign-in or
      sign-out was a sign-out. */
  lemma {:induction false} SignoutFollowsLastSession(acts: seq<Action>)
    ensures ReduceAll(Initial, acts).isSignout <==> LastSession(acts) == Some(SignOut)
  {
    if acts != [] {
      SignoutFollowsLastSession(acts[..|acts| - 1]);
    }
  }

  /** From the initial state, the token is the one the latest restore or
      sign-in carried, `None` after a later sign-out, and `None` before any of them. */
  lemma {:induction false} TokenFollowsLastWrite(acts: seq<Action>)
    ensures ReduceAll(Initial, acts).userToken
            == match LastTokenWrite(acts)
               case None => None
               case Some(a) => if a.RestoreToken? || a.SignIn? then a.token else None
  {
    if acts != [] {
      TokenFollowsLastWrite(acts[..|acts| - 1]);
    }
  }

  // ---------------------------------------------------------------------
  // The toast gate
  // ---------------------------------------------------------------------

  const ValidTypes: seq<string> := ["info", "success", "warning", "error", "default"]
  const InvalidType := "Invalid ToastNotification type"

  /** The shown message (none while ""), its type, and whether a toast is on screen. */
  datatype Toast = Toast(message: string, kind: string, active: bool)

  const NoToast := Toast("", "wrong", false)

  datatype Notified = Notified(toast: Toast, outcome: Outcome<Error>)

  /** One call of `notify(m, t)`. */
  function NotifyStep(s: Toast, m: string, t: string): Notified {
    if s.active then Notified(s, Pass)
    else if t !in ValidTypes then Notified(s.(message := ""), Fail(InvalidArgumentError(InvalidType)))
    else Notified(Toast(m, t, true), Pass)
  }

  /** While a toast is on screen `notify` changes nothing and does not throw. */
  lemma NotifyWhileActiveIgnored(s: Toast, m: string, t: string)
    requires s.active
    ensures NotifyStep(s, m, t) == Notified(s, Pass)
  {
  }

  /** A type outside the five valid ones throws, after clearing the message. */
  lemma NotifyInvalidTypeThrows(s: Toast, m: string, t: string)
    requires !s.active && t !in ValidTypes
    ensures NotifyStep(s, m, t).outcome == Fail(InvalidArgumentError(InvalidType))
    ensures NotifyStep(s, m, t).toast == Toast("", s.kind, false)
  {
  }

  /** A valid call on a free gate shows the message with its type and closes the gate. */
  lemma NotifyValidShows(s: Toast, m: string, t: string)
    requires !s.active && t in ValidTypes
    ensures NotifyStep(s, m, t) == Notified(Toast(m, t, true), Pass)
  {
  }

  /** The toast after a series of calls, none of them expiring. */
  function NotifyAll(s: Toast, calls: seq<(string, string)>): Toast
    decreases |calls|
  {
    if calls == [] then s else NotifyAll(NotifyStep(s, calls[0].0, calls[0].1).toast, calls[1..])
  }

  /** While one toast is active, no series of calls replaces it. */
  lemma {:induction false} ActiveToastKept(s: Toast, calls: seq<(string, string)>)
    requires s.active
    ensures NotifyAll(s, calls) == s
  {
    if calls != [] {
      ActiveToastKept(s, calls[1..]);
    }
  }

  /** From a free gate, the first call with a valid type is the one shown, and
      every later call is ignored. */
  lemma {:induction false} FirstValidCallShown(s: Toast, calls: seq<(string, string)>, k: nat)
    requires !s.active
    requires k < |calls| && calls[k].1 in ValidTypes
    requires forall j :: 0 <= j < k ==> calls[j].1 !in ValidTypes
    ensures NotifyAll(s, calls) == Toast(calls[k].0, calls[k].1, true)
    decreases k
  {
    if k == 0 {
      ActiveToastKept(Toast(calls[0].0, calls[0].1, true), calls[1..]);
    } else {
      FirstValidCallShown(s.(message := ""), calls[1..], k - 1);
    }
  }

  /** The toast state `notify` and its timer act on. */
  class Notifier {
    var message: string
    var kind: string
    var active: bool

    constructor ()
      ensures Current() == NoToast
    {
      message, kind, active := "", "wrong", false;
    }

    function Current(): Toast
      reads this
    {
      Toast(message, kind, active)
    }

    method Notify(m: string, t: string) returns (r: Outcome<Error>)
      modifies this
      ensures Current() == NotifyStep(old(Current()), m, t).toast
      ensures r == NotifyStep(old(Current()), m, t).outcome
    {
      if active {
        return Pass;
      }
      message := "";
      if t !in ValidTypes {
        return Fail(InvalidArgumentError(InvalidType));
      }
      kind := t;
      message := m;
      active := true;
      r := Pass;
    }

    /** The timer that fires 3600 ms after a toast is shown: it hides the
        message and frees the gate. */
    method Expire()
      modifies this
      ensures Current() == Toast("", old(kind), false)
    {
      active := false;
      message := "";
    }
  }

  // ---------------------------------------------------------------------
  // Restoring the session at startup
  // ---------------------------------------------------------------------

  /** Reading the stored token either fails or gives the stored value. */
  datatype TokenRead = ReadFailed | ReadOk(token: Option<string>)

  datatype Note = Note(message: string, kind: string)

  /** What the startup effect notifies and what it dispatches. */
  datatype Restore = Restore(notes: seq<Note>, dispatched: Option<Action>)

  /** JavaScript truthiness of the stored value. */
  predicate Truthy(t: Option<string>) {
    t.Some? && t.value != ""
  }

  /** The startup effect: read the token, set the player up, then either sign
      out on a token that fails validation (after clearing the storage) or
      restore the stored token. `tokenValid` stands for the token validator,
      whose definition is not part of this model. */
  function RestoreSession(read: TokenRead, setupOk: bool, tokenValid: string -> bool, clearOk: bool): Restore {
    match read
    case ReadFailed => Restore([Note("Token restore failed", "warning")], None)
    case ReadOk(token) =>
      if !setupOk then Restore([Note("Player setup failed", "warning")], None)
      else if Truthy(token) && !tokenValid(token.value) then
        if !clearOk then Restore([Note("Failed to clear token", "error")], None)
        else Restore([], Some(SignOut))
      else Restore([Note("Session restore successful", "info")], Some(RestoreToken(token)))
  }

  /** The three endings of the startup effect. */
  lemma RestoreOutcomes(read: TokenRead, setupOk: bool, tokenValid: string -> bool, clearOk: bool)
    ensures var r := RestoreSession(read, setupOk, tokenValid, clearOk);
            r.dispatched == Some(SignOut)
            <==> read.ReadOk? && setupOk && Truthy(read.token) && !tokenValid(read.token.value) && clearOk
    ensures var r := RestoreSession(read, setupOk, tokenValid, clearOk);
            r.dispatched.Some? && r.dispatched.value.RestoreToken?
            <==> read.ReadOk? && setupOk && (Truthy(read.token) ==> tokenValid(read.token.value))
    ensures var r := RestoreSession(read, setupOk, tokenValid, clearOk);
            r.dispatched.Some? && r.dispatched.value.RestoreToken? ==> r.dispatched.value.token == read.token
  {
  }

  /** The effect notifies at most once, always with a valid type, so its own
      `notify` calls never throw. */
  lemma RestoreNotesValid(read: TokenRead, setupOk: bool, tokenValid: string -> bool, clearOk: bool)
    ensures var r := RestoreSession(read, setupOk, tokenValid, clearOk);
            |r.notes| <= 1 && forall n :: n in r.notes ==> n.kind in ValidTypes
    ensures var r := RestoreSession(read, setupOk, tokenValid, clearOk);
            r.dispatched.None? ==> |r.notes| == 1
  {
  }

  /** Dispatched on the initial state, a restore ends loading with the stored
      token; a sign-out after a rejected token leaves the state loading. */
  lemma RestoreEffectOnInitial(read: TokenRead, setupOk: bool, tokenValid: string -> bool, clearOk: bool)
    requires RestoreSession(read, setupOk, tokenValid, clearOk).dispatched.Some?
    ensures var a := RestoreSession(read, setupOk, tokenValid, clearOk).dispatched.value;
            a.RestoreToken? ==> Reduce(Initial, a) == AuthState(false, false, read.token)
    ensures var a := RestoreSession(read, setupOk, tokenValid, clearOk).dispatched.value;
            a.SignOut? ==> Reduce(Initial, a) == AuthState(true, true, None)
  {
  }
}
