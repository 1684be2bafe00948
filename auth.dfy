/**
 * The per-user calendar authorisation gatekeeper (`check_auth_status` in
 * main.py) over the global `AUTH_STATE` dictionary and the `token.json` file.
 */
module Auth {
  import opened Wrappers
  import Text

  /** The only value ever stored in `AUTH_STATE`. */
  const WaitingForCode := "WAITING_FOR_CODE"
  /** A stripped reply shorter than this is not taken for an authorisation code. */
  const MinCodeLength := 10

  /** The chat messages the gatekeeper sends. */
  datatype Notice =
    | NotACode                      // "That doesn't look like a Google code..."
    | Verifying                     // "Verifying code..."
    | RetractVerifying              // the "Verifying code..." message is deleted
    | Connected                     // "Success! I am now connected to your Calendar..."
    | AuthorizationFailed           // "Authorization failed. The code might be expired..."
    | ActionRequired(authUrl: string)  // the consent link and instructions
    | CredentialsMissing            // "System Error: Master Credentials missing..."

  /** What one call ends with: the boolean it returns, or the exception it raises. */
  datatype Outcome = Returned(authenticated: bool) | RaisedAttributeError

  /**
   * The facts the gatekeeper learns from the outside world: whether the
   * code exchange (`fetch_token` and saving the token) succeeds, whether
   * `credentials.json` exists, and the consent URL the OAuth flow builds.
   * Without the credentials file no exchange can start, so it fails.
   */
  datatype Env = Env(exchangeSucceeds: bool, credentialsPresent: bool, authUrl: string)
  {
    predicate Exchanged() { credentialsPresent && exchangeSucceeds }
  }

  /** `AUTH_STATE` together with whether `token.json` exists. */
  datatype GateState = GateState(authState: map<int, string>, tokenFile: bool)

  datatype GateStep = GateStep(outcome: Outcome, next: GateState, notices: seq<Notice>)

  predicate Waiting(st: GateState, userId: int)
  {
    userId in st.authState && st.authState[userId] == WaitingForCode
  }

  /**
   * One call of the gatekeeper for `userId`, whose message text is `text`
   * (`None` for a voice or audio message). The ensures are its transition table.
   */
  function Transition(st: GateState, userId: int, text: Option<string>, env: Env): (s: GateStep)
    // other users' entries are never touched
    ensures s.next.authState - {userId} == st.authState - {userId}
    // token present: pass at once, nothing changes
    ensures st.tokenFile ==> s == GateStep(Returned(true), st, [])
    // waiting and no text to read a code from: `.strip()` on None raises
    ensures !st.tokenFile && Waiting(st, userId) && text.None? ==> s == GateStep(RaisedAttributeError, st, [])
    // waiting and the reply is too short to be a code: refuse, still waiting
    ensures !st.tokenFile && Waiting(st, userId) && text.Some? && |Text.Strip(text.value)| < MinCodeLength ==>
              s == GateStep(Returned(false), st, [NotACode])
    // waiting, a plausible code, and the exchange succeeds: token saved, user no longer waiting
    ensures !st.tokenFile && Waiting(st, userId) && text.Some? && |Text.Strip(text.value)| >= MinCodeLength
            && env.Exchanged() ==>
              s == GateStep(Returned(true), GateState(st.authState - {userId}, true), [Verifying, RetractVerifying, Connected])
    // waiting, a plausible code, and the exchange fails: refuse, still waiting
    ensures !st.tokenFile && Waiting(st, userId) && text.Some? && |Text.Strip(text.value)| >= MinCodeLength
            && !env.Exchanged() ==>
              s == GateStep(Returned(false), st, [Verifying, AuthorizationFailed])
    // not waiting: start the flow and wait for a code, unless the credentials file is missing
    ensures !st.tokenFile && !Waiting(st, userId) && env.credentialsPresent ==>
              s == GateStep(Returned(false), GateState(st.authState[userId := WaitingForCode], false),
                            [ActionRequired(env.authUrl)])
    ensures !st.tokenFile && !Waiting(st, userId) && !env.credentialsPresent ==>
              s == GateStep(Returned(false), st, [CredentialsMissing])
    // the gate only opens with the token file in place
    ensures s.outcome == Returned(true) ==> s.next.tokenFile
  {
    if st.tokenFile then GateStep(Returned(true), st, [])
    else if Waiting(st, userId) then
      match text
      case None => GateStep(RaisedAttributeError, st, [])
      case Some(t) =>
        var code := Text.Strip(t);
        if |code| < MinCodeLength then GateStep(Returned(false), st, [NotACode])
        else if env.Exchanged() then
          GateStep(Returned(true), GateState(st.authState - {userId}, true), [Verifying, RetractVerifying, Connected])
        else GateStep(Returned(false), st, [Verifying, AuthorizationFailed])
    else if env.credentialsPresent then
      GateStep(Returned(false), GateState(st.authState[userId := WaitingForCode], false), [ActionRequired(env.authUrl)])
    else GateStep(Returned(false), st, [CredentialsMissing])
  }

  /** Every entry of `AUTH_STATE` is the waiting marker. */
  predicate OnlyWaiting(st: GateState)
  {
    forall u :: u in st.authState ==> st.authState[u] == WaitingForCode
  }

  lemma TransitionKeepsOnlyWaiting(st: GateState, userId: int, text: Option<string>, env: Env)
    requires OnlyWaiting(st)
    ensures OnlyWaiting(Transition(st, userId, text, env).next)
  {
  }

  /**
   * `token.json` is shared by all users: once one user's code exchange has
   * succeeded, every later call, for any user and any text, passes without
   * changing anything.
   */
  lemma {:induction false} TokenIsGlobal(st: GateState, userId: int, text: Option<string>, env: Env,
                                         other: int, otherText: Option<string>, otherEnv: Env)
    requires Transition(st, userId, text, env).outcome == Returned(true)
    ensures var st' := Transition(st, userId, text, env).next;
            Transition(st', other, otherText, otherEnv) == GateStep(Returned(true), st', [])
  {
  }

  /**
   * A user who is refused without an error ends up waiting for a code,
   * unless they are refused because the credentials file is missing.
   */
  lemma RefusedMeansWaiting(st: GateState, userId: int, text: Option<string>, env: Env)
    requires Transition(st, userId, text, env).outcome == Returned(false)
    ensures Waiting(Transition(st, userId, text, env).next, userId) || 
            (!Waiting(st, userId) && !env.credentialsPresent)
  {
  }

  /** The gatekeeper's state, updated in place as `AUTH_STATE` is. */
  class AuthGate {
    var authState: map<int, string>
    var tokenFile: bool

    constructor (tokenFile: bool)
      ensures authState == map[] && this.tokenFile == tokenFile
    {
      authState := map[];
      this.tokenFile := tokenFile;
    }

    function State(): GateState
      reads this
    {
      GateState(authState, tokenFile)
    }

    method CheckAuthStatus(userId: int, text: Option<string>, env: Env) returns (outcome: Outcome, notices: seq<Notice>)
      modifies this
      ensures GateStep(outcome, State(), notices) == Transition(old(State()), userId, text, env)
    {
      if tokenFile {
        return Returned(true), [];
      }
      outcome := Returned(false);
      if userId in authState && authState[userId] == WaitingForCode {
        if text.None? {
          return RaisedAttributeError, [];
        }
        var code := Text.Strip(text.value);
        if |code| < MinCodeLength {
          notices := [NotACode];
        } else if env.Exchanged() {
          tokenFile := true;
          authState := authState - {userId};
          outcome, notices := Returned(true), [Verifying, RetractVerifying, Connected];
        } else {
          notices := [Verifying, AuthorizationFailed];
        }
      } else if env.credentialsPresent {
        authState := authState[userId := WaitingForCode];
        notices := [ActionRequired(env.authUrl)];
      } else {
        notices := [CredentialsMissing];
      }
    }
  }
}
