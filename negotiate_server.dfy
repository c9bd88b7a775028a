/**
 * Win32::SSPI::Negotiate::Server: the server side of a multi-round SPNEGO
 * handshake. Each incoming token goes through `authenticate_and_continue?`,
 * which acquires inbound credentials unless it already holds them, accepts
 * the token, finishes the output token with CompleteAuthToken when the
 * provider asks for it, and, once the provider answers OK, reads the client's
 * names and releases both handles.
 *
 * The step functions below say what each Ruby method does to the server's
 * state and which native calls it makes; the class `Server` performs the
 * same steps on its fields and is proved to follow them.
 */
module NegotiateServer {
  import opened Sspi
  import opened Principal

  /** What a server remembers between calls. */
  datatype ServerState = ServerState(
    authType: string,
    credentials: bool,  // @credentials_handle is set
    context: bool,      // @context_handle is set
    token: Option<Bytes>,
    username: Option<string>,
    domain: Option<string>)

  /** `acquire_handle` */
  function AcquireStep(st: ServerState, script: seq<Reply>, n: nat): (s: Step<ServerState, Status>)
    ensures st.credentials ==> s.result == Success(Ok) && s.state == st && s.calls == []
    ensures !st.credentials ==> s.calls == [Acquire(st.authType, Inbound, None)]
    ensures s.result.Success? <==> st.credentials || At(script, n).status == Ok
    ensures s.result.Success? ==> s.result.value == Ok && s.state == st.(credentials := true)
    ensures s.result.Failure? ==>
      s.result.error == Raised(AcquireCredentialsHandle, At(script, n).status) && s.state == st
  {
    var ok: Status := Ok;
    if st.credentials then Step(Success(ok), st, [])
    else
      var call := Acquire(st.authType, Inbound, None);
      var held := st.(credentials := true);
      var r := At(script, n);
      if r.status != Ok then Step(Failure(Raised(AcquireCredentialsHandle, r.status)), held.(credentials := false), [call])
      else Step(Success(r.status), held, [call])
  }

  /** `accept_context(token)` */
  function AcceptStep(st: ServerState, input: Option<Bytes>, script: seq<Reply>, n: nat): (s: Step<ServerState, Status>)
    ensures s.calls == [Accept(st.credentials, st.context, input)]
    ensures s.state.context && s.state.(context := st.context, token := st.token) == st
    ensures s.result.Success? <==> IsAcceptSuccess(At(script, n).status)
    ensures s.result.Success? ==> s.result.value == At(script, n).status && s.state.token == At(script, n).output
    ensures s.result.Failure? ==>
      s.result.error == Raised(AcceptSecurityContext, At(script, n).status) && s.state.token == st.token
  {
    var call := Accept(st.credentials, st.context, input);
    var created := st.(context := true);
    var r := At(script, n);
    if IsAcceptSuccess(r.status) then Step(Success(r.status), created.(token := r.output), [call])
    else Step(Failure(Raised(AcceptSecurityContext, r.status)), created, [call])
  }

  /** `complete_authentication` */
  function CompleteStep(st: ServerState, script: seq<Reply>, n: nat): (s: Step<ServerState, Status>)
    ensures s.state == st
    ensures st.token.None? ==> s.result == Success(Ok) && s.calls == []
    ensures st.token.Some? ==> s.calls == [Complete(st.token.value)]
    ensures s.result.Success? ==> s.result.value == Ok
    ensures s.result.Failure? <==> st.token.Some? && At(script, n).status != Ok
    ensures s.result.Failure? ==> s.result.error == Raised(CompleteAuthToken, At(script, n).status)
  {
    var ok: Status := Ok;
    if st.token.None? then Step(Success(ok), st, [])
    else
      var r := At(script, n);
      if r.status != Ok then Step(Failure(Raised(CompleteAuthToken, r.status)), st, [Complete(st.token.value)])
      else Step(Success(r.status), st, [Complete(st.token.value)])
  }

  /** The names `query_attributes` keeps for the principal name `name`. */
  function WithNames(st: ServerState, name: string): (named: ServerState)
    ensures Backslash !in name ==> named == st.(username := Some(name))
    ensures Backslash in name ==>
      named == st.(domain := DomainAndUser(name).domain, username := DomainAndUser(name).user)
  {
    var whole := st.(username := Some(name));
    if Backslash in name then
      var parts := DomainAndUser(name);
      whole.(domain := parts.domain, username := parts.user)
    else whole
  }

  /** `query_attributes` */
  function QueryStep(st: ServerState, script: seq<Reply>, n: nat): (s: Step<ServerState, Status>)
    ensures s.calls == [QueryNames]
    ensures s.result.Success? <==> At(script, n).status == Ok
    ensures s.result.Success? ==> s.result.value == Ok && s.state == WithNames(st, At(script, n).name)
    ensures s.result.Failure? ==>
      s.result.error == Raised(QueryContextAttributes, At(script, n).status) && s.state == st
  {
    var r := At(script, n);
    if r.status != Ok then Step(Failure(Raised(QueryContextAttributes, r.status)), st, [QueryNames])
    else Step(Success(r.status), WithNames(st, r.name), [QueryNames])
  }

  /** `free_handles` */
  function FreeStep(st: ServerState, script: seq<Reply>, n: nat): (s: Step<ServerState, Status>)
    ensures s.state == st.(credentials := false, context := false)
    ensures s.calls ==
      (if st.context then [DeleteContext] else []) + (if st.credentials then [FreeCredentials] else [])
    ensures s.result.Success? ==> s.result.value == Ok
    ensures st.context && At(script, n).status != Ok ==>
      s.result == Failure(Raised(DeleteSecurityContext, At(script, n).status))
    ensures (!st.context || At(script, n).status == Ok) && st.credentials &&
            At(script, if st.context then n + 1 else n).status != Ok ==>
      s.result == Failure(Raised(FreeCredentialsHandle, At(script, if st.context then n + 1 else n).status))
    ensures s.result.Success? <==>
      (!st.context || At(script, n).status == Ok) &&
      (!st.credentials || At(script, if st.context then n + 1 else n).status == Ok)
  {
    var deleted: Status := if st.context then At(script, n).status else Ok;
    var m := if st.context then n + 1 else n;
    var freed: Status := if st.credentials then At(script, m).status else Ok;
    var calls := (if st.context then [DeleteContext] else []) + (if st.credentials then [FreeCredentials] else []);
    var released := st.(context := false, credentials := false);
    if deleted != Ok then Step(Failure(Raised(DeleteSecurityContext, deleted)), released, calls)
    else if freed != Ok then Step(Failure(Raised(FreeCredentialsHandle, freed)), released, calls)
    else Step(Success(deleted), released, calls)
  }

  // ---------------------------------------------------------------------------
  // A whole round

  /** The number of the native call that AcceptSecurityContext is in a round started at call `n`. */
  function AcceptIndex(st: ServerState, n: nat): nat {
    if st.credentials then n else n + 1
  }

  /** Whether the round's acquisition (if it needs one) succeeds. */
  predicate Acquired(st: ServerState, script: seq<Reply>, n: nat) {
    st.credentials || At(script, n).status == Ok
  }

  /** The calls up to and including AcceptSecurityContext. */
  function CallsToAccept(st: ServerState, input: Option<Bytes>): seq<Call> {
    (if st.credentials then [] else [Acquire(st.authType, Inbound, None)]) + [Accept(true, st.context, input)]
  }

  /** The state once AcceptSecurityContext (call `m`) has succeeded: both handles held, its output kept. */
  function Held(st: ServerState, script: seq<Reply>, m: nat): ServerState {
    st.(credentials := true, context := true, token := At(script, m).output)
  }

  /** Whether CompleteAuthToken is called after an accept that returned `status`: only when there is a token to complete. */
  predicate Completes(st: ServerState, status: Status) {
    NeedsCompletion(status) && st.token.Some?
  }

  /** The CompleteAuthToken call, if any, after an accept that returned `status`. */
  function Completion(st: ServerState, status: Status): seq<Call> {
    if Completes(st, status) then [Complete(st.token.value)] else []
  }

  /** Lines 30-32 of `authenticate_and_continue?`: CompleteAuthToken when the accept's `status` asks for it. */
  function CompletionStep(st: ServerState, status: Status, script: seq<Reply>, n: nat): Step<ServerState, Status> {
    if NeedsCompletion(status) then CompleteStep(st, script, n) else Step(Success(status), st, [])
  }

  /**
   * Lines 33-38 of `authenticate_and_continue?`, reached with `status`: when
   * it is OK, query the names and, when that succeeds, free both handles.
   */
  function FinishStep(st: ServerState, status: Status, script: seq<Reply>, n: nat): Step<ServerState, Status> {
    var ok: Status := Ok;
    if status != Ok then Step(Success(status), st, [])
    else if At(script, n).status != Ok then
      Step(Failure(Raised(QueryContextAttributes, At(script, n).status)), st, [QueryNames])
    else
      var f := FreeStep(WithNames(st, At(script, n).name), script, n + 1);
      Step(if f.result.Failure? then Failure(f.result.error) else Success(ok), f.state, [QueryNames] + f.calls)
  }

  /**
   * The rest of `authenticate_and_continue?` once AcceptSecurityContext has
   * returned `status`, starting at call `n`: CompleteAuthToken when the status
   * asks for it, then, if the status is (now) OK, the names are queried and
   * the handles freed. The answer is whether the last status is CONTINUE_NEEDED.
   */
  function ConcludeStep(st: ServerState, status: Status, script: seq<Reply>, n: nat): Step<ServerState, bool> {
    var k := CompletionStep(st, status, script, n);
    if k.result.Failure? then Step(Failure(k.result.error), k.state, k.calls)
    else
      var f := FinishStep(k.state, k.result.value, script, n + |k.calls|);
      if f.result.Failure? then Step(Failure(f.result.error), f.state, k.calls + f.calls)
      else Step(Success(f.result.value == ContinueNeeded), f.state, k.calls + f.calls)
  }

  /**
   * `authenticate_and_continue?(token)`: which calls are made, what is raised
   * or returned, and what the server holds afterwards. True means the client
   * must be challenged again.
   */
  function AuthenticateStep(st: ServerState, input: Option<Bytes>, script: seq<Reply>, n: nat): Step<ServerState, bool> {
    var m := AcceptIndex(st, n);
    var status := At(script, m).status;
    if !Acquired(st, script, n) then
      Step(Failure(Raised(AcquireCredentialsHandle, At(script, n).status)), st, [Acquire(st.authType, Inbound, None)])
    else if !IsAcceptSuccess(status) then
      Step(Failure(Raised(AcceptSecurityContext, status)), st.(credentials := true, context := true), CallsToAccept(st, input))
    else
      var c := ConcludeStep(Held(st, script, m), status, script, m + 1);
      Step(c.result, c.state, CallsToAccept(st, input) + c.calls)
  }

  /** The round of a server whose accept succeeded: the accept's calls, then the rest. */
  lemma RoundAccepted(st: ServerState, input: Option<Bytes>, script: seq<Reply>, n: nat)
    requires Acquired(st, script, n) && IsAcceptSuccess(At(script, AcceptIndex(st, n)).status)
    ensures var m := AcceptIndex(st, n);
      var c := ConcludeStep(Held(st, script, m), At(script, m).status, script, m + 1);
      AuthenticateStep(st, input, script, n) == Step(c.result, c.state, CallsToAccept(st, input) + c.calls)
  {
  }

  /** Lines 29-39 of `authenticate_and_continue?`: the accept at call `m`, then the rest of the round. */
  function AcceptRoundStep(st: ServerState, input: Option<Bytes>, script: seq<Reply>, m: nat): Step<ServerState, bool> {
    var a := AcceptStep(st, input, script, m);
    if a.result.Failure? then Step(Failure(a.result.error), a.state, a.calls)
    else
      var c := ConcludeStep(a.state, a.result.value, script, m + 1);
      Step(c.result, c.state, a.calls + c.calls)
  }

  /** A round whose acquisition (if any) succeeded: the acquisition's call, then the accept and what follows it. */
  lemma RoundAfterAcquire(st: ServerState, input: Option<Bytes>, script: seq<Reply>, n: nat)
    requires Acquired(st, script, n)
    ensures var a := AcceptRoundStep(st.(credentials := true), input, script, AcceptIndex(st, n));
      var pre := if st.credentials then [] else [Acquire(st.authType, Inbound, None)];
      AuthenticateStep(st, input, script, n) == Step(a.result, a.state, pre + a.calls)
  {
    var m := AcceptIndex(st, n);
    var pre := if st.credentials then [] else [Acquire(st.authType, Inbound, None)];
    var a := AcceptStep(st.(credentials := true), input, script, m);
    if a.result.Success? {
      var c := ConcludeStep(a.state, a.result.value, script, m + 1);
      AppendAssoc(pre, a.calls, c.calls);
    }
  }

  // ---------------------------------------------------------------------------
  // What a round promises

  /**
   * `authenticate_and_continue?` answers true exactly when AcceptSecurityContext
   * returned CONTINUE_NEEDED; both handles are then held and the output token
   * is kept for the caller to send back.
   */
  lemma ContinueIffAcceptContinues(st: ServerState, input: Option<Bytes>, script: seq<Reply>, n: nat)
    ensures var s, m := AuthenticateStep(st, input, script, n), AcceptIndex(st, n);
      s.result == Success(true) <==> Acquired(st, script, n) && At(script, m).status == ContinueNeeded
    ensures var s, m := AuthenticateStep(st, input, script, n), AcceptIndex(st, n);
      s.result == Success(true) ==> s.state == Held(st, script, m) && s.calls == CallsToAccept(st, input)
  {
  }

  /**
   * The round that authenticates: OK, or COMPLETE_NEEDED / COMPLETE_AND_CONTINUE
   * finished by CompleteAuthToken (called only when there is an output token),
   * then the names are queried and both handles released, in this order.
   * COMPLETE_AND_CONTINUE authenticates too: once completion succeeds, its
   * status is OK.
   */
  lemma AuthenticatedRound(st: ServerState, input: Option<Bytes>, script: seq<Reply>, n: nat)
    ensures var m := AcceptIndex(st, n);
      var held, status := Held(st, script, m), At(script, m).status;
      var q := if Completes(held, status) then m + 2 else m + 1;
      AuthenticateStep(st, input, script, n).result == Success(false) <==>
        && Acquired(st, script, n)
        && (status == Ok || NeedsCompletion(status))
        && (Completes(held, status) ==> At(script, m + 1).status == Ok)
        && At(script, q).status == Ok && At(script, q + 1).status == Ok && At(script, q + 2).status == Ok
  {
    var m := AcceptIndex(st, n);
    var held, status := Held(st, script, m), At(script, m).status;
    if !Acquired(st, script, n) {
      assert AuthenticateStep(st, input, script, n).result.Failure?;
    } else if !IsAcceptSuccess(status) {
      assert AuthenticateStep(st, input, script, n).result.Failure?;
    } else {
      RoundAccepted(st, input, script, n);
      ConcludeAuthenticates(held, status, script, m + 1);
    }
  }

  /**
   * What the authenticating round leaves: the principal's names, no handle,
   * and the calls accept, completion (if any), query, delete, free.
   */
  lemma AuthenticatedRoundEffect(st: ServerState, input: Option<Bytes>, script: seq<Reply>, n: nat)
    requires AuthenticateStep(st, input, script, n).result == Success(false)
    ensures var s, m := AuthenticateStep(st, input, script, n), AcceptIndex(st, n);
      var held, status := Held(st, script, m), At(script, m).status;
      var q := if Completes(held, status) then m + 2 else m + 1;
      && s.state == WithNames(held, At(script, q).name).(credentials := false, context := false)
      && s.calls == CallsToAccept(st, input) + Completion(held, status) + [QueryNames, DeleteContext, FreeCredentials]
      && !s.state.credentials && !s.state.context && s.state.authType == st.authType
  {
    var m := AcceptIndex(st, n);
    var held, status := Held(st, script, m), At(script, m).status;
    var q := if Completes(held, status) then m + 2 else m + 1;
    if !Acquired(st, script, n) {
      assert false;
    } else if !IsAcceptSuccess(status) {
      assert false;
    } else {
      RoundAccepted(st, input, script, n);
      ConcludeAuthenticates(held, status, script, m + 1);
      AppendAssoc(CallsToAccept(st, input), Completion(held, status), [QueryNames, DeleteContext, FreeCredentials]);
      assert WithNames(held, At(script, q).name).authType == st.authType;
    }
  }

  /** The part of a round after the accept, for a server holding both handles. */
  lemma ConcludeAuthenticates(held: ServerState, status: Status, script: seq<Reply>, n: nat)
    requires held.credentials && held.context && IsAcceptSuccess(status)
    ensures var q := if Completes(held, status) then n + 1 else n;
      ConcludeStep(held, status, script, n).result == Success(false) <==>
        && (status == Ok || NeedsCompletion(status))
        && (Completes(held, status) ==> At(script, n).status == Ok)
        && At(script, q).status == Ok && At(script, q + 1).status == Ok && At(script, q + 2).status == Ok
    ensures var c, q := ConcludeStep(held, status, script, n), if Completes(held, status) then n + 1 else n;
      c.result == Success(false) ==>
        && c.state == WithNames(held, At(script, q).name).(credentials := false, context := false)
        && c.calls == Completion(held, status) + [QueryNames, DeleteContext, FreeCredentials]
  {
    var q := if Completes(held, status) then n + 1 else n;
    var named := WithNames(held, At(script, q).name);
    assert named.credentials && named.context;
    assert [QueryNames] + ([DeleteContext] + [FreeCredentials]) == [QueryNames, DeleteContext, FreeCredentials];
  }

  /**
   * The faithful reading of COMPLETE_AND_CONTINUE: when completion, query
   * and release all succeed, the round reports that no further challenge is
   * needed, although the provider asked to continue.
   */
  lemma CompleteAndContinueEndsRound(st: ServerState, input: Option<Bytes>, script: seq<Reply>, n: nat)
    requires Acquired(st, script, n)
    requires var m := AcceptIndex(st, n);
      At(script, m).status == CompleteAndContinue && At(script, m).output.Some? &&
      At(script, m + 1).status == Ok && At(script, m + 2).status == Ok &&
      At(script, m + 3).status == Ok && At(script, m + 4).status == Ok
    ensures AuthenticateStep(st, input, script, n).result == Success(false)
    ensures AuthenticateStep(st, input, script, n).calls[|CallsToAccept(st, input)|] == Complete(At(script, AcceptIndex(st, n)).output.value)
  {
    AuthenticatedRound(st, input, script, n);
    AuthenticatedRoundEffect(st, input, script, n);
  }

  /**
   * What an error leaves behind: a failed acquisition holds no credentials; a
   * failed accept, completion or query keeps both handles (nothing is
   * released); a failed release has already dropped both.
   */
  lemma ErrorsKeepHandles(st: ServerState, input: Option<Bytes>, script: seq<Reply>, n: nat)
    ensures var s := AuthenticateStep(st, input, script, n);
      s.result.Failure? ==>
        match s.result.error.op
        case AcquireCredentialsHandle => s.state == st && !st.credentials && s.calls == [Acquire(st.authType, Inbound, None)]
        case AcceptSecurityContext =>
          s.state == st.(credentials := true, context := true) && s.calls == CallsToAccept(st, input)
        case CompleteAuthToken => s.state.credentials && s.state.context
        case QueryContextAttributes => s.state.credentials && s.state.context
        case DeleteSecurityContext => !s.state.credentials && !s.state.context
        case FreeCredentialsHandle => !s.state.credentials && !s.state.context
        case InitializeSecurityContext => false
  {
  }

  /** The first calls of a round: the acquisition when no credentials are held, then the accept. */
  lemma RoundOpening(st: ServerState, input: Option<Bytes>, script: seq<Reply>, n: nat)
    ensures var t := AuthenticateStep(st, input, script, n);
      !st.credentials ==> |t.calls| >= 1 && t.calls[0] == Acquire(st.authType, Inbound, None)
    ensures var t, i := AuthenticateStep(st, input, script, n), if st.credentials then 0 else 1;
      Acquired(st, script, n) ==> |t.calls| > i && t.calls[i] == Accept(true, st.context, input)
  {
  }

  /** After a round that asks to continue, the next one reuses both handles: no acquisition, the context is passed in. */
  lemma NextRoundReusesHandles(st: ServerState, input: Option<Bytes>, next: Option<Bytes>, script: seq<Reply>, n: nat)
    requires AuthenticateStep(st, input, script, n).result == Success(true)
    ensures var s := AuthenticateStep(st, input, script, n);
      AuthenticateStep(s.state, next, script, n + |s.calls|).calls[0] == Accept(true, true, next)
  {
    ContinueIffAcceptContinues(st, input, script, n);
    var s := AuthenticateStep(st, input, script, n);
    RoundOpening(s.state, next, script, n + |s.calls|);
  }

  /** After a round that authenticates, both handles are gone, so the next round acquires afresh and starts a new context. */
  lemma NextRoundReacquires(st: ServerState, input: Option<Bytes>, next: Option<Bytes>, script: seq<Reply>, n: nat)
    requires AuthenticateStep(st, input, script, n).result == Success(false)
    ensures var s := AuthenticateStep(st, input, script, n);
      var t := AuthenticateStep(s.state, next, script, n + |s.calls|);
      && t.calls[0] == Acquire(st.authType, Inbound, None)
      && (At(script, n + |s.calls|).status == Ok ==> t.calls[1] == Accept(true, false, next))
  {
    AuthenticatedRoundEffect(st, input, script, n);
    var s := AuthenticateStep(st, input, script, n);
    RoundOpening(s.state, next, script, n + |s.calls|);
  }

  /**
   * Every round whose acquisition (if it needs one) succeeds keeps acquisitions
   * and releases of credentials in balance with the handle it holds, whether it
   * returns or raises: every acquisition it makes is either released in the
   * same round or still held at its end.
   */
  lemma AcquisitionsBalanced(st: ServerState, input: Option<Bytes>, script: seq<Reply>, n: nat)
    requires Acquired(st, script, n)
    ensures var s := AuthenticateStep(st, input, script, n);
      Acquisitions(s.calls) + (if st.credentials then 1 else 0) ==
      Releases(s.calls) + (if s.state.credentials then 1 else 0)
  {
    CountsToAccept(st, input);
    if IsAcceptSuccess(At(script, AcceptIndex(st, n)).status) {
      AcceptedRoundCounts(st, input, script, n);
    } else {
      RoundRefused(st, input, script, n);
    }
  }

  /** The balance of a round whose accept succeeds: the accept's calls, then those after it. */
  lemma AcceptedRoundCounts(st: ServerState, input: Option<Bytes>, script: seq<Reply>, n: nat)
    requires Acquired(st, script, n) && IsAcceptSuccess(At(script, AcceptIndex(st, n)).status)
    ensures var s := AuthenticateStep(st, input, script, n);
      Acquisitions(s.calls) == (if st.credentials then 0 else 1) &&
      Releases(s.calls) == (if s.state.credentials then 0 else 1)
  {
    var m := AcceptIndex(st, n);
    var status := At(script, m).status;
    CountsToAccept(st, input);
    RoundAccepted(st, input, script, n);
    var c := ConcludeStep(Held(st, script, m), status, script, m + 1);
    ConcludeCounts(Held(st, script, m), status, script, m + 1);
    CountsAppend(CallsToAccept(st, input), c.calls);
  }

  /** A round whose accept fails ends after the accept, holding both handles. */
  lemma RoundRefused(st: ServerState, input: Option<Bytes>, script: seq<Reply>, n: nat)
    requires Acquired(st, script, n) && !IsAcceptSuccess(At(script, AcceptIndex(st, n)).status)
    ensures var s := AuthenticateStep(st, input, script, n);
      s.calls == CallsToAccept(st, input) && s.state.credentials && s.state.context
  {
  }

  /** The calls up to the accept acquire once when no credentials are held, and release nothing. */
  lemma CountsToAccept(st: ServerState, input: Option<Bytes>)
    ensures Acquisitions(CallsToAccept(st, input)) == (if st.credentials then 0 else 1)
    ensures Releases(CallsToAccept(st, input)) == 0
  {
    var pre := if st.credentials then [] else [Acquire(st.authType, Inbound, None)];
    CountsOne(Acquire(st.authType, Inbound, None));
    CountsOne(Accept(true, st.context, input));
    CountsAppend(pre, [Accept(true, st.context, input)]);
  }

  /** After the accept nothing is acquired, and the credentials are released exactly when they end up dropped. */
  lemma ConcludeCounts(held: ServerState, status: Status, script: seq<Reply>, n: nat)
    requires held.credentials && held.context
    ensures var c := ConcludeStep(held, status, script, n);
      Acquisitions(c.calls) == 0 && Releases(c.calls) == (if c.state.credentials then 0 else 1)
  {
    var k := CompletionStep(held, status, script, n);
    CompletionCounts(held, status, script, n);
    if k.result.Success? {
      var f := FinishStep(held, k.result.value, script, n + |k.calls|);
      FinishCounts(held, k.result.value, script, n + |k.calls|);
      CountsAppend(k.calls, f.calls);
    }
  }

  /** CompleteAuthToken, if called, keeps the state and neither acquires nor releases credentials. */
  lemma CompletionCounts(st: ServerState, status: Status, script: seq<Reply>, n: nat)
    ensures var k := CompletionStep(st, status, script, n);
      k.state == st && Acquisitions(k.calls) == 0 && Releases(k.calls) == 0
  {
    if Completes(st, status) {
      CountsOne(Complete(st.token.value));
    }
  }

  /** The query and release step acquires nothing and releases the credentials exactly when it drops them. */
  lemma FinishCounts(st: ServerState, status: Status, script: seq<Reply>, n: nat)
    requires st.credentials && st.context
    ensures var f := FinishStep(st, status, script, n);
      Acquisitions(f.calls) == 0 && Releases(f.calls) == (if f.state.credentials then 0 else 1)
  {
    CountsOne(QueryNames);
    if status == Ok && At(script, n).status == Ok {
      var named := WithNames(st, At(script, n).name);
      assert named.credentials && named.context;
      CountsOne(DeleteContext);
      CountsOne(FreeCredentials);
      CountsAppend([DeleteContext], [FreeCredentials]);
      CountsAppend([QueryNames], [DeleteContext] + [FreeCredentials]);
    }
  }

  // ---------------------------------------------------------------------------
  // The server object

  class Server {
    /** The native calls of API::Server. */
    const provider: Provider
    var authType: string
    var token: Option<Bytes>
    var username: Option<string>
    var domain: Option<string>
    var credentialsHandle: Handle?
    var contextHandle: Handle?

    function State(): ServerState
      reads this
    {
      ServerState(authType, credentialsHandle != null, contextHandle != null, token, username, domain)
    }

    /** `initialize(options)`: the package defaults to "Negotiate"; no handle is held yet. */
    constructor (provider: Provider, authType: Option<string>)
      ensures this.provider == provider
      ensures State() == ServerState(
        if authType.Some? then authType.value else "Negotiate",
        false, false, Some([]), Some([]), Some([]))
    {
      this.provider := provider;
      this.authType := if authType.Some? then authType.value else "Negotiate";
      token := Some([]);
      username := Some([]);
      domain := Some([]);
      credentialsHandle := null;
      contextHandle := null;
    }

    method AuthenticateAndContinue(input: Option<Bytes>) returns (r: Result<bool>)
      modifies this, provider
      ensures var s := AuthenticateStep(old(State()), input, provider.script, old(|provider.trace|));
        r == s.result && State() == s.state && provider.trace == old(provider.trace) + s.calls
    {
      ghost var trace0, st0 := provider.trace, State();
      var acquired := AcquireHandle();
      if acquired.Failure? {
        return Failure(acquired.error);
      }
      if acquired.value == Ok {
        ghost var trace1 := provider.trace;
        r := AcceptAndConclude(input);
        RoundAfterAcquire(st0, input, provider.script, |trace0|);
        AppendAssoc(trace0, trace1[|trace0|..], provider.trace[|trace1|..]);
      } else {
        assert false;
      }
    }

    /** Lines 29-39 of `authenticate_and_continue?`: accept the token, then conclude. */
    method AcceptAndConclude(input: Option<Bytes>) returns (r: Result<bool>)
      modifies this, provider
      ensures var s := AcceptRoundStep(old(State()), input, provider.script, old(|provider.trace|));
        r == s.result && State() == s.state && provider.trace == old(provider.trace) + s.calls
    {
      ghost var trace0 := provider.trace;
      var accepted := AcceptContext(input);
      if accepted.Failure? {
        return Failure(accepted.error);
      }
      ghost var trace1 := provider.trace;
      r := Conclude(accepted.value);
      AppendAssoc(trace0, trace1[|trace0|..], provider.trace[|trace1|..]);
    }

    /** Lines 30-41 of `authenticate_and_continue?`, after the accept returned `status`. */
    method Conclude(status: Status) returns (r: Result<bool>)
      modifies this, provider
      ensures var s := ConcludeStep(old(State()), status, provider.script, old(|provider.trace|));
        r == s.result && State() == s.state && provider.trace == old(provider.trace) + s.calls
    {
      ghost var trace0, st0 := provider.trace, State();
      ghost var k := CompletionStep(st0, status, provider.script, |trace0|);
      var completed := CompleteIfNeeded(status);
      if completed.Failure? {
        return Failure(completed.error);
      }
      ghost var trace1 := provider.trace;
      assert trace1 == trace0 + k.calls && State() == k.state;
      ghost var f := FinishStep(k.state, completed.value, provider.script, |trace1|);
      var finished := Finish(completed.value);
      assert finished == f.result && provider.trace == trace1 + f.calls;
      AppendAssoc(trace0, k.calls, f.calls);
      if finished.Failure? {
        return Failure(finished.error);
      }
      r := Success(finished.value == ContinueNeeded);
    }

    /** Lines 30-32 of `authenticate_and_continue?`. */
    method CompleteIfNeeded(status: Status) returns (r: Result<Status>)
      modifies this, provider
      ensures var s := CompletionStep(old(State()), status, provider.script, old(|provider.trace|));
        r == s.result && State() == s.state && provider.trace == old(provider.trace) + s.calls
    {
      if NeedsCompletion(status) {
        r := CompleteAuthentication();
      } else {
        r := Success(status);
      }
    }

    /** Lines 33-38 of `authenticate_and_continue?`: with an OK status, query the names, then free the handles. */
    method Finish(status: Status) returns (r: Result<Status>)
      modifies this, provider
      ensures var s := FinishStep(old(State()), status, provider.script, old(|provider.trace|));
        r == s.result && State() == s.state && provider.trace == old(provider.trace) + s.calls
    {
      if status != Ok {
        return Success(status);
      }
      ghost var trace0 := provider.trace;
      var queried := QueryAttributes();
      if queried.Failure? {
        return queried;
      }
      if queried.value == Ok {
        var freed := FreeHandles();
        AppendAssoc(trace0, [QueryNames], provider.trace[|trace0| + 1..]);
        if freed.Failure? {
          return Failure(freed.error);
        }
      } else {
        assert false;
      }
      r := queried;
    }

    method AcquireHandle() returns (r: Result<Status>)
      modifies this, provider
      ensures var s := AcquireStep(old(State()), provider.script, old(|provider.trace|));
        r == s.result && State() == s.state && provider.trace == old(provider.trace) + s.calls
      ensures old(credentialsHandle) != null ==> credentialsHandle == old(credentialsHandle)
      ensures old(credentialsHandle) == null && credentialsHandle != null ==> fresh(credentialsHandle)
      ensures contextHandle == old(contextHandle)
    {
      if credentialsHandle != null {
        return Success(Ok);
      }
      credentialsHandle := new Handle();
      var reply := provider.Invoke(Acquire(authType, Inbound, None));
      if reply.status != Ok {
        credentialsHandle := null;
        return Failure(Raised(AcquireCredentialsHandle, reply.status));
      }
      r := Success(reply.status);
    }

    method AcceptContext(input: Option<Bytes>) returns (r: Result<Status>)
      modifies this, provider
      ensures var s := AcceptStep(old(State()), input, provider.script, old(|provider.trace|));
        r == s.result && State() == s.state && provider.trace == old(provider.trace) + s.calls
      ensures old(contextHandle) != null ==> contextHandle == old(contextHandle)
      ensures old(contextHandle) == null ==> contextHandle != null && fresh(contextHandle)
      ensures credentialsHandle == old(credentialsHandle)
    {
      var previous := contextHandle;
      if contextHandle == null {
        contextHandle := new Handle();
      }
      var reply := provider.Invoke(Accept(credentialsHandle != null, previous != null, input));
      if IsAcceptSuccess(reply.status) {
        token := reply.output;
      } else {
        return Failure(Raised(AcceptSecurityContext, reply.status));
      }
      r := Success(reply.status);
    }

    method CompleteAuthentication() returns (r: Result<Status>)
      modifies this, provider
      ensures var s := CompleteStep(old(State()), provider.script, old(|provider.trace|));
        r == s.result && State() == s.state && provider.trace == old(provider.trace) + s.calls
      ensures credentialsHandle == old(credentialsHandle) && contextHandle == old(contextHandle)
    {
      var status: Status := Ok;
      if token.Some? {
        var reply := provider.Invoke(Complete(token.value));
        status := reply.status;
        if status != Ok {
          return Failure(Raised(CompleteAuthToken, status));
        }
      }
      r := Success(status);
    }

    method QueryAttributes() returns (r: Result<Status>)
      modifies this, provider
      ensures var s := QueryStep(old(State()), provider.script, old(|provider.trace|));
        r == s.result && State() == s.state && provider.trace == old(provider.trace) + s.calls
      ensures credentialsHandle == old(credentialsHandle) && contextHandle == old(contextHandle)
    {
      var reply := provider.Invoke(QueryNames);
      if reply.status != Ok {
        return Failure(Raised(QueryContextAttributes, reply.status));
      }
      username := Some(reply.name);
      if Backslash in reply.name {
        var parts := DomainAndUser(reply.name);
        domain, username := parts.domain, parts.user;
      }
      r := Success(reply.status);
    }

    method FreeHandles() returns (r: Result<Status>)
      modifies this, provider
      ensures var s := FreeStep(old(State()), provider.script, old(|provider.trace|));
        r == s.result && State() == s.state && provider.trace == old(provider.trace) + s.calls
      ensures credentialsHandle == null && contextHandle == null
    {
      var deleted: Status, freed: Status := Ok, Ok;
      if contextHandle != null {
        var reply := provider.Invoke(DeleteContext);
        deleted, contextHandle := reply.status, null;
      }
      if credentialsHandle != null {
        var reply := provider.Invoke(FreeCredentials);
        freed, credentialsHandle := reply.status, null;
      }
      if deleted != Ok {
        return Failure(Raised(DeleteSecurityContext, deleted));
      }
      if freed != Ok {
        return Failure(Raised(FreeCredentialsHandle, freed));
      }
      r := Success(Ok);
    }
  }
}
