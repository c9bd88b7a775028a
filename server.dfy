/**
 * Win32::SSPI::Server: the two-step NTLM server. `initial_token` takes the
 * client's type 1 message and answers with a type 2 challenge;
 * `complete_authentication` takes the type 3 message, reads the client's
 * names and frees the credentials.
 *
 * Unlike the Negotiate server, this one keeps no record of which handles it
 * holds: both handle structs are allocated once by the constructor and are
 * passed to the provider on every call, so every `initial_token` acquires
 * credentials again and the context handle is never released.
 */
module NtlmServer {
  import opened Sspi
  import opened Principal

  /** What the server remembers between calls. */
  datatype NtlmState = NtlmState(
    authType: string,
    type1: Option<Bytes>,
    type2: Option<Bytes>,
    username: Option<string>,
    domain: Option<string>)

  /** `type_2_message(false)`: the challenge as it was stored. */
  function Type2Message(st: NtlmState): Option<Bytes> {
    st.type2
  }

  /** Whether `initial_token` lets an accept status through without CompleteAuthToken. */
  predicate PassesDirectly(s: Status) {
    s == Ok || s == ContinueNeeded
  }

  /**
   * `initial_token(type_1_message)`, starting at call `n`: the message is
   * stored first, then credentials are acquired (every time), the message is
   * accepted without an existing context, a COMPLETE_* status is finished with
   * CompleteAuthToken, and the output token becomes the type 2 message.
   */
  function InitialTokenStep(st: NtlmState, type1: Bytes, script: seq<Reply>, n: nat): Step<NtlmState, Bytes> {
    var recorded := st.(type1 := Some(type1));
    var acquire := Acquire(st.authType, Inbound, None);
    var accepted := At(script, n + 1);
    var type2 := Read(accepted.output);
    var calls := [acquire, Accept(true, false, Some(type1))];
    if At(script, n).status != Ok then
      Step(Failure(Raised(AcquireCredentialsHandle, At(script, n).status)), recorded, [acquire])
    else if PassesDirectly(accepted.status) then
      Step(Success(type2), recorded.(type2 := Some(type2)), calls)
    else if !NeedsCompletion(accepted.status) then
      Step(Failure(Raised(AcceptSecurityContext, accepted.status)), recorded, calls)
    else if At(script, n + 2).status != Ok then
      Step(Failure(Raised(CompleteAuthToken, At(script, n + 2).status)), recorded, calls + [Complete(type2)])
    else
      Step(Success(type2), recorded.(type2 := Some(type2)), calls + [Complete(type2)])
  }

  /** The names `complete_authentication` keeps for the principal name `name`: only a name with a backslash changes them. */
  function NamesFrom(st: NtlmState, name: string): NtlmState {
    if Backslash in name then
      st.(domain := DomainAndUser(name).domain, username := DomainAndUser(name).user)
    else st
  }

  /**
   * `complete_authentication(token)`, starting at call `n`: the token is
   * accepted into the existing context and must give exactly OK; the names
   * are queried and kept; the credentials are freed; OK is returned.
   */
  function CompleteAuthenticationStep(st: NtlmState, token: Bytes, script: seq<Reply>, n: nat): Step<NtlmState, Status> {
    var named := NamesFrom(st, At(script, n + 1).name);
    var ok: Status := Ok;
    if At(script, n).status != Ok then
      Step(Failure(Raised(AcceptSecurityContext, At(script, n).status)), st, [Accept(true, true, Some(token))])
    else if At(script, n + 1).status != Ok then
      Step(Failure(Raised(QueryContextAttributes, At(script, n + 1).status)), st, [Accept(true, true, Some(token)), QueryNames])
    else if At(script, n + 2).status != Ok then
      Step(Failure(Raised(FreeCredentialsHandle, At(script, n + 2).status)), named,
           [Accept(true, true, Some(token)), QueryNames, FreeCredentials])
    else
      Step(Success(ok), named, [Accept(true, true, Some(token)), QueryNames, FreeCredentials])
  }

  // ---------------------------------------------------------------------------
  // What the two steps promise

  /**
   * The type 1 message is stored before any provider call, so it is kept
   * whatever happens; and credentials are acquired on every call, before
   * anything else, whatever the state. Once acquired, the message is
   * accepted without an existing context, and CompleteAuthToken is called on
   * the accept's output exactly after a COMPLETE_* status.
   */
  lemma InitialTokenRecordsAndAcquires(st: NtlmState, type1: Bytes, script: seq<Reply>, n: nat)
    ensures InitialTokenStep(st, type1, script, n).state.type1 == Some(type1)
    ensures InitialTokenStep(st, type1, script, n).calls[0] == Acquire(st.authType, Inbound, None)
    ensures At(script, n).status != Ok ==>
      InitialTokenStep(st, type1, script, n).calls == [Acquire(st.authType, Inbound, None)]
    ensures At(script, n).status == Ok ==>
      InitialTokenStep(st, type1, script, n).calls ==
        [Acquire(st.authType, Inbound, None), Accept(true, false, Some(type1))] +
        (if NeedsCompletion(At(script, n + 1).status) then [Complete(Read(At(script, n + 1).output))] else [])
  {
  }

  /**
   * `initial_token` succeeds exactly when acquisition gives OK and the accept
   * gives OK or CONTINUE_NEEDED, or gives COMPLETE_NEEDED or
   * COMPLETE_AND_CONTINUE and CompleteAuthToken then gives OK. On success the
   * returned token is the accept's output and is what `type_2_message`
   * answers afterwards; on failure the type 2 message is left as it was.
   */
  lemma InitialTokenOutcome(st: NtlmState, type1: Bytes, script: seq<Reply>, n: nat)
    ensures var s := InitialTokenStep(st, type1, script, n);
      s.result.Success? <==>
        At(script, n).status == Ok &&
        (PassesDirectly(At(script, n + 1).status) ||
         (NeedsCompletion(At(script, n + 1).status) && At(script, n + 2).status == Ok))
    ensures var s := InitialTokenStep(st, type1, script, n);
      s.result.Success? ==>
        s.result.value == Read(At(script, n + 1).output) && Type2Message(s.state) == Some(s.result.value)
    ensures var s := InitialTokenStep(st, type1, script, n);
      s.result.Failure? ==> s.state == st.(type1 := Some(type1)) && Type2Message(s.state) == Type2Message(st)
  {
  }

  /** Which error `initial_token` raises, and when. */
  lemma InitialTokenErrors(st: NtlmState, type1: Bytes, script: seq<Reply>, n: nat)
    ensures var s, a := InitialTokenStep(st, type1, script, n), At(script, n + 1).status;
      s.result.Failure? ==>
        match s.result.error.op
        case AcquireCredentialsHandle => At(script, n).status != Ok
        case AcceptSecurityContext => At(script, n).status == Ok && !IsAcceptSuccess(a) && s.result.error.status == a
        case CompleteAuthToken => At(script, n).status == Ok && NeedsCompletion(a) && At(script, n + 2).status != Ok
        case QueryContextAttributes => false
        case DeleteSecurityContext => false
        case FreeCredentialsHandle => false
        case InitializeSecurityContext => false
  {
  }

  /**
   * `complete_authentication` is strict: it succeeds exactly when the accept,
   * the query and the release all give OK; CONTINUE_NEEDED (or any other
   * non-OK accept status) raises AcceptSecurityContext before anything else
   * is called. After a successful query the credentials are freed, and a
   * failed release raises FreeCredentialsHandle.
   */
  lemma CompleteAuthenticationStrict(st: NtlmState, token: Bytes, script: seq<Reply>, n: nat)
    ensures var s := CompleteAuthenticationStep(st, token, script, n);
      s.result == Success(Ok) <==>
        At(script, n).status == Ok && At(script, n + 1).status == Ok && At(script, n + 2).status == Ok
    ensures var s := CompleteAuthenticationStep(st, token, script, n);
      s.result.Success? ==> s.result.value == Ok
    ensures var s := CompleteAuthenticationStep(st, token, script, n);
      At(script, n).status != Ok ==>
        s.result == Failure(Raised(AcceptSecurityContext, At(script, n).status)) && s.state == st &&
        s.calls == [Accept(true, true, Some(token))]
    ensures var s := CompleteAuthenticationStep(st, token, script, n);
      At(script, n).status == Ok && At(script, n + 1).status == Ok ==>
        s.calls == [Accept(true, true, Some(token)), QueryNames, FreeCredentials] &&
        (At(script, n + 2).status != Ok ==> s.result == Failure(Raised(FreeCredentialsHandle, At(script, n + 2).status)))
  {
  }

  /**
   * A failed query stops the method before the names are touched or the
   * credentials freed; a failed release comes after the names were kept.
   */
  lemma FailedQueryAborts(st: NtlmState, token: Bytes, script: seq<Reply>, n: nat)
    requires At(script, n).status == Ok && At(script, n + 1).status != Ok
    ensures var s := CompleteAuthenticationStep(st, token, script, n);
      s.result == Failure(Raised(QueryContextAttributes, At(script, n + 1).status)) &&
      s.state == st && FreeCredentials !in s.calls
  {
  }

  /**
   * The names change only when the principal name holds a backslash; they
   * are then the first two fields of the name. Otherwise they stay as they
   * were, so a server that starts with neither still has neither.
   */
  lemma NamesOnlyFromBackslash(st: NtlmState, token: Bytes, script: seq<Reply>, n: nat)
    ensures var s, name := CompleteAuthenticationStep(st, token, script, n), At(script, n + 1).name;
      (s.state.username, s.state.domain) ==
        if At(script, n).status == Ok && At(script, n + 1).status == Ok && Backslash in name
        then (DomainAndUser(name).user, DomainAndUser(name).domain)
        else (st.username, st.domain)
    ensures CompleteAuthenticationStep(st, token, script, n).state.type2 == st.type2
  {
  }

  /** Neither step ever deletes the security context. */
  lemma ContextNeverReleased(st: NtlmState, type1: Bytes, token: Bytes, script: seq<Reply>, n: nat, k: nat)
    ensures DeleteContext !in InitialTokenStep(st, type1, script, n).calls
    ensures DeleteContext !in CompleteAuthenticationStep(st, token, script, k).calls
  {
  }

  /**
   * Calling `initial_token` twice without completing in between acquires
   * credentials twice and frees them never: the first handle leaks.
   */
  lemma RepeatedInitialTokenLeaks(st: NtlmState, t1: Bytes, t2: Bytes, script: seq<Reply>, n: nat)
    requires InitialTokenStep(st, t1, script, n).result.Success?
    ensures var s := InitialTokenStep(st, t1, script, n);
      var u := InitialTokenStep(s.state, t2, script, n + |s.calls|);
      Acquisitions(s.calls + u.calls) == 2 && Releases(s.calls + u.calls) == 0
  {
    var s := InitialTokenStep(st, t1, script, n);
    var u := InitialTokenStep(s.state, t2, script, n + |s.calls|);
    InitialTokenCounts(st, t1, script, n);
    InitialTokenCounts(s.state, t2, script, n + |s.calls|);
    CountsAppend(s.calls, u.calls);
  }

  /** One `initial_token` acquires once and frees nothing. */
  lemma InitialTokenCounts(st: NtlmState, type1: Bytes, script: seq<Reply>, n: nat)
    ensures Acquisitions(InitialTokenStep(st, type1, script, n).calls) == 1
    ensures Releases(InitialTokenStep(st, type1, script, n).calls) == 0
  {
    var acquire, accept := Acquire(st.authType, Inbound, None), Accept(true, false, Some(type1));
    CountsOne(acquire);
    CountsOne(accept);
    CountsAppend([acquire], [accept]);
    var type2 := Read(At(script, n + 1).output);
    CountsOne(Complete(type2));
    CountsAppend([acquire] + [accept], [Complete(type2)]);
    assert [acquire, accept] == [acquire] + [accept];
  }

  // ---------------------------------------------------------------------------
  // The server object

  class Server {
    /** The native calls of API::Server. */
    const provider: Provider
    const authType: string
    /**
     * The CredHandle and CtxtHandle structs, allocated once. They only mark
     * the structs of lib/win32/sspi/server.rb:22-23: the recorded calls do not
     * say which struct is passed.
     */
    const credentials: Handle
    const context: Handle
    var type1Message: Option<Bytes>
    var type2Message: Option<Bytes>
    var username: Option<string>
    var domain: Option<string>

    function State(): NtlmState
      reads this
    {
      NtlmState(authType, type1Message, type2Message, username, domain)
    }

    /** `initialize(auth_type = 'NTLM')`: no messages and no names yet. */
    constructor (provider: Provider, authType: Option<string>)
      ensures this.provider == provider
      ensures State() == NtlmState(if authType.Some? then authType.value else "NTLM", None, None, None, None)
    {
      this.provider := provider;
      this.authType := if authType.Some? then authType.value else "NTLM";
      credentials := new Handle();
      context := new Handle();
      type1Message, type2Message := None, None;
      username, domain := None, None;
    }

    method InitialToken(type1: Bytes) returns (r: Result<Bytes>)
      modifies this, provider
      ensures var s := InitialTokenStep(old(State()), type1, provider.script, old(|provider.trace|));
        r == s.result && State() == s.state && provider.trace == old(provider.trace) + s.calls
    {
      ghost var trace0 := provider.trace;
      type1Message := Some(type1);
      var acquired := provider.Invoke(Acquire(authType, Inbound, None));
      if acquired.status != Ok {
        return Failure(Raised(AcquireCredentialsHandle, acquired.status));
      }
      var accepted := provider.Invoke(Accept(true, false, Some(type1)));
      var output := Read(accepted.output);
      if accepted.status != Ok {
        if NeedsCompletion(accepted.status) {
          var completed := provider.Invoke(Complete(output));
          if completed.status != Ok {
            return Failure(Raised(CompleteAuthToken, completed.status));
          }
        } else if accepted.status != ContinueNeeded {
          return Failure(Raised(AcceptSecurityContext, accepted.status));
        }
      }
      type2Message := Some(output);
      r := Success(output);
    }

    method CompleteAuthentication(token: Bytes) returns (r: Result<Status>)
      modifies this, provider
      ensures var s := CompleteAuthenticationStep(old(State()), token, provider.script, old(|provider.trace|));
        r == s.result && State() == s.state && provider.trace == old(provider.trace) + s.calls
    {
      var accepted := provider.Invoke(Accept(true, true, Some(token)));
      if accepted.status != Ok {
        return Failure(Raised(AcceptSecurityContext, accepted.status));
      }
      var queried := provider.Invoke(QueryNames);
      if queried.status != Ok {
        return Failure(Raised(QueryContextAttributes, queried.status));
      }
      if Backslash in queried.name {
        var parts := DomainAndUser(queried.name);
        domain, username := parts.domain, parts.user;
      }
      var freed := provider.Invoke(FreeCredentials);
      if freed.status != Ok {
        return Failure(Raised(FreeCredentialsHandle, freed.status));
      }
      r := Success(accepted.status);
    }
  }
}
