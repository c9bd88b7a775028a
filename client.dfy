/**
 * Win32::SSPI::Client: produces the NTLM type 1 message. `get_initial_token`
 * acquires outbound credentials (for the logged-on user, or for an explicit
 * identity), asks InitializeSecurityContext for the first token in a buffer
 * of TOKENBUFSIZE bytes, deletes the context it got, and frees the
 * credentials on every way out. `MessageType1` cuts a type 1 message into
 * its fixed fields.
 */
module SspiClient {
  import opened Sspi

  /**
   * TOKENBUFSIZE, the capacity of the output buffer. Its value comes from
   * lib/win32/sspi/windows/constants.rb, which is not part of this model;
   * 12288 is assumed for it here. No proof depends on it.
   */
  const TokenBufSize: nat := 12288

  const Nul: char := 0 as char

  /** What a client remembers between calls. */
  datatype ClientState = ClientState(
    username: Option<string>,
    domain: Option<string>,
    authType: string,
    token: Option<Bytes>,
    context: bool)  // @context is set

  /** `token(false)`: the stored token as it is. */
  function Token(st: ClientState): Option<Bytes> {
    st.token
  }

  /** `s.concat(0.chr)` on a name that may be nil (then nothing happens). */
  function WithNul(name: Option<string>): (r: Option<string>)
    ensures r.Some? <==> name.Some?
    ensures r.Some? ==> |r.value| == |name.value| + 1 && r.value[..|name.value|] == name.value && r.value[|name.value|] == Nul
  {
    if name.Some? then Some(name.value + [Nul]) else None
  }

  /** Whether `get_initial_token(local)` builds an explicit identity. */
  predicate UsesIdentity(st: ClientState, local: bool) {
    !local && (st.username.Some? || st.domain.Some?)
  }

  /** The names after the identity is built: each present one ends with a NUL that stays in the client. */
  function Prepared(st: ClientState, local: bool): ClientState {
    if UsesIdentity(st, local) then st.(username := WithNul(st.username), domain := WithNul(st.domain)) else st
  }

  /** The SEC_WINNT_AUTH_IDENTITY passed to AcquireCredentialsHandle, if any. */
  function Identity(st: ClientState, local: bool): Option<AuthIdentity> {
    if UsesIdentity(st, local) then Some(AuthIdentity(WithNul(st.username), WithNul(st.domain))) else None
  }

  /** The first `cbBuffer` bytes of the output buffer: as much of the provider's token as fits. */
  function BufferedToken(output: Option<Bytes>): Bytes {
    Read(output)[..Fitted(Read(output), TokenBufSize)]
  }

  /** Whether InitializeSecurityContext's status is accepted. */
  predicate Initialized(s: Status) {
    s == Ok || s == ContinueNeeded
  }

  /**
   * The `begin`/`ensure` part of `get_initial_token` (lines 95-143), once the
   * credentials are held, starting at call `n`: InitializeSecurityContext into
   * a TOKENBUFSIZE buffer, and on OK or CONTINUE_NEEDED the context and the
   * token are kept and the context deleted; then the credentials are freed
   * whatever happened, and an error that raises replaces the one in flight.
   */
  function ExchangeStep(st: ClientState, script: seq<Reply>, n: nat): Step<ClientState, Bytes> {
    var init := At(script, n);
    var token := BufferedToken(init.output);
    var initialized := Initialized(init.status);
    var body: seq<Call> := [Initialize(TokenBufSize)] + (if initialized then [DeleteContext] else []);
    var free := n + |body|;
    var inFlight: Option<Error> :=
      if !initialized then Some(Raised(InitializeSecurityContext, init.status))
      else if At(script, n + 1).status != Ok then Some(Raised(DeleteSecurityContext, At(script, n + 1).status))
      else None;
    var after := if initialized then st.(context := true, token := Some(token)) else st;
    var result: Result<Bytes> :=
      if At(script, free).status != Ok then Failure(Raised(FreeCredentialsHandle, At(script, free).status))
      else if inFlight.Some? then Failure(inFlight.value)
      else Success(token);
    Step(result, after, body + [FreeCredentials])
  }

  /**
   * `get_initial_token(local)`, starting at call `n`: the identity is
   * prepared, outbound credentials are acquired (a failure raises before
   * anything else), and the exchange above follows.
   */
  function InitialTokenStep(st: ClientState, local: bool, script: seq<Reply>, n: nat): Step<ClientState, Bytes> {
    var prepared := Prepared(st, local);
    var acquire := Acquire(st.authType, Outbound, Identity(st, local));
    var e := ExchangeStep(prepared, script, n + 1);
    if At(script, n).status != Ok then
      Step(Failure(Raised(AcquireCredentialsHandle, At(script, n).status)), prepared, [acquire])
    else
      Step(e.result, e.state, [acquire] + e.calls)
  }

  // ---------------------------------------------------------------------------
  // What `get_initial_token` promises

  /**
   * An explicit identity is built only for a non-local call with a user or a
   * domain; it carries each of them only if set, with a NUL appended, and the
   * NUL stays on the client's own names from then on, whatever the call
   * returns. A local call leaves the names alone.
   */
  lemma IdentityAndNames(st: ClientState, local: bool, script: seq<Reply>, n: nat)
    ensures var s := InitialTokenStep(st, local, script, n);
      s.calls[0] == Acquire(st.authType, Outbound, Identity(st, local)) &&
      (Identity(st, local).Some? <==> !local && (st.username.Some? || st.domain.Some?)) &&
      (Identity(st, local).Some? ==>
        Identity(st, local).value.user == s.state.username && Identity(st, local).value.domain == s.state.domain)
    ensures var s := InitialTokenStep(st, local, script, n);
      UsesIdentity(st, local) ==> s.state.username == WithNul(st.username) && s.state.domain == WithNul(st.domain)
    ensures var s := InitialTokenStep(st, local, script, n);
      local ==> s.state.username == st.username && s.state.domain == st.domain
  {
  }

  /** A failed acquisition raises before InitializeSecurityContext is called, and nothing is freed. */
  lemma AcquireFailureStops(st: ClientState, local: bool, script: seq<Reply>, n: nat)
    requires At(script, n).status != Ok
    ensures var s := InitialTokenStep(st, local, script, n);
      s.result == Failure(Raised(AcquireCredentialsHandle, At(script, n).status)) &&
      |s.calls| == 1 && s.calls[0].Acquire? && s.state.token == st.token && s.state.context == st.context
  {
  }

  /**
   * Once acquired, the credentials are freed on every way out, as the last
   * call, exactly once: one acquisition, one release.
   */
  lemma CredentialsAlwaysFreed(st: ClientState, local: bool, script: seq<Reply>, n: nat)
    requires At(script, n).status == Ok
    ensures var s := InitialTokenStep(st, local, script, n);
      |s.calls| >= 3 && s.calls[|s.calls| - 1] == FreeCredentials &&
      Acquisitions(s.calls) == 1 && Releases(s.calls) == 1
  {
    var s := InitialTokenStep(st, local, script, n);
    var acquire := Acquire(st.authType, Outbound, Identity(st, local));
    var mid: seq<Call> := if Initialized(At(script, n + 1).status) then [DeleteContext] else [];
    CountsOne(acquire);
    CountsOne(Initialize(TokenBufSize));
    CountsOne(DeleteContext);
    CountsOne(FreeCredentials);
    CountsAppend([acquire], [Initialize(TokenBufSize)]);
    CountsAppend([acquire] + [Initialize(TokenBufSize)], mid);
    CountsAppend([acquire] + [Initialize(TokenBufSize)] + mid, [FreeCredentials]);
    assert s.calls == [acquire] + [Initialize(TokenBufSize)] + mid + [FreeCredentials];
  }

  /**
   * A failure to free the credentials is what the caller sees, even when
   * InitializeSecurityContext or DeleteSecurityContext failed first: the
   * `ensure` clause's raise masks the earlier error.
   */
  lemma FreeErrorMasks(st: ClientState, local: bool, script: seq<Reply>, n: nat)
    requires At(script, n).status == Ok
    ensures var s, free := InitialTokenStep(st, local, script, n), if Initialized(At(script, n + 1).status) then n + 3 else n + 2;
      At(script, free).status != Ok ==> s.result == Failure(Raised(FreeCredentialsHandle, At(script, free).status))
    ensures var s, free := InitialTokenStep(st, local, script, n), if Initialized(At(script, n + 1).status) then n + 3 else n + 2;
      At(script, free).status == Ok && !Initialized(At(script, n + 1).status) ==>
        s.result == Failure(Raised(InitializeSecurityContext, At(script, n + 1).status))
    ensures var s := InitialTokenStep(st, local, script, n);
      Initialized(At(script, n + 1).status) && At(script, n + 2).status != Ok && At(script, n + 3).status == Ok ==>
        s.result == Failure(Raised(DeleteSecurityContext, At(script, n + 2).status))
  {
  }

  /**
   * InitializeSecurityContext is accepted with OK or CONTINUE_NEEDED only;
   * any other status leaves the token and the context as they were. The
   * call succeeds exactly when every native call it makes succeeds.
   */
  lemma InitializeOutcome(st: ClientState, local: bool, script: seq<Reply>, n: nat)
    ensures var s := InitialTokenStep(st, local, script, n);
      s.result.Success? <==>
        At(script, n).status == Ok && Initialized(At(script, n + 1).status) &&
        At(script, n + 2).status == Ok && At(script, n + 3).status == Ok
    ensures var s := InitialTokenStep(st, local, script, n);
      At(script, n).status == Ok && !Initialized(At(script, n + 1).status) ==>
        s.state.token == st.token && s.state.context == st.context && DeleteContext !in s.calls
  {
  }

  /**
   * When InitializeSecurityContext is accepted, the context is recorded and
   * then deleted, and the token kept is the output buffer's first `cbBuffer`
   * bytes: a prefix of the provider's token, all of it when it fits in
   * TOKENBUFSIZE bytes. A successful call returns that token, which
   * `token(false)` then answers.
   */
  lemma TokenFromBuffer(st: ClientState, local: bool, script: seq<Reply>, n: nat)
    requires At(script, n).status == Ok && Initialized(At(script, n + 1).status)
    ensures var s, out := InitialTokenStep(st, local, script, n), Read(At(script, n + 1).output);
      && s.state.context
      && s.calls[..3] == [Acquire(st.authType, Outbound, Identity(st, local)), Initialize(TokenBufSize), DeleteContext]
      && Token(s.state).Some?
      && |Token(s.state).value| <= TokenBufSize
      && Token(s.state).value == out[..|Token(s.state).value|]
      && (|out| <= TokenBufSize ==> Token(s.state).value == out)
      && (s.result.Success? ==> Token(s.state) == Some(s.result.value))
  {
  }

  // ---------------------------------------------------------------------------
  // MessageType1

  /** `s[start, len]` on a Ruby string: nil when `start` is past the end, otherwise up to `len` bytes. */
  function Slice(s: Bytes, start: nat, len: nat): (r: Option<Bytes>)
    ensures r.Some? <==> start <= |s|
    ensures r.Some? ==> |r.value| == (if start + len <= |s| then len else |s| - start)
    ensures r.Some? ==> forall i :: 0 <= i < |r.value| ==> r.value[i] == s[start + i]
  {
    if start > |s| then None
    else if start + len <= |s| then Some(s[start..start + len])
    else Some(s[start..])
  }

  /** `s[start..-1]`: nil when `start` is past the end, otherwise the rest. */
  function From(s: Bytes, start: nat): (r: Option<Bytes>)
    ensures r.Some? <==> start <= |s|
    ensures r.Some? ==> s == s[..start] + r.value
  {
    if start > |s| then None else Some(s[start..])
  }

  /** The bytes `String#strip` removes: NUL, tab, line feed, vertical tab, form feed, carriage return, space. */
  predicate IsStripped(b: byte) {
    b == 0 || (9 <= b <= 13) || b == 32
  }

  /** `lstrip` from index `i`: the first index at or after `i` whose byte is kept. */
  function Lead(s: Bytes, i: nat): (n: nat)
    requires i <= |s|
    ensures i <= n <= |s|
    ensures forall k :: i <= k < n ==> IsStripped(s[k])
    ensures n == |s| || !IsStripped(s[n])
    decreases |s| - i
  {
    if i < |s| && IsStripped(s[i]) then Lead(s, i + 1) else i
  }

  /** `rstrip` of `s[lo..j]`: the end of the longest part of it, from `lo`, that does not end with a stripped byte. */
  function Trail(s: Bytes, lo: nat, j: nat): (n: nat)
    requires lo <= j <= |s|
    ensures lo <= n <= j
    ensures forall k :: n <= k < j ==> IsStripped(s[k])
    ensures n == lo || !IsStripped(s[n - 1])
  {
    if lo < j && IsStripped(s[j - 1]) then Trail(s, lo, j - 1) else j
  }

  /** `String#strip`: `lstrip`, then `rstrip` of what is left. */
  function Strip(s: Bytes): Bytes {
    var i := Lead(s, 0);
    s[i..Trail(s, i, |s|)]
  }

  /** The fields `MessageType1.new(token)` keeps, each nil when the token is too short to reach it. */
  datatype MessageType1 = MessageType1(
    signature: Bytes,
    type1Indicator: Option<Bytes>,
    flags: Option<Bytes>,
    domainSecurityBuffer: Option<Bytes>,
    workstationSecurityBuffer: Option<Bytes>,
    osVersionStructure: Option<Bytes>,
    workstation: Option<Bytes>,
    domain: Option<Bytes>)

  /** `MessageType1#initialize(token)` */
  function ParseType1(token: Bytes): MessageType1 {
    MessageType1(
      Strip(Slice(token, 0, 8).value),
      Slice(token, 8, 4),
      Slice(token, 12, 4),
      Slice(token, 16, 8),
      Slice(token, 24, 8),
      Slice(token, 32, 8),
      Slice(token, 40, 12),
      From(token, 52))
  }

  /**
   * `strip` keeps a contiguous part of its input and drops only stripped
   * bytes on either side of it; what it keeps neither starts nor ends with one.
   */
  lemma StripInfix(s: Bytes)
    ensures exists i, j :: (0 <= i <= j <= |s| && Strip(s) == s[i..j] &&
      (forall k :: 0 <= k < i ==> IsStripped(s[k])) && (forall k :: j <= k < |s| ==> IsStripped(s[k])))
    ensures Strip(s) == [] || (!IsStripped(Strip(s)[0]) && !IsStripped(Strip(s)[|Strip(s)| - 1]))
  {
    var i := Lead(s, 0);
    var j := Trail(s, i, |s|);
    assert Strip(s) == s[i..j];
    if i < j {
      assert Strip(s)[0] == s[i] && Strip(s)[|Strip(s)| - 1] == s[j - 1];
    }
  }

  /**
   * The signature is the first eight bytes (fewer if the token is shorter)
   * with the whitespace and NULs around them removed, and no more: it neither
   * starts nor ends with such a byte.
   */
  lemma SignatureIsStrippedHeader(token: Bytes)
    ensures var head, sig := token[..if |token| < 8 then |token| else 8], ParseType1(token).signature;
      (exists i, j :: (0 <= i <= j <= |head| && sig == head[i..j] &&
        (forall k :: 0 <= k < i ==> IsStripped(head[k])) && (forall k :: j <= k < |head| ==> IsStripped(head[k])))) &&
      (sig == [] || (!IsStripped(sig[0]) && !IsStripped(sig[|sig| - 1])))
  {
    var head := token[..if |token| < 8 then |token| else 8];
    assert Slice(token, 0, 8).value == head;
    StripInfix(head);
  }

  /**
   * A token of at least 52 bytes is cut into consecutive fields that tile it:
   * the 40-byte NEGOTIATE_MESSAGE header of section 2.2.1.1 of [MS-NLMP]
   * (signature, message type, flags, domain and workstation fields, version),
   * then 12 bytes of workstation and the rest as the domain.
   */
  lemma {:induction false} FieldsTileToken(token: Bytes)
    requires |token| >= 52
    ensures var m := ParseType1(token);
      && m.type1Indicator.Some? && m.flags.Some? && m.domainSecurityBuffer.Some?
      && m.workstationSecurityBuffer.Some? && m.osVersionStructure.Some? && m.workstation.Some? && m.domain.Some?
      && token == token[..8] + m.type1Indicator.value + m.flags.value + m.domainSecurityBuffer.value
                  + m.workstationSecurityBuffer.value + m.osVersionStructure.value + m.workstation.value + m.domain.value
  {
    var m := ParseType1(token);
    assert m.type1Indicator.value == token[8..12];
    assert m.flags.value == token[12..16];
    assert m.domainSecurityBuffer.value == token[16..24];
    assert m.workstationSecurityBuffer.value == token[24..32];
    assert m.osVersionStructure.value == token[32..40];
    assert m.workstation.value == token[40..52];
    assert m.domain.value == token[52..];
    assert token == token[..8] + token[8..12] + token[12..16] + token[16..24] + token[24..32] + token[32..40] + token[40..52] + token[52..];
  }

  /**
   * A short token: the workstation is nil exactly when the token has fewer
   * than 40 bytes, the domain exactly when it has fewer than 52; a 40-byte
   * token (the header alone) gives an empty workstation and a nil domain.
   */
  lemma ShortToken(token: Bytes)
    ensures ParseType1(token).workstation.None? <==> |token| < 40
    ensures ParseType1(token).domain.None? <==> |token| < 52
    ensures |token| == 40 ==> ParseType1(token).workstation == Some([]) && ParseType1(token).domain == None
  {
  }

  /** "NTLMSSP\0", the NTLM signature. */
  const NtlmSignature: Bytes := [0x4E, 0x54, 0x4C, 0x4D, 0x53, 0x53, 0x50, 0x00]

  /** The NUL that ends the NTLM signature is stripped: `signature` reads "NTLMSSP". */
  lemma NtlmSignatureStripped(rest: Bytes)
    ensures ParseType1(NtlmSignature + rest).signature == NtlmSignature[..7]
  {
    var token := NtlmSignature + rest;
    assert Slice(token, 0, 8).value == NtlmSignature;
    assert Lead(NtlmSignature, 0) == 0;
    assert Trail(NtlmSignature, 0, 7) == 7;
  }

  // ---------------------------------------------------------------------------
  // The client object

  class Client {
    /** The native calls of Windows::Functions. */
    const provider: Provider
    const authType: string
    var username: Option<string>
    var domain: Option<string>
    var token: Option<Bytes>
    var context: Handle?

    function State(): ClientState
      reads this
    {
      ClientState(username, domain, authType, token, context != null)
    }

    /**
     * `initialize(username = nil, domain = nil, auth_type = 'NTLM')`: a
     * missing user or domain is taken from the USERNAME and USERDOMAIN
     * environment variables, given here as `envUser` and `envDomain` (None
     * when the variable is unset, which leaves the name nil).
     */
    constructor (provider: Provider, username: Option<string>, domain: Option<string>, authType: Option<string>,
                 envUser: Option<string>, envDomain: Option<string>)
      ensures this.provider == provider
      ensures State() == ClientState(
        if username.Some? then username else envUser,
        if domain.Some? then domain else envDomain,
        if authType.Some? then authType.value else "NTLM",
        None, false)
    {
      this.provider := provider;
      this.username := if username.Some? then username else envUser;
      this.domain := if domain.Some? then domain else envDomain;
      this.authType := if authType.Some? then authType.value else "NTLM";
      token := None;
      context := null;
    }

    /** Lines 57-77 of `get_initial_token`: the identity to acquire credentials for, if any. */
    method PrepareIdentity(local: bool) returns (identity: Option<AuthIdentity>)
      modifies this
      ensures identity == Identity(old(State()), local) && State() == Prepared(old(State()), local)
    {
      identity := None;
      if !local && (username.Some? || domain.Some?) {
        if username.Some? {
          username := Some(username.value + [Nul]);
        }
        if domain.Some? {
          domain := Some(domain.value + [Nul]);
        }
        identity := Some(AuthIdentity(username, domain));
      }
    }

    /** `get_initial_token(local = true, encode = false)`; `encode` is not used. */
    method GetInitialToken(local: bool, encode: bool) returns (r: Result<Bytes>)
      modifies this, provider
      ensures var s := InitialTokenStep(old(State()), local, provider.script, old(|provider.trace|));
        r == s.result && State() == s.state && provider.trace == old(provider.trace) + s.calls
    {
      var identity := PrepareIdentity(local);
      var acquired := provider.Invoke(Acquire(authType, Outbound, identity));
      if acquired.status != Ok {
        return Failure(Raised(AcquireCredentialsHandle, acquired.status));
      }
      ghost var trace1 := provider.trace;
      r := Exchange();
      AppendAssoc(old(provider.trace), [Acquire(old(State()).authType, Outbound, identity)], provider.trace[|trace1|..]);
    }

    /** Lines 95-145 of `get_initial_token`: the credentials are held. */
    method Exchange() returns (r: Result<Bytes>)
      modifies this, provider
      ensures var s := ExchangeStep(old(State()), provider.script, old(|provider.trace|));
        r == s.result && State() == s.state && provider.trace == old(provider.trace) + s.calls
    {
      // begin
      var inFlight: Option<Error> := None;
      var contextStruct := new Handle();
      var buffer := new byte[TokenBufSize];
      var status, cb := provider.InitializeInto(Initialize(TokenBufSize), buffer);
      var received := buffer[..cb];
      if status != Ok && status != ContinueNeeded {
        inFlight := Some(Raised(InitializeSecurityContext, status));
      } else {
        context := contextStruct;
        token := Some(received);
        var deleted := provider.Invoke(DeleteContext);
        if deleted.status != Ok {
          inFlight := Some(Raised(DeleteSecurityContext, deleted.status));
        }
      }
      // ensure
      var freed := provider.Invoke(FreeCredentials);
      if freed.status != Ok {
        return Failure(Raised(FreeCredentialsHandle, freed.status));
      }
      if inFlight.Some? {
        return Failure(inFlight.value);
      }
      r := Success(received);
    }
  }
}
