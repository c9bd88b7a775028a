/**
 * What the three SSPI wrappers share: the status taxonomy of the security
 * provider, the error value a Ruby `raise` becomes, and a scripted stand-in
 * for the native provider that answers each call from a script and records
 * the calls it receives.
 */
module Sspi {

  newtype byte = x: int | 0 <= x < 256

  /** A Ruby binary string: an opaque token exchanged between the peers. */
  type Bytes = seq<byte>

  datatype Option<+T> = None | Some(value: T)

  // ---------------------------------------------------------------------------
  // Status codes

  /** Numeric values of the four non-error SECURITY_STATUS codes (winerror.h). */
  const OkCode: int := 0x0000_0000
  const ContinueNeededCode: int := 0x0009_0312
  const CompleteNeededCode: int := 0x0009_0313
  const CompleteAndContinueCode: int := 0x0009_0314

  predicate IsKnownCode(c: int) {
    c == OkCode || c == ContinueNeededCode || c == CompleteNeededCode || c == CompleteAndContinueCode
  }

  /** SEC_E_OK, SEC_I_CONTINUE_NEEDED, SEC_I_COMPLETE_NEEDED, SEC_I_COMPLETE_AND_CONTINUE, or any other code. */
  datatype SecStatus = Ok | ContinueNeeded | CompleteNeeded | CompleteAndContinue | Other(code: int)

  /** A status as the provider returns it: `Other` never carries one of the four codes named above. */
  type Status = s: SecStatus | s.Other? ==> !IsKnownCode(s.code) witness Ok

  function Code(s: Status): int {
    match s
    case Ok => OkCode
    case ContinueNeeded => ContinueNeededCode
    case CompleteNeeded => CompleteNeededCode
    case CompleteAndContinue => CompleteAndContinueCode
    case Other(c) => c
  }

  /** Distinct statuses have distinct codes, so comparing statuses is comparing codes. */
  lemma CodeInjective(s: Status, t: Status)
    ensures Code(s) == Code(t) <==> s == t
  {
  }

  /** The four statuses AcceptSecurityContext may return without the caller raising. */
  predicate IsAcceptSuccess(s: Status) {
    s == Ok || s == ContinueNeeded || s == CompleteNeeded || s == CompleteAndContinue
  }

  /** The statuses after which the output token must be finished with CompleteAuthToken. */
  predicate NeedsCompletion(s: Status) {
    s == CompleteNeeded || s == CompleteAndContinue
  }

  // ---------------------------------------------------------------------------
  // Errors

  /** The native operation whose failure was raised. */
  datatype Op =
    | AcquireCredentialsHandle
    | AcceptSecurityContext
    | CompleteAuthToken
    | QueryContextAttributes
    | DeleteSecurityContext
    | FreeCredentialsHandle
    | InitializeSecurityContext

  /** A raised exception: the failing operation and the status it returned. */
  datatype Error = Raised(op: Op, status: Status)

  /** A Ruby method's outcome: its return value, or the exception it raised. */
  datatype Result<+T> = Success(value: T) | Failure(error: Error)

  // ---------------------------------------------------------------------------
  // The provider

  datatype Direction = Inbound | Outbound

  /** SEC_WINNT_AUTH_IDENTITY: the user and domain strings, each present only if set. */
  datatype AuthIdentity = AuthIdentity(user: Option<string>, domain: Option<string>)

  /** One native call as the caller makes it. */
  datatype Call =
    | Acquire(package: string, direction: Direction, identity: Option<AuthIdentity>)
      /** `withCredentials`/`withContext`: whether a credentials handle and an existing context are passed. */
    | Accept(withCredentials: bool, withContext: bool, input: Option<Bytes>)
    | Complete(token: Bytes)
    | QueryNames
    | DeleteContext
    | FreeCredentials
    | Initialize(capacity: nat)

  /**
   * The provider's answer to one call: the status it returns, the output token
   * it leaves in the output buffer (None: no output, which `to_ruby_s` reads
   * back as nil), and the principal name that QueryContextAttributes reports.
   */
  datatype Reply = Reply(status: Status, output: Option<Bytes>, name: string)

  /** `read_string_length(cbBuffer)` on an output buffer: no output reads as "". */
  function Read(output: Option<Bytes>): (b: Bytes)
    ensures output.Some? ==> b == output.value
    ensures output.None? ==> b == []
  {
    match output
    case Some(b) => b
    case None => []
  }

  /** The outcome of a sequence of native calls: what the Ruby method returned or raised, the new state, the calls made. */
  datatype Step<S, T> = Step(result: Result<T>, state: S, calls: seq<Call>)

  lemma AppendAssoc<T>(a: seq<T>, b: seq<T>, c: seq<T>)
    ensures (a + b) + c == a + (b + c)
  {
  }

  /** An opaque native handle (CredHandle or CtxtHandle) allocated by the caller. */
  class Handle {
    constructor () {}
  }

  /** SEC_E_INTERNAL_ERROR: what the scripted provider answers once its script is used up. */
  const InternalErrorCode: int := 0x8009_0304

  /**
   * The reply to the `n`-th native call under `script`. Any finite run uses
   * finitely many replies, so a list of replies describes every behaviour of
   * the provider over a run; calls past its end fail.
   */
  function At(script: seq<Reply>, n: nat): (r: Reply)
    ensures n < |script| ==> r == script[n]
    ensures n >= |script| ==> r.status == Other(InternalErrorCode) && r.output.None?
  {
    if n < |script| then script[n] else Reply(Other(InternalErrorCode), None, [])
  }

  /** The native security provider, scripted: the n-th call made gets `At(script, n)`. */
  class Provider {
    const script: seq<Reply>
    var trace: seq<Call>

    constructor (script: seq<Reply>)
      ensures this.script == script && trace == []
    {
      this.script := script;
      trace := [];
    }

    method Invoke(c: Call) returns (r: Reply)
      modifies this
      ensures trace == old(trace) + [c]
      ensures r == At(script, |old(trace)|)
    {
      r := At(script, |trace|);
      trace := trace + [c];
    }

    /**
     * InitializeSecurityContext with a caller-allocated output buffer: the
     * provider writes as much of its token as fits and reports the length in
     * `cb` (the SecBuffer's cbBuffer).
     */
    method InitializeInto(c: Call, buffer: array<byte>) returns (status: Status, cb: nat)
      modifies this, buffer
      ensures trace == old(trace) + [c]
      ensures status == At(script, |old(trace)|).status
      ensures cb == Fitted(Read(At(script, |old(trace)|).output), buffer.Length)
      ensures buffer[..cb] == Read(At(script, |old(trace)|).output)[..cb]
      ensures buffer[cb..] == old(buffer[cb..])
    {
      var r := Invoke(c);
      var out := Read(r.output);
      cb := Fitted(out, buffer.Length);
      forall i | 0 <= i < cb {
        buffer[i] := out[i];
      }
      status := r.status;
    }
  }

  /** How many bytes of `out` fit in a buffer of `capacity` bytes. */
  function Fitted(out: Bytes, capacity: nat): (n: nat)
    ensures n <= |out| && n <= capacity
    ensures n == |out| || n == capacity
  {
    if |out| <= capacity then |out| else capacity
  }

  // ---------------------------------------------------------------------------
  // Counting handle acquisitions and releases in a trace

  function Acquisitions(calls: seq<Call>): nat {
    if calls == [] then 0 else (if calls[0].Acquire? then 1 else 0) + Acquisitions(calls[1..])
  }

  function Releases(calls: seq<Call>): nat {
    if calls == [] then 0 else (if calls[0].FreeCredentials? then 1 else 0) + Releases(calls[1..])
  }

  lemma CountsOne(c: Call)
    ensures Acquisitions([c]) == (if c.Acquire? then 1 else 0)
    ensures Releases([c]) == (if c.FreeCredentials? then 1 else 0)
  {
    assert [c][1..] == [];
  }

  lemma {:induction false} CountsAppend(a: seq<Call>, b: seq<Call>)
    ensures Acquisitions(a + b) == Acquisitions(a) + Acquisitions(b)
    ensures Releases(a + b) == Releases(a) + Releases(b)
  {
    if a == [] {
      assert a + b == b;
    } else {
      assert (a + b)[1..] == a[1..] + b;
      CountsAppend(a[1..], b);
    }
  }
}
