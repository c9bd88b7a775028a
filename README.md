# win32-sspi handshake wrappers, modelled in Dafny

This project models the three Ruby wrappers around the Windows Security
Support Provider Interface (SSPI) in the win32-sspi library:

- `Win32::SSPI::Negotiate::Server`: the multi-round SPNEGO server. Each call
  to `authenticate_and_continue?` acquires inbound credentials unless it
  already holds them, accepts the client's token, finishes the output token
  with CompleteAuthToken when the provider asks for it and, once the provider
  answers OK, reads the client's names and releases both handles.
- `Win32::SSPI::Server`: the two-step NTLM server. `initial_token` turns the
  client's type 1 message into a type 2 challenge. `complete_authentication`
  accepts the type 3 message, reads the names and frees the credentials.
- `Win32::SSPI::Client`: `get_initial_token` produces the NTLM type 1
  message. It acquires outbound credentials, calls InitializeSecurityContext
  into a TOKENBUFSIZE buffer, deletes the context, and frees the credentials
  on every way out. `MessageType1` cuts a type 1 message into fixed fields.

The native SSPI functions are foreign code. They are replaced by a scripted
provider (`Sspi.Provider`). The n-th native call gets the n-th reply of a
list, and every call made is appended to a trace. A Ruby `raise` becomes the
value `Raised(operation, status)`.

Each Ruby method has two forms in the model:

- a step function gives the value returned or raised, the object's new
  state, and the native calls made, in order;
- a class (`NegotiateServer.Server`, `NtlmServer.Server`,
  `SspiClient.Client`) has the Ruby fields and a method per Ruby method.
  Each method is proved to follow its step function.

The lemmas state what the source promises about these step functions: which
call happens when, what is stored, what is raised, and what is released.

Files:

- `sspi.dfy`: statuses, errors, native calls, the scripted provider, and
  counting acquisitions and releases in a trace.
- `principal.dfy`: the `DOMAIN\user` rule, `@domain, @username = name.split("\\")`.
  It uses Ruby's `String#split`: cut at every backslash, drop trailing empty
  fields, assign the first two fields.
- `negotiate_server.dfy`, `server.dfy`, `client.dfy`: the three wrappers.

In these places the model follows the code:

- A principal name is cut at every backslash, not only at the first one. Only
  the first two fields are kept, so `a\b\c` gives domain `a` and user `b`, and
  `DOM\` gives a nil user.
- A name without a backslash leaves the domain as it was instead of emptying
  it. The NTLM server also leaves the user as it was.
- In the client, a failure to free the credentials replaces an error already
  raised by InitializeSecurityContext or DeleteSecurityContext.
- In the negotiate server, COMPLETE_AND_CONTINUE ends the round once
  CompleteAuthToken succeeds: the names are queried, the handles freed, and
  the answer is false.

## Model

| member | source | states |
|---|---|---|
| Sspi.CodeInjective | lib/win32/sspi/negotiate/server.rb:99-100 | two statuses are equal exactly when their numeric codes are, so testing membership in the list of success codes is testing the status |
| Sspi.Provider.InitializeInto | lib/win32/sspi/client.rb:102-133 | the provider writes as much of its token as fits into the caller's buffer; `cbBuffer` is that length and the rest of the buffer is untouched |
| Principal.Fields | lib/win32/sspi/negotiate/server.rb:136 | every field between backslashes, trailing empty ones included; there is at least one and none holds a backslash (its properties are in `JoinFields` and `FieldsJoin`) |
| Principal.Split | lib/win32/sspi/negotiate/server.rb:136 | `split("\\")`: those fields without the trailing empty ones (stated by `DropTrailingEmpty`) |
| Principal.DomainAndUser | lib/win32/sspi/negotiate/server.rb:136 | the values the parallel assignment gives: the first split field as domain and the second as user, nil where missing (stated by `DomainAndUserFields`, `OneBackslash` and `FirstTwoFields`) |
| Principal.JoinFields | lib/win32/sspi/negotiate/server.rb:136 | cutting a name at every backslash loses nothing: joining the fields with backslashes gives the name back |
| Principal.FieldsJoin | lib/win32/sspi/negotiate/server.rb:136 | backslash-free fields joined with backslashes are cut back into exactly those fields |
| Principal.DropTrailingEmpty | lib/win32/sspi/negotiate/server.rb:136 | `split` keeps a prefix of the fields that does not end with an empty one, and everything dropped is empty |
| Principal.DomainAndUserFields | lib/win32/sspi/negotiate/server.rb:136 | the domain is the first field unless all fields are empty; the user is the second unless all fields after the first are empty |
| Principal.OneBackslash | lib/win32/sspi/server.rb:143-144 | with exactly one backslash, the domain is the text before it and the user the text after it; an empty tail gives a nil user, and a lone backslash gives nil for both |
| Principal.FirstTwoFields | lib/win32/sspi/server.rb:143-144 | with two or more backslashes and some text after the first, the domain is the text before the first and the user the text between the first and the second; the rest is dropped |
| Principal.ExampleThreeFields | lib/win32/sspi/negotiate/server.rb:136 | `a\b\c` gives domain `a` and user `b` |
| Principal.ExampleTrailingBackslash | lib/win32/sspi/negotiate/server.rb:136 | `DOM\` gives domain `DOM` and a nil user |
| NegotiateServer.AcquireStep | lib/win32/sspi/negotiate/server.rb:44-68 | with a credentials handle held: OK and no call; otherwise one inbound acquisition, which succeeds exactly when the provider says OK, and a failure raises AcquireCredentialsHandle with that status and leaves no handle |
| NegotiateServer.AcceptStep | lib/win32/sspi/negotiate/server.rb:70-107 | the accept passes the credentials and the previous context (none on the first call), creates the context handle if missing, and stores the output token and returns the status exactly for the four success statuses; any other status raises AcceptSecurityContext and keeps the token |
| NegotiateServer.CompleteStep | lib/win32/sspi/negotiate/server.rb:109-123 | CompleteAuthToken is called only when a token is held; a non-OK answer raises CompleteAuthToken, otherwise OK is returned; the state does not change |
| NegotiateServer.WithNames | lib/win32/sspi/negotiate/server.rb:134-137 | the user is the whole name unless it holds a backslash; then domain and user are the first two split fields; without a backslash the domain is untouched |
| NegotiateServer.QueryStep | lib/win32/sspi/negotiate/server.rb:125-140 | one query; on OK the names are taken from the principal name, otherwise QueryContextAttributes is raised with nothing changed |
| NegotiateServer.FreeStep | lib/win32/sspi/negotiate/server.rb:142-163 | the context is deleted before the credentials are freed, each only if held; both handles are dropped whatever the statuses; a delete error wins over a free error; OK exactly when both succeed |
| NegotiateServer.CompletionStep | lib/win32/sspi/negotiate/server.rb:30-32 | CompleteAuthToken only after a COMPLETE status; what it then does is `CompleteStep` |
| NegotiateServer.FinishStep | lib/win32/sspi/negotiate/server.rb:33-38 | with an OK status the names are queried and, when that succeeds, both handles freed; any other status returns at once (stated through `ConcludeAuthenticates` and `ErrorsKeepHandles`) |
| NegotiateServer.ConcludeStep | lib/win32/sspi/negotiate/server.rb:30-41 | completion, then query and release, after an accepted token; the answer is whether the last status is CONTINUE_NEEDED (stated by `ConcludeAuthenticates`) |
| NegotiateServer.AcceptRoundStep | lib/win32/sspi/negotiate/server.rb:29-39 | the accept, then the rest of the round (tied to `AuthenticateStep` by `RoundAfterAcquire`) |
| NegotiateServer.AuthenticateStep | lib/win32/sspi/negotiate/server.rb:26-42 | a whole `authenticate_and_continue?` call; its properties are the lemmas below |
| NegotiateServer.ContinueIffAcceptContinues | lib/win32/sspi/negotiate/server.rb:26-42 | the round answers true exactly when acquisition succeeded and the accept returned CONTINUE_NEEDED; both handles are then held, the output token kept, and only acquire and accept were called |
| NegotiateServer.AuthenticatedRound | lib/win32/sspi/negotiate/server.rb:26-42 | the round answers false exactly when acquisition succeeds, the accept returns OK or a COMPLETE status, CompleteAuthToken (if called) succeeds, and the query, delete and free all succeed |
| NegotiateServer.AuthenticatedRoundEffect | lib/win32/sspi/negotiate/server.rb:26-42 | after such a round the names come from the principal, no handle is held, and the calls are accept, the completion if any, query, delete, free, in this order |
| NegotiateServer.ConcludeAuthenticates | lib/win32/sspi/negotiate/server.rb:30-38 | after a successful accept with both handles held, the rest of the round ends in false exactly when completion, query and release all succeed, with that state and those calls |
| NegotiateServer.CompleteAndContinueEndsRound | lib/win32/sspi/negotiate/server.rb:30-33 | COMPLETE_AND_CONTINUE with an output token calls CompleteAuthToken on it, and when that and the rest succeed the round answers false, not true |
| NegotiateServer.ErrorsKeepHandles | lib/win32/sspi/negotiate/server.rb:26-42 | a failed acquisition holds no credentials; a failed accept, completion or query keeps both handles; a failed delete or free has already dropped both |
| NegotiateServer.RoundOpening | lib/win32/sspi/negotiate/server.rb:26-29 | a round starts with the acquisition when no credentials are held, then the accept |
| NegotiateServer.NextRoundReusesHandles | lib/win32/sspi/negotiate/server.rb:44-72 | after a round that answers true, the next round acquires nothing and passes the existing context to the accept |
| NegotiateServer.NextRoundReacquires | lib/win32/sspi/negotiate/server.rb:142-150 | after a round that answers false, the next round acquires credentials again and starts a new context |
| NegotiateServer.AcquisitionsBalanced | lib/win32/sspi/negotiate/server.rb:26-42 | in every round whose acquisition succeeds, whether it returns or raises, acquisitions plus the credentials held before equal releases plus the credentials held after: nothing leaks |
| NegotiateServer.Server.constructor | lib/win32/sspi/negotiate/server.rb:17-24 | the package defaults to "Negotiate", token and names start empty, and no handle is held |
| NegotiateServer.Server.AuthenticateAndContinue | lib/win32/sspi/negotiate/server.rb:26-42 | the method returns or raises what `AuthenticateStep` says, leaves that state, and makes exactly those native calls |
| NegotiateServer.Server.AcceptAndConclude | lib/win32/sspi/negotiate/server.rb:29-39 | the accept and what follows it, as `AcceptRoundStep` says |
| NegotiateServer.Server.Conclude | lib/win32/sspi/negotiate/server.rb:30-41 | completion, query and release after the accept, as `ConcludeStep` says |
| NegotiateServer.Server.CompleteIfNeeded | lib/win32/sspi/negotiate/server.rb:30-32 | CompleteAuthToken only after a COMPLETE status, as `CompletionStep` says |
| NegotiateServer.Server.Finish | lib/win32/sspi/negotiate/server.rb:33-38 | with an OK status, query then free, as `FinishStep` says |
| NegotiateServer.Server.AcquireHandle | lib/win32/sspi/negotiate/server.rb:44-68 | follows `AcquireStep`; a held credentials handle is kept, a new one is fresh, and the context handle is untouched |
| NegotiateServer.Server.AcceptContext | lib/win32/sspi/negotiate/server.rb:70-107 | follows `AcceptStep`; an existing context handle is reused, a missing one is created fresh |
| NegotiateServer.Server.CompleteAuthentication | lib/win32/sspi/negotiate/server.rb:109-123 | follows `CompleteStep` and touches no handle |
| NegotiateServer.Server.QueryAttributes | lib/win32/sspi/negotiate/server.rb:125-140 | follows `QueryStep` and touches no handle |
| NegotiateServer.Server.FreeHandles | lib/win32/sspi/negotiate/server.rb:142-163 | follows `FreeStep`; both handle fields are nil afterwards |
| NtlmServer.Type2Message | lib/win32/sspi/server.rb:37-43 | `type_2_message(false)`: the stored type 2 message (stated by `InitialTokenOutcome`) |
| NtlmServer.InitialTokenStep | lib/win32/sspi/server.rb:48-105 | a whole `initial_token` call; its properties are the lemmas below |
| NtlmServer.NamesFrom | lib/win32/sspi/server.rb:141-145 | the names are the first two split fields of a name with a backslash and are untouched otherwise (stated by `NamesOnlyFromBackslash`) |
| NtlmServer.CompleteAuthenticationStep | lib/win32/sspi/server.rb:110-152 | a whole `complete_authentication` call; its properties are the lemmas below |
| NtlmServer.InitialTokenRecordsAndAcquires | lib/win32/sspi/server.rb:48-94 | the type 1 message is stored whatever happens; the first call is always an inbound acquisition, and when it fails it is the only call; otherwise the accept follows, without an existing context, and CompleteAuthToken on the accept's output exactly after a COMPLETE status |
| NtlmServer.InitialTokenOutcome | lib/win32/sspi/server.rb:48-105 | success exactly when acquisition gives OK and the accept gives OK or CONTINUE_NEEDED, or a COMPLETE status followed by a successful CompleteAuthToken; the token returned is the accept's output, and `type_2_message` then answers it; a failure leaves the type 2 message as it was |
| NtlmServer.InitialTokenErrors | lib/win32/sspi/server.rb:64-99 | which error is raised and when: AcquireCredentialsHandle on a failed acquisition, AcceptSecurityContext on a status outside the four, CompleteAuthToken on a failed completion, nothing else |
| NtlmServer.CompleteAuthenticationStrict | lib/win32/sspi/server.rb:110-152 | success, with OK, exactly when accept, query and free all give OK; any other accept status, CONTINUE_NEEDED included, raises before any other call; after a successful query the calls are accept, query, free, and a failed free raises FreeCredentialsHandle |
| NtlmServer.FailedQueryAborts | lib/win32/sspi/server.rb:135-139 | a failed query raises before the names change or the credentials are freed |
| NtlmServer.NamesOnlyFromBackslash | lib/win32/sspi/server.rb:141-145 | the names change only after a successful query of a name with a backslash, to its first two fields; otherwise they stay as they were (nil for a fresh server) |
| NtlmServer.ContextNeverReleased | lib/win32/sspi/server.rb:147-151 | neither method ever deletes the security context |
| NtlmServer.InitialTokenCounts | lib/win32/sspi/server.rb:48-105 | one `initial_token` acquires credentials once and frees nothing |
| NtlmServer.RepeatedInitialTokenLeaks | lib/win32/sspi/server.rb:52-66 | two successive `initial_token` calls acquire twice and free nothing |
| NtlmServer.Server.constructor | lib/win32/sspi/server.rb:20-32 | the package defaults to "NTLM"; messages and names start nil |
| NtlmServer.Server.InitialToken | lib/win32/sspi/server.rb:48-105 | the method returns or raises what `InitialTokenStep` says, leaves that state, and makes exactly those native calls |
| NtlmServer.Server.CompleteAuthentication | lib/win32/sspi/server.rb:110-152 | the same for `CompleteAuthenticationStep` |
| SspiClient.Token | lib/win32/sspi/client.rb:46-52 | `token(false)`: the stored token (stated by `TokenFromBuffer`) |
| SspiClient.Prepared | lib/win32/sspi/client.rb:59-77 | the client's names after the identity is built, each present one NUL-terminated (stated by `IdentityAndNames`) |
| SspiClient.Identity | lib/win32/sspi/client.rb:59-77 | the identity passed to AcquireCredentialsHandle, if any (stated by `IdentityAndNames`) |
| SspiClient.BufferedToken | lib/win32/sspi/client.rb:102-133 | the first `cbBuffer` bytes of a TOKENBUFSIZE buffer the provider wrote (stated by `TokenFromBuffer` and `Provider.InitializeInto`) |
| SspiClient.ExchangeStep | lib/win32/sspi/client.rb:95-143 | the `begin`/`ensure` part of `get_initial_token` (stated through the lemmas below) |
| SspiClient.InitialTokenStep | lib/win32/sspi/client.rb:54-146 | a whole `get_initial_token` call; its properties are the lemmas below |
| SspiClient.WithNul | lib/win32/sspi/client.rb:66 | `concat(0.chr)` appends one NUL to a present name and leaves nil alone |
| SspiClient.IdentityAndNames | lib/win32/sspi/client.rb:59-77 | an identity is passed exactly for a non-local call with a user or domain, holding each only if set, NUL-terminated; the NUL stays on the client's own names; a local call leaves the names alone |
| SspiClient.AcquireFailureStops | lib/win32/sspi/client.rb:79-93 | a failed acquisition raises AcquireCredentialsHandle as the only call, with token and context unchanged |
| SspiClient.CredentialsAlwaysFreed | lib/win32/sspi/client.rb:95-143 | once acquired, the credentials are freed on every way out, as the last call: one acquisition and one release |
| SspiClient.FreeErrorMasks | lib/win32/sspi/client.rb:127-143 | a failed free is the error raised even when initialization or deletion failed before it; otherwise a failed initialization raises InitializeSecurityContext, and a failed deletion after an accepted initialization raises DeleteSecurityContext |
| SspiClient.InitializeOutcome | lib/win32/sspi/client.rb:112-138 | success exactly when acquisition, initialization (OK or CONTINUE_NEEDED), deletion and free all succeed; a refused initialization leaves token and context as they were and deletes nothing |
| SspiClient.TokenFromBuffer | lib/win32/sspi/client.rb:129-145 | an accepted initialization sets the context and deletes it; the token is the first `cbBuffer` bytes of the provider's output, at most TOKENBUFSIZE, all of it when it fits; it is what the call returns and what `token` answers |
| SspiClient.Slice | lib/win32/sspi/client.rb:28-33 | `s[start, len]` is nil exactly when start is past the end, otherwise the bytes from start, up to len of them |
| SspiClient.From | lib/win32/sspi/client.rb:34 | `s[start..-1]` is nil exactly when start is past the end, otherwise the rest of the string |
| SspiClient.Lead | lib/win32/sspi/client.rb:27 | the left-strip index: every byte before it is whitespace or NUL, the byte at it is not |
| SspiClient.Trail | lib/win32/sspi/client.rb:27 | the right-strip index: every byte after it is whitespace or NUL, the byte before it is not |
| SspiClient.Strip | lib/win32/sspi/client.rb:27 | `String#strip` on bytes: left strip, then right strip (stated by `StripInfix`) |
| SspiClient.ParseType1 | lib/win32/sspi/client.rb:26-35 | `MessageType1.new(token)`: the fields it keeps (stated by the lemmas below) |
| SspiClient.StripInfix | lib/win32/sspi/client.rb:27 | `strip` keeps a contiguous part of its input, drops only whitespace and NULs around it, and what it keeps neither starts nor ends with one |
| SspiClient.SignatureIsStrippedHeader | lib/win32/sspi/client.rb:27 | the signature is the first eight bytes (fewer for a shorter token) with surrounding whitespace and NULs removed, and no more: it neither starts nor ends with such a byte |
| SspiClient.FieldsTileToken | lib/win32/sspi/client.rb:26-35 | for a token of at least 52 bytes every field is present and the fields, in order, put the token back together |
| SspiClient.ShortToken | lib/win32/sspi/client.rb:33-34 | the workstation is nil exactly below 40 bytes, the domain exactly below 52; a 40-byte token gives an empty workstation and a nil domain |
| SspiClient.NtlmSignatureStripped | lib/win32/sspi/client.rb:27 | for a token starting with "NTLMSSP\0" the signature reads "NTLMSSP" |
| SspiClient.Client.constructor | lib/win32/sspi/client.rb:38-44 | a missing user or domain comes from the environment, and stays nil when the variable is unset; the package defaults to "NTLM", and token and context start nil |
| SspiClient.Client.PrepareIdentity | lib/win32/sspi/client.rb:59-77 | returns the identity `Identity` describes and leaves the names `Prepared` describes |
| SspiClient.Client.GetInitialToken | lib/win32/sspi/client.rb:54-146 | the method returns or raises what `InitialTokenStep` says, leaves that state, and makes exactly those native calls |
| SspiClient.Client.Exchange | lib/win32/sspi/client.rb:95-145 | the `begin`/`ensure` part, as `ExchangeStep` says, filling a fresh TOKENBUFSIZE array through the provider |

## Left out

- The native SSPI functions are not modelled. A scripted provider answers each call from a list of replies (status, output token, principal name). Any finite run needs only finitely many replies, so such a list can describe every provider behaviour over a run. Calls past the end of the list fail with SEC_E_INTERNAL_ERROR.
- FFI structures, pointer reads and `FFI.errno` are not modelled. An error is the pair (failing operation, status of the failing call). The message text built by `SecurityStatusError` and the difference between `SecurityStatusError` and `SystemCallError` are not modelled.
- The misspelt `SytemCallError` at lib/win32/sspi/server.rb:138, and the accept status it is given, are modelled as raising QueryContextAttributes with the query's own status.
- `to_ruby_s` comes from api/server.rb, which is not part of this model. Each string-reading site is taken to get the following:
  - the negotiate server's output token (lib/win32/sspi/negotiate/server.rb:101) is the provider's output, and nil when there is none;
  - both principal names (lib/win32/sspi/negotiate/server.rb:134, lib/win32/sspi/server.rb:141) are the reply's name, always a string, never nil;
  - the two `read_string_length` reads (lib/win32/sspi/server.rb:102, lib/win32/sspi/client.rb:133) are the provider's output, and "" when there is none.
- The NTLM server reads the type 2 message after CompleteAuthToken from the same output buffer. The model takes it to be the accept's output, so a provider that rewrites the buffer in CompleteAuthToken is not modelled.
- TOKENBUFSIZE comes from lib/win32/sspi/windows/constants.rb, which is not part of this model. It is taken as 12288, and no proof depends on the value.
- The UTF-16LE encoding, the byte lengths and the Unicode flag of the client's identity struct are not modelled. The identity holds the NUL-terminated strings.
- The environment lookups `ENV['USERNAME']` and `ENV['USERDOMAIN']` become constructor parameters, None for an unset variable.
- SspiClient.Client.constructor: an `auth_type` passed explicitly as nil stays nil in Ruby (lib/win32/sspi/client.rb:38, 41); the model's package name is a string, so an absent argument and an explicit nil both give "NTLM".
- NtlmServer.Server.constructor: the same holds for an explicit nil `auth_type` (lib/win32/sspi/server.rb:20-21).
- The caller's string objects are not modelled. `concat` mutates the strings the caller passed in; the model only records that the client's own names gain the NUL.
- The `encode` parameter of `get_initial_token` is not used by the source, and the model ignores it too.
- The Base64 branches of `type_2_message(true)` and `token(true)`, and `Server.security_packages`, are not modelled. They are a library call and a walk over native pointer arrays.
- A nil type 1 message for the NTLM server is not modelled: its input is always a byte string.
- Tokens are taken to be binary (ASCII-8BIT) strings, as `read_string_length` and `Base64.decode64` return them, so `MessageType1` counts bytes. Ruby's `String#[]` counts characters, so a token in a multi-byte encoding would be sliced differently.
- `String#strip` follows current Ruby: it removes NUL, tab, line feed, vertical tab, form feed, carriage return and space at both ends.
- The example HTTP client and server, and the `if $0 == __FILE__` script blocks, are not modelled.
