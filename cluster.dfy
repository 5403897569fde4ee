/** The server stub of connection/cluster/ClusterServerStub.ts: the per-call
    metadata, `open`, and the token-renewal guard `mayRenewToken` around one
    remote call, over the stub's one piece of mutable state, its token.

    A remote call is a function from the attempt number and the metadata the
    attempt carries to its outcome; the token exchange (`userToken`) and the
    connection probe are given as their outcomes. Channel and TLS set-up are
    not part of this model. */
module Cluster {
  import opened Wrappers

  datatype Credential = Credential(username: string, password: string, tlsRootCAPath: Option<string>)

  /** The message templates of client errors; only the one the guard tests for is named. */
  datatype Template = TokenCredentialInvalid | OtherTemplate(name: string)

  /** What a call can throw. */
  datatype Error =
    | ClientError(template: Template)              // a TypeDBClientError with its message template
    | WrappedServiceError(code: int, details: string) // `new TypeDBClientError(e)` of a service error `e`
    | ServiceError(code: int, details: string)     // a gRPC ServiceError: it has a `code`
    | OtherError(message: string)                  // anything else

  /** `isServiceError`: the thrown value has a `code` field. */
  predicate IsServiceError(e: Error)
  {
    e.ServiceError?
  }

  /** The guard's classification: a client error whose template is
      CLUSTER_TOKEN_CREDENTIAL_INVALID. */
  predicate IsTokenInvalid(e: Error)
  {
    e.ClientError? && e.template == TokenCredentialInvalid
  }

  /** gRPC metadata: (key, value) pairs in the order they were added. */
  type Metadata = seq<(string, string)>

  /** The value of the first pair with the given key. */
  function Lookup(m: Metadata, key: string): Option<string>
  {
    if |m| == 0 then None
    else if m[0].0 == key then Some(m[0].1)
    else Lookup(m[1..], key)
  }

  /** The metadata generator of `createCallCredentials`: the username always,
      then the password while no token is held and the token once one is. */
  function CallMetadata(credential: Credential, token: Option<string>): (m: Metadata)
    ensures Lookup(m, "username") == Some(credential.username)
    ensures Lookup(m, "password") == (if token.None? then Some(credential.password) else None)
    ensures Lookup(m, "token") == token
  {
    var rest := if token.None? then [("password", credential.password)] else [("token", token.value)];
    var m := [("username", credential.username)] + rest;
    assert m[1..] == rest && rest[1..] == [];
    assert "username"[0] != "password"[0] && "username"[0] != "token"[0] && "password"[0] != "token"[0];
    assert Lookup(m, "password") == Lookup(rest, "password");
    assert Lookup(m, "token") == Lookup(rest, "token");
    assert Lookup(rest[1..], "password") == None && Lookup(rest[1..], "token") == None;
    m
  }

  /** How the retried attempt's failure is surfaced: a service error is
      wrapped as a client error, anything else is re-thrown as it is. */
  function SurfaceRetryFailure(e: Error): (e': Error)
    ensures IsServiceError(e) ==> e' == WrappedServiceError(e.code, e.details)
    ensures !IsServiceError(e) ==> e' == e
    ensures !IsServiceError(e')
  {
    if IsServiceError(e) then WrappedServiceError(e.code, e.details) else e
  }

  class ClusterServerStub {
    const address: string
    const credential: Credential
    var token: Option<string>

    /** A new stub holds no token. */
    constructor (address: string, credential: Credential)
      ensures this.address == address && this.credential == credential
      ensures token == None
    {
      this.address := address;
      this.credential := credential;
      token := None;
    }

    /** `open`: probe the server, then fetch the first token. Errors with a
        `code` are swallowed, any other error propagates; the token changes only
        when both steps succeed. */
    method Open(probe: Result<(), Error>, fetch: Result<string, Error>) returns (r: Result<(), Error>)
      modifies this
      ensures probe.Success? && fetch.Success? ==> token == Some(fetch.value) && r == Success(())
      ensures probe.Failure? || fetch.Failure? ==> token == old(token)
      ensures probe.Failure? ==> r == (if IsServiceError(probe.error) then Success(()) else Failure(probe.error))
      ensures probe.Success? && fetch.Failure? ==>
              r == (if IsServiceError(fetch.error) then Success(()) else Failure(fetch.error))
    {
      var failure: Option<Error> := None;
      if probe.Failure? {
        failure := Some(probe.error);
      } else if fetch.Failure? {
        failure := Some(fetch.error);
      } else {
        token := Some(fetch.value);
      }
      if failure.Some? && !IsServiceError(failure.value) {
        return Failure(failure.value);
      }
      return Success(());
    }

    /** `mayRenewToken`: run the call; on a token-invalid failure clear the
        token, fetch a new one and run the call once more. `sent` is the
        metadata of each attempt, in order. */
    method MayRenewToken<R>(call: (nat, Metadata) -> Result<R, Error>, fetch: Result<string, Error>)
      returns (r: Result<R, Error>, sent: seq<Metadata>)
      modifies this
      ensures 1 <= |sent| <= 2
      ensures sent[0] == CallMetadata(credential, old(token))
      // the first attempt succeeds: its result, no retry, token unchanged
      ensures call(0, sent[0]).Success? ==> r == call(0, sent[0]) && |sent| == 1 && token == old(token)
      // any other failure: re-thrown unchanged, no retry, token unchanged
      ensures call(0, sent[0]).Failure? && !IsTokenInvalid(call(0, sent[0]).error) ==>
              r == call(0, sent[0]) && |sent| == 1 && token == old(token)
      // token invalid and the renewal fails: token absent, no retry, the fetch error propagates
      ensures call(0, sent[0]).Failure? && IsTokenInvalid(call(0, sent[0]).error) && fetch.Failure? ==>
              r == Failure(fetch.error) && |sent| == 1 && token == None
      // token invalid and renewed: exactly one retry, carrying the new token
      ensures call(0, sent[0]).Failure? && IsTokenInvalid(call(0, sent[0]).error) && fetch.Success? ==>
              && token == Some(fetch.value)
              && |sent| == 2
              && sent[1] == CallMetadata(credential, Some(fetch.value))
              && r == (if call(1, sent[1]).Success? then call(1, sent[1])
                       else Failure(SurfaceRetryFailure(call(1, sent[1]).error)))
      ensures |sent| == 2 <==> call(0, sent[0]).Failure? && IsTokenInvalid(call(0, sent[0]).error) && fetch.Success?
    {
      var first := CallMetadata(credential, token);
      sent := [first];
      var outcome := call(0, first);
      if outcome.Success? {
        return outcome, sent;
      }
      if !IsTokenInvalid(outcome.error) {
        return outcome, sent;
      }
      token := None;
      if fetch.Failure? {
        return Failure(fetch.error), sent;
      }
      token := Some(fetch.value);
      var second := CallMetadata(credential, token);
      sent := sent + [second];
      var retried := call(1, second);
      if retried.Success? {
        return retried, sent;
      }
      return Failure(SurfaceRetryFailure(retried.error)), sent;
    }
  }

  /** A call that fails once with an invalid token and succeeds with a fresh
      one completes from the caller's side after exactly one renewal; one
      that fails that way twice surfaces the second failure with no third
      attempt. */
  method RenewalScenario(credential: Credential, stale: string, renewed: string)
    requires stale != renewed
  {
    var stub := new ClusterServerStub("localhost:1729", credential);
    assert stub.token == None;
    var openResult := stub.Open(Success(()), Success(stale));
    assert stub.token == Some(stale);

    var call := (k: nat, m: Metadata) =>
      if Lookup(m, "token") == Some(renewed) then Success(42) else Failure(ClientError(TokenCredentialInvalid));
    var r, sent := stub.MayRenewToken(call, Success(renewed));
    assert sent[0] == CallMetadata(credential, Some(stale));
    assert Lookup(sent[0], "token") == Some(stale);
    assert |sent| == 2 && r == Success(42) && stub.token == Some(renewed);

    var alwaysInvalid := (k: nat, m: Metadata) => Failure(ClientError(TokenCredentialInvalid));
    var r2, sent2 := stub.MayRenewToken<int>(alwaysInvalid, Success(stale));
    assert |sent2| == 2 && r2 == Failure(ClientError(TokenCredentialInvalid));
  }
}
