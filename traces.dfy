/** Properties of whole call sequences on one test server, and of the
    particular call orders the server's behaviour depends on. */
module Traces {
  import opened Wrappers
  import opened Net
  import X509
  import Tls
  import Grpc
  import opened Lifecycle

  /** One public call, with the outcomes of the foreign calls it makes. */
  datatype Call =
    | StartCall(listen: ListenResult, serverId: nat)
    | StartTLSCall(env: Tls.SetupEnv, listen: ListenResult, serverId: nat)
    | CloseCall
    | CertificateCall
    | ClientConnCall(dial: Grpc.DialResult)

  function Apply(s: ServerState, c: Call): (t: ServerState) {
    match c
    case StartCall(listen, id) => Start(s, listen, id).0
    case StartTLSCall(env, listen, id) => StartTLS(s, env, listen, id).0
    case CloseCall => Close(s)
    case CertificateCall => s
    case ClientConnCall(dial) => ClientConn(s, dial).0
  }

  /** The state after making the calls in order. */
  function Run(s: ServerState, calls: seq<Call>): (t: ServerState)
    decreases |calls|
  {
    if calls == [] then s else Run(Apply(s, calls[0]), calls[1..])
  }

  predicate NoClose(calls: seq<Call>) {
    forall i :: 0 <= i < |calls| ==> !calls[i].CloseCall?
  }

  /** Every state reachable from a new server satisfies the invariant. */
  lemma {:induction false} RunPreservesInv(s: ServerState, calls: seq<Call>)
    requires Inv(s)
    ensures Inv(Run(s, calls))
    decreases |calls|
  {
    if calls != [] {
      RunPreservesInv(Apply(s, calls[0]), calls[1..]);
    }
  }

  /** Once started, a server stays started, and its address, mode, TLS
      configuration, certificate and options never change again: neither
      Start, StartTLS nor Close undoes a start. */
  lemma {:induction false} StartedFreezesConfiguration(s: ServerState, calls: seq<Call>)
    requires s.started
    ensures var t := Run(s, calls);
      && t.started
      && t.url == s.url && t.useTLS == s.useTLS && t.tls == s.tls && t.cert == s.cert
      && t.serverOptions == s.serverOptions
    decreases |calls|
  {
    if calls != [] {
      StartedFreezesConfiguration(Apply(s, calls[0]), calls[1..]);
    }
  }

  /** Once closed, a server stays closed. */
  lemma {:induction false} ClosedStaysClosed(s: ServerState, calls: seq<Call>)
    requires s.closed
    ensures Run(s, calls).closed
    decreases |calls|
  {
    if calls != [] {
      ClosedStaysClosed(Apply(s, calls[0]), calls[1..]);
    }
  }

  /** A server that was started and then closed never gets a gRPC server or a
      listener back, whatever is called afterwards. */
  lemma {:induction false} ClosedServerStaysDown(s: ServerState, calls: seq<Call>)
    requires s.closed && s.started && s.server.None? && s.listener.None?
    ensures var t := Run(s, calls); t.server.None? && t.listener.None?
    decreases |calls|
  {
    if calls != [] {
      ClosedServerStaysDown(Apply(s, calls[0]), calls[1..]);
    }
  }

  /** The cached client connection survives every call but Close, and
      ClientConn keeps handing out that same connection. */
  lemma {:induction false} CachedClientPersists(s: ServerState, calls: seq<Call>, dial: Grpc.DialResult)
    requires s.client.Some? && NoClose(calls)
    ensures Run(s, calls).client == s.client
    ensures ClientConn(Run(s, calls), dial).1 == Ok(s.client.value)
    decreases |calls|
  {
    if calls != [] {
      CachedClientPersists(Apply(s, calls[0]), calls[1..], dial);
    }
  }

  /** Close is idempotent. */
  lemma CloseIdempotent(s: ServerState)
    ensures Close(Close(s)) == Close(s)
  {
  }

  /** Two ClientConn calls return the identical connection, and the second
      changes nothing and does not dial. */
  lemma ClientConnReturnsCachedConnection(s: ServerState, first: Grpc.DialResult, second: Grpc.DialResult)
    requires ClientConn(s, first).1.Ok?
    ensures var (t, c) := ClientConn(s, first); ClientConn(t, second) == (t, c)
  {
  }

  /** Close never resets the started flag, so Start and StartTLS afterwards
      are no-ops. */
  lemma StartAfterCloseIsNoop(s: ServerState, env: Tls.SetupEnv, listen: ListenResult, serverId: nat)
    requires s.started
    ensures Start(Close(s), listen, serverId) == (Close(s), Pass)
    ensures StartTLS(Close(s), env, listen, serverId) == (Close(s), Pass)
  {
  }

  /** Start consults only the started flag: a server closed before it was
      ever started does start, and serves while marked closed. */
  lemma CloseBeforeStartStillStarts(listen: ListenResult, serverId: nat)
    requires listen.Listened?
    ensures var (t, o) := Start(Close(NewUnstartedServer()), listen, serverId);
      o == Pass && t.started && t.closed && t.server.Some? && t.listener == Some(listen.listener)
  {
  }

  /** After Close, ClientConn does not fail: the cache is empty and the
      server still counts as started, so it dials the old address again and
      caches the new connection. */
  lemma ClientConnAfterCloseRedials(s: ServerState, dial: Grpc.DialResult)
    requires Inv(s) && s.started && !s.closed && dial.Dialed?
    ensures var (t, c) := ClientConn(Close(s), dial);
      && c.Ok? && c.value.id == dial.id && c.value.target == s.url
      && t.closed && t.client == Some(c.value)
  {
  }

  /** A call that starts an unstarted server: a Start whose listen succeeds,
      or a StartTLS whose certificate setup and listen both succeed. */
  predicate StartsServer(c: Call) {
    || (c.StartCall? && c.listen.Listened?)
    || (c.StartTLSCall? && Tls.SetupSucceeds(c.env) && c.listen.Listened?)
  }

  /** Until some start succeeds, the server stays unstarted, caches no client,
      and every ClientConn fails with "not started". */
  lemma {:induction false} ClientConnFailsUntilStarted(s: ServerState, calls: seq<Call>, dial: Grpc.DialResult)
    requires !s.started && s.client.None?
    requires forall i :: 0 <= i < |calls| ==> !StartsServer(calls[i])
    ensures var t := Run(s, calls);
      !t.started && t.client.None? && ClientConn(t, dial) == (t, Err(NotStarted))
    decreases |calls|
  {
    if calls != [] {
      ClientConnFailsUntilStarted(Apply(s, calls[0]), calls[1..], dial);
    }
  }

  /** A server that never runs StartTLS never gets a certificate or a TLS
      configuration. */
  lemma {:induction false} NoTlsNoCert(s: ServerState, calls: seq<Call>)
    requires s.cert.None? && s.tls.None?
    requires forall i :: 0 <= i < |calls| ==> !calls[i].StartTLSCall?
    ensures Run(s, calls).cert.None? && Run(s, calls).tls.None?
    decreases |calls|
  {
    if calls != [] {
      NoTlsNoCert(Apply(s, calls[0]), calls[1..]);
    }
  }

  /** A StartTLS whose certificate setup succeeds but whose listen fails, then
      a Start: the result is a started plain-text server that still has a
      certificate and a TLS configuration, although Certificate is documented
      to return nil for servers not using TLS. */
  lemma PlainServerAfterFailedStartTLSKeepsCert(env: Tls.SetupEnv, listen: ListenResult, first: nat, second: nat)
    requires Tls.SetupSucceeds(env) && listen.Listened?
    ensures var s := Run(NewUnstartedServer(), [StartTLSCall(env, ListenError, first), StartCall(listen, second)]);
      && s.started && !s.useTLS
      && Certificate(s) == Some(Tls.IssuedCertificate(env))
      && s.tls == Some(Tls.Config([env.keyPair.value], Tls.VersionTLS13))
      && s.server == Some(Grpc.Server(second, []))
  {
    var calls := [StartTLSCall(env, ListenError, first), StartCall(listen, second)];
    var afterTls := Apply(NewUnstartedServer(), calls[0]);
    assert calls[1..] == [StartCall(listen, second)];
    assert Run(afterTls, calls[1..]) == Apply(afterTls, calls[1]);
  }

  /** A StartTLS that fails after the certificate was parsed, while marshalling
      the key or loading the key pair, leaves the certificate recorded on a
      server that has neither started nor got a TLS configuration. */
  lemma LateSetupFailureKeepsCert(s: ServerState, env: Tls.SetupEnv, listen: ListenResult, serverId: nat)
    requires !s.started && Tls.CertificateParsed(env) && !Tls.SetupSucceeds(env)
    ensures var (t, o) := StartTLS(s, env, listen, serverId);
      && o.Fail? && (o.error == TlsSetupFailed(Tls.MarshalKey) || o.error == TlsSetupFailed(Tls.LoadKeyPair))
      && !t.started && t.cert == Some(Tls.IssuedCertificate(env)) && t.tls == s.tls
  {
  }

  /** NewServer then ClientConn: an insecure connection to the listener's
      address; the server has no certificate and no TLS configuration. */
  lemma PlainServerClient(listen: ListenResult, serverId: nat, dial: Grpc.DialResult)
    requires listen.Listened? && dial.Dialed?
    ensures var s := Start(NewUnstartedServer(), listen, serverId).0;
      && s.url == Addr(listen.listener.port) && s.url != ""
      && Certificate(s).None? && s.tls.None?
      && ClientConn(s, dial).1 == Ok(Grpc.ClientConn(dial.id, s.url, Grpc.Insecure))
  {
  }

  /** NewTLSServer then ClientConn: the connection trusts exactly the issued
      certificate, expects the name "localhost", and the server's options end
      with its TLS credentials. */
  lemma TlsServerClient(env: Tls.SetupEnv, listen: ListenResult, serverId: nat, dial: Grpc.DialResult)
    requires Tls.SetupSucceeds(env) && listen.Listened? && dial.Dialed?
    ensures var s := StartTLS(NewUnstartedServer(), env, listen, serverId).0;
      && Certificate(s) == Some(Tls.IssuedCertificate(env))
      && s.tls == Some(Tls.Config([env.keyPair.value], Tls.VersionTLS13))
      && s.server == Some(Grpc.Server(serverId, [Grpc.Creds(s.tls.value)]))
      && ClientConn(s, dial).1
         == Ok(Grpc.ClientConn(dial.id, s.url, Grpc.TlsClient([Tls.IssuedCertificate(env)], X509.Localhost)))
  {
    var s := StartTLS(NewUnstartedServer(), env, listen, serverId).0;
    assert [] + [Grpc.Creds(s.tls.value)] == [Grpc.Creds(s.tls.value)];
  }

  /** A failed certificate setup fails StartTLS before anything is bound,
      so the server is still unstarted. */
  lemma TlsSetupFailureBindsNothing(s: ServerState, env: Tls.SetupEnv, listen: ListenResult, serverId: nat)
    requires Inv(s) && !s.started && !Tls.SetupSucceeds(env)
    ensures var (t, o) := StartTLS(s, env, listen, serverId);
      o.Fail? && !t.started && t.listener.None? && t.server.None? && t.url == ""
  {
  }
}
