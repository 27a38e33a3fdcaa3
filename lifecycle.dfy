/** The lifecycle of a test server as a state machine over plain values.
    Each public operation of the server runs under the server's mutex for its
    whole body, so each is one atomic step here: a function from the state
    before the call (and the outcomes of the foreign calls it makes) to the
    state after it and what it returns. A panic is a failed outcome; the state
    is left as it was at the moment of the panic. */
module Lifecycle {
  import opened Wrappers
  import opened Net
  import X509
  import Tls
  import Grpc

  /** Why a call panicked. */
  datatype Failure =
    | ListenFailed
    | TlsSetupFailed(step: Tls.SetupStep)
    | NotStarted
    | NilCertificate
    | DialFailed

  /** The fields of a test server. `serverOptions` is Config.ServerOptions;
      the registration callback is not part of the model. */
  datatype ServerState = ServerState(
    url: string,
    tls: Option<Tls.Config>,
    listener: Option<Listener>,
    serverOptions: seq<Grpc.ServerOption>,
    server: Option<Grpc.Server>,
    started: bool,
    closed: bool,
    client: Option<Grpc.ClientConn>,
    useTLS: bool,
    cert: Option<X509.Certificate>)

  /** The options the gRPC server is constructed with: the caller's, plus the
      TLS transport credentials when the server runs in TLS mode and has a
      TLS configuration. */
  function StartOptions(s: ServerState): (opts: seq<Grpc.ServerOption>)
    ensures |opts| == |s.serverOptions| + (if s.useTLS && s.tls.Some? then 1 else 0)
    ensures opts[..|s.serverOptions|] == s.serverOptions
    ensures s.useTLS && s.tls.Some? ==> opts[|opts| - 1] == Grpc.Creds(s.tls.value)
  {
    if s.useTLS && s.tls.Some? then s.serverOptions + [Grpc.Creds(s.tls.value)]
    else s.serverOptions
  }

  /** The credentials a client dials with: insecure in plain-text mode; in TLS
      mode, a pool holding exactly the server's certificate and the expected
      name "localhost". Adding a nil certificate to a pool panics. */
  function DialCredentials(useTLS: bool, cert: Option<X509.Certificate>): (r: Result<Grpc.TransportCredentials, Failure>)
    ensures r.Err? <==> useTLS && cert.None?
    ensures r.Err? ==> r.error == NilCertificate
    ensures r.Ok? ==> (r.value.TlsClient? <==> useTLS)
    ensures r.Ok? && useTLS ==> r.value.rootCAs == [cert.value] && r.value.serverName == X509.Localhost
  {
    if !useTLS then Ok(Grpc.Insecure)
    else if cert.None? then Err(NilCertificate)
    else Ok(Grpc.TlsClient([cert.value], X509.Localhost))
  }

  /** The invariant every reachable state keeps. */
  predicate Inv(s: ServerState) {
    // a listener and a gRPC server exist together, and only once started
    && (s.listener.Some? <==> s.server.Some?)
    && (s.listener.Some? ==> s.started && s.url == Addr(s.listener.value.port))
    // the address is empty until the first successful start
    && (s.started <==> s.url != "")
    && (s.server.Some? ==> s.server.value.options == StartOptions(s))
    // a TLS server has its certificate and configuration
    && (s.started && s.useTLS ==> s.cert.Some? && s.tls.Some?)
    && (s.tls.Some? ==> s.cert.Some? && s.tls.value.minVersion == Tls.VersionTLS13
                        && |s.tls.value.certificates| == 1)
    && (s.cert.Some? ==> X509.SelfSignedLocalhost(s.cert.value))
    // a cached client dials the server's address with the server's mode
    && (s.client.Some? ==> s.started && s.client.value.target == s.url
                           && DialCredentials(s.useTLS, s.cert) == Ok(s.client.value.creds))
  }

  /** NewUnstartedServer: nothing bound, nothing issued, nothing cached. */
  function NewUnstartedServer(): (s: ServerState)
    ensures !s.started && !s.closed && !s.useTLS
    ensures s.client.None? && s.cert.None? && s.tls.None? && s.url == ""
    ensures s.listener.None? && s.server.None? && s.serverOptions == []
    ensures Inv(s)
  {
    ServerState("", None, None, [], None, false, false, None, false, None)
  }

  /** The internal start step: listen on a loopback port, record the address,
      construct the gRPC server with StartOptions, and mark the server
      started. A failed listen changes nothing. */
  function StartLocked(s: ServerState, listen: ListenResult, serverId: nat): (r: (ServerState, Outcome<Failure>))
    ensures s.started ==> r == (s, Pass)
    ensures !s.started ==> (r.1 == Pass <==> listen.Listened?)
    ensures !s.started && listen.ListenError? ==> r == (s, Fail(ListenFailed))
    ensures !s.started && listen.Listened? ==>
      && r.0.started
      && r.0.listener == Some(listen.listener)
      && r.0.url == Addr(listen.listener.port)
      && r.0.server == Some(Grpc.Server(serverId, StartOptions(s)))
    ensures r.0.(listener := s.listener, url := s.url, server := s.server, started := s.started) == s
    ensures Inv(s) && (s.useTLS ==> s.tls.Some?) ==> Inv(r.0)
  {
    if s.started then (s, Pass)
    else match listen
      case ListenError => (s, Fail(ListenFailed))
      case Listened(l) =>
        (s.(listener := Some(l), url := Addr(l.port),
            server := Some(Grpc.Server(serverId, StartOptions(s))), started := true), Pass)
  }

  /** Start: a no-op on a started server; otherwise switch to plain text and run
      the start step. The closed flag is not consulted. */
  function Start(s: ServerState, listen: ListenResult, serverId: nat): (r: (ServerState, Outcome<Failure>))
    ensures s.started ==> r == (s, Pass)
    ensures !s.started ==> (r.1 == Pass <==> listen.Listened?) && !r.0.useTLS
    ensures !s.started && listen.ListenError? ==> r == (s.(useTLS := false), Fail(ListenFailed))
    ensures !s.started && listen.Listened? ==>
      && r.0.started
      && r.0.listener == Some(listen.listener)
      && r.0.url == Addr(listen.listener.port)
      && r.0.server == Some(Grpc.Server(serverId, s.serverOptions))
    ensures r.0.cert == s.cert && r.0.tls == s.tls && r.0.client == s.client && r.0.closed == s.closed
    ensures Inv(s) ==> Inv(r.0)
  {
    if s.started then (s, Pass)
    else StartLocked(s.(useTLS := false), listen, serverId)
  }

  /** The setupTLS step: issue the self-signed certificate and install a TLS
      configuration requiring TLS 1.3. The certificate is recorded as soon as
      it is parsed, so the two last failures leave it in place. */
  function SetupTLS(s: ServerState, env: Tls.SetupEnv): (r: (ServerState, Outcome<Failure>))
    ensures r.1 == Pass <==> Tls.SetupSucceeds(env)
    ensures r.1.Fail? ==> r.1.error.TlsSetupFailed? && Tls.FirstFailure(env) == Some(r.1.error.step)
    ensures Tls.CertificateParsed(env) ==> r.0.cert == Some(Tls.IssuedCertificate(env))
    ensures r.1 == Pass ==>
      && r.0.cert == Some(Tls.IssuedCertificate(env))
      && r.0.tls == Some(Tls.Config([env.keyPair.value], Tls.VersionTLS13))
    ensures r.1.Fail? ==> r.1.error.TlsSetupFailed? && r.0.tls == s.tls
    ensures !Tls.CertificateParsed(env) ==> r.0 == s
    ensures r.0.(cert := s.cert, tls := s.tls) == s
    ensures Inv(s) && !s.started ==> Inv(r.0)
  {
    if env.privateKey.None? then (s, Fail(TlsSetupFailed(Tls.GenerateKey)))
    else if env.serial.None? then (s, Fail(TlsSetupFailed(Tls.SerialNumber)))
    else if env.der.None? then (s, Fail(TlsSetupFailed(Tls.CreateCertificate)))
    else if !env.parsed then (s, Fail(TlsSetupFailed(Tls.ParseCertificate)))
    else
      var withCert := s.(cert := Some(Tls.IssuedCertificate(env)));
      if !env.marshalled then (withCert, Fail(TlsSetupFailed(Tls.MarshalKey)))
      else if env.keyPair.None? then (withCert, Fail(TlsSetupFailed(Tls.LoadKeyPair)))
      else (withCert.(tls := Some(Tls.Config([env.keyPair.value], Tls.VersionTLS13))), Pass)
  }

  /** StartTLS: a no-op on a started server; otherwise switch to TLS, issue
      the certificate, and only then run the start step. */
  function StartTLS(s: ServerState, env: Tls.SetupEnv, listen: ListenResult, serverId: nat): (r: (ServerState, Outcome<Failure>))
    ensures s.started ==> r == (s, Pass)
    ensures !s.started ==> r.0.useTLS && (r.1 == Pass <==> Tls.SetupSucceeds(env) && listen.Listened?)
    ensures !s.started && r.1 == Pass ==>
      && r.0.started
      && r.0.listener == Some(listen.listener)
      && r.0.url == Addr(listen.listener.port)
      && r.0.cert == Some(Tls.IssuedCertificate(env))
      && r.0.tls == Some(Tls.Config([env.keyPair.value], Tls.VersionTLS13))
      && r.0.server == Some(Grpc.Server(serverId, s.serverOptions + [Grpc.Creds(r.0.tls.value)]))
    ensures !s.started && !Tls.SetupSucceeds(env) ==>
      && r.1.Fail? && r.1.error.TlsSetupFailed?
      && !r.0.started && r.0.listener == s.listener && r.0.server == s.server && r.0.url == s.url
      && r.0.tls == s.tls
      && Tls.FirstFailure(env) == Some(r.1.error.step)
    ensures !s.started && Tls.CertificateParsed(env) ==> r.0.cert == Some(Tls.IssuedCertificate(env))
    ensures !s.started && !Tls.CertificateParsed(env) ==> r.0.cert == s.cert
    ensures !s.started && Tls.SetupSucceeds(env) && listen.ListenError? ==>
      && r.1 == Fail(ListenFailed)
      && !r.0.started && r.0.listener == s.listener && r.0.server == s.server && r.0.url == s.url
      && r.0.tls == Some(Tls.Config([env.keyPair.value], Tls.VersionTLS13))
    ensures r.0.client == s.client && r.0.closed == s.closed && r.0.serverOptions == s.serverOptions
    ensures Inv(s) ==> Inv(r.0)
  {
    if s.started then (s, Pass)
    else
      var setup := SetupTLS(s.(useTLS := true), env);
      if setup.1.Fail? then setup
      else StartLocked(setup.0, listen, serverId)
  }

  /** Close: a no-op on a closed server; otherwise mark it closed and drop the
      client connection, the gRPC server and the listener (each closed or
      stopped first). The started flag is left as it is. */
  function Close(s: ServerState): (r: ServerState)
    ensures r.closed
    ensures s.closed ==> r == s
    ensures !s.closed ==> r.client.None? && r.server.None? && r.listener.None?
    ensures r.(closed := s.closed, client := s.client, server := s.server, listener := s.listener) == s
    ensures Inv(s) ==> Inv(r)
  {
    if s.closed then s
    else s.(closed := true, client := None, server := None, listener := None)
  }

  /** ClientConn: the cached connection if there is one; otherwise, on a
      started server, dial its address with the credentials of its mode and
      cache the new connection. */
  function ClientConn(s: ServerState, dial: Grpc.DialResult): (r: (ServerState, Result<Grpc.ClientConn, Failure>))
    ensures s.client.Some? ==> r == (s, Ok(s.client.value))
    ensures s.client.None? && !s.started ==> r == (s, Err(NotStarted))
    ensures r.1.Err? ==> r.0 == s
    ensures s.client.None? && dial.DialError? ==> r.1.Err?
    ensures s.client.None? && s.started && DialCredentials(s.useTLS, s.cert).Ok? && dial.DialError? ==>
      r == (s, Err(DialFailed))
    ensures s.client.None? && s.started && s.useTLS && s.cert.None? ==> r == (s, Err(NilCertificate))
    ensures s.client.None? && r.1.Ok? ==>
      && r.0 == s.(client := Some(r.1.value))
      && r.1.value.target == s.url
      && (r.1.value.creds.TlsClient? <==> s.useTLS)
      && (s.useTLS ==> s.cert.Some? && r.1.value.creds == Grpc.TlsClient([s.cert.value], X509.Localhost))
    ensures s.client.None? && s.started && dial.Dialed? && Inv(s) ==>
      r.1.Ok? && r.1.value.id == dial.id
    ensures Inv(s) ==> r.1 != Err(NilCertificate)
    ensures Inv(s) ==> Inv(r.0)
  {
    if s.client.Some? then (s, Ok(s.client.value))
    else if !s.started then (s, Err(NotStarted))
    else match DialCredentials(s.useTLS, s.cert)
      case Err(e) => (s, Err(e))
      case Ok(creds) =>
        match dial
        case DialError => (s, Err(DialFailed))
        case Dialed(id) =>
          var conn := Grpc.ClientConn(id, s.url, creds);
          (s.(client := Some(conn)), Ok(conn))
  }

  /** Certificate: the issued certificate, if any. */
  function Certificate(s: ServerState): (c: Option<X509.Certificate>)
    ensures Inv(s) && c.Some? ==> X509.SelfSignedLocalhost(c.value)
    ensures Inv(s) && s.started && s.useTLS ==> c.Some?
  {
    s.cert
  }
}
