/** The test server object. Its methods update the fields in place, as the
    Go methods do under the server's mutex; each method is proved to produce
    exactly the state and result of the matching step of Lifecycle, whose
    properties are proved there. */
module GrpcTest {
  import opened Wrappers
  import opened Net
  import X509
  import Tls
  import Grpc
  import Lifecycle

  class Server {
    /** The listen address, "127.0.0.1:<port>", set when the server starts. */
    var url: string
    /** The TLS configuration, present once setupTLS has completed. */
    var tls: Option<Tls.Config>
    var listener: Option<Listener>
    /** Config.ServerOptions: callers may append to it before starting. */
    var serverOptions: seq<Grpc.ServerOption>
    var server: Option<Grpc.Server>
    var started: bool
    var closed: bool
    var client: Option<Grpc.ClientConn>
    var useTLS: bool
    var cert: Option<X509.Certificate>

    /** The fields as a Lifecycle state. */
    ghost function State(): Lifecycle.ServerState
      reads this
    {
      Lifecycle.ServerState(url, tls, listener, serverOptions, server, started, closed, client, useTLS, cert)
    }

    ghost predicate Valid()
      reads this
    {
      Lifecycle.Inv(State())
    }

    constructor NewUnstartedServer()
      ensures State() == Lifecycle.NewUnstartedServer()
      ensures Valid()
    {
      url := "";
      tls := None;
      listener := None;
      serverOptions := [];
      server := None;
      started := false;
      closed := false;
      client := None;
      useTLS := false;
      cert := None;
    }

    /** NewServer: a new server, started in plain text. */
    static method NewServer(listen: ListenResult, serverId: nat) returns (s: Server, outcome: Outcome<Lifecycle.Failure>)
      ensures fresh(s)
      ensures (s.State(), outcome) == Lifecycle.Start(Lifecycle.NewUnstartedServer(), listen, serverId)
      ensures s.Valid()
    {
      s := new Server.NewUnstartedServer();
      outcome := s.Start(listen, serverId);
    }

    /** NewTLSServer: a new server, started with a self-signed certificate. */
    static method NewTLSServer(env: Tls.SetupEnv, listen: ListenResult, serverId: nat)
      returns (s: Server, outcome: Outcome<Lifecycle.Failure>)
      ensures fresh(s)
      ensures (s.State(), outcome) == Lifecycle.StartTLS(Lifecycle.NewUnstartedServer(), env, listen, serverId)
      ensures s.Valid()
    {
      s := new Server.NewUnstartedServer();
      outcome := s.StartTLS(env, listen, serverId);
    }

    method Start(listen: ListenResult, serverId: nat) returns (outcome: Outcome<Lifecycle.Failure>)
      modifies this
      ensures (State(), outcome) == Lifecycle.Start(old(State()), listen, serverId)
      ensures old(Valid()) ==> Valid()
    {
      if started {
        return Pass;
      }
      useTLS := false;
      outcome := StartLocked(listen, serverId);
    }

    method StartTLS(env: Tls.SetupEnv, listen: ListenResult, serverId: nat) returns (outcome: Outcome<Lifecycle.Failure>)
      modifies this
      ensures (State(), outcome) == Lifecycle.StartTLS(old(State()), env, listen, serverId)
      ensures old(Valid()) ==> Valid()
    {
      if started {
        return Pass;
      }
      useTLS := true;
      outcome := SetupTLS(env);
      if outcome.Fail? {
        return;
      }
      outcome := StartLocked(listen, serverId);
    }

    /** The internal start step; the caller holds the mutex. */
    method StartLocked(listen: ListenResult, serverId: nat) returns (outcome: Outcome<Lifecycle.Failure>)
      modifies this
      ensures (State(), outcome) == Lifecycle.StartLocked(old(State()), listen, serverId)
    {
      if started {
        return Pass;
      }
      if listen.ListenError? {
        return Fail(Lifecycle.ListenFailed);
      }
      listener := Some(listen.listener);
      url := Addr(listen.listener.port);
      var opts := serverOptions;
      if useTLS && tls.Some? {
        opts := opts + [Grpc.Creds(tls.value)];
      }
      server := Some(Grpc.Server(serverId, opts));
      started := true;
      outcome := Pass;
    }

    /** The setupTLS step; the caller holds the mutex. */
    method SetupTLS(env: Tls.SetupEnv) returns (outcome: Outcome<Lifecycle.Failure>)
      modifies this
      ensures (State(), outcome) == Lifecycle.SetupTLS(old(State()), env)
    {
      if env.privateKey.None? {
        return Fail(Lifecycle.TlsSetupFailed(Tls.GenerateKey));
      }
      if env.serial.None? {
        return Fail(Lifecycle.TlsSetupFailed(Tls.SerialNumber));
      }
      var template := X509.Template(env.now, env.serial.value);
      if env.der.None? {
        return Fail(Lifecycle.TlsSetupFailed(Tls.CreateCertificate));
      }
      if !env.parsed {
        return Fail(Lifecycle.TlsSetupFailed(Tls.ParseCertificate));
      }
      cert := Some(X509.ParseSelfSigned(env.der.value, template));
      if !env.marshalled {
        return Fail(Lifecycle.TlsSetupFailed(Tls.MarshalKey));
      }
      if env.keyPair.None? {
        return Fail(Lifecycle.TlsSetupFailed(Tls.LoadKeyPair));
      }
      tls := Some(Tls.Config([env.keyPair.value], Tls.VersionTLS13));
      outcome := Pass;
    }

    method Close()
      modifies this
      ensures State() == Lifecycle.Close(old(State()))
      ensures old(Valid()) ==> Valid()
    {
      if closed {
        return;
      }
      closed := true;
      if client.Some? {
        client := None;
      }
      if server.Some? {
        server := None;
      }
      if listener.Some? {
        listener := None;
      }
    }

    /** Certificate reads the issued certificate and changes nothing. */
    method Certificate() returns (c: Option<X509.Certificate>)
      ensures c == cert
      ensures Valid() && c.Some? ==> X509.SelfSignedLocalhost(c.value)
      ensures Valid() && started && useTLS ==> c.Some?
    {
      c := cert;
    }

    method ClientConn(dial: Grpc.DialResult) returns (conn: Result<Grpc.ClientConn, Lifecycle.Failure>)
      modifies this
      ensures (State(), conn) == Lifecycle.ClientConn(old(State()), dial)
      ensures old(Valid()) ==> Valid()
    {
      if client.Some? {
        return Ok(client.value);
      }
      if !started {
        return Err(Lifecycle.NotStarted);
      }
      var creds: Grpc.TransportCredentials;
      if useTLS {
        if cert.None? {
          return Err(Lifecycle.NilCertificate);
        }
        creds := Grpc.TlsClient([cert.value], X509.Localhost);
      } else {
        creds := Grpc.Insecure;
      }
      if dial.DialError? {
        return Err(Lifecycle.DialFailed);
      }
      var c := Grpc.ClientConn(dial.id, url, creds);
      client := Some(c);
      conn := Ok(c);
    }
  }
}
