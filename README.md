# grpctest server lifecycle, in Dafny

This project models the test server of the Go package `grpctest`: an
in-process gRPC server on an ephemeral loopback port, optionally with TLS
from a self-signed certificate, which tests start, query for a client
connection and close. The model covers the lifecycle of `Server`:
its flags (`started`, `closed`, `useTLS`), the cached client connection,
the issued certificate, the listen address, and the handles of the gRPC
server, the listener and the TLS configuration.

Layout:

- `wrappers.dfy` (`Wrappers`): `Option` for Go's nil pointers, and `Outcome`/`Result`
  for calls that panic.
- `net.dfy` (`Net`): the loopback listener and its address `127.0.0.1:<port>`.
- `x509.dfy` (`X509`): the certificate template that is filled in (24-hour
  window, `localhost`, 127.0.0.1 and ::1, server authentication) and the
  parsed, self-signed certificate.
- `tls.dfy` (`Tls`): the server TLS configuration (minimum version TLS 1.3, the
  value `0x0304`). It also holds `SetupEnv`, the outcomes of the foreign calls
  that certificate setup makes.
- `grpc.dfy` (`Grpc`): opaque gRPC values. These are server options, the server
  handle with the options it was built from, client credentials, and the client
  connection with its target and credentials.
- `lifecycle.dfy` (`Lifecycle`): the reference definitions. It has one pure step
  function per operation, over a `ServerState` value. It also holds the state
  invariant `Inv`, which every step preserves.
- `server.dfy` (`GrpcTest`): the class `Server`. Its fields are the Go struct's
  fields. Its methods update those fields in place, as the Go methods do. Each
  method is proved to produce exactly the state and result of its `Lifecycle`
  step.
- `traces.dfy` (`Traces`): properties of call sequences and call orders. They
  are proved by induction over the list of calls.

Each Go method holds the server's mutex for its whole body, so each call is
one atomic sequential step. The foreign operations are parameters that either
fail or yield an opaque handle: listening, building the gRPC server, dialling,
and the crypto steps that set up the certificate. A panic becomes a failed
`Outcome` or an `Err` result. The fields keep the values they had when the
panic happened.

The model follows the code as written, including these quirks:

- `Start` and `StartTLS` test only `started`. So a server closed before it
  was started still starts.
- `Close` never resets `started`. So `Start` after `Close` does nothing.
- After `Close`, `ClientConn` finds no cached connection but does find
  `started`. So it dials again.
- `setupTLS` records the certificate as soon as it is parsed. If marshalling the
  key or loading the key pair fails afterwards, `cert` is set but `TLS` is not.
- The `started` and `closed` flags are independent. A server can be started and
  closed at once, and a closed server can still start and dial.
- `ClientConn` takes no dial options. It always returns the cached connection
  when there is one.
- A `StartTLS` whose certificate setup succeeds and whose listen fails leaves
  `cert` and `TLS` set on a server that has not started.
- The doc comment of `Certificate` promises nil for servers not using TLS. The
  code breaks that promise for a caller that recovers the panic of the failed
  `StartTLS` just described: a `Start` afterwards gives a started plain-text
  server whose `Certificate()` and `TLS` are both set.

## Model

| member | source | states |
|---|---|---|
| `Net.Addr` | grpctest.go:163-168 | the URL a listen produces is `127.0.0.1:` followed by digits that parse back to the assigned port, so it is never empty |
| `Net.AddrInjective` | grpctest.go:163-168 | two listen addresses are equal exactly when their ports are equal |
| `X509.Template` | grpctest.go:205-227 | the template has NotBefore equal to the clock reading and NotAfter 24 hours later, the given serial, subject `grpctest`/`localhost`, DNS name `localhost`, IPs 127.0.0.1 and ::1, and server-auth usage |
| `Tls.IssuedCertificate` | grpctest.go:200-240 | the certificate setup records is a self-signed localhost certificate. Its NotBefore is the clock reading truncated to the second (so at most one second before it), and its window is exactly 24 hours |
| `Lifecycle.StartOptions` | grpctest.go:171-175 | the server options are the caller's options, in order, followed by exactly one TLS credential built from the TLS config when the server is in TLS mode and has a config |
| `Lifecycle.DialCredentials` | grpctest.go:320-334 | the dial credentials are TLS exactly in TLS mode, and then trust exactly the server's certificate and expect the name `localhost`. They are insecure otherwise. The only failure is TLS mode without a certificate, where the pool's `AddCert(nil)` panics |
| `Lifecycle.NewUnstartedServer` | grpctest.go:92-98 | the initial state is not started, not closed and not TLS; it has no client, cert or TLS config, an empty URL and no options; it satisfies the invariant |
| `Lifecycle.StartLocked` | grpctest.go:157-194 | on a started server, no change. Otherwise it succeeds exactly when listen succeeds, and a failed listen changes nothing. On success it records the listener, its address and a gRPC server built with the start options, and sets started. No other field changes |
| `Lifecycle.Start` | grpctest.go:120-132 | on a started server, every field is unchanged. Otherwise useTLS becomes false, and it succeeds exactly when listen succeeds. A failed listen fails the call and leaves started false. Success sets started, records the listener and its URL, and the server gets the caller's options only. cert, TLS, client and closed never change. The invariant is preserved |
| `Lifecycle.SetupTLS` | grpctest.go:198-263 | it succeeds exactly when every crypto step succeeds, and then cert is the issued certificate and TLS holds the key pair with minimum version TLS 1.3. On failure the error names the first step that failed, and TLS is unchanged. A failure before parsing changes nothing. A failure after parsing (marshalling the key, loading the key pair) leaves the issued cert recorded. Only cert and TLS change |
| `Lifecycle.StartTLS` | grpctest.go:138-153 | on a started server, no change. Otherwise useTLS becomes true, and it succeeds exactly when setup and listen both succeed. Success sets started, records the listener and its URL, and sets cert and a TLS 1.3 config, and the server options get the TLS credentials appended. A failed setup fails at its first failing step, before anything is bound and with TLS unchanged, with cert recorded exactly when the failure came after parsing. If setup succeeds and listen fails, the call fails with the server unstarted and unbound, and with cert and the TLS 1.3 config set |
| `Lifecycle.Close` | grpctest.go:267-290 | the result is closed. On a closed server nothing changes. Otherwise the client, server and listener are dropped. No other field changes, started included. The invariant is preserved |
| `Lifecycle.ClientConn` | grpctest.go:308-343 | a cached client is returned with nothing changed. With no cache, an unstarted server fails. Otherwise the call dials the URL, with TLS credentials (trusting cert, name `localhost`) exactly when useTLS holds, and caches the new connection. A failed dial fails the call. TLS mode without a cert fails as the `AddCert(nil)` panic, which the invariant rules out. A failure changes nothing |
| `Lifecycle.Certificate` | grpctest.go:295-299 | under the invariant, a returned certificate is a self-signed localhost certificate, and a started TLS server always has one |
| `GrpcTest.Server.NewUnstartedServer` | grpctest.go:92-98 | the new object's fields are the initial state, which satisfies the invariant |
| `GrpcTest.Server.NewServer` | grpctest.go:75-79 | a fresh server, in the state `Start` gives from the initial state |
| `GrpcTest.Server.NewTLSServer` | grpctest.go:110-114 | a fresh server, in the state `StartTLS` gives from the initial state |
| `GrpcTest.Server.Start` | grpctest.go:120-132 | the fields and outcome are exactly those of `Lifecycle.Start` on the old fields, and the invariant is kept |
| `GrpcTest.Server.StartTLS` | grpctest.go:138-153 | the fields and outcome are exactly those of `Lifecycle.StartTLS` on the old fields, and the invariant is kept |
| `GrpcTest.Server.StartLocked` | grpctest.go:157-194 | the fields and outcome are exactly those of `Lifecycle.StartLocked` |
| `GrpcTest.Server.SetupTLS` | grpctest.go:198-263 | the fields and outcome are exactly those of `Lifecycle.SetupTLS` |
| `GrpcTest.Server.Close` | grpctest.go:267-290 | the fields are exactly those of `Lifecycle.Close`, and the invariant is kept |
| `GrpcTest.Server.Certificate` | grpctest.go:295-299 | it returns the cert field and changes nothing; on a valid server the result is a self-signed localhost certificate, and a started TLS server has one |
| `GrpcTest.Server.ClientConn` | grpctest.go:308-343 | the fields and result are exactly those of `Lifecycle.ClientConn`, and the invariant is kept |
| `Traces.RunPreservesInv` | grpctest.go:120-343 | any sequence of calls from a state that satisfies the invariant ends in a state that satisfies it |
| `Traces.StartedFreezesConfiguration` | grpctest.go:124-126 | once started, a server stays started forever. Its URL, mode, TLS config, cert and options never change again |
| `Traces.ClosedStaysClosed` | grpctest.go:271-274 | once closed, a server stays closed under any calls |
| `Traces.ClosedServerStaysDown` | grpctest.go:267-290 | a started server that has been closed never gets its gRPC server or listener back |
| `Traces.CachedClientPersists` | grpctest.go:312-314 | a cached client survives every call sequence without Close, and ClientConn then returns it |
| `Traces.CloseIdempotent` | grpctest.go:271-273 | closing twice is the same as closing once |
| `Traces.ClientConnReturnsCachedConnection` | grpctest_test.go:300-316 | after a successful ClientConn, a second call returns the identical connection and changes nothing |
| `Traces.StartAfterCloseIsNoop` | grpctest.go:124-126 | Start and StartTLS after Close on a started server change nothing and succeed |
| `Traces.CloseBeforeStartStillStarts` | grpctest.go:120-132 | Start on a server closed before it was started does start it, and it serves while marked closed |
| `Traces.ClientConnAfterCloseRedials` | grpctest.go:312-318 | after the first Close of a started server, ClientConn dials the same URL again and caches the new connection |
| `Traces.ClientConnFailsUntilStarted` | grpctest.go:316-318 | from an unstarted server with no client, until some Start or StartTLS succeeds, the server stays unstarted with no client, and ClientConn fails with "not started" and changes nothing |
| `Traces.NoTlsNoCert` | grpctest.go:292-299 | a server without cert or TLS config that never runs StartTLS never gets either, whatever else is called |
| `Traces.PlainServerAfterFailedStartTLSKeepsCert` | grpctest.go:292-299 | a StartTLS whose listen fails, followed by a successful Start, gives a started plain-text server that still has the issued certificate and the TLS config; the doc comment's "nil if not using TLS" does not hold |
| `Traces.LateSetupFailureKeepsCert` | grpctest.go:236-254 | a StartTLS that fails while marshalling the key or loading the key pair leaves the parsed certificate recorded, TLS unchanged, and the server unstarted |
| `Traces.PlainServerClient` | grpctest_test.go:28-57 | NewServer gives a non-empty loopback URL, no certificate and no TLS config, and ClientConn dials it insecurely |
| `Traces.TlsServerClient` | grpctest_test.go:98-133 | NewTLSServer gives the issued certificate and a TLS 1.3 config, and its server's only option is the TLS credentials. ClientConn dials with a pool holding exactly that certificate and the name `localhost` |
| `Traces.TlsSetupFailureBindsNothing` | grpctest.go:146-152 | a failed certificate setup fails StartTLS with no listener, no gRPC server and an empty URL |

## Left out

- The mutex: each public method runs atomically under the lock, so calls are modelled one after another, with no concurrency.
- The serving goroutine: it reads `s.server` and `s.Listener` without the lock (grpctest.go:186-190). So it races with `Close`, which sets both to nil (grpctest.go:281-289). If `Close` runs before the goroutine is scheduled, `Serve` is called on a nil server. Neither the unlocked reads nor this race is modelled.
- The background `Serve` loop and its log line: serving and stopping are opaque. Only the presence of the server and listener handles is modelled. That a closed connection or a stopped server makes later RPCs fail is not modelled.
- `net.Listen`, `grpc.NewServer`, `grpc.NewClient`, and the `Close`/`Stop` calls on the client, server and listener: these are foreign calls. Each is an opaque handle, or a failure passed in as a parameter. The listen address is modelled as 127.0.0.1 and the assigned port. `grpc.NewServer` cannot fail.
- Key generation, serial-number randomness, `x509.CreateCertificate`, `ParseCertificate`, PEM encoding, `MarshalECPrivateKey` and `tls.X509KeyPair`: each is only "succeeds (with an opaque value) or fails", in the order the code calls them.
- X509.ParseSelfSigned: this is the assumed behaviour of `x509.CreateCertificate` followed by `ParseCertificate`, with the template as its own parent. It is not logic of the package. The parsed certificate is taken to carry the template's fields and to have the subject as issuer. Its validity times are taken to be truncated to the whole second, because encoded certificate times have second precision. So the recorded NotBefore equals the clock reading only to the second, and the 24-hour window is kept exactly.
- The clock: `time.Now` is a parameter, in nanoseconds. Go's saturation of `Time.Add` at the extremes of the time range is not modelled.
- The `registerService` callback and the contents of `ServerOptions`: these are opaque values from the caller. The callback is not called in the model. A panic inside it is not modelled.
- Writes by the caller to the exported fields (`Config.ServerOptions`, `URL`, `TLS`, `Listener`) are not calls of the model. Callers are expected to append to `ServerOptions` before a start. The invariant `Lifecycle.Inv` (the server's options equal `StartOptions`) and `Traces.StartedFreezesConfiguration` (the options never change after a start) assume that these fields do not change after a start. `URL`, `TLS` and `Listener` must not be changed at any time.
- Go's `append` on `Config.ServerOptions` may share its backing array with the options the server was built from. That aliasing is not modelled.
- `GreeterServer` and `SayHelloStream` in helpers.go, and the RPC calls in the tests: these are handlers or stream I/O over generated stubs, with no lifecycle logic.
- The panic message texts: a panic is recorded only by its cause (listen, a TLS setup step, not started, nil certificate, dial).
