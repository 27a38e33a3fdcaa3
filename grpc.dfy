/** Opaque values of the gRPC framework that the test server builds and
    hands out: server options, the server handle, client credentials and the
    client connection. */
module Grpc {
  import X509
  import Tls

  /** A grpc.ServerOption: one the caller put in ServerOptions (opaque), or the
      transport credentials built from a TLS configuration. */
  datatype ServerOption = CallerOption(id: nat) | Creds(config: Tls.Config)

  /** A *grpc.Server, remembered with the options it was constructed with. */
  datatype Server = Server(id: nat, options: seq<ServerOption>)

  /** The transport credentials of a dialled connection: insecure, or TLS
      trusting the given roots and expecting the given server name. */
  datatype TransportCredentials =
    | Insecure
    | TlsClient(rootCAs: seq<X509.Certificate>, serverName: string)

  /** A *grpc.ClientConn, remembered with its target and credentials. */
  datatype ClientConn = ClientConn(id: nat, target: string, creds: TransportCredentials)

  /** What grpc.NewClient returned: a fresh connection handle, or an error. */
  datatype DialResult = Dialed(id: nat) | DialError
}
