/** Values shared by the proxy handler and the TLS layer. */
module Net {

  newtype byte = x: int | 0 <= x < 256

  /**
   * A socket address. `ip` is the textual form that `Display` prints for the
   * address part, as the forwarding header writes it; the formatting
   * itself is not modelled.
   */
  datatype SocketAddr = SocketAddr(ip: string, port: nat)
}
