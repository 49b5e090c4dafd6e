/** The control-plane HTTP server, reduced to whether Finalize can close it. */
module ControlPlane {
  import opened Wrappers

  /** NoServer: the address was empty, so no graceful server was made.
      Opened: the graceful server exists (whether or not its bind succeeded).
      Closed: BlockingClose returned. */
  datatype Server = NoServer | Opened | Closed

  /** initHttpServer makes the graceful server only for a non-empty address. */
  function ServerAfterInit(s: Server, addrPort: string): Server {
    if addrPort == "" then s else Opened
  }

  /** Finalize as written: BlockingClose through the graceful-server pointer,
      which is nil when no server was made (None: the nil dereference panics). */
  function FinalizeAsWritten(s: Server): (r: Option<Server>)
    ensures r.None? <==> s == NoServer
  {
    if s == NoServer then None else Some(Closed)
  }

  /** With an empty server address, Finalize as written panics: Initialize
      reaches it from a failed venue construction. */
  lemma FinalizeWithoutAddressPanics()
    ensures FinalizeAsWritten(ServerAfterInit(NoServer, "")) == None
  {
  }

  /** Finalize as intended: a no-op without a server, otherwise the server
      ends closed. It never fails, nothing is left open, and it agrees with
      the code as written wherever that does not panic. */
  function FinalizeServer(s: Server): (r: Server)
    ensures r != Opened
    ensures r == NoServer <==> s == NoServer
    ensures FinalizeAsWritten(s).Some? ==> FinalizeAsWritten(s).value == r
  {
    if s == NoServer then NoServer else Closed
  }

  /** The failure path of Initialize (initHttpServer, then Finalize after a
      failed construction): the code as written panics exactly when no server
      was ever made, i.e. the address is empty on a fresh integrator; the
      corrected Finalize leaves no server open, and closes the one made for a
      non-empty address. */
  lemma FailedInitializeFinalizes(s: Server, addrPort: string)
    ensures FinalizeAsWritten(ServerAfterInit(s, addrPort)).None? <==> addrPort == "" && s == NoServer
    ensures FinalizeServer(ServerAfterInit(s, addrPort)) != Opened
    ensures addrPort != "" ==> FinalizeServer(ServerAfterInit(s, addrPort)) == Closed
  {
  }
}
