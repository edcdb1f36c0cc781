/** Values shared by every part of the model: the two proxy slots, resolver
 *  catalog entries, the runtime parameter record of a proxy, what the
 *  operating system reports about a proxy service, the calls made to a
 *  proxy manager, and the fixed global settings of the application. */
module Models {

  datatype Option<+T> = None | Some(value: T)

  /** The two resolver slots; each one has its own dnscrypt-proxy service. */
  datatype DnsCryptProxyType = Primary | Secondary

  function Other(t: DnsCryptProxyType): (o: DnsCryptProxyType)
    ensures o != t
  {
    if t == Primary then Secondary else Primary
  }

  /** One value per slot: the view model keeps every per-slot field twice
   *  (`_primaryResolver`/`_secondaryResolver`, `_isPrimaryResolverRunning`/...). */
  datatype SlotPair<T> = SlotPair(primary: T, secondary: T) {

    function Get(t: DnsCryptProxyType): T {
      if t == Primary then primary else secondary
    }

    /** Replaces the value of slot `t` and keeps the other slot's value. */
    function Set(t: DnsCryptProxyType, v: T): (r: SlotPair<T>)
      ensures r.Get(t) == v && r.Get(Other(t)) == Get(Other(t))
    {
      if t == Primary then SlotPair(v, secondary) else SlotPair(primary, v)
    }
  }

  /** An entry of the signed resolver list. */
  datatype DnsCryptProxyEntry = DnsCryptProxyEntry(
    name: string,
    providerName: string,
    providerPublicKey: string,
    resolverAddress: string)

  /** The runtime parameters a proxy manager persists and the service reads
   *  when it starts. */
  datatype DnsCryptProxyParameter = DnsCryptProxyParameter(
    providerKey: string,
    providerName: string,
    resolverName: string,
    resolverAddress: string,
    localAddress: string,
    resolversList: string,
    ephemeralKeys: bool,
    tcpOnly: bool,
    plugins: seq<string>)

  /** What the service manager reports about one slot's service. */
  datatype ServiceStatus = ServiceStatus(installed: bool, running: bool, ready: bool) {
    /** Ready implies running implies installed. */
    predicate Consistent() {
      (ready ==> running) && (running ==> installed)
    }
  }

  /** The service transitions a proxy manager offers. */
  datatype ServiceOp = Install | Start | Stop | Restart | Uninstall

  /** A call made to a slot's proxy manager. `RegistryWrite` records the
   *  record written and whether the write succeeded; `Transition` records the
   *  operation and the slot's busy flag at the moment of the call. */
  datatype ManagerCall =
    | RegistryWrite(slot: DnsCryptProxyType, parameter: DnsCryptProxyParameter, succeeded: bool)
    | Transition(slot: DnsCryptProxyType, op: ServiceOp, busy: bool)

  /** The application's fixed settings (the `Global` class). */
  datatype Globals = Globals(
    primaryResolverAddress: string,
    secondaryResolverAddress: string,
    globalGatewayAddress: string,
    resolverListPath: string,
    proxyFiles: seq<string>,
    primaryBackupResolverName: string,
    secondaryBackupResolverName: string)
}
