/** Derivation of a slot's runtime parameters from a catalog entry and the
 *  options both slots share, and the shared options the view model derives
 *  from the persisted parameters at startup. */
module ProxyConfig {
  import opened Models

  /** The options both slots share. */
  datatype SharedOptions = SharedOptions(useTcpOnly: bool, actAsGlobalGateway: bool, plugins: seq<string>)

  /** The address a slot's proxy listens on. */
  function LocalAddressFor(g: Globals, t: DnsCryptProxyType, actAsGlobalGateway: bool): string {
    if t == Primary then
      (if actAsGlobalGateway then g.globalGatewayAddress else g.primaryResolverAddress)
    else
      g.secondaryResolverAddress
  }

  /** The secondary slot's bind address never depends on the gateway option;
   *  the primary slot binds to the gateway address exactly when the option is set. */
  lemma LocalAddressRule(g: Globals, actAsGlobalGateway: bool)
    requires g.globalGatewayAddress != g.primaryResolverAddress
    ensures LocalAddressFor(g, Secondary, actAsGlobalGateway) == g.secondaryResolverAddress
    ensures LocalAddressFor(g, Secondary, actAsGlobalGateway) == LocalAddressFor(g, Secondary, !actAsGlobalGateway)
    ensures LocalAddressFor(g, Primary, actAsGlobalGateway) == g.globalGatewayAddress <==> actAsGlobalGateway
    ensures !actAsGlobalGateway ==> LocalAddressFor(g, Primary, actAsGlobalGateway) == g.primaryResolverAddress
  {
  }

  /** The catalog entry a parameter record describes. */
  function EntryOf(p: DnsCryptProxyParameter): DnsCryptProxyEntry {
    DnsCryptProxyEntry(p.resolverName, p.providerName, p.providerKey, p.resolverAddress)
  }

  /** A fresh parameter record for slot `t`: the entry's identity copied, the
   *  shared options applied, ephemeral keys on, and the slot's bind address. */
  function ConvertProxyEntryToParameter(g: Globals, e: DnsCryptProxyEntry, t: DnsCryptProxyType, o: SharedOptions)
    : (p: DnsCryptProxyParameter)
    ensures EntryOf(p) == e
    ensures p.ephemeralKeys
    ensures p.tcpOnly == o.useTcpOnly && p.plugins == o.plugins
    ensures p.localAddress == LocalAddressFor(g, t, o.actAsGlobalGateway)
    ensures p.resolversList == g.resolverListPath
  {
    DnsCryptProxyParameter(
      providerKey := e.providerPublicKey,
      providerName := e.providerName,
      resolverName := e.name,
      resolverAddress := e.resolverAddress,
      localAddress := LocalAddressFor(g, t, o.actAsGlobalGateway),
      resolversList := g.resolverListPath,
      ephemeralKeys := true,
      tcpOnly := o.useTcpOnly,
      plugins := o.plugins)
  }

  /** Startup TCP-only option: set when either persisted record asks for it. */
  function InitialUseTcpOnly(primary: DnsCryptProxyParameter, secondary: DnsCryptProxyParameter): bool {
    primary.tcpOnly || secondary.tcpOnly
  }

  /** Startup plugin list: the primary record's list when it has one, else the
   *  secondary record's list, else empty. */
  function InitialPlugins(primary: DnsCryptProxyParameter, secondary: DnsCryptProxyParameter): (r: seq<string>)
    ensures r == primary.plugins || r == secondary.plugins
    ensures r == [] <==> primary.plugins == [] && secondary.plugins == []
    ensures primary.plugins != [] ==> r == primary.plugins
  {
    if |primary.plugins| > 0 then primary.plugins
    else if |secondary.plugins| > 0 then secondary.plugins
    else []
  }

  /** `t` occurs in `s` starting at position `i`. */
  predicate OccursAt(s: string, t: string, i: nat) {
    i <= |s| && t <= s[i..]
  }

  /** Ordinal substring test (`String.Contains`). */
  function ContainsText(s: string, t: string): bool
    decreases |s|
  {
    t <= s || (|s| > 0 && ContainsText(s[1..], t))
  }

  lemma {:induction false} ContainsTextMeans(s: string, t: string)
    ensures ContainsText(s, t) <==> exists i: nat :: OccursAt(s, t, i)
    decreases |s|
  {
    if t <= s {
      assert OccursAt(s, t, 0);
    } else if |s| == 0 {
      forall i: nat ensures !OccursAt(s, t, i) {
        if i <= |s| { assert s[i..] == s; }
      }
    } else {
      ContainsTextMeans(s[1..], t);
      if i: nat :| OccursAt(s, t, i) {
        assert i != 0;
        assert s[1..][i - 1..] == s[i..];
        assert OccursAt(s[1..], t, i - 1);
      }
      if i: nat :| OccursAt(s[1..], t, i) {
        assert s[1..][i..] == s[i + 1..];
        assert OccursAt(s, t, i + 1);
      }
    }
  }
}
