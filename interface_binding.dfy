/** Local network interfaces: the nameserver list an interface gets when it
 *  is switched to the local resolvers, and the bookkeeping of the recovery
 *  pass that clears interfaces after the services are uninstalled. */
module InterfaceBinding {
  import opened Models
  import opened ResolverCatalog

  /** A network card as the view model lists it; the UI toggles `useDnsCrypt`
   *  on the very object held in the list. */
  class LocalNetworkInterface {
    const description: string
    var useDnsCrypt: bool

    constructor (description: string, useDnsCrypt: bool)
      ensures this.description == description && this.useDnsCrypt == useDnsCrypt
    {
      this.description := description;
      this.useDnsCrypt := useDnsCrypt;
    }
  }

  /** What a fresh enumeration of the machine's interfaces reports. */
  datatype EnumeratedInterface = EnumeratedInterface(description: string, useDnsCrypt: bool)

  /** A slot adds its address to an interface's nameservers when a resolver
   *  is selected for it, that resolver has a public key, and the slot's
   *  proxy is ready. */
  predicate Contributes(entry: Option<DnsCryptProxyEntry>, ready: bool) {
    entry.Some? && entry.value.providerPublicKey != "" && ready
  }

  /** The nameserver list written when an interface is switched on. */
  function NameserverList(
    g: Globals,
    primary: Option<DnsCryptProxyEntry>, primaryReady: bool,
    secondary: Option<DnsCryptProxyEntry>, secondaryReady: bool): (dns: seq<string>)
    ensures |dns| == (if Contributes(primary, primaryReady) then 1 else 0)
                   + (if Contributes(secondary, secondaryReady) then 1 else 0)
    ensures Contributes(primary, primaryReady) ==> dns[0] == g.primaryResolverAddress
    ensures Contributes(secondary, secondaryReady) ==> dns[|dns| - 1] == g.secondaryResolverAddress
  {
    (if Contributes(primary, primaryReady) then [g.primaryResolverAddress] else [])
    + (if Contributes(secondary, secondaryReady) then [g.secondaryResolverAddress] else [])
  }

  /** With distinct slot addresses: each address is present exactly when its
   *  slot contributes, at most two entries, primary first, and nothing but the
   *  two loopback slot addresses (never the gateway address as such). */
  lemma NameserverListMembership(
    g: Globals,
    primary: Option<DnsCryptProxyEntry>, primaryReady: bool,
    secondary: Option<DnsCryptProxyEntry>, secondaryReady: bool)
    requires g.primaryResolverAddress != g.secondaryResolverAddress
    ensures var dns := NameserverList(g, primary, primaryReady, secondary, secondaryReady);
      && |dns| <= 2
      && (g.primaryResolverAddress in dns <==> Contributes(primary, primaryReady))
      && (g.secondaryResolverAddress in dns <==> Contributes(secondary, secondaryReady))
      && (forall a :: a in dns ==> a == g.primaryResolverAddress || a == g.secondaryResolverAddress)
      && (|dns| == 2 ==> dns == [g.primaryResolverAddress, g.secondaryResolverAddress])
  {
  }

  /** Some interface in `es` reported as using DnsCrypt has description `d`. */
  predicate Flagged(es: seq<EnumeratedInterface>, d: string) {
    exists k :: 0 <= k < |es| && es[k].useDnsCrypt && es[k].description == d
  }

  lemma FlaggedStep(es: seq<EnumeratedInterface>, i: nat, d: string)
    requires i < |es|
    ensures Flagged(es[..i + 1], d) <==> Flagged(es[..i], d) || (es[i].useDnsCrypt && es[i].description == d)
  {
  }

  /** Nameservers after the recovery pass over `es`: every interface reported
   *  as using DnsCrypt is set to the empty list, in order. */
  function ClearedNameservers(ns: map<string, seq<string>>, es: seq<EnumeratedInterface>): map<string, seq<string>>
    decreases |es|
  {
    if |es| == 0 then ns
    else
      var before := ClearedNameservers(ns, es[..|es| - 1]);
      var last := es[|es| - 1];
      if last.useDnsCrypt then before[last.description := []] else before
  }

  /** The recovery pass empties exactly the flagged interfaces and leaves every
   *  other interface's nameservers as they were. */
  lemma {:induction false} ClearedNameserversAt(ns: map<string, seq<string>>, es: seq<EnumeratedInterface>, d: string)
    ensures Flagged(es, d) ==> d in ClearedNameservers(ns, es) && ClearedNameservers(ns, es)[d] == []
    ensures !Flagged(es, d) ==> (d in ClearedNameservers(ns, es) <==> d in ns)
    ensures !Flagged(es, d) && d in ns ==> ClearedNameservers(ns, es)[d] == ns[d]
    decreases |es|
  {
    if |es| > 0 {
      var n := |es| - 1;
      ClearedNameserversAt(ns, es[..n], d);
      FlaggedStep(es, n, d);
      assert es[..n + 1] == es;
    }
  }

  /** The index of the one listed card with description `d` (the lookup
   *  throws unless exactly one card has it). */
  function CardIndex(cards: seq<LocalNetworkInterface>, d: string): Single<nat> {
    SingleOrDefault(cards, (c: LocalNetworkInterface) => c.description == d)
  }

  /** The lookup finds a card exactly when it is the only card with the
   *  description, and finds none exactly when no card has it. */
  lemma CardIndexMeans(cards: seq<LocalNetworkInterface>, d: string)
    ensures CardIndex(cards, d).NoMatch? <==> forall j :: 0 <= j < |cards| ==> cards[j].description != d
    ensures CardIndex(cards, d).One? ==>
      forall j :: 0 <= j < |cards| ==> (cards[j].description == d <==> j == CardIndex(cards, d).value)
  {
    SingleOrDefaultMeans(cards, (c: LocalNetworkInterface) => c.description == d);
  }

  /** The recovery pass gets past interface `e`: it is not flagged, or exactly
   *  one listed card carries its description. */
  predicate Recoverable(e: EnumeratedInterface, cards: seq<LocalNetworkInterface>) {
    !e.useDnsCrypt || CardIndex(cards, e.description).One?
  }
}
