/** Matching a slot's persisted configuration back to an entry of the
 *  resolver list, and the lookups by name the startup fallback uses. */
module ResolverCatalog {
  import opened Models
  import opened ProxyConfig

  /** Outcome of LINQ's `SingleOrDefault` (as an index): no element
   *  satisfies the predicate (the default is returned), exactly one does, or
   *  several do (the call throws). */
  datatype Single<T> = NoMatch | One(value: T) | Many

  function SingleOrDefault<T>(s: seq<T>, p: T -> bool): (r: Single<nat>)
    ensures r.One? ==> r.value < |s| && p(s[r.value])
    decreases |s|
  {
    if |s| == 0 then NoMatch
    else
      match SingleOrDefault(s[1..], p)
      case NoMatch => if p(s[0]) then One(0) else NoMatch
      case One(k) => if p(s[0]) then Many else One(k + 1)
      case Many => Many
  }

  /** No match exactly when no element satisfies `p`; a single match is the
   *  only element that does; `Many` means two distinct elements do. */
  lemma {:induction false} SingleOrDefaultMeans<T>(s: seq<T>, p: T -> bool)
    ensures SingleOrDefault(s, p).NoMatch? <==> forall i :: 0 <= i < |s| ==> !p(s[i])
    ensures SingleOrDefault(s, p).One? ==>
      forall j :: 0 <= j < |s| && j != SingleOrDefault(s, p).value ==> !p(s[j])
    ensures SingleOrDefault(s, p).Many? ==> exists i, j :: 0 <= i < j < |s| && p(s[i]) && p(s[j])
    decreases |s|
  {
    if |s| > 0 {
      SingleOrDefaultMeans(s[1..], p);
      assert forall i :: 1 <= i < |s| ==> s[1..][i - 1] == s[i];
      match SingleOrDefault(s[1..], p)
      case NoMatch =>
      case One(k) =>
        if p(s[0]) {
          assert p(s[k + 1]);
        }
      case Many =>
        var i, j :| 0 <= i < j < |s[1..]| && p(s[1..][i]) && p(s[1..][j]);
        assert p(s[i + 1]) && p(s[j + 1]);
    }
  }

  /** Index of the last entry whose public key is `key`: the entry the
   *  catalog loop leaves selected, since each match overwrites the last. */
  function LastIndexWithKey(list: seq<DnsCryptProxyEntry>, key: string): (r: Option<nat>)
    ensures r.Some? ==> r.value < |list| && list[r.value].providerPublicKey == key
    decreases |list|
  {
    if |list| == 0 then None
    else if list[|list| - 1].providerPublicKey == key then Some(|list| - 1)
    else LastIndexWithKey(list[..|list| - 1], key)
  }

  /** The index found is the last one with the key, and there is none exactly
   *  when no entry has the key. */
  lemma {:induction false} LastIndexWithKeyMeans(list: seq<DnsCryptProxyEntry>, key: string)
    ensures LastIndexWithKey(list, key).Some? ==>
      forall j :: LastIndexWithKey(list, key).value < j < |list| ==> list[j].providerPublicKey != key
    ensures LastIndexWithKey(list, key).None? <==> forall j :: 0 <= j < |list| ==> list[j].providerPublicKey != key
    decreases |list|
  {
    if |list| > 0 && list[|list| - 1].providerPublicKey != key {
      var n := |list| - 1;
      LastIndexWithKeyMeans(list[..n], key);
      assert forall j :: 0 <= j < n ==> list[..n][j] == list[j];
    }
  }

  /** A slot's selection after one pass over `list`: the last entry whose key
   *  is the slot's persisted key, or the current selection when none matches. */
  function Rematch(current: Option<DnsCryptProxyEntry>, list: seq<DnsCryptProxyEntry>, key: string)
    : Option<DnsCryptProxyEntry>
  {
    match LastIndexWithKey(list, key)
    case None => current
    case Some(i) => Some(list[i])
  }

  /** One more entry seen by the loop: a match overwrites the selection. */
  lemma RematchStep(current: Option<DnsCryptProxyEntry>, list: seq<DnsCryptProxyEntry>, i: nat, key: string)
    requires i < |list|
    ensures Rematch(current, list[..i + 1], key)
         == if list[i].providerPublicKey == key then Some(list[i]) else Rematch(current, list[..i], key)
  {
    assert list[..i + 1][..i] == list[..i];
  }

  /** Public keys identify entries within the list. */
  predicate UniqueKeys(list: seq<DnsCryptProxyEntry>) {
    forall i, j :: 0 <= i < |list| && 0 <= j < |list| && list[i].providerPublicKey == list[j].providerPublicKey
      ==> list[i] == list[j]
  }

  /** Round trip: a parameter record derived from a catalog entry is matched
   *  back to that same entry by the next catalog pass, when keys are unique. */
  lemma {:induction false} RematchDerived(
    current: Option<DnsCryptProxyEntry>, list: seq<DnsCryptProxyEntry>,
    g: Globals, e: DnsCryptProxyEntry, t: DnsCryptProxyType, o: SharedOptions)
    requires e in list && UniqueKeys(list)
    ensures Rematch(current, list, ConvertProxyEntryToParameter(g, e, t, o).providerKey) == Some(e)
  {
    var key := ConvertProxyEntryToParameter(g, e, t, o).providerKey;
    assert EntryOf(ConvertProxyEntryToParameter(g, e, t, o)) == e;
    var k :| 0 <= k < |list| && list[k] == e;
    assert list[k].providerPublicKey == key;
    LastIndexWithKeyMeans(list, key);
    var i := LastIndexWithKey(list, key).value;
    assert list[i].providerPublicKey == list[k].providerPublicKey;
  }

  /** The startup fallback when the primary slot has no selection. */
  datatype BackupLookup = Backup(entry: DnsCryptProxyEntry) | NoBackup | AmbiguousBackup

  function NamedIndex(list: seq<DnsCryptProxyEntry>, name: string): Single<nat> {
    SingleOrDefault(list, (e: DnsCryptProxyEntry) => e.name == name)
  }

  /** The single entry named as the primary backup, else the single entry
   *  named as the secondary backup. */
  function BackupResolver(list: seq<DnsCryptProxyEntry>, primaryName: string, secondaryName: string)
    : (r: BackupLookup)
    ensures r.Backup? ==> r.entry in list && (r.entry.name == primaryName || r.entry.name == secondaryName)
  {
    match NamedIndex(list, primaryName)
    case One(i) => Backup(list[i])
    case Many => AmbiguousBackup
    case NoMatch =>
      match NamedIndex(list, secondaryName)
      case One(i) => Backup(list[i])
      case Many => AmbiguousBackup
      case NoMatch => NoBackup
  }

  /** No backup exactly when neither name occurs; the secondary backup is
   *  used only when the primary name does not occur; an entry with the
   *  primary name is chosen unless that name is ambiguous; a backup is the
   *  only entry with its name; the lookup is ambiguous exactly when two
   *  entries share the name that decides: the primary name, or the
   *  secondary name when the primary name does not occur. */
  lemma BackupResolverMeans(list: seq<DnsCryptProxyEntry>, primaryName: string, secondaryName: string)
    ensures var r := BackupResolver(list, primaryName, secondaryName);
      && (r.NoBackup? <==> forall i :: 0 <= i < |list| ==> list[i].name != primaryName && list[i].name != secondaryName)
      && (r.Backup? && r.entry.name != primaryName ==> forall i :: 0 <= i < |list| ==> list[i].name != primaryName)
      && ((exists i :: 0 <= i < |list| && list[i].name == primaryName) && !r.AmbiguousBackup? ==>
            r.Backup? && r.entry.name == primaryName)
      && (r.Backup? ==> forall i :: 0 <= i < |list| && list[i].name == r.entry.name ==> list[i] == r.entry)
      && (r.AmbiguousBackup? ==>
            (exists i, j :: 0 <= i < j < |list| && list[i].name == primaryName && list[j].name == primaryName)
            || ((forall i :: 0 <= i < |list| ==> list[i].name != primaryName)
                && exists i, j :: 0 <= i < j < |list| && list[i].name == secondaryName && list[j].name == secondaryName))
      && ((exists i, j :: 0 <= i < j < |list| && list[i].name == primaryName && list[j].name == primaryName)
            ==> r.AmbiguousBackup?)
      && (((forall i :: 0 <= i < |list| ==> list[i].name != primaryName)
           && (exists i, j :: 0 <= i < j < |list| && list[i].name == secondaryName && list[j].name == secondaryName))
            ==> r.AmbiguousBackup?)
  {
    SingleOrDefaultMeans(list, (e: DnsCryptProxyEntry) => e.name == primaryName);
    SingleOrDefaultMeans(list, (e: DnsCryptProxyEntry) => e.name == secondaryName);
  }
}
