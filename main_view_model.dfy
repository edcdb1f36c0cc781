/** The orchestration kernel of the main window's view model: two proxy
 *  slots (primary and secondary), the resolver list, the options both slots
 *  share, and the list of network cards.
 *
 *  The proxy managers, the registry, the service manager and the interface
 *  configuration are state this model owns: the persisted parameters, the
 *  status the service manager reports, whether a registry write succeeds,
 *  the nameservers of every interface, and the sequence of calls made to the
 *  managers. What a service transition leaves behind is given by the oracle
 *  `osTransition`; every asynchronous operation is one atomic step followed
 *  by a status query. */
module ViewModels {
  import opened Models
  import opened ProxyConfig
  import opened ResolverCatalog
  import opened InterfaceBinding

  /** Why startup ended the process (`Environment.Exit(1)`) or why the
   *  constructor threw. */
  datatype StartupFailure =
    | NotAdministrator
    | MissingProxyFiles
    | MissingResolverList
    | AmbiguousBackupResolver   // SingleOrDefault found two entries with a backup name
    | NoBackupResolver          // the null fallback reached the PrimaryResolver setter

  /** The view model's catalog fields and the collaborator state the startup
   *  selection changes. */
  datatype CatalogState = CatalogState(
    resolvers: seq<DnsCryptProxyEntry>,
    selected: SlotPair<Option<DnsCryptProxyEntry>>,
    parameters: SlotPair<DnsCryptProxyParameter>,
    services: SlotPair<ServiceStatus>,
    managerCalls: seq<ManagerCall>)

  /** Every file the proxy needs exists; the scan stops at the first missing one. */
  method ValidateDnsCryptProxyFolder(proxyFiles: seq<string>, existing: set<string>) returns (valid: bool)
    ensures valid <==> forall i :: 0 <= i < |proxyFiles| ==> proxyFiles[i] in existing
  {
    for i := 0 to |proxyFiles|
      invariant forall k :: 0 <= k < i ==> proxyFiles[k] in existing
    {
      if proxyFiles[i] !in existing {
        return false;
      }
    }
    return true;
  }

  /** The first startup check that fails, in the order the constructor makes them. */
  function StartupCheck(
    g: Globals, isAdministrator: bool, existing: set<string>,
    stored: SlotPair<DnsCryptProxyParameter>, catalog: Option<seq<DnsCryptProxyEntry>>)
    : Option<StartupFailure>
  {
    if !isAdministrator then Some(NotAdministrator)
    else if !(forall i :: 0 <= i < |g.proxyFiles| ==> g.proxyFiles[i] in existing) then Some(MissingProxyFiles)
    else if catalog.None? || |catalog.value| == 0 then Some(MissingResolverList)
    else if LastIndexWithKey(catalog.value, stored.primary.providerKey).Some? then None
    else
      match BackupResolver(catalog.value, g.primaryBackupResolverName, g.secondaryBackupResolverName)
      case Backup(_) => None
      case AmbiguousBackup => Some(AmbiguousBackupResolver)
      case NoBackup => Some(NoBackupResolver)
  }

  /** Startup passes exactly when the process has administrator rights, every
   *  proxy file exists, the resolver list is non-empty, and the primary slot
   *  gets a selection (its persisted key matches, or one backup is found). */
  lemma StartupCheckPasses(
    g: Globals, isAdministrator: bool, existing: set<string>,
    stored: SlotPair<DnsCryptProxyParameter>, catalog: Option<seq<DnsCryptProxyEntry>>)
    ensures StartupCheck(g, isAdministrator, existing, stored, catalog).None? <==>
      && isAdministrator
      && (forall i :: 0 <= i < |g.proxyFiles| ==> g.proxyFiles[i] in existing)
      && catalog.Some? && |catalog.value| > 0
      && StartupSelection(g, stored.primary.providerKey, catalog.value).Some?
  {
  }

  /** The primary selection after startup: the catalog match, else the backup. */
  function StartupSelection(g: Globals, key: string, list: seq<DnsCryptProxyEntry>): Option<DnsCryptProxyEntry> {
    match LastIndexWithKey(list, key)
    case Some(i) => Some(list[i])
    case None =>
      match BackupResolver(list, g.primaryBackupResolverName, g.secondaryBackupResolverName)
      case Backup(e) => Some(e)
      case _ => None
  }

  /** The shared options at startup, before the gateway option is inferred. */
  function InitialOptions(stored: SlotPair<DnsCryptProxyParameter>): SharedOptions {
    SharedOptions(InitialUseTcpOnly(stored.primary, stored.secondary), false, InitialPlugins(stored.primary, stored.secondary))
  }

  /** The operation the start/stop toggle performs for a slot whose cached
   *  running flag and reported installed state are given. */
  function ServiceAction(running: bool, installed: bool): ServiceOp {
    if running then Stop else if installed then Start else Install
  }

  /** When the cached flag is truthful and the status consistent, the toggle
   *  stops exactly a running service and installs exactly a missing one. */
  lemma ServiceActionFollowsStatus(status: ServiceStatus)
    requires status.Consistent()
    ensures ServiceAction(status.running, status.installed) == Stop <==> status.running
    ensures ServiceAction(status.running, status.installed) == Start <==> status.installed && !status.running
    ensures ServiceAction(status.running, status.installed) == Install <==> !status.installed
  {
  }

  class MainViewModel {
    const globals: Globals
    /** The status the service manager reports after a transition. */
    const osTransition: (DnsCryptProxyType, ServiceOp, ServiceStatus) -> ServiceStatus
    const startupFailure: Option<StartupFailure>

    // The view model's own fields.
    var resolvers: seq<DnsCryptProxyEntry>
    var selected: SlotPair<Option<DnsCryptProxyEntry>>
    var useTcpOnly: bool
    var actAsGlobalGateway: bool
    var plugins: seq<string>
    var isResolverRunning: SlotPair<bool>
    var isWorkingOnService: SlotPair<bool>
    var isUninstallingServices: bool
    var isRefreshingResolverList: bool
    var overlayDependencies: int
    var showHiddenCards: bool
    var localNetworkInterfaces: seq<LocalNetworkInterface>

    // The state of the collaborators.
    var parameters: SlotPair<DnsCryptProxyParameter>
    var services: SlotPair<ServiceStatus>
    var registryWritable: SlotPair<bool>
    var nameservers: map<string, seq<string>>
    var managerCalls: seq<ManagerCall>

    /** Startup completed and no slot operation is in flight. */
    ghost predicate Valid()
      reads this`isWorkingOnService
    {
      startupFailure.None? && !isWorkingOnService.primary && !isWorkingOnService.secondary
    }

    /** Each cached running flag equals what the service manager reports. */
    ghost predicate RunningFlagsTruthful()
      reads this`isResolverRunning, this`services
    {
      isResolverRunning.primary == services.primary.running
      && isResolverRunning.secondary == services.secondary.running
    }

    /** The startup reading of the running flags: a slot counts as running
     *  when its service is installed and running. With consistent statuses
     *  this is the same as `RunningFlagsTruthful`. */
    ghost predicate RunningFlagsRead()
      reads this`isResolverRunning, this`services
    {
      && isResolverRunning.primary == (services.primary.installed && services.primary.running)
      && isResolverRunning.secondary == (services.secondary.installed && services.secondary.running)
    }

    function Options(): SharedOptions
      reads this`useTcpOnly, this`actAsGlobalGateway, this`plugins
    {
      SharedOptions(useTcpOnly, actAsGlobalGateway, plugins)
    }

    /** A reload of slot `t` holding `entry` restarts its service: there is an
     *  entry, the registry write succeeds and the service is installed. */
    predicate RestartsOnReload(t: DnsCryptProxyType, entry: Option<DnsCryptProxyEntry>)
      reads this`registryWritable, this`services
    {
      entry.Some? && registryWritable.Get(t) && services.Get(t).installed
    }

    /** Slot `t`'s parameters after a reload with `entry` under options `o`. */
    function ReloadedParameter(t: DnsCryptProxyType, entry: Option<DnsCryptProxyEntry>, o: SharedOptions)
      : DnsCryptProxyParameter
      reads this`parameters
    {
      if entry.Some? then ConvertProxyEntryToParameter(globals, entry.value, t, o) else parameters.Get(t)
    }

    /** The manager calls a reload of slot `t` with `entry` under `o` makes. */
    function ReloadCalls(t: DnsCryptProxyType, entry: Option<DnsCryptProxyEntry>, o: SharedOptions)
      : seq<ManagerCall>
      reads this`registryWritable, this`services
    {
      if entry.None? then []
      else
        [RegistryWrite(t, ConvertProxyEntryToParameter(globals, entry.value, t, o), registryWritable.Get(t))]
        + (if RestartsOnReload(t, entry) then [Transition(t, Restart, true)] else [])
    }

    /** Slot `t`'s service status after a reload with `entry`. */
    function StatusAfterReload(t: DnsCryptProxyType, entry: Option<DnsCryptProxyEntry>): ServiceStatus
      reads this`registryWritable, this`services
    {
      if RestartsOnReload(t, entry) then osTransition(t, Restart, services.Get(t)) else services.Get(t)
    }

    /** Slot `t`'s running flag after a reload with `entry`: re-read from the
     *  service when the reload restarts it, else the cached flag as it was. */
    function RunningAfterReload(t: DnsCryptProxyType, entry: Option<DnsCryptProxyEntry>): bool
      reads this`registryWritable, this`services, this`isResolverRunning
    {
      if RestartsOnReload(t, entry) then StatusAfterReload(t, entry).running else isResolverRunning.Get(t)
    }

    /** The overlay is shown while some dialog depends on it. */
    function IsOverlayVisible(): bool
      reads this`overlayDependencies
    {
      overlayDependencies > 0
    }

    /** The first part of the constructor: every field set from the persisted
     *  records and the collaborators' state, then the startup checks. When a
     *  check fails the process ends (or the constructor throws) and
     *  `startupFailure` says why; otherwise `CompleteStartup` runs the rest. */
    constructor (
      g: Globals,
      osTransition: (DnsCryptProxyType, ServiceOp, ServiceStatus) -> ServiceStatus,
      isAdministrator: bool,
      existingFiles: set<string>,
      stored: SlotPair<DnsCryptProxyParameter>,
      status: SlotPair<ServiceStatus>,
      writable: SlotPair<bool>,
      catalog: Option<seq<DnsCryptProxyEntry>>)
      ensures globals == g && this.osTransition == osTransition
      ensures startupFailure == StartupCheck(g, isAdministrator, existingFiles, stored, catalog)
      ensures Initialized(stored, writable)
      ensures resolvers == [] && selected == SlotPair(None, None) && localNetworkInterfaces == []
      ensures parameters == stored && services == status && managerCalls == []
      ensures isResolverRunning == SlotPair(false, false) && !actAsGlobalGateway
      ensures Options() == InitialOptions(stored)
      ensures startupFailure.None? ==>
        && Valid() && catalog.Some?
        && StartupSelection(g, stored.primary.providerKey, catalog.value).Some?
    {
      globals := g;
      this.osTransition := osTransition;
      var failure := CheckStartup(g, isAdministrator, existingFiles, stored, catalog);
      startupFailure := failure;
      resolvers := [];
      selected := SlotPair(None, None);
      useTcpOnly := InitialUseTcpOnly(stored.primary, stored.secondary);
      actAsGlobalGateway := false;
      plugins := InitialPlugins(stored.primary, stored.secondary);
      isResolverRunning := SlotPair(false, false);
      isWorkingOnService := SlotPair(false, false);
      isUninstallingServices := false;
      isRefreshingResolverList := false;
      overlayDependencies := 0;
      showHiddenCards := false;
      localNetworkInterfaces := [];
      parameters := stored;
      services := status;
      registryWritable := writable;
      nameservers := map[];
      managerCalls := [];
      new;
      StartupCheckPasses(g, isAdministrator, existingFiles, stored, catalog);
    }

    /** The constructor's checks, in order: privileges, the proxy folder, the
     *  resolver list, and (when the primary slot has no match) the backup. */
    static method CheckStartup(
      g: Globals, isAdministrator: bool, existingFiles: set<string>,
      stored: SlotPair<DnsCryptProxyParameter>, catalog: Option<seq<DnsCryptProxyEntry>>)
      returns (failure: Option<StartupFailure>)
      ensures failure == StartupCheck(g, isAdministrator, existingFiles, stored, catalog)
    {
      failure := None;
      if !isAdministrator {
        failure := Some(NotAdministrator);
      } else {
        var folderValid := ValidateDnsCryptProxyFolder(g.proxyFiles, existingFiles);
        if !folderValid {
          failure := Some(MissingProxyFiles);
        } else if catalog.None? || |catalog.value| == 0 {
          failure := Some(MissingResolverList);
        } else if LastIndexWithKey(catalog.value, stored.primary.providerKey).None? {
          match BackupResolver(catalog.value, g.primaryBackupResolverName, g.secondaryBackupResolverName)
          case Backup(_) =>
          case AmbiguousBackup => failure := Some(AmbiguousBackupResolver);
          case NoBackup => failure := Some(NoBackupResolver);
        }
      }
    }

    /** The rest of the constructor, once the checks pass: load the cards,
     *  select the resolvers, read the running flags (installed and running),
     *  and infer the gateway option from the primary slot's bind address. */
    method CompleteStartup(list: seq<DnsCryptProxyEntry>, interfaces: seq<LocalNetworkInterface>)
      requires Valid()
      requires resolvers == [] && selected == SlotPair(None, None)
      requires StartupSelection(globals, parameters.primary.providerKey, list).Some?
      requires isResolverRunning == SlotPair(false, false)
      modifies this`localNetworkInterfaces, this`resolvers, this`selected, this`parameters, this`managerCalls,
               this`services, this`isResolverRunning, this`isWorkingOnService, this`actAsGlobalGateway
      ensures Valid() && localNetworkInterfaces == interfaces
      ensures Catalog() == StartupOutcome(list, old(Catalog()), old(Options()))
      ensures isResolverRunning.secondary == (services.secondary.installed && services.secondary.running)
      ensures isResolverRunning.primary ==
        ((services.primary.installed && services.primary.running)
         || (LastIndexWithKey(list, old(parameters.primary.providerKey)).None?
             && registryWritable.primary && old(services.primary.installed) && services.primary.running))
      ensures services.primary.Consistent() ==> RunningFlagsRead()
      ensures actAsGlobalGateway == ContainsText(parameters.primary.localAddress, globals.globalGatewayAddress)
    {
      LoadNetworkCards(interfaces);
      SelectStartupResolvers(list);
      ReadStartupFlags();
    }

    /** The end of startup: a slot's running flag is set when its service is
     *  installed and running (and never cleared), and the gateway option is
     *  inferred from the primary slot's bind address. */
    method ReadStartupFlags()
      modifies this`isResolverRunning, this`actAsGlobalGateway
      ensures isResolverRunning == SlotPair(
        old(isResolverRunning.primary) || (services.primary.installed && services.primary.running),
        old(isResolverRunning.secondary) || (services.secondary.installed && services.secondary.running))
      ensures actAsGlobalGateway == ContainsText(parameters.primary.localAddress, globals.globalGatewayAddress)
    {
      if services.primary.installed && services.primary.running {
        isResolverRunning := isResolverRunning.Set(Primary, true);
      }
      if services.secondary.installed && services.secondary.running {
        isResolverRunning := isResolverRunning.Set(Secondary, true);
      }
      actAsGlobalGateway := ContainsText(parameters.primary.localAddress, globals.globalGatewayAddress);
    }

    /** The fields no startup step changes after the constructor sets them:
     *  the shared options derived from the persisted records, the registry's
     *  behaviour, no interface touched, and no dialog or operation pending. */
    ghost predicate Initialized(stored: SlotPair<DnsCryptProxyParameter>, writable: SlotPair<bool>)
      reads this`useTcpOnly, this`plugins, this`registryWritable, this`nameservers, this`overlayDependencies,
            this`isUninstallingServices, this`isRefreshingResolverList, this`showHiddenCards
    {
      && useTcpOnly == InitialUseTcpOnly(stored.primary, stored.secondary)
      && plugins == InitialPlugins(stored.primary, stored.secondary)
      && registryWritable == writable && nameservers == map[]
      && overlayDependencies == 0 && !isUninstallingServices && !isRefreshingResolverList && !showHiddenCards
    }

    /** The fields the startup selection works on. */
    function Catalog(): CatalogState
      reads this`resolvers, this`selected, this`parameters, this`services, this`managerCalls
    {
      CatalogState(resolvers, selected, parameters, services, managerCalls)
    }

    /** What the startup selection leaves, from the state `s0` before it and
     *  the shared options `o`: the catalog is appended and both slots matched
     *  by key; a primary slot still without a selection gets the backup
     *  through the setter, which derives and persists its parameters and
     *  restarts its service when the write succeeds and it is installed. */
    function StartupOutcome(list: seq<DnsCryptProxyEntry>, s0: CatalogState, o: SharedOptions): (s: CatalogState)
      reads this`registryWritable
      ensures s.resolvers == s0.resolvers + list
      ensures s0.selected.primary.None? ==>
        s.selected.primary == StartupSelection(globals, s0.parameters.primary.providerKey, list)
      ensures s.selected.secondary == Rematch(s0.selected.secondary, list, s0.parameters.secondary.providerKey)
      ensures s.parameters.secondary == s0.parameters.secondary && s.services.secondary == s0.services.secondary
      ensures s.selected.primary == Rematch(s0.selected.primary, list, s0.parameters.primary.providerKey) ==>
        s.parameters == s0.parameters && s.services == s0.services && s.managerCalls == s0.managerCalls
      ensures s.selected.primary != Rematch(s0.selected.primary, list, s0.parameters.primary.providerKey) ==>
        && s.selected.primary.Some?
        && s.parameters.primary == ConvertProxyEntryToParameter(globals, s.selected.primary.value, Primary, o)
        && |s.managerCalls| > |s0.managerCalls|
        && s.managerCalls[|s0.managerCalls|] == RegistryWrite(Primary, s.parameters.primary, registryWritable.primary)
    {
      var matched := SlotPair(
        Rematch(s0.selected.primary, list, s0.parameters.primary.providerKey),
        Rematch(s0.selected.secondary, list, s0.parameters.secondary.providerKey));
      var backup := BackupResolver(list, globals.primaryBackupResolverName, globals.secondaryBackupResolverName);
      if matched.primary.Some? || !backup.Backup? then
        CatalogState(s0.resolvers + list, matched, s0.parameters, s0.services, s0.managerCalls)
      else
        var p := ConvertProxyEntryToParameter(globals, backup.entry, Primary, o);
        var restarts := registryWritable.primary && s0.services.primary.installed;
        CatalogState(
          s0.resolvers + list,
          matched.Set(Primary, Some(backup.entry)),
          s0.parameters.Set(Primary, p),
          s0.services.Set(Primary, if restarts then osTransition(Primary, Restart, s0.services.primary)
                                   else s0.services.primary),
          s0.managerCalls + [RegistryWrite(Primary, p, registryWritable.primary)]
            + (if restarts then [Transition(Primary, Restart, true)] else []))
    }

    /** The catalog loop over an empty list and empty selections, then the
     *  backup fallback for the primary slot. */
    method SelectStartupResolvers(list: seq<DnsCryptProxyEntry>)
      requires Valid()
      requires resolvers == [] && selected == SlotPair(None, None)
      requires StartupSelection(globals, parameters.primary.providerKey, list).Some?
      modifies this`resolvers, this`selected, this`parameters, this`managerCalls,
               this`services, this`isResolverRunning, this`isWorkingOnService
      ensures Valid()
      ensures Catalog() == StartupOutcome(list, old(Catalog()), old(Options()))
      ensures isResolverRunning == old(isResolverRunning).Set(Primary,
        if LastIndexWithKey(list, old(parameters.primary.providerKey)).None?
           && registryWritable.primary && old(services.primary.installed)
        then services.primary.running else old(isResolverRunning.primary))
    {
      ghost var target := StartupOutcome(list, Catalog(), Options());
      MatchResolvers(list);
      assert resolvers == target.resolvers;
      if selected.primary.None? {
        assert LastIndexWithKey(list, parameters.primary.providerKey).None?;
        var backup := BackupResolver(list, globals.primaryBackupResolverName, globals.secondaryBackupResolverName);
        assert backup.Backup?;
        assert selected.Set(Primary, Some(backup.entry)) == target.selected;
        SetResolver(Primary, backup.entry);
        assert parameters == target.parameters && services == target.services;
        assert managerCalls == target.managerCalls;
      }
    }

    /** The card list is cleared and refilled with the enumeration, in order. */
    method LoadNetworkCards(found: seq<LocalNetworkInterface>)
      modifies this`localNetworkInterfaces
      ensures localNetworkInterfaces == found
    {
      localNetworkInterfaces := [];
      if |found| != 0 {
        for i := 0 to |found|
          invariant localNetworkInterfaces == found[..i]
        {
          localNetworkInterfaces := localNetworkInterfaces + [found[i]];
        }
      }
    }

    /** `found` is what the enumeration returns with hidden cards included or not. */
    method SetShowHiddenCards(value: bool, found: seq<LocalNetworkInterface>)
      modifies this`showHiddenCards, this`localNetworkInterfaces
      ensures showHiddenCards == value && localNetworkInterfaces == found
    {
      showHiddenCards := value;
      LoadNetworkCards(found);
    }

    /** The catalog loop of startup and refresh: every entry is appended, in
     *  order, and each slot ends up holding the last entry whose public key is
     *  its persisted provider key, or keeps its selection when none matches. */
    method MatchResolvers(list: seq<DnsCryptProxyEntry>)
      modifies this`resolvers, this`selected
      ensures resolvers == old(resolvers) + list
      ensures selected == SlotPair(
        Rematch(old(selected.primary), list, parameters.primary.providerKey),
        Rematch(old(selected.secondary), list, parameters.secondary.providerKey))
    {
      for i := 0 to |list|
        invariant resolvers == old(resolvers) + list[..i]
        invariant selected == SlotPair(
          Rematch(old(selected.primary), list[..i], parameters.primary.providerKey),
          Rematch(old(selected.secondary), list[..i], parameters.secondary.providerKey))
      {
        RematchStep(old(selected.primary), list, i, parameters.primary.providerKey);
        RematchStep(old(selected.secondary), list, i, parameters.secondary.providerKey);
        var entry := list[i];
        if entry.providerPublicKey == parameters.primary.providerKey {
          selected := selected.Set(Primary, Some(entry));
        }
        if entry.providerPublicKey == parameters.secondary.providerKey {
          selected := selected.Set(Secondary, Some(entry));
        }
        assert list[..i + 1] == list[..i] + [entry];
        resolvers := resolvers + [entry];
      }
      assert list[..|list|] == list;
    }

    /** A manual refresh: `updated` is whether the download and verification
     *  succeeded, `catalog` what reading the list then returned (None for null).
     *  The list is appended to the existing one without clearing it. */
    method RefreshResolverList(updated: bool, catalog: Option<seq<DnsCryptProxyEntry>>)
      requires Valid()
      modifies this`isRefreshingResolverList, this`resolvers, this`selected
      ensures Valid() && !isRefreshingResolverList
      ensures updated && catalog.Some? && |catalog.value| > 0 ==>
        && resolvers == old(resolvers) + catalog.value
        && selected == SlotPair(
          Rematch(old(selected.primary), catalog.value, parameters.primary.providerKey),
          Rematch(old(selected.secondary), catalog.value, parameters.secondary.providerKey))
      ensures !(updated && catalog.Some? && |catalog.value| > 0) ==>
        resolvers == old(resolvers) && selected == old(selected)
    {
      isRefreshingResolverList := true;
      if updated {
        if catalog.Some? && |catalog.value| > 0 {
          MatchResolvers(catalog.value);
        }
      }
      isRefreshingResolverList := false;
    }

    /** The `Resolvers` setter: an equal list changes nothing. */
    method SetResolvers(value: seq<DnsCryptProxyEntry>)
      modifies this`resolvers
      ensures resolvers == value
      ensures old(resolvers) == value ==> unchanged(this)
    {
      if value == resolvers {
        return;
      }
      resolvers := value;
    }

    method ShowOverlay()
      modifies this`overlayDependencies
      ensures overlayDependencies == old(overlayDependencies) + 1
      ensures IsOverlayVisible() <==> old(overlayDependencies) >= 0
    {
      overlayDependencies := overlayDependencies + 1;
    }

    method HideOverlay()
      modifies this`overlayDependencies
      ensures overlayDependencies == old(overlayDependencies) - 1
      ensures IsOverlayVisible() <==> old(overlayDependencies) > 1
    {
      overlayDependencies := overlayDependencies - 1;
    }

    /** The proxy manager persists its current parameters; the result is
     *  whether the registry accepted them. */
    method WriteRegistry(t: DnsCryptProxyType) returns (written: bool)
      modifies this`managerCalls
      ensures written == registryWritable.Get(t)
      ensures managerCalls == old(managerCalls) + [RegistryWrite(t, parameters.Get(t), written)]
    {
      written := registryWritable.Get(t);
      managerCalls := managerCalls + [RegistryWrite(t, parameters.Get(t), written)];
    }

    /** One service transition through slot `t`'s proxy manager, as one step. */
    method CallManager(t: DnsCryptProxyType, op: ServiceOp)
      modifies this`managerCalls, this`services
      ensures managerCalls == old(managerCalls) + [Transition(t, op, isWorkingOnService.Get(t))]
      ensures services == old(services).Set(t, osTransition(t, op, old(services.Get(t))))
    {
      managerCalls := managerCalls + [Transition(t, op, isWorkingOnService.Get(t))];
      services := services.Set(t, osTransition(t, op, services.Get(t)));
    }

    /** Restart with the slot marked busy, then re-read its running flag. */
    method RestartService(t: DnsCryptProxyType)
      requires Valid()
      modifies this`managerCalls, this`services, this`isResolverRunning, this`isWorkingOnService
      ensures Valid()
      ensures managerCalls == old(managerCalls) + [Transition(t, Restart, true)]
      ensures services == old(services.Set(t, osTransition(t, Restart, services.Get(t))))
      ensures isResolverRunning == old(isResolverRunning).Set(t, services.Get(t).running)
    {
      isWorkingOnService := isWorkingOnService.Set(t, true);
      CallManager(t, Restart);
      isResolverRunning := isResolverRunning.Set(t, services.Get(t).running);
      isWorkingOnService := isWorkingOnService.Set(t, false);
    }

    /** Rederive slot `t`'s parameters from its selection, persist them, and
     *  restart the service only when the write succeeded and the service is
     *  installed. Nothing happens without a selection; the other slot is
     *  never touched. */
    method ReloadResolver(t: DnsCryptProxyType)
      requires Valid()
      modifies this`parameters, this`managerCalls, this`services, this`isResolverRunning, this`isWorkingOnService
      ensures Valid()
      ensures parameters == old(parameters.Set(t, ReloadedParameter(t, selected.Get(t), Options())))
      ensures managerCalls == old(managerCalls + ReloadCalls(t, selected.Get(t), Options()))
      ensures services == old(services.Set(t, StatusAfterReload(t, selected.Get(t))))
      ensures isResolverRunning == old(isResolverRunning.Set(t, RunningAfterReload(t, selected.Get(t))))
      ensures parameters.Get(Other(t)) == old(parameters.Get(Other(t)))
      ensures services.Get(Other(t)) == old(services.Get(Other(t)))
      ensures isResolverRunning.Get(Other(t)) == old(isResolverRunning.Get(Other(t)))
    {
      var entry := selected.Get(t);
      if entry.Some? {
        parameters := parameters.Set(t, ConvertProxyEntryToParameter(globals, entry.value, t, Options()));
        var written := WriteRegistry(t);
        if written {
          if services.Get(t).installed {
            RestartService(t);
          }
        }
      }
    }

    /** The `PrimaryResolver`/`SecondaryResolver` setters. The value is never
     *  null (the source dereferences it). An equal value is a no-op; a new one
     *  is stored and only that slot is reloaded. */
    method SetResolver(t: DnsCryptProxyType, value: DnsCryptProxyEntry)
      requires Valid()
      modifies this`selected, this`parameters, this`managerCalls, this`services, this`isResolverRunning,
               this`isWorkingOnService
      ensures Valid()
      ensures old(selected.Get(t)) == Some(value) ==> unchanged(this)
      ensures old(selected.Get(t)) != Some(value) ==>
        && selected == old(selected).Set(t, Some(value))
        && parameters == old(parameters.Set(t, ReloadedParameter(t, Some(value), Options())))
        && managerCalls == old(managerCalls + ReloadCalls(t, Some(value), Options()))
        && services == old(services.Set(t, StatusAfterReload(t, Some(value))))
        && isResolverRunning == old(isResolverRunning.Set(t, RunningAfterReload(t, Some(value))))
      ensures old(RunningFlagsTruthful()) ==> RunningFlagsTruthful()
    {
      if selected.Get(t) == Some(value) {
        return;
      }
      selected := selected.Set(t, Some(value));
      ReloadResolver(t);
    }

    /** The `UseTcpOnly` setter: an equal value is a no-op; a new one reloads
     *  the primary slot, then the secondary slot. */
    method SetUseTcpOnly(value: bool)
      requires Valid()
      modifies this`useTcpOnly, this`parameters, this`managerCalls, this`services, this`isResolverRunning,
               this`isWorkingOnService
      ensures Valid()
      ensures value == old(useTcpOnly) ==> unchanged(this)
      ensures value != old(useTcpOnly) ==>
        var o := old(Options()).(useTcpOnly := value);
        && useTcpOnly == value
        && parameters == old(SlotPair(ReloadedParameter(Primary, selected.primary, o),
                                      ReloadedParameter(Secondary, selected.secondary, o)))
        && managerCalls == old(managerCalls + ReloadCalls(Primary, selected.primary, o)
                                            + ReloadCalls(Secondary, selected.secondary, o))
        && services == old(SlotPair(StatusAfterReload(Primary, selected.primary),
                                    StatusAfterReload(Secondary, selected.secondary)))
        && isResolverRunning == old(SlotPair(RunningAfterReload(Primary, selected.primary),
                                             RunningAfterReload(Secondary, selected.secondary)))
      ensures old(RunningFlagsTruthful()) ==> RunningFlagsTruthful()
    {
      if value == useTcpOnly {
        return;
      }
      useTcpOnly := value;
      ReloadResolver(Primary);
      ReloadResolver(Secondary);
    }

    /** The plugin dialog: `accepted` is whether it was confirmed and `chosen`
     *  the list it returned. On confirmation the list is stored and both slots
     *  are reloaded, with no equality check; otherwise nothing happens. */
    method OpenPluginManager(accepted: bool, chosen: seq<string>)
      requires Valid()
      modifies this`plugins, this`parameters, this`managerCalls, this`services, this`isResolverRunning,
               this`isWorkingOnService
      ensures Valid()
      ensures !accepted ==> unchanged(this)
      ensures accepted ==>
        var o := old(Options()).(plugins := chosen);
        && plugins == chosen
        && parameters == old(SlotPair(ReloadedParameter(Primary, selected.primary, o),
                                      ReloadedParameter(Secondary, selected.secondary, o)))
        && managerCalls == old(managerCalls + ReloadCalls(Primary, selected.primary, o)
                                            + ReloadCalls(Secondary, selected.secondary, o))
        && services == old(SlotPair(StatusAfterReload(Primary, selected.primary),
                                    StatusAfterReload(Secondary, selected.secondary)))
        && isResolverRunning == old(SlotPair(RunningAfterReload(Primary, selected.primary),
                                             RunningAfterReload(Secondary, selected.secondary)))
      ensures old(RunningFlagsTruthful()) ==> RunningFlagsTruthful()
    {
      if accepted {
        plugins := chosen;
        ReloadResolver(Primary);
        ReloadResolver(Secondary);
      }
    }

    /** Switch the primary slot's bind address in place, persist (the result
     *  is ignored) and restart the primary service whether or not it is
     *  installed; the primary slot is busy meanwhile. */
    method HandleGlobalResolver(gateway: bool)
      requires Valid()
      modifies this`parameters, this`managerCalls, this`services, this`isResolverRunning, this`isWorkingOnService
      ensures Valid()
      ensures parameters == old(parameters).Set(Primary,
        old(parameters.primary).(localAddress := LocalAddressFor(globals, Primary, gateway)))
      ensures managerCalls == old(managerCalls)
        + [RegistryWrite(Primary, parameters.primary, registryWritable.primary), Transition(Primary, Restart, true)]
      ensures services == old(services).Set(Primary, osTransition(Primary, Restart, old(services.primary)))
      ensures isResolverRunning == old(isResolverRunning).Set(Primary, services.primary.running)
    {
      isWorkingOnService := isWorkingOnService.Set(Primary, true);
      var address := if gateway then globals.globalGatewayAddress else globals.primaryResolverAddress;
      parameters := parameters.Set(Primary, parameters.primary.(localAddress := address));
      var written := WriteRegistry(Primary);
      CallManager(Primary, Restart);
      isResolverRunning := isResolverRunning.Set(Primary, services.primary.running);
      isWorkingOnService := isWorkingOnService.Set(Primary, false);
    }

    /** The `ActAsGlobalGateway` setter: store the option, then rebind the
     *  primary slot. The secondary slot is untouched. */
    method SetActAsGlobalGateway(value: bool)
      requires Valid()
      modifies this`actAsGlobalGateway, this`parameters, this`managerCalls, this`services,
               this`isResolverRunning, this`isWorkingOnService
      ensures Valid() && actAsGlobalGateway == value
      ensures parameters == old(parameters).Set(Primary,
        old(parameters.primary).(localAddress := LocalAddressFor(globals, Primary, value)))
      ensures managerCalls == old(managerCalls)
        + [RegistryWrite(Primary, parameters.primary, registryWritable.primary), Transition(Primary, Restart, true)]
      ensures services == old(services).Set(Primary, osTransition(Primary, Restart, old(services.primary)))
      ensures isResolverRunning == old(isResolverRunning).Set(Primary, services.primary.running)
      ensures old(RunningFlagsTruthful()) ==> RunningFlagsTruthful()
    {
      actAsGlobalGateway := value;
      HandleGlobalResolver(value);
    }

    /** The start/stop toggle: exactly one transition, with the slot busy
     *  during it and idle afterwards: stop when the cached flag says running,
     *  else start when installed, else install. The running flag is then
     *  re-read; the other slot is untouched. */
    method HandleService(t: DnsCryptProxyType)
      requires Valid()
      modifies this`managerCalls, this`services, this`isResolverRunning, this`isWorkingOnService
      ensures Valid()
      ensures managerCalls ==
        old(managerCalls) + [Transition(t, old(ServiceAction(isResolverRunning.Get(t), services.Get(t).installed)), true)]
      ensures services ==
        old(services.Set(t, osTransition(t, ServiceAction(isResolverRunning.Get(t), services.Get(t).installed), services.Get(t))))
      ensures isResolverRunning == old(isResolverRunning).Set(t, services.Get(t).running)
      ensures services.Get(Other(t)) == old(services.Get(Other(t)))
      ensures isResolverRunning.Get(Other(t)) == old(isResolverRunning.Get(Other(t)))
    {
      isWorkingOnService := isWorkingOnService.Set(t, true);
      if isResolverRunning.Get(t) {
        CallManager(t, Stop);
      } else if services.Get(t).installed {
        CallManager(t, Start);
      } else {
        CallManager(t, Install);
      }
      isResolverRunning := isResolverRunning.Set(t, services.Get(t).running);
      isWorkingOnService := isWorkingOnService.Set(t, false);
    }

    /** The `IsPrimaryResolverRunning`/`IsSecondaryResolverRunning` setters:
     *  the assigned value is ignored and the toggle runs. */
    method SetResolverRunning(t: DnsCryptProxyType, value: bool)
      requires Valid()
      modifies this`managerCalls, this`services, this`isResolverRunning, this`isWorkingOnService
      ensures Valid()
      ensures managerCalls ==
        old(managerCalls) + [Transition(t, old(ServiceAction(isResolverRunning.Get(t), services.Get(t).installed)), true)]
      ensures services ==
        old(services.Set(t, osTransition(t, ServiceAction(isResolverRunning.Get(t), services.Get(t).installed), services.Get(t))))
      ensures isResolverRunning == old(isResolverRunning).Set(t, services.Get(t).running)
      ensures services.Get(Other(t)) == old(services.Get(Other(t)))
      ensures isResolverRunning.Get(Other(t)) == old(isResolverRunning.Get(Other(t)))
    {
      HandleService(t);
    }

    /** Toggle encrypted DNS on a card: a card in use is cleared and marked
     *  unused; otherwise it gets the addresses of the contributing slots and
     *  is marked used, even when that list is empty. */
    method NetworkCardClicked(nic: LocalNetworkInterface?)
      requires Valid()
      modifies this`nameservers, nic
      ensures nic == null ==> nameservers == old(nameservers)
      ensures nic != null && old(nic.useDnsCrypt) ==>
        nameservers == old(nameservers)[nic.description := []] && !nic.useDnsCrypt
      ensures nic != null && !old(nic.useDnsCrypt) ==>
        && nameservers == old(nameservers)[nic.description :=
             NameserverList(globals, selected.primary, services.primary.ready,
                            selected.secondary, services.secondary.ready)]
        && nic.useDnsCrypt
    {
      if nic == null {
        return;
      }
      if nic.useDnsCrypt {
        nameservers := nameservers[nic.description := []];
        nic.useDnsCrypt := false;
      } else {
        var dns: seq<string> := [];
        if selected.primary.Some? {
          if selected.primary.value.providerPublicKey != "" {
            if services.primary.ready {
              dns := dns + [globals.primaryResolverAddress];
            }
          }
        }
        if selected.secondary.Some? {
          if selected.secondary.value.providerPublicKey != "" {
            if services.secondary.ready {
              dns := dns + [globals.secondaryResolverAddress];
            }
          }
        }
        assert dns == NameserverList(globals, selected.primary, services.primary.ready,
                                     selected.secondary, services.secondary.ready);
        nameservers := nameservers[nic.description := dns];
        nic.useDnsCrypt := true;
      }
    }

    /** The recovery pass over a fresh enumeration: each interface reported as
     *  using DnsCrypt gets an empty nameserver list, then the one listed card
     *  with its description is marked unused. When no card or several cards
     *  carry the description the lookup throws: `fault` is that interface's
     *  index, and the pass stops after clearing its nameservers. */
    method RecoverNetworkInterfaces(enumerated: seq<EnumeratedInterface>) returns (fault: Option<nat>)
      modifies this`nameservers, localNetworkInterfaces
      ensures fault.None? ==>
        forall k :: 0 <= k < |enumerated| ==> Recoverable(enumerated[k], localNetworkInterfaces)
      ensures fault.Some? ==>
        && fault.value < |enumerated|
        && !Recoverable(enumerated[fault.value], localNetworkInterfaces)
        && forall k :: 0 <= k < fault.value ==> Recoverable(enumerated[k], localNetworkInterfaces)
      ensures nameservers ==
        ClearedNameservers(old(nameservers), enumerated[..if fault.None? then |enumerated| else fault.value + 1])
      ensures forall j :: 0 <= j < |localNetworkInterfaces| ==>
        localNetworkInterfaces[j].useDnsCrypt ==
          (!Flagged(enumerated[..if fault.None? then |enumerated| else fault.value], localNetworkInterfaces[j].description)
           && old(localNetworkInterfaces[j].useDnsCrypt))
    {
      var cards := localNetworkInterfaces;
      fault := None;
      var i := 0;
      while i < |enumerated|
        invariant 0 <= i <= |enumerated|
        invariant cards == localNetworkInterfaces
        invariant forall k :: 0 <= k < i ==> Recoverable(enumerated[k], cards)
        invariant nameservers == ClearedNameservers(old(nameservers), enumerated[..i])
        invariant forall j :: 0 <= j < |cards| ==>
          cards[j].useDnsCrypt == (!Flagged(enumerated[..i], cards[j].description) && old(cards[j].useDnsCrypt))
      {
        assert enumerated[..i + 1][..i] == enumerated[..i];
        forall d: string
          ensures Flagged(enumerated[..i + 1], d)
                  <==> Flagged(enumerated[..i], d) || (enumerated[i].useDnsCrypt && enumerated[i].description == d)
        {
          FlaggedStep(enumerated, i, d);
        }
        var nic := enumerated[i];
        if nic.useDnsCrypt {
          nameservers := nameservers[nic.description := []];
          var found := CardIndex(cards, nic.description);
          CardIndexMeans(cards, nic.description);
          if !found.One? {
            fault := Some(i);
            return;
          }
          cards[found.value].useDnsCrypt := false;
        }
        i := i + 1;
      }
      assert enumerated[..|enumerated|] == enumerated;
    }

    /** Uninstall both services on a "Yes" answer, re-read both running flags
     *  whatever the answer, then run the recovery pass over the interfaces. */
    method UninstallServices(confirmed: bool, enumerated: seq<EnumeratedInterface>) returns (fault: Option<nat>)
      requires Valid()
      modifies this`isUninstallingServices, this`managerCalls, this`services, this`isResolverRunning,
               this`nameservers, localNetworkInterfaces
      ensures Valid() && RunningFlagsTruthful()
      ensures confirmed ==>
        && !isUninstallingServices
        && managerCalls == old(managerCalls) + [Transition(Primary, Uninstall, false), Transition(Secondary, Uninstall, false)]
        && services == old(SlotPair(osTransition(Primary, Uninstall, services.primary),
                                    osTransition(Secondary, Uninstall, services.secondary)))
      ensures !confirmed ==>
        isUninstallingServices == old(isUninstallingServices) && managerCalls == old(managerCalls) && services == old(services)
      ensures fault.None? ==>
        forall k :: 0 <= k < |enumerated| ==> Recoverable(enumerated[k], localNetworkInterfaces)
      ensures fault.Some? ==>
        && fault.value < |enumerated|
        && !Recoverable(enumerated[fault.value], localNetworkInterfaces)
        && forall k :: 0 <= k < fault.value ==> Recoverable(enumerated[k], localNetworkInterfaces)
      ensures nameservers ==
        ClearedNameservers(old(nameservers), enumerated[..if fault.None? then |enumerated| else fault.value + 1])
      ensures forall j :: 0 <= j < |localNetworkInterfaces| ==>
        localNetworkInterfaces[j].useDnsCrypt ==
          (!Flagged(enumerated[..if fault.None? then |enumerated| else fault.value], localNetworkInterfaces[j].description)
           && old(localNetworkInterfaces[j].useDnsCrypt))
    {
      if confirmed {
        isUninstallingServices := true;
        CallManager(Primary, Uninstall);
        CallManager(Secondary, Uninstall);
        isUninstallingServices := false;
      }
      isResolverRunning := SlotPair(services.primary.running, services.secondary.running);
      fault := RecoverNetworkInterfaces(enumerated);
    }
  }
}
