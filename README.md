# SimpleDnsCrypt main view model, modelled in Dafny

SimpleDnsCrypt is a Windows front end for dnscrypt-proxy. Its main view model
runs two proxy slots, a primary and a secondary. Each slot has its own
dnscrypt-proxy service, its own persisted parameter record and its own
selected resolver. This project models the orchestration logic of that view
model:

- startup: privilege and proxy-folder checks, reading the signed resolver
  list, matching each slot to a list entry by provider public key, the
  backup-resolver fallback, reading the running flags, and inferring the
  gateway option;
- deriving a slot's runtime parameters from a resolver entry and the options
  both slots share (TCP-only, plugins, acting as the global gateway);
- reloading a slot: persist its parameters, then restart its service;
- the start/stop toggle of a slot's service;
- the gateway switch;
- refreshing the resolver list;
- switching a network card to the local resolvers and back;
- uninstalling both services and the interface recovery pass that follows.

The collaborators become state the model owns:

- the persisted parameters of each slot;
- the status each service reports (installed, running, ready);
- whether a registry write succeeds;
- the nameserver list of every interface;
- the ordered log of calls made to the proxy managers.

The function `osTransition` decides what a service transition leaves behind.
Each asynchronous operation of the source is one atomic step in the model.

Files:

- `models.dfy`: the shared values (slots, entries, parameter records,
  service status, manager calls, global settings).
- `proxy_config.dfy`: parameter derivation and the startup options.
- `resolver_catalog.dfy`: matching by key, and the backup lookup by name.
- `interface_binding.dfy`: nameserver lists and the recovery pass
  bookkeeping.
- `main_view_model.dfy`: the `MainViewModel` class and its operations.

## Model

| member | source | states |
|---|---|---|
| ProxyConfig.ConvertProxyEntryToParameter | SimpleDnsCrypt/ViewModels/MainViewModel.cs:396-430 | The derived record describes exactly the entry (key, provider name, resolver name, address). Ephemeral keys are on. TCP-only and plugins come from the shared options. The bind address follows the slot and gateway rule. The resolver list path is the global one. |
| ProxyConfig.LocalAddressRule | SimpleDnsCrypt/ViewModels/MainViewModel.cs:413-427 | The secondary slot always binds to its own address, whatever the gateway option. The primary slot binds to the gateway address exactly when the option is set, and otherwise to the primary address. |
| ProxyConfig.InitialPlugins | SimpleDnsCrypt/ViewModels/MainViewModel.cs:113-129 | The startup plugin list is one of the two persisted lists. The primary list wins when it is non-empty. The result is empty only when both lists are. |
| ProxyConfig.ContainsTextMeans | SimpleDnsCrypt/ViewModels/MainViewModel.cs:202 | The gateway test holds exactly when the gateway address occurs as a substring of the primary bind address. |
| ResolverCatalog.SingleOrDefault | SimpleDnsCrypt/ViewModels/MainViewModel.cs:177-180 | A single match is a valid index whose element satisfies the predicate. |
| ResolverCatalog.SingleOrDefaultMeans | SimpleDnsCrypt/ViewModels/MainViewModel.cs:177-180 | No match holds exactly when no element satisfies the predicate. A single match is the only such element. The "several" outcome (the lookup throws) means two distinct elements satisfy it. |
| ResolverCatalog.LastIndexWithKey | SimpleDnsCrypt/ViewModels/MainViewModel.cs:146-161 | A found index is in range and its entry carries the key. |
| ResolverCatalog.LastIndexWithKeyMeans | SimpleDnsCrypt/ViewModels/MainViewModel.cs:146-161 | The found entry is the last one carrying the key. Nothing is found exactly when no entry carries it. |
| ResolverCatalog.RematchStep | SimpleDnsCrypt/ViewModels/MainViewModel.cs:146-159 | One more iteration of the catalog loop: a matching entry overwrites the slot's selection, and any other entry leaves it. |
| ResolverCatalog.RematchDerived | SimpleDnsCrypt/ViewModels/MainViewModel.cs:146-161 | Round trip: when public keys are unique, a record derived from a list entry is matched back to that same entry. |
| ResolverCatalog.BackupResolver | SimpleDnsCrypt/ViewModels/MainViewModel.cs:174-183 | A backup found is a list entry named as the primary or the secondary backup. |
| ResolverCatalog.BackupResolverMeans | SimpleDnsCrypt/ViewModels/MainViewModel.cs:174-183 | There is no backup exactly when neither name occurs. The secondary name is used only when the primary name is absent. An entry with the primary name wins unless that name is ambiguous. A backup found is the only entry with its name. The lookup is ambiguous exactly when two entries share the primary name, or the primary name is absent and two entries share the secondary name. |
| InterfaceBinding.NameserverList | SimpleDnsCrypt/ViewModels/MainViewModel.cs:589-609 | The list holds one address per contributing slot (selected, with a public key, ready). The primary address comes first and the secondary address last. |
| InterfaceBinding.NameserverListMembership | SimpleDnsCrypt/ViewModels/MainViewModel.cs:589-609 | Each slot address is present exactly when that slot contributes. The list has at most two entries and contains only the two slot addresses, never the gateway address as such. |
| InterfaceBinding.ClearedNameserversAt | SimpleDnsCrypt/ViewModels/MainViewModel.cs:680-689 | After the recovery pass, every interface reported as using DnsCrypt has an empty nameserver list. Every other interface keeps its list, or stays absent. |
| InterfaceBinding.CardIndexMeans | SimpleDnsCrypt/ViewModels/MainViewModel.cs:686-687 | The card lookup finds nothing exactly when no card has the description. When it finds one card, that card is the only one with the description. |
| ViewModels.ValidateDnsCryptProxyFolder | SimpleDnsCrypt/ViewModels/MainViewModel.cs:638-650 | The folder is valid exactly when every required proxy file exists. |
| ViewModels.StartupCheckPasses | SimpleDnsCrypt/ViewModels/MainViewModel.cs:76-183 | Startup succeeds exactly when all of these hold: the process is elevated, every proxy file exists, the resolver list is non-empty, and the primary slot gets a selection (by key, or one unambiguous backup). |
| ViewModels.ServiceActionFollowsStatus | SimpleDnsCrypt/ViewModels/MainViewModel.cs:459-479 | With a truthful running flag and a consistent status, the toggle stops exactly a running service, starts exactly an installed stopped one, and installs exactly a missing one. |
| ViewModels.MainViewModel.constructor | SimpleDnsCrypt/ViewModels/MainViewModel.cs:76-129 | `startupFailure` is the first failing check. Each field starts from the persisted records: TCP-only is on when either record asks for it, the plugins follow the startup plugin rule, the gateway option is off until inferred, and the selections, lists and running flags are empty. When startup passes, the list exists and the primary slot will get a selection. |
| ViewModels.MainViewModel.CheckStartup | SimpleDnsCrypt/ViewModels/MainViewModel.cs:76-183 | The checks run in the source's order (privileges, proxy folder, resolver list, backup), and the failure reported is that of the startup check. |
| ViewModels.MainViewModel.StartupOutcome | SimpleDnsCrypt/ViewModels/MainViewModel.cs:142-183 | The list is appended. The primary slot gets its key match or else the backup, and the secondary slot gets its key match. The secondary slot's parameters and service are untouched. A backup selection rederives and persists the primary record; otherwise nothing is written. |
| ViewModels.MainViewModel.CompleteStartup | SimpleDnsCrypt/ViewModels/MainViewModel.cs:142-216 | The cards are loaded and the selection follows `StartupOutcome`. The secondary running flag reads "installed and running". The primary flag reads the same, or stays as the backup's restart re-read it; with a consistent status both flags read "installed and running". The gateway option holds exactly when the primary bind address contains the gateway address. No slot is left busy. |
| ViewModels.MainViewModel.ReadStartupFlags | SimpleDnsCrypt/ViewModels/MainViewModel.cs:186-216 | Each running flag is set when its service is installed and running, and is never cleared. The gateway option holds exactly when the primary bind address contains the gateway address. |
| ViewModels.MainViewModel.SelectStartupResolvers | SimpleDnsCrypt/ViewModels/MainViewModel.cs:142-183 | The catalog loop and the backup fallback through the setter produce exactly `StartupOutcome`. Only the primary running flag can change: it is re-read exactly when the backup was taken, the registry write succeeded and the service was installed. |
| ViewModels.MainViewModel.MatchResolvers | SimpleDnsCrypt/ViewModels/MainViewModel.cs:144-161 | Every entry is appended in order. Each slot ends with the last entry carrying its persisted key, or keeps its selection when none does. |
| ViewModels.MainViewModel.RefreshResolverList | SimpleDnsCrypt/ViewModels/MainViewModel.cs:692-737 | After a successful update with a non-empty list, that list is appended without clearing and both slots are rematched. Otherwise the list and the selections are unchanged. The refreshing flag ends false. |
| ViewModels.MainViewModel.SetResolvers | SimpleDnsCrypt/ViewModels/MainViewModel.cs:238-247 | The list takes the value. An equal value changes nothing. |
| ViewModels.MainViewModel.ShowOverlay | SimpleDnsCrypt/ViewModels/MainViewModel.cs:347-351 | The count goes up by one. Afterwards the overlay is visible whenever the old count was not negative. |
| ViewModels.MainViewModel.HideOverlay | SimpleDnsCrypt/ViewModels/MainViewModel.cs:356-360 | The count goes down by one. Afterwards the overlay stays visible only if more than one dependency was pending. |
| ViewModels.MainViewModel.RestartService | SimpleDnsCrypt/ViewModels/MainViewModel.cs:432-452 | There is exactly one restart call, made while the slot is busy. Only that slot's status changes. The running flag is re-read, and the slot is idle afterwards. |
| ViewModels.MainViewModel.ReloadResolver | SimpleDnsCrypt/ViewModels/MainViewModel.cs:362-394 | Without a selection nothing happens. With one, the record is rederived from the selection and the options, and then persisted. The slot is restarted only when the write succeeded and the service is installed. The other slot's record, service and running flag are untouched. |
| ViewModels.MainViewModel.SetResolver | SimpleDnsCrypt/ViewModels/MainViewModel.cs:249-271 | An equal value changes nothing. A new value is stored and that slot alone is reloaded. The slot's running flag is re-read exactly when the reload restarts it, and every other flag keeps its value. |
| ViewModels.MainViewModel.SetUseTcpOnly | SimpleDnsCrypt/ViewModels/MainViewModel.cs:810-821 | An equal value changes nothing. A new value is stored, and then the primary and the secondary slot are reloaded, in that order, with the new option. Each slot's running flag is re-read exactly when its reload restarts it, and otherwise keeps its value. |
| ViewModels.MainViewModel.OpenPluginManager | SimpleDnsCrypt/ViewModels/MainViewModel.cs:791-808 | A cancelled dialog changes nothing. A confirmed dialog stores the chosen list and reloads both slots with it, with no equality check. Each slot's running flag is re-read exactly when its reload restarts it, and otherwise keeps its value. |
| ViewModels.MainViewModel.HandleGlobalResolver | SimpleDnsCrypt/ViewModels/MainViewModel.cs:750-779 | Only the primary bind address changes. It is persisted, and the primary service is restarted whatever the write returned and whether or not the service is installed. The primary running flag is re-read. |
| ViewModels.MainViewModel.SetActAsGlobalGateway | SimpleDnsCrypt/ViewModels/MainViewModel.cs:739-748 | The option is stored and the primary slot is rebound to the matching address, persisted and restarted. The primary running flag is re-read. The secondary slot's record, service and flag are untouched. |
| ViewModels.MainViewModel.HandleService | SimpleDnsCrypt/ViewModels/MainViewModel.cs:454-563 | There is exactly one transition, made with the slot busy: stop if the cached flag says running, else start if installed, else install. The running flag is re-read and the other slot is untouched. |
| ViewModels.MainViewModel.SetResolverRunning | SimpleDnsCrypt/ViewModels/MainViewModel.cs:304-322 | The assigned value is ignored and the toggle runs for that slot: the same single transition and resulting status as the toggle, the re-read flag, and the other slot untouched. |
| ViewModels.MainViewModel.LoadNetworkCards | SimpleDnsCrypt/ViewModels/MainViewModel.cs:565-576 | The card list is replaced by the enumeration, in order. |
| ViewModels.MainViewModel.SetShowHiddenCards | SimpleDnsCrypt/ViewModels/MainViewModel.cs:273-282 | The flag is stored and the cards are reloaded with it. |
| ViewModels.MainViewModel.NetworkCardClicked | SimpleDnsCrypt/ViewModels/MainViewModel.cs:578-613 | A null card changes nothing. A card in use is cleared and marked unused. Any other card gets exactly the nameserver list of the contributing slots and is marked used, even when that list is empty. |
| ViewModels.MainViewModel.RecoverNetworkInterfaces | SimpleDnsCrypt/ViewModels/MainViewModel.cs:680-689 | Every interface reported as using DnsCrypt, up to the first failing lookup, has its nameservers cleared and its card marked unused. A reported fault is the first interface whose card lookup fails. |
| ViewModels.MainViewModel.UninstallServices | SimpleDnsCrypt/ViewModels/MainViewModel.cs:656-690 | A confirmed uninstall makes one uninstall call per slot, primary first. Whatever the answer, both running flags are re-read (so they are truthful) and the recovery pass runs. |

## Left out

- User interface: message boxes, the window manager, localisation, `DisplayName`, the slot titles (`PrimaryResolverTitle`/`SecondaryResolverTitle`), property-change notifications and the collection view around the cards.
- Asynchrony: `Task.Run`, `await` and the fixed `Thread.Sleep` settle delays (including the 2-second floor of the list refresh) are not modelled. Each operation is one atomic step, so interleavings of concurrent operations are not covered.
- The proxy managers, the list manager and the interface manager are not part of this model. Their effects are owned state (persisted records, service statuses, writable registry, nameservers, call log) and the oracle `osTransition`.
- `IsAdministrator` is a parameter, and `File.Exists` is the set of existing files.
- The download of a missing resolver list at startup (`UpdateResolverListAsync`, which is not awaited) is left out. The model receives what reading the list returns.
- Verifying the list's signature is left out. `RefreshResolverList` receives whether the update succeeded and what was read.
- The debug-mode message boxes after a service transition, and the `IsDebugModeEnabled` and `IsWorkingOn*Service` property setters, are left out. The busy flags are fields that the operations set and reset.
- ViewModels.MainViewModel.constructor: the source constructor is split here into `constructor` (field set-up and the checks) and `CompleteStartup` (cards, selection, running flags, gateway option), which the caller runs next. In the source, the cards are loaded when `ShowHiddenCards` is first assigned, before the list is read. A failing check ends the process, so the different order does not show.
- ViewModels.MainViewModel.SetResolvers: list equality is value equality, while the source compares `List` references. An equal but distinct list is re-assigned in the source, with the same contents.
- ViewModels.MainViewModel.ShowOverlay, ViewModels.MainViewModel.HideOverlay: the dependency counter is an unbounded integer. The 32-bit wrap-around of the source's increment and decrement is not modelled.
- A call on a slot whose operation is still in flight: the source does not reject it. The model runs every operation as one atomic step from an idle state (`Valid()`), so it cannot express such a call or the interleaving.
- Null persisted provider keys and null entry fields are not modelled. A null value passed to the resolver setters is not modelled either; the source dereferences it.
- ViewModels.MainViewModel.SetResolver: the setters compare the new entry with the current one using value equality of the entry's fields. The source calls `Equals` on the entry class, and that class is not part of this model. If it keeps reference equality, an equal-fielded entry from a later list reloads the slot in the source, while the model changes nothing.
- Behaviour of the code kept as written:
  - The gateway switch restarts the primary service even when the registry write failed or the service is not installed.
  - The catalog loop keeps the last entry with a matching key, not the first.
  - The refresh appends to the list without clearing it.
  - Switching a card on with no ready slot still marks the card as used, with an empty nameserver list.
