# A verified model of wirefinder

wirefinder runs a privileged daemon that owns a list of WireGuard tunnels, brings one of them up on a single
interface, and switches between them without letting traffic out in between. This project models the daemon and the two
client pieces that carry a protocol of their own, and proves what they keep over whole runs.

| file | what it models |
|---|---|
| `Prefix.dfy` | IP addresses and prefixes, 32- and 128-bit mask arithmetic |
| `Kernel.dfy` | the kernel as state: interface, `ip rule`s, main-table routes, nft tables, resolver; one operation per `WgOps` method, each of which may fail |
| `Routes.dfy` | longest-prefix lookup and what the route operations do to it |
| `Nft.dfy` | the packet-filter script generator as a small compiler: commands, an interpreter for them, packets |
| `Tunnel.dfy` | parsing and validating a stored tunnel, finding its endpoint |
| `Switch.dfy` | `switch`, `disconnect`, `bring_up_with`, `apply_dns`, route synchronisation, as functions and as a class over a device |
| `SwitchSafety.dfy`, `SwitchTarget.dfy`, `SwitchMarks.dfy` | what every step of a switch keeps; where a successful switch ends; the device's mark and the rule that names it |
| `SwitchValues.dfy` | what a switch puts on the interface, item by item in terms of the stored text; which address; why it refuses |
| `SwitchHistory.dfy`, `SwitchProgress.dfy`, `SwitchOrder.dfy` | runs of switches; that switches succeed; the order of their operations and which failures end them |
| `Config.dfy`, `Store.dfy` | the vector of tunnels; the state file over a file system that can lose power after any step |
| `Daemon.dfy` | requests, responses, the connecting window; a class that serves requests |
| `DaemonDurability.dfy` | the daemon and its state file on a machine that loses power |
| `DaemonSafety.dfy`, `DaemonViews.dfy`, `DaemonKillSwitch.dfy`, `DaemonRefinement.dfy` | runs of the daemon: validity, disk, window; list and status; the kill switch; refinement of a machine with a map and a live key |
| `DaemonValues.dfy` | what requests store, cache and show, field by field |
| `KernelSecrecy.dfy`, `DaemonSecrecy.dfy` | two-run secrecy |
| `WgConf.dfy`, `WgConfLayout.dfy`, `WgConfEdits.dfy`, `WgConfSheets.dfy` | the wg-quick parser against a declarative reading; a printer; layout; edits of whole texts; repeated, missing and meaningless lines |
| `ImportRoundTrip.dfy` | an import from the file's text to the stored tunnel |
| `RefreshHook.dfy`, `RefreshView.dfy`, `ServerForm.dfy` | the dashboard's refresh protocol; what it shows and asks for; the form's round trip and what it stores |
| `Witnesses.dfy` | concrete runs at which documented behaviour fails |
| `Basics.dfy`, `Text.dfy` | options and sequences; trimming, comma lists, decimals |

How the outside is modelled. Every kernel operation reads its outcome (success, failure, what a failure leaves behind,
the values the kernel picks, handshake statistics) from an oracle indexed by a step count, so a claim about every oracle
is a claim about every pattern of failures. A request comes with both clocks, a generated key, the resolver's answer and
how its save goes. Key parsing, key derivation and address parsing are parameters (`Tunnel.Lib`). The steps of a save take
their outcomes from an oracle too. The effects of the kernel operations are the ones that the module documentation of
`daemon/src/wireguard.rs` states (lines 15-41, 106-133, 267-291, 439-440); they are assumptions, and everything above
them is proved.

Where the source changes something in place (the vector of servers, the daemon's fields, the kernel, the disk, the
parser's accumulators, the hook's refs, the form's state) the model is a class or a method with loops, and its contract equates the new state
with a specification function; the theorems are about that function.

## Main results

`SwitchSafety.RulesStayUntilDisconnect`, `SwitchSafety.KillSwitchOverRuns`,
`DaemonKillSwitch.KillSwitchUntilDisconnect`, `SwitchMarks.AgreesIff`, `SwitchMarks.DisagreementLasts`,
`SwitchSafety.CommonPrefixNeverLeaves`, `SwitchSafety.CommonDestinationStaysInside`, `SwitchTarget.SwitchReaches`,
`SwitchTarget.DisconnectReaches`, `SwitchTarget.AllowedIpsGoThroughTunnel`, `SwitchValues.SwitchConfigures`,
`SwitchValues.ValidationReason`, `SwitchHistory.HistoryIndependence`, `SwitchProgress.SwitchSucceeds`,
`SwitchOrder.SwitchIsOrdered`, `Prefix.CanonicalEqualIffSameSet`, `Nft.ScriptInstalls`, `Nft.DropsExactly`,
`Nft.LastScriptWins`, `Store.CrashConsistency`, `Store.OkIsKept`, `Store.OkIsDurableIff`, `WgConf.Parse`,
`WgConfLayout.ParsePrint`, `WgConfSheets.ParseSheet`, `WgConfEdits.EditedTextsParseAlike`, `DaemonValues.EditStores`,
`DaemonValues.OutageFallsBack`, `DaemonValues.FilterFinds`, `DaemonSafety.RunKeepsValid`,
`DaemonSafety.StoredTunnelsParse`, `DaemonDurability.WhatLoadsWasHeld`, `DaemonDurability.AnsweredIsKept`,
`DaemonSafety.ConnectingNeedsASwitch`, `DaemonViews.SoleActiveIff`, `DaemonViews.ViewsAgreeIff`,
`DaemonRefinement.DaemonRefines`, `DaemonSecrecy.ResponsesRevealNothing`, `RefreshHook.OfflineIffThreeFailures`,
`RefreshHook.RaceExactly`, `RefreshView.ShowsTheLast`, `ServerForm.SavingUntouchedIsANoOp`,
`ServerForm.SavingStoresTheForm`. The methods in the table below tie the code's own form to the specification functions
these are about, and the other lemmas lead up to them.

## Model

| member | source | states |
|---|---|---|
| Prefix.NetworkPrefixIdempotent | daemon/src/wireguard.rs:306-314 | a network prefix is its own network prefix, so canonicalising twice is canonicalising once, at both widths |
| Prefix.NetworkPrefixSameSet | daemon/src/wireguard.rs:302-314 | clearing host bits does not change which addresses the prefix covers |
| Prefix.CanonicalEqualIffSameSet | daemon/src/wireguard.rs:733-742 | two canonical prefixes are equal exactly when they cover the same addresses, so comparing what was installed with what is read back compares sets |
| Prefix.ShorterIsLarger | daemon/src/wireguard.rs:306-314 | a shorter prefix covers an address that a longer one of its family does not, so different lengths never denote one set |
| Prefix.MaskBits | daemon/src/wireguard.rs:306-314 | bit by bit, a mask of length n is the n high bits of its width |
| Nft.BuildNftScript | daemon/src/wireguard.rs:348-393 | the nested loops over families and addresses build the script that the other theorems are about |
| Nft.ScriptInstalls | daemon/src/wireguard.rs:348-393 | on any prior ruleset the script runs without an error and leaves exactly the guard tables for its addresses and mark |
| Nft.ScriptFrame | daemon/src/wireguard.rs:316-361 | tables of other programs are untouched; ours exists for exactly the families that have an address, so with no address the script is pure teardown |
| Nft.DropsExactly | daemon/src/wireguard.rs:329-336 | after the script a packet is dropped exactly when it is for a tunnel address, arrives on another interface and is not locally sourced |
| Nft.ChainsExactly | daemon/src/wireguard.rs:318-322 | in the table named wirefinder of each guarded family: the drop at raw priority -300, before connection tracking, the mark pair at mangle priority -150 when the mark is usable, and no other chain |
| Nft.MarkRulesExactly | daemon/src/wireguard.rs:337-340 | the mark rules exist exactly when the mark is known and not zero and the family has an address, and they carry that mark |
| Nft.MarkIsSticky | daemon/src/wireguard.rs:337-340 | a reply on a UDP flow sent with the tunnel's mark gets that mark back; another flow is not marked |
| Nft.ScriptReplaces | daemon/src/wireguard.rs:350-355 | what our tables held before a script does not matter to its result |
| Nft.LastScriptWins | daemon/src/wireguard.rs:120-126 | any sequence of scripts ends where its last script alone would; one script twice is that script once |
| Kernel.Device.Do | daemon/src/wireguard.rs:110-133 | one `WgOps` call: the kernel after it, its reply, the oracle's advance and the trace are those of the documented effect |
| Routes.LookupIsBest | daemon/src/wireguard.rs:276-291 | the lookup finds a route that covers the destination and that no covering route beats, longest prefix first, then metric |
| Routes.InstalledPrefixWins | daemon/src/wireguard.rs:286-291 | a prefix whose metric-0 route is ours alone wins against every foreign route that is not strictly more specific |
| Routes.PutAllElements | daemon/src/wireguard.rs:276-285 | what the library's own route additions for a peer without a default route add and displace |
| Tunnel.BuildPeer | daemon/src/wireguard.rs:251-274 | the loop that fills a peer field by field yields the peer of the specification, or its first error in the source's order; what that peer carries is in the rows of `SwitchValues` |
| Tunnel.PeerOfExactly | daemon/src/wireguard.rs:192-208 | a peer can be built exactly when its fields parse and an endpoint is found, and it carries that endpoint; which one is found is in `SwitchValues.PeerIsPreferred` |
| Tunnel.ValidateExactly | daemon/src/wireguard.rs:137-155 | validation accepts exactly the well-formed tunnels whose endpoint can be found, and returns that endpoint |
| Tunnel.PlanExactly | daemon/src/wireguard.rs:487-500 | exactly when the parse phase of a switch succeeds |
| Tunnel.PlanNeverFails | daemon/src/wireguard.rs:190-208 | the parse phase succeeds whatever the resolver answers, exactly when the fields parse and the endpoint is a literal or has a usable cached address |
| Switch.KernelWireguard.BringUp | daemon/src/wireguard.rs:446-453 | create, its failure ignored, then configure |
| Switch.KernelWireguard.SetDns | daemon/src/wireguard.rs:459-470 | a failed reset is swallowed, a failed configuration is not |
| Switch.KernelWireguard.TearDown | daemon/src/wireguard.rs:474-485 | remove the interface, then clear the firewall; the answer is the removal's |
| Switch.KernelWireguard.SyncRoutes | daemon/src/wireguard.rs:645-655 | installs in order up to the first failure, reads back, deletes what is stale; as a function of the oracle |
| Switch.KernelWireguard.Configure | daemon/src/wireguard.rs:502-518 | warm with the preserved mark when the interface reads, else cold without one |
| Switch.KernelWireguard.Switch | daemon/src/wireguard.rs:487-546 | the whole switch, operation by operation, equals the specification function |
| SwitchSafety.SwitchKeeps | daemon/src/wireguard.rs:487-546 | whatever every operation of a plan keeps, a switch to that plan keeps, however far it gets |
| SwitchSafety.SwitchIssues | daemon/src/wireguard.rs:439-453 | a switch issues only its plan's operations: never a removal, never a firewall clear, never a delete of a wanted prefix; if parsing fails, nothing at all |
| SwitchSafety.SwitchFailsClosed | daemon/src/wireguard.rs:502-518 | the rules in place when a switch starts, and every rule that one of its own steps installs, are in place in every later kernel state of it, whether it succeeds or fails, warm or cold |
| SwitchSafety.RulesStayUntilDisconnect | daemon/src/wireguard.rs:474-546 | event by event over any run of switches and restarts without a disconnect: nothing is torn down, and a rule that is there after any operation, one of a failed switch included, is there after every later one and at the end |
| SwitchSafety.FullTunnelInstallsRules | daemon/src/wireguard.rs:520-522 | a successful switch to a full tunnel leaves the kill switch installed |
| SwitchSafety.KillSwitchOverRuns | daemon/src/wireguard.rs:15-26 | over any such run, once a default route has been routed, every later kernel state has the kill switch, however the switch that routed it ended |
| SwitchSafety.FullTunnelArms | daemon/src/wireguard.rs:520-546 | a switch to a full tunnel that gets past routing has armed the kill switch from there on, even if the sync, the firewall or DNS then fails |
| SwitchSafety.CommonPrefixNeverLeaves | daemon/src/wireguard.rs:639-643 | a prefix that the old and the new server carry has a route into the tunnel in every kernel state of the switch |
| SwitchSafety.CommonDestinationStaysInside | daemon/src/wireguard.rs:639-643 | a destination in such a prefix, installed before, is looked up into the tunnel in every kernel state of the switch, unless a strictly longer prefix takes it: never out on the local link, not for an instant |
| SwitchSafety.SyncSparesForeign | daemon/src/wireguard.rs:629-633 | a route not tagged as ours survives a sync unless an install replaced it at the same prefix and metric |
| SwitchTarget.InstallEffect | daemon/src/wireguard.rs:646-648 | installs add exactly the prefixes, lose nothing of ours, and leave nothing foreign at metric 0 on them |
| SwitchTarget.PruneEffect | daemon/src/wireguard.rs:649-653 | deletes remove nothing that is not stale, and everything stale when all of them succeed |
| SwitchTarget.SyncEffect | daemon/src/wireguard.rs:645-655 | a sync leaves a superset of what is wanted and nothing new; when its best-effort steps succeed, exactly what is wanted and the default routes the read-back cannot see |
| SwitchTarget.FailedSyncPrunesNothing | daemon/src/wireguard.rs:639-648 | if an install fails, everything we owned is still there |
| SwitchTarget.StaleIsSetDifference | daemon/src/wireguard.rs:733-742 | on canonical lists, stale means installed and covering the same addresses as no wanted prefix |
| SwitchTarget.HostBitsWouldBePruned | daemon/src/wireguard.rs:302-305 | had an install masked such a prefix, its route would be read back as the network prefix, would be stale exactly when that is not on the list itself, and the delete would take it away again |
| SwitchTarget.HostBitsFailTheInstall | daemon/src/wireguard.rs:302-305 | a list with a prefix that has host bits set never installs, since `ip route` rejects it |
| SwitchTarget.SplitPrefixElements | daemon/src/wireguard.rs:292-300 | the split prefixes are exactly the network prefixes of the AllowedIPs with a specified address |
| SwitchTarget.ReconfigureEffect | daemon/src/wireguard.rs:502-518 | afterwards the interface has this tunnel's key, addresses, peer and configured port; an MTU that is not set is inherited; routes of ours, tables and resolver are as before |
| SwitchTarget.RoutingEffect | daemon/src/wireguard.rs:267-291 | routing adds to our routes at most what the split prefixes want |
| SwitchTarget.SwitchReaches | daemon/src/wireguard.rs:487-546 | from any kernel state, a successful switch ends with this tunnel's identity, guard tables and routes, and with exactly its routes and resolver when the best-effort steps succeed; the mark that the guard tables save is the device's, or none if a read of the interface failed |
| SwitchTarget.AllowedIpsGoThroughTunnel | daemon/src/wireguard.rs:276-291 | after a successful switch a destination in a non-default AllowedIP leaves through the tunnel unless a foreign route is strictly more specific |
| SwitchTarget.OwnedRoutesAreAllowed | daemon/src/wireguard.rs:523-526 | and then every route of ours denotes an AllowedIP of the active peer, or is a default route that was ours before |
| SwitchTarget.DisconnectReaches | daemon/src/wireguard.rs:90-93 | a successful disconnect ends without an interface, kill-switch rules, resolver or routes on the interface, with every other route in place; if the clear succeeds none of our tables is left and those of other programs are untouched, and if it fails the tables stay |
| SwitchOrder.DisconnectIssues | daemon/src/wireguard.rs:474-485 | a disconnect removes, then clears whatever became of the removal, and answers with the removal's result; a clear that succeeds leaves none of our tables and every other one |
| SwitchValues.SwitchConfigures | daemon/src/wireguard.rs:487-546 | after a successful switch, in terms of the stored text item by item: the private key, the addresses, the port and MTU that are set, and one peer with the stored public key, preshared key (or none), keepalive and AllowedIPs, at the answered address; and the stored resolvers, or none, once the best-effort steps succeed |
| SwitchValues.PlanCarries | daemon/src/wireguard.rs:251-274 | the same of the plan that the route and rule theorems speak of: its peer, addresses and resolvers are the stored text parsed in order, its endpoint the preferred one, and it is a full tunnel exactly when an AllowedIP has the address zero |
| SwitchValues.SwitchGuards | daemon/src/wireguard.rs:329-336 | after a successful switch our tables drop a packet exactly when it is for one of the stored addresses, arrives on an interface other than `wirefinder`, and is not locally sourced; no earlier tunnel's address is guarded any more |
| SwitchValues.PeerIsPreferred | daemon/src/wireguard.rs:186-208 | the peer's address is the literal one if the endpoint is literal, else what the resolver just said, and the cached one only when it said nothing |
| SwitchValues.ValidationReason | daemon/src/wireguard.rs:137-155 | validation refuses with the first reason that is true of the tunnel, in the source's order, and not at all if none is |
| SwitchValues.SwitchReason | daemon/src/wireguard.rs:487-518 | a switch refused by its parse phase leaves the kernel alone and names the first such reason; refused later, the private key does not parse or an operation failed |
| SwitchProgress.SwitchSucceeds | daemon/src/wireguard.rs:487-546 | with every operation succeeding, the first read perhaps excepted, a well-formed tunnel whose plan parses is switched to from any kernel state: warm, cold or stale |
| SwitchOrder.SwitchIsOrdered | daemon/src/wireguard.rs:487-546 | a switch issues its operations in the order create, configure, route, install every route, list, prune, guard, resolver; it succeeds exactly when every mandatory one does (a failed create, read, listing, delete or resolver reset is passed over), and the first that fails is the last it issues |
| SwitchProgress.DisconnectSucceeds | daemon/src/wireguard.rs:474-485 | with every operation succeeding a tunnel that is up comes down, with everything that came with it, our tables included |
| SwitchMarks.SwitchMark | daemon/src/wireguard.rs:502-522 | exactly which mark and which rules a successful switch leaves: the mark that was read, or the one routing picks |
| SwitchMarks.MarkIsKept | daemon/src/wireguard.rs:502-511 | a live interface that could be read keeps its mark through a successful switch |
| SwitchMarks.MarkThroughout | daemon/src/wireguard.rs:15-26 | warm, the device carries its mark in every kernel state of a switch, successful or not, short of the state that a failed configuration leaves, where the switch ends |
| SwitchMarks.TransientReadClearsTheMark | daemon/src/wireguard.rs:435-453 | on the cold path a live interface is configured without its mark while the rule that exempts it stays |
| SwitchMarks.AgreesIff | daemon/src/wireguard.rs:435-453 | exactly when rule and device agree after a switch from an armed, agreeing kernel: the first read succeeded, or routing happens to pick the old mark again |
| SwitchMarks.DisagreementLasts | daemon/src/wireguard.rs:435-453 | once the rules exempt two different marks, rule and device disagree in every kernel state of every run until a disconnect |
| SwitchMarks.TransientReadLasts | daemon/src/wireguard.rs:435-453 | which is where one failed read on the way to another full tunnel leads, unless routing picks the old mark again |
| SwitchHistory.RunKeepsNoDefault | daemon/src/wireguard.rs:292-300 | no run without a non-zero address written `/0` makes a default route ours |
| SwitchHistory.HistoryIndependence | daemon/src/wireguard.rs:455-546 | after any run of switches, failed switches, disconnects and restarts, a successful switch leaves the same key, addresses, peers, configured port, owned routes, nft tables up to the mark, and resolver as the same switch on any other kernel, a cold one included |
| SwitchHistory.SameTables | daemon/src/wireguard.rs:348-393 | what two scripts for one tunnel leave on any two rulesets, per family: a table in both or in neither, the same guard chain, nothing else but mark chains, and the same table altogether when they save the same mark |
| SwitchHistory.RoutesExactIff | daemon/src/wireguard.rs:717-731 | exactly when the routes come out as wanted: no unwanted default route was ours before |
| SwitchHistory.BenignRoutesAreExact | daemon/src/wireguard.rs:645-655 | over every history without a non-zero address written `/0`, a settled switch leaves exactly the routes it wants |
| SwitchHistory.OwnedDefaultOutlives | daemon/src/wireguard.rs:717-731 | a default route that became ours stays ours through any run of switches that do not want it, until a disconnect |
| SwitchHistory.SlashZeroIsNeverPruned | daemon/src/wireguard.rs:292-300 | so after a successful switch to a plan with a `/0` prefix and any run without it, a successful switch without it still ends with that route |
| SwitchHistory.NonZeroSlashZero | daemon/src/wireguard.rs:292-300 | a prefix that starts it: `0.0.0.1/0` passes the filter, becomes `0.0.0.0/0`, and is not read back |
| Config.Servers.FindServer | daemon/src/config.rs:41-43 | the first entry of that name |
| Config.Servers.UpsertServer | daemon/src/config.rs:47-55 | replaces the first entry of the name in its place or appends, and says which |
| Config.Servers.RemoveServer | daemon/src/config.rs:58-62 | drops every entry of the name, and says whether there was one |
| Config.UpsertLookup | daemon/src/config.rs:45-55 | after an upsert the name finds the new entry and every other name what it found before |
| Config.RemoveLookup | daemon/src/config.rs:57-62 | after a removal the name finds nothing and every other name what it found before |
| Config.UpsertUnique | daemon/src/config.rs:45-55 | an upsert keeps names unique |
| Config.RemoveUnique | daemon/src/config.rs:57-62 | a removal keeps names unique |
| Config.RemoveShrinks | daemon/src/config.rs:58-62 | the length changes exactly when the name was there |
| Config.UpsertAt | daemon/src/config.rs:47-52 | an entry of that name is replaced where it stands, and the order of the list stays |
| Config.UpsertMissing | daemon/src/config.rs:53-55 | and without one the new entry comes last |
| Store.Disk.Do | daemon/src/config.rs:168-203 | one file-system step and its outcome |
| Store.StateFile.WritePrivate | daemon/src/config.rs:193-203 | open and truncate, write, sync, stopping at the first failure |
| Store.StateFile.SaveConfig | daemon/src/config.rs:168-189 | the steps of a save in the source's order, stopping at the first failure, the directory steps only with a parent |
| Store.RecoveryLoads | daemon/src/config.rs:153-161 | whatever a loss of power brings back loads, and is one of the configurations that may be there |
| Store.SaveKeeps | daemon/src/config.rs:163-189 | every state a save passes can only bring back what could come back before or the new configuration; its Ok narrows that to the new one |
| Store.SaveIsVisible | daemon/src/config.rs:168-189 | with the power on, a save that answered Ok is what loads next, and one that failed left the old or the new configuration |
| Store.LifeKeeps | daemon/src/config.rs:163-189 | one save, cut save or outage: the disk stays sound for what the history then allows, and after a loss of power exactly one configuration loads |
| Store.CrashConsistency | daemon/src/config.rs:153-203 | over any sequence of saves, cut saves and losses of power the file always loads, to a configuration that the history allows, where what is allowed is computed from the answers and from whether the directory is there and its own entry on the medium; leftover temporary files make no difference |
| Store.AllowedIsSaved | daemon/src/config.rs:163-189 | nothing is allowed but what was there and what was handed to a save, and an empty configuration only while the directory itself may vanish |
| Store.OkIsKept | daemon/src/config.rs:163-189 | once a save answered Ok on a directory that cannot vanish, whatever follows, the file holds what that save wrote or what a later one was given |
| Store.FreshHistory | daemon/src/config.rs:153-203 | from a fresh install, what loads was once handed to a save, or is the empty configuration |
| Store.OkIsDurableIff | daemon/src/config.rs:163-189 | after whatever saves, failed and cut ones included, a save of a new configuration that answered Ok is durable exactly when the path has a directory and that directory's own entry was already on the medium |
| Store.FirstSavesCanVanish | daemon/src/config.rs:168-189 | a run: a first save creates the directory, answers Ok, and is gone after a loss of power; and so is a second save on top of it |
| WgConf.Parse | daemon/src/wgconf.rs:82-196 | the line loop succeeds exactly on files that satisfy the grammar and returns their declarative meaning; an error names a line, or a part that the whole file lacks, of which it is true; the two `expect`s are unreachable |
| WgConf.Assemble | daemon/src/wgconf.rs:158-196 | the required parts, each missing one reported for what it is, and the default for missing AllowedIPs |
| WgConf.LineSnoc | daemon/src/wgconf.rs:87-156 | what one more line adds to the declarative reading |
| WgConf.TracksIfacePair | daemon/src/wgconf.rs:127-139 | a pair of the interface section is refused only if the file is ruled out, and otherwise the accumulator follows the reading |
| WgConf.TracksPeerPair | daemon/src/wgconf.rs:140-155 | the same for a peer's section |
| WgConf.ErrorIsFinal | daemon/src/wgconf.rs:87-156 | what rules out the lines so far rules out the file |
| WgConf.ScalarsAreTrimmed | daemon/src/wgconf.rs:121-123 | the keys and the endpoint that a file gives have no white space at their ends |
| WgConfLayout.ParsePrint | daemon/src/wgconf.rs:82-196 | parsing the printed form of any printable configuration gives it back, values with `=` included |
| WgConfSheets.ParseSheet | daemon/src/wgconf.rs:120-196 | a printed file whose lists are spread over any number of lines and whose numbers are given any number of times: lists add up in order, the last number counts, and a file without AllowedIPs gets `0.0.0.0/0` |
| WgConfSheets.PrintedParsesIff | daemon/src/wgconf.rs:60-80 | a printed file parses exactly when each required scalar is given once, the preshared key at most once, some address at all, and every number, the replaced ones included, is in range |
| WgConfSheets.LineRefused | daemon/src/wgconf.rs:101-126 | one malformed line, a pair before the first section, or a section opened twice rules out the file, wherever it stands |
| WgConfSheets.ForeignPairIgnored | daemon/src/wgconf.rs:127-155 | a pair whose key means nothing in its section, one of the other section's included, makes no difference |
| WgConfLayout.SameSignificantSameMeaning | daemon/src/wgconf.rs:97-100 | blank and comment lines change nothing, wherever they stand |
| WgConfLayout.BlankLineSkipped | daemon/src/wgconf.rs:89-100 | a line of white space, with or without a comment, is such a line |
| WgConfLayout.CommentIgnored | daemon/src/wgconf.rs:93-97 | a comment at the end of a line changes nothing |
| WgConfLayout.PaddingIgnored | daemon/src/wgconf.rs:97 | white space around a line changes nothing |
| WgConfLayout.KeyCaseIgnored | daemon/src/wgconf.rs:121-128 | the case of a key and the space around `=` change nothing |
| WgConfLayout.HeaderCaseIgnored | daemon/src/wgconf.rs:102-120 | the case of a section name and the space in its brackets change nothing |
| WgConfLayout.SectionsSwap | daemon/src/wgconf.rs:102-156 | the two sections may come in either order, each with the blank lines and comments before it |
| WgConfLayout.CrlfIgnored | daemon/src/wgconf.rs:87-92 | CRLF line endings change nothing, for any text |
| WgConfEdits.EditKeepsMeaning | daemon/src/wgconf.rs:82-196 | one edit of a file's lines, of any of these kinds, leaves its meaning as it was |
| WgConfEdits.EditedTextsParseAlike | daemon/src/wgconf.rs:82-196 | two texts that differ by any number of these edits, done or undone, and by their line endings, parse to the same configuration or are both refused |
| Text.CsvRoundTrip | daemon/src/wgconf.rs:51-58 | a list survives joining and splitting exactly when every item is trimmed, non-empty and without a comma |
| Text.CsvGivesItems | daemon/src/wgconf.rs:51-58 | whatever is read from a comma list is such an item |
| Text.TrimsExactly | daemon/src/wgconf.rs:97 | exactly which characters are trimmed away, on ASCII |
| Text.ParseDecimal | daemon/src/wgconf.rs:74-78 | a number in range written in decimal parses to itself |
| Text.ParseNumIff | daemon/src/wgconf.rs:74-78 | exactly which texts are numbers: a decimal below the limit, after any zeros and at most one plus sign |
| Daemon.Daemon.constructor | daemon/src/daemon.rs:62-70 | a daemon starts from what the file holds, with no connecting window |
| Daemon.Daemon.AddTunnel | daemon/src/daemon.rs:102-132 | the new vector, file and answer of an add |
| Daemon.Daemon.ImportTunnel | daemon/src/daemon.rs:136-151 | an import is an add of what the parser read, or a refusal |
| Daemon.Daemon.EditTunnel | daemon/src/daemon.rs:173-228 | the checks of an edit in order, and the new state of the specification function, whose values `DaemonValues.EditStores` gives |
| Daemon.Daemon.RemoveTunnel | daemon/src/daemon.rs:153-158 | the new state of a removal |
| Daemon.Daemon.ConnectTo | daemon/src/daemon.rs:354-380 | the switch, the window it opens, the refreshed endpoint cache and its unreported save |
| Daemon.Daemon.DropTunnel | daemon/src/daemon.rs:382-388 | the disconnect, and the window it closes only on success |
| Daemon.Daemon.Serve | daemon/src/daemon.rs:310-390 | one request: response and new state are those of the specification function |
| ImportRoundTrip.ImportStores | daemon/src/daemon.rs:136-151 | an import that succeeds stores exactly the file's fields under the trimmed name, with the endpoint found, and leaves every other name alone |
| ImportRoundTrip.PrintedImports | daemon/src/daemon.rs:134-151 | end to end: a printable configuration in wg-quick form is stored as it was |
| WgConfSheets.SheetImports | daemon/src/daemon.rs:136-151 | an import of such a file stores just what it adds up to; one without AllowedIPs is stored with `0.0.0.0/0` |
| DaemonSafety.RunKeepsValid | daemon/src/daemon.rs:102-228 | in every state of every run from a valid one, restarts included, all that is stored in memory and in the file is well-formed, has a usable cached endpoint, and has unique, trimmed, non-empty names |
| DaemonSafety.RunFromEmpty | daemon/src/daemon.rs:62-70 | in particular in every run from an empty configuration |
| DaemonSafety.StoredTunnelsParse | daemon/src/daemon.rs:354-380 | switching to a stored tunnel is refused only when a kernel operation fails, whatever the resolver answers |
| DaemonSafety.KeysAlwaysDerive | daemon/src/daemon.rs:196-201 | in a valid state no tunnel lists with the placeholder, and an edit is decided by the active check and validation alone |
| DaemonSafety.ChangeOutcome | daemon/src/daemon.rs:95-228 | a change answers with the list exactly when it was saved, and then file and memory agree; a validation failure changes neither; refused as not saved, memory holds what it would hold had the save gone well, and the file is the old one or equals memory; no change touches the kernel or the window |
| DaemonSafety.FileLagsIff | daemon/src/daemon.rs:95-97 | exactly when a change leaves the file behind memory: refused as not saved, the old file still in place, and something changed |
| DaemonSafety.OthersKeepConfig | daemon/src/daemon.rs:310-390 | no other request changes the configuration, except that a switch may refresh the cached endpoint of the tunnel it connects |
| DaemonSafety.RestartAfterSuccess | daemon/src/daemon.rs:62-70 | after a change that was answered with the list a restart finds the same configuration, whatever saves failed before |
| DaemonSafety.DiskIsPast | daemon/src/daemon.rs:95-97 | the file always holds a configuration that memory held at some moment |
| DaemonDurability.AttemptSettles | daemon/src/daemon.rs:95-97 | once a request gets to its save, memory holds what it wanted however the save goes, and the file is as the outcome says; a request that does not get there changes neither |
| DaemonDurability.RunStaysSane | daemon/src/daemon.rs:62-97 | over any run of requests, restarts and losses of power, in the middle of a save or not, whatever an outage may bring back is a valid configuration that memory held, and the file loads to what the daemon takes it to hold |
| DaemonDurability.WhatLoadsWasHeld | daemon/src/config.rs:153-203 | from a fresh install, whatever the next outage brings back after any such run loads, is valid throughout, and is a configuration that memory held at some moment |
| DaemonDurability.AnsweredIsKept | daemon/src/config.rs:163-189 | once a change is answered with the list, on a directory that cannot vanish, what loads after any later run and outage is what memory held at the answer or later |
| DaemonSafety.WindowMoves | daemon/src/daemon.rs:80-91 | only a successful switch opens the connecting window; only a successful disconnect or a restart closes it |
| DaemonSafety.ConnectingNeedsASwitch | daemon/src/daemon.rs:26-33 | over whole runs, Connecting is reported only within 15 s of a successful switch that no successful disconnect and no restart has followed |
| DaemonSafety.NeverIsFinal | daemon/src/daemon.rs:26-33 | once the window is over, Connecting is not reported again before another successful switch |
| DaemonValues.AddStores | daemon/src/daemon.rs:102-132 | an add answered with the list stored every field it was given, the supplied private key trimmed or a generated one if it is blank, and the address found now; nothing else changed |
| DaemonValues.EditStores | daemon/src/daemon.rs:173-228 | an edit answered with the list stored every field it was given and the address found now; a secret that is supplied and not blank replaces the stored one, and any other is kept |
| DaemonValues.AddedIsShown | daemon/src/config.rs:119-136 | what was added is what is shown for editing, whatever is asked of other tunnels in between: every field but the secrets, whether there is a preshared key, and port 0 as none |
| DaemonValues.EditedIsShown | daemon/src/config.rs:119-136 | and what was edited, with a kept preshared key counted in |
| DaemonValues.SwitchCaches | daemon/src/daemon.rs:354-380 | an answered switch caches the very address that its peer has on the interface, and changes no other field and no other tunnel |
| DaemonValues.OutageFallsBack | daemon/src/wireguard.rs:186-208 | while the resolver is silent, a later switch to a tunnel with a host name uses the address of the last answered switch to it, whatever was asked of others in between |
| DaemonViews.ActiveIffLiveKey | daemon/src/daemon.rs:246-281 | a tunnel is listed active exactly when the interface could be read and carries that tunnel's derived key; a state is listed for the active ones only |
| DaemonViews.StatesByTime | daemon/src/daemon.rs:26-47 | each of the four states in terms of the times themselves: 180 s after a handshake, 15 s after a connect, the epoch as never, a future handshake as fresh |
| DaemonViews.AgeInSeconds | daemon/src/daemon.rs:36-47 | an age is the whole seconds since the handshake, 0 for one in the future, none at the epoch |
| DaemonViews.StatusIsTheKernels | daemon/src/daemon.rs:285-306 | the status view is the kernel's port and peers, each with its own key, AllowedIPs, counters, handshake age and state; a down or unreadable interface reads as disconnected |
| DaemonViews.PlaceholderListed | daemon/src/daemon.rs:246-268 | the key a tunnel lists with is its derived one, and if its private key does not parse a placeholder, `(unavailable)` here without the source's message |
| DaemonViews.SwitchedSetsKey | daemon/src/daemon.rs:359-360 | a successful switch puts the named tunnel's key, and its peer alone, on the interface |
| DaemonViews.ActiveIsTheSwitchedOne | daemon/src/daemon.rs:354-380 | after a switch, through any later adds, edits, imports, removals, queries and restarts, lists flag exactly the tunnels with the key switched to |
| DaemonViews.SoleActiveIff | daemon/src/daemon.rs:237-245 | in any state, at most one tunnel is listed as active exactly when the interface cannot be read or no two stored tunnels derive the key that is on it |
| DaemonViews.DistinctKeysSuffice | daemon/src/daemon.rs:237-245 | so with pairwise distinct derived keys it is at most one, whatever the kernel carries |
| DaemonViews.SoleActiveAfterSwitch | daemon/src/daemon.rs:354-380 | and after an answered switch, through quiet requests and restarts, exactly when no two of the tunnels then stored derive the key of the one switched to |
| DaemonViews.FilterShowsExactly | proto/src/lib.rs:188-200 | a filtered list is exactly the part of the list that matches, in its order; a blank filter shows all |
| DaemonValues.FilterFinds | proto/src/lib.rs:188-200 | a tunnel is on the filtered list exactly when the trimmed query occurs in its name, its endpoint or an address, in any letter case, or is blank |
| DaemonViews.NoneActiveAfterDisconnect | daemon/src/daemon.rs:382-388 | after a successful disconnect nothing lists as active until something is switched to |
| DaemonViews.ViewsAgreeIff | daemon/src/daemon.rs:269-306 | from one snapshot at one time, the listed state and the status view agree exactly when the peer key is stored in the kernel's spelling or the kernel has no handshake of that peer |
| DaemonViews.SwitchedHasItsPeer | daemon/src/wireguard.rs:548-572 | after a successful switch the interface has one peer, with the stored peer key |
| DaemonKillSwitch.TurnFailsClosed | daemon/src/daemon.rs:310-390 | any request but a disconnect, and any restart, keeps every installed rule in every kernel state |
| DaemonKillSwitch.KillSwitchUntilDisconnect | daemon/src/daemon.rs:310-390 | over any run of requests and restarts in which nobody asks to disconnect, once a default route has been routed every later kernel state has the kill switch, whether or not the switch that armed it was answered as successful |
| DaemonKillSwitch.ArmedSinceAnswered | daemon/src/daemon.rs:354-388 | in particular from the answer to a full-tunnel switch on |
| DaemonRefinement.DaemonRefines | daemon/src/daemon.rs:310-390 | every turn of the daemon is a move of a machine that has only a map of tunnels, a saved map and a live key: lists show the map and flag the live key, status answers exactly when the interface reads, and a refused switch leaves the live key or the named tunnel's unless a configuration failed half-way |
| DaemonRefinement.ListIsTheMap | daemon/src/daemon.rs:246-281 | with unique names, each line of the full list is the map's tunnel of that name: its public fields, its derived key, active exactly when that key is live |
| DaemonRefinement.KeyAfterSwitch | daemon/src/wireguard.rs:487-546 | after any switch, successful or refused, the live key is the old one or the tunnel's, unless a configuration failed |
| DaemonRefinement.OthersUntouched | daemon/src/daemon.rs:310-390 | no move of that machine touches a tunnel its request does not name |
| DaemonRefinement.TunnelSurvives | daemon/src/daemon.rs:310-390 | over a run, a tunnel that no request names stays exactly as it is |
| DaemonRefinement.TunnelsUpsert | daemon/src/config.rs:45-55 | an upsert of the vector is an update of the map |
| DaemonRefinement.TunnelsRemove | daemon/src/config.rs:57-62 | a removal from the vector is a removal from the map |
| KernelSecrecy.StepAlike | daemon/src/wireguard.rs:110-133 | no kernel operation lets a secret show in its reply or in anything but the secrets of the state, each run failing into a half-done state of its own |
| KernelSecrecy.SwitchAlike | daemon/src/wireguard.rs:487-546 | a switch between tunnels and kernels that differ in secrets only answers alike and leaves alike kernels |
| KernelSecrecy.ValidateAlike | daemon/src/wireguard.rs:142-155 | validation does not depend on a secret beyond whether it parses |
| DaemonSecrecy.EditedAlike | daemon/src/daemon.rs:203-226 | an edit that keeps stored secrets keeps tunnels alike that differ in them |
| DaemonSecrecy.HandleAlike | daemon/src/daemon.rs:310-390 | one request: equal responses, and states that still differ in secrets only |
| DaemonSecrecy.ResponsesRevealNothing | daemon/src/config.rs:102-136 | over whole runs no response depends on a preshared key, or on a private key beyond its public half, even when failures leave each run its own secrets half configured |
| RefreshHook.Summarize | ui/src/components/useServerList.ts:29-38 | the loop with its early return yields the best state of any peer |
| RefreshHook.HeadlineIgnoresOrder | ui/src/components/useServerList.ts:29-38 | which does not depend on the order of the peers |
| RefreshHook.HeadlineIsTheBest | ui/src/components/useServerList.ts:29-38 | the headline is the best state of any peer, alive before connecting before stale before never |
| RefreshHook.ServerList.Arrive | ui/src/components/useServerList.ts:86-103 | a refresh that answered changes the hook as the specification function does, which `RefreshView.ShowsTheLast` is about |
| RefreshHook.ServerList.Miss | ui/src/components/useServerList.ts:103-111 | what a refresh that failed changes, and whether the owner is told |
| RefreshHook.ServerList.Filter | ui/src/components/useServerList.ts:132-142 | a new filter is remembered, and asked for at once only when cleared and idle |
| RefreshHook.ServerList.Refresh | ui/src/components/Dashboard.tsx:155-166 | the refresh that the hook hands to its owner asks whether or not an action is running |
| RefreshHook.RunIsConsistent | ui/src/components/useServerList.ts:80-112 | under any interleaving, the owner's refreshes included, outcomes are taken over in strictly increasing order of issue, and the failure count is the streak of failures among them |
| RefreshHook.RunFromInitial | ui/src/components/useServerList.ts:80-112 | in particular in every run of a freshly mounted dashboard |
| RefreshHook.SupersededNeverApplies | ui/src/components/useServerList.ts:90-106 | a request that was overtaken before its answer came is never taken over, at any later time |
| RefreshHook.OfflineIffThreeFailures | ui/src/components/useServerList.ts:103-111 | the owner is told that the daemon is gone exactly when an outcome is taken over and it and the two before it are failures |
| RefreshHook.RaceExactly | ui/src/components/useServerList.ts:114-157 | over any run, exactly which requests are sent while an action runs: polls and filters unless an action started and none has ended since; mounting, the owner and a finished action always |
| RefreshView.ShowsTheLast | ui/src/components/useServerList.ts:80-112 | over any run, in terms of the events alone: the list shown is the last one taken over or handed in while mounted, the status the last one taken over, and the headline, the error and the spinner those of the last event that has a say |
| RefreshView.ShowsTheAnswer | ui/src/components/useServerList.ts:90-102 | so the answer taken over last is what is shown, however many older ones come in late |
| RefreshView.TakesExactly | ui/src/components/useServerList.ts:88-106 | exactly the outcomes of the latest request that come to a mounted dashboard are taken over, each once, in order |
| RefreshView.AskedWithTheFilter | ui/src/components/useServerList.ts:80-84 | each request is sent with the filter in force at that moment |
| RefreshHook.GuardCoversTheAction | ui/src/components/useServerList.ts:144-157 | with one action at a time, polls and filters are held back exactly while it is in flight |
| RefreshHook.OverlapLiftsTheGuard | ui/src/components/useServerList.ts:144-157 | with two that overlap, the first to end lifts the guard and a poll is sent while the second is in flight |
| ServerForm.Form.Edit | ui/src/components/ServerForm.tsx:36-62 | the form opens on the stored fields as text, secrets blank, the key kept |
| ServerForm.Form.Submit | ui/src/components/ServerForm.tsx:64-98 | exactly one of an inline error and a draft, and which |
| ServerForm.UntouchedEditIff | ui/src/components/ServerForm.tsx:40-96 | an untouched form asks for exactly the stored tunnel, both secrets and port 0 included, precisely when its text has the shape a form can carry |
| ServerForm.SavingUntouchedIsANoOp | daemon/src/daemon.rs:173-228 | through the daemon, saving it leaves every tunnel as it was but for this one's freshly found endpoint |
| ServerForm.FormIsSentIff | ui/src/components/ServerForm.tsx:64-82 | a form is sent exactly when its required fields are filled, a key to be imported is pasted, and its numbers are whole or blank; otherwise the first of these that fails is shown |
| ServerForm.SavingStoresTheForm | ui/src/components/ServerForm.tsx:84-96 | through the daemon, saving a form over a tunnel stores the form's fields; a pasted private key and a typed preshared key replace the stored ones, and anything else keeps them |
| ServerForm.AddingStoresTheForm | ui/src/components/ServerForm.tsx:84-96 | and a form for a new tunnel stores the pasted key or a generated one |
| Witnesses.SlashZeroStays | daemon/src/wireguard.rs:292-300 | a run: up with `0.0.0.1/0`, then to a tunnel without AllowedIPs, and a default route of ours is left |
| Witnesses.MtuIsInherited | daemon/src/wireguard.rs:231-249 | an MTU that the next tunnel does not set is the last one's, while a cold kernel has none |
| Witnesses.MtuStays | daemon/src/wireguard.rs:231-249 | a run: an MTU of 1280 outlives the tunnel that set it |
| Witnesses.TransientReadLosesTheMark | daemon/src/wireguard.rs:435-453 | a run: one failed read of a live full tunnel, and after the switch the rule exempts a mark that the device does not carry |
| Witnesses.SharedKeyListsTwice | daemon/src/daemon.rs:237-245 | a run: two names added with one private key, one connected, both listed as active |
| Witnesses.PaddedPeerKeyDisagrees | daemon/src/daemon.rs:269-281 | a run: with a space before the stored peer key the status view says alive and the list does not |
| Witnesses.FailedSaveLeavesMemoryAhead | daemon/src/daemon.rs:95-97 | a run: an add whose save fails is refused, is in memory only, is gone after a restart, and is saved with the next add |
| Witnesses.EmptyPrivateKeyIsReplaced | daemon/src/daemon.rs:136-151 | a run: a file with an empty `PrivateKey` is imported with a generated key |

## Findings

Places where the code does less than its documentation says. Each has its exact condition and a concrete run.

- `Store::save` is documented as durable. It is, exactly when the path has a parent directory whose own entry is already on the
  medium: a directory that a save created, this one or an earlier one, is never synced into its parent, and a bare file name
  skips the directory sync (`Store.OkIsDurableIff`, `Store.FirstSavesCanVanish`).
- `split_route_prefixes` calls its filter exactly the default routes. A non-zero address written with `/0` passes it, is
  installed as a default route, and is invisible to the read-back that pruning relies on (`SwitchHistory.RoutesExactIff`,
  `SwitchHistory.SlashZeroIsNeverPruned`, `Witnesses.SlashZeroStays`).
- Reconfiguring in place is documented to heal a stale interface and to preserve the mark. A live interface that cannot be
  read for a moment is configured without its mark while the rule that exempts the mark stays
  (`SwitchMarks.AgreesIff`, `SwitchMarks.TransientReadLasts`, `Witnesses.TransientReadLosesTheMark`).
- The active flag is documented as unique per tunnel. Two names with one private key both list as active
  (`DaemonViews.SoleActiveIff`, `Witnesses.SharedKeyListsTwice`).
- The list and the status view are documented to agree. A peer key stored padded or in another spelling lists without its
  handshake (`DaemonViews.ViewsAgreeIff`, `Witnesses.PaddedPeerKeyDisagrees`).
- A change whose save failed is answered with an error, yet memory keeps it and the next successful save writes it
  (`DaemonSafety.ChangeOutcome`, `DaemonSafety.FileLagsIff`, `Witnesses.FailedSaveLeavesMemoryAhead`).
- An imported `PrivateKey` is documented to become the tunnel's key. An empty one passes the parser's check for a missing key and
  is replaced by a generated key (`ImportRoundTrip.ImportStores`, `Witnesses.EmptyPrivateKeyIsReplaced`).
- An MTU that the next tunnel does not set is inherited from the last one, if configuring without an MTU leaves the device's as it
  is, which is what the model takes the library to do (`Witnesses.MtuIsInherited`, `Witnesses.MtuStays`).
- Polls are documented to stay out of the way of an action. The guard is one flag, so of two overlapping actions the first to end
  lifts it, and the owner's refresh never looks at it (`RefreshHook.RaceExactly`, `RefreshHook.OverlapLiftsTheGuard`).

## Left out

- SwitchHistory.HistoryIndependence: does not compare the MTU, the kernel-picked port, the mark (and the tables only up to it) and the kill-switch rules, which do depend on history, and needs the best-effort steps to succeed.
- SwitchTarget.AllowedIpsGoThroughTunnel: is about the main table's lookup; that no packet ever leaks also depends on kernel routing policy that the repository does not show.
- Kernel.Device.Do: models the documented effects of the `WgOps` methods, not the netlink, `ip`, `nft` and `resolvconf` calls under them; the default route that the library puts in a table of its own is not modelled, nor that it looks for a free table, so routing may pick any non-zero mark; a failed operation may leave any interface and any resolver, and part of its routes, but never fewer kill-switch rules unless it is the removal.
- Switch.KernelWireguard.SyncRoutes: the read-back is a list of prefixes rather than JSON, a delete removes every route of ours at the prefix, and `replace` displaces the route at the same prefix and metric.
- Nft.BuildNftScript: the script is a sequence of commands, not its text, so spelling and quoting are not modelled.
- WgConf.Parse: line numbers and message texts are left out; text is ASCII for white space and letter case.
- Daemon.Daemon.Serve: takes one of the three outcomes of a save as given, which the steps of the save decide in `DaemonDurability`; one request reads each clock once, and responses carry addresses rather than their texts.
- DaemonDurability.WhatLoadsWasHeld: a daemon whose file does not load would not start, which the theorem shows never happens; the kernel that a machine comes up with after an outage may be any.
- Store.OkIsDurableIff: the parent directory is one level; the intermediate directories that `create_dir_all` may create are not modelled.
- DaemonViews.ViewsAgreeIff: the kernel's peers are a sequence; the source iterates a hash map, which makes no difference with one peer.
- DaemonSecrecy.ResponsesRevealNothing: operations are assumed to go well or to fail alike in both runs, with half-done states alike up to secrets, and error texts are tags, so what a message may quote is not covered; timing is not.
- RefreshHook.OfflineIffThreeFailures: the tray summary and rendering are left out, and the debounce timer may fire at any moment.
- ServerForm.UntouchedEditIff: the language's `Number` is a parameter that reads 32-bit decimals back.
- ServerForm.Form.Edit: the texts that a form for a new tunnel opens with are left out; `ServerForm.AddingStoresTheForm` is about any field texts.
- Key and address parsing, key derivation, name resolution with its timeout, JSON, the socket, file modes, signals and the command line are parameters or left out.
