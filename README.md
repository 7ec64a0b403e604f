# NextDNS router adapters for OpenWrt and EdgeOS, in Dafny

This project models the two router adapters of the NextDNS CLI that plug the
DNS proxy into a router's dnsmasq forwarder. It also proves what their
lifecycle does.

- **OpenWrt** (`router/openwrt/setup.go`) works through the `uci`
  configuration database. It also writes a directive file and restarts
  dnsmasq.
- **EdgeOS** (`router/edgeos/setup.go`) only writes and removes the
  directive file and restarts dnsmasq through `sudo`.

Each adapter is a `Router` class whose fields are updated in place. It has
these operations:

- `New`, platform detection.
- `Configure`, which decides the mode from the proxy's cache size and
  rewrites the proxy's `Listens`.
- `Setup`.
- `SetupDNSMasq`, the takeover of dnsmasq.
- `Restore`.

Modules:

- **`Gateway`** is the host as the adapters see it.
  - Every external operation (`uci get/delete/add_list/commit`, file write,
    file removal, process run) is appended to `Host.trace`.
  - The host's reply comes from an oracle indexed by the operation's
    position in the trace.
  - `Play` is the shared meaning of the adapters' `if err != nil { return
    err }` chains. It issues a plan's steps in order, ignores the reply to
    an unchecked step, and stops at the first checked step that fails,
    returning that step's error.
  - `PlayIssuesPrefix`, `PlayStops`, `PlayFailureIsLast` and `PlaySucceeds`
    characterise `Play` independently of its definition.
- **`ProxyConfig`** is the proxy's shared `Config` (`Listens`,
  `ReportClientInfo`, `CacheSize`) and the cache-size parser, which is a
  parameter.
- **`Strings`** holds Go's `strings.Split` and `strings.Join` for a
  one-character separator, with their round trips.
- **`Template`** holds the two fixed directive templates as parsed trees.
  - An interpreter covers the template constructs they use, including the
    `{{-` trim marker.
  - The proofs show that each template renders a fixed list of directive
    lines, one per line, ending in a single newline.
- **`OpenWrt`** and **`EdgeOS`** are the adapters.
  - OpenWrt's methods are proved against functions that follow the Go
    control flow (`Takeover` for `setupDNSMasq`) or against a `Play` of a
    fixed plan (`RestorePlan`).
  - Lemmas state the branch, order and stop properties on those functions.
  - EdgeOS's methods are proved directly against `Play` of its two
    two-step plans.

Notes on the code:

- In cache mode OpenWrt's template renders `port=0` only when `SetPort0`
  is set. EdgeOS's template always renders it.
- `Restore` never clears `savedForwarders`, so it changes no field
  (`router/openwrt/setup.go:104-125`).
- `router/edgeos/setup.go:34` writes `[]strings{":53"}`. It is read as
  `[]string{":53"}`, as on OpenWrt.

Other modelling choices:

- The `uci` helper is not part of this model. It is assumed to return the
  trimmed output on success and an empty string with any error. So a failed
  lookup of the server list leaves `savedForwarders` empty.
- The helper's "entry not found" error is the `NotFound` reply.
- The file mode `0644` is the number 420.
- `internal.WriteTemplate(path, tmpl, r, 0644)` is one operation. It records
  the template, the data read from the router and the mode. The file it
  writes holds `Template.Execute(tmpl, data)`.

## Model

| member | source | states |
|---|---|---|
| Gateway.Play | router/openwrt/setup.go:104-125 | a plan issues at most all its steps after the earlier trace, and all of them when it succeeds |
| Gateway.PlayIssuesPrefix | router/openwrt/setup.go:106-124 | what a plan issued is exactly the earlier trace followed by the first operations of the plan, in plan order |
| Gateway.PlayStops | router/openwrt/setup.go:106-124 | every step before the last one issued let the plan go on; a failure is the error of the last step issued, a checked step whose reply was not Ok |
| Gateway.PlayFailureIsLast | router/openwrt/setup.go:106-124 | the error returned is that of the last operation issued |
| Gateway.PlaySucceeds | router/openwrt/setup.go:106-124 | a plan succeeds exactly when every step was issued and the last one went through |
| Gateway.PlayAppendPassed | router/openwrt/setup.go:106-124 | a plan that went through is followed by the next one as if the two were a single plan |
| Gateway.PlayAppendFailed | router/openwrt/setup.go:106-124 | nothing after a failed plan is issued |
| Gateway.UncheckedThenChecked | router/openwrt/setup.go:117-124 | an ignored step followed by a checked one: both are issued and the second's reply alone decides the error |
| Gateway.PlayLast | router/openwrt/setup.go:121-124 | a single checked step issues its operation and returns its error exactly when the reply is not Ok |
| Gateway.Host.Issue | router/openwrt/setup.go:57 | an operation is appended to the trace and its reply is the host's answer at that position |
| Strings.Split | router/openwrt/setup.go:107 | a split always has at least one piece |
| Strings.SplitPiecesAvoidSeparator | router/openwrt/setup.go:107 | no piece of a split contains the separator |
| Strings.JoinSplit | router/openwrt/setup.go:107 | joining the pieces of a split with the separator gives the string back |
| Strings.SplitJoin | router/openwrt/setup.go:107 | splitting a join of separator-free pieces gives the pieces back |
| Template.TrimRight | router/openwrt/setup.go:128 | the trim marker removes only trailing white space, and all of it |
| Template.OpenWrtRendersLines | router/openwrt/setup.go:127-141 | OpenWrt's template renders its directive lines joined by newlines, followed by one newline |
| Template.OpenWrtDirectives | router/openwrt/setup.go:127-141 | header first; cache comment iff cache on; `port=0` iff cache on and SetPort0; `no-resolv` and `server=127.0.0.1#<port>` iff cache off; `add-mac` and `add-subnet=32,128` iff cache off and ClientReporting |
| Template.OpenWrtOnePerLine | router/openwrt/setup.go:127-141 | OpenWrt's file ends in a newline, and cutting it at newlines gives exactly its directive lines |
| Template.EdgeOSRendersLines | router/edgeos/setup.go:69-81 | EdgeOS's template renders its directive lines joined by newlines, followed by one newline |
| Template.EdgeOSDirectives | router/edgeos/setup.go:69-81 | header first; cache comment and `port=0` iff cache on; the delegation directives iff cache off; the client-reporting pair iff cache off and ClientReporting |
| Template.EdgeOSOnePerLine | router/edgeos/setup.go:69-81 | EdgeOS's file ends in a newline, and cutting it at newlines gives exactly its directive lines |
| Template.FileTextLines | router/openwrt/setup.go:127-141 | a file of newline-free lines ends with a newline and splits back into those lines |
| OpenWrt.WrittenFile | router/openwrt/setup.go:92 | the file written holds the header and then either the cache comment, with `port=0` only if SetPort0, or the delegation directives, with the client-reporting pair only if ClientReporting |
| OpenWrt.WriteAndRestartPlays | router/openwrt/setup.go:92-101 | the write-then-restart tail of the takeover is the two-step checked plan |
| OpenWrt.ClearKeyPlays | router/openwrt/setup.go:67-73 | delete, commit, write and restart form one four-step checked plan |
| OpenWrt.TakeoverNext | router/openwrt/setup.go:52-90 | the takeover's new fields are decided by the lookup's reply alone |
| OpenWrt.TakeoverAborts | router/openwrt/setup.go:57-63 | a lookup that fails other than by "not found" is returned before anything else is issued |
| OpenWrt.TakeoverFollowsPlan | router/openwrt/setup.go:52-101 | otherwise the takeover is its lookup followed by the mutations chosen by the reply, the file write and the restart, stopped by the first failure |
| OpenWrt.TakeoverOrder | router/openwrt/setup.go:52-101 | what the takeover issues is the start of the fixed order lookup, database mutations, file write, restart |
| OpenWrt.TakeoverEnds | router/openwrt/setup.go:92-101 | a failure is the error of the last operation issued; success iff everything through the restart was issued and the restart went through |
| OpenWrt.CachePortMissing | router/openwrt/setup.go:57-61 | cache on, port entry not found: SetPort0 becomes true and no database mutation is issued |
| OpenWrt.CachePort53 | router/openwrt/setup.go:64-73 | cache on, port 53: the fields stay as they were, and the issued operations are a prefix of get, delete, commit, write, restart |
| OpenWrt.CachePortOther | router/openwrt/setup.go:57-64 | cache on, any other port: the fields stay as they were and no database mutation is issued |
| OpenWrt.ServersFound | router/openwrt/setup.go:77-89 | cache off, server list found: it is saved, and the issued operations are a prefix of get, delete, commit, write, restart |
| OpenWrt.ServersMissing | router/openwrt/setup.go:77-82 | cache off, server list not found: the saved list is empty and no database mutation is issued |
| OpenWrt.RestoreReAdds | router/openwrt/setup.go:106-115 | with servers saved: one checked `add_list` per piece of the space-split list, in order, then one commit; the pieces joined by spaces are the saved list |
| OpenWrt.RestoreNothingSaved | router/openwrt/setup.go:104-124 | with nothing saved: only the removal and the restart |
| OpenWrt.RestoreDatabaseMutates | router/openwrt/setup.go:106-115 | every database step of Restore is a checked mutation |
| OpenWrt.RestoreEndPlays | router/openwrt/setup.go:117-124 | after the database part the removal and the restart are both issued, whatever the removal's reply, and the restart's reply alone decides the error |
| OpenWrt.RestoreAlwaysRestarts | router/openwrt/setup.go:117-124 | Restore fails only on a database step or the restart; once the database steps went through, the removal and then the restart are issued |
| OpenWrt.Router.Configure | router/openwrt/setup.go:34-43 | Listens becomes `[":53"]` for a positive parsed size and `["127.0.0.1:"+ListenPort]` otherwise; ClientReporting copies ReportClientInfo; CacheEnabled is set only for a positive size; the takeover runs inside only then |
| OpenWrt.Router.Setup | router/openwrt/setup.go:45-50 | the takeover runs iff the cache is off; otherwise nothing changes |
| OpenWrt.Router.ConfigureThenSetup | router/openwrt/setup.go:34-50 | on a fresh adapter, Configure then Setup runs the takeover exactly once, whatever the cache size |
| OpenWrt.Router.SetupDNSMasq | router/openwrt/setup.go:52-102 | the new fields, the trace and the error are those of Takeover |
| OpenWrt.Router.PutBackServers | router/openwrt/setup.go:106-115 | the trace and the error are those of playing the database part of RestorePlan: each saved server re-added, then the commit, stopping at the first error |
| OpenWrt.Router.Restore | router/openwrt/setup.go:104-125 | the trace and the error are those of playing RestorePlan |
| OpenWrt.New | router/openwrt/setup.go:24-32 | found iff the OS release was read and its ID is `openwrt`; the adapter has the default path and port 5342 |
| EdgeOS.TwoChecked | router/edgeos/setup.go:47-53 | two checked steps: the second is issued only after the first went through, and the first error is returned |
| EdgeOS.SetupWritesThenRestarts | router/edgeos/setup.go:47-53 | a failed write is returned with no restart issued; otherwise the restart follows and its failure is returned |
| EdgeOS.RestoreRemovesThenRestarts | router/edgeos/setup.go:55-60 | a failed removal is returned with no restart issued; otherwise the restart follows and its failure is returned |
| EdgeOS.OnlyRestartRuns | router/edgeos/setup.go:47-67 | whatever the host replies, every process the takeover or `Restore` issues is `sudo /etc/init.d/dnsmasq restart` |
| EdgeOS.WrittenFile | router/edgeos/setup.go:48 | the file written holds the header and then either the cache comment and `port=0` always, or the delegation directives, with the client-reporting pair only if ClientReporting |
| EdgeOS.RestartDNSMasq | router/edgeos/setup.go:62-67 | one restart is issued and its failure is returned |
| EdgeOS.Router.Configure | router/edgeos/setup.go:29-38 | Listens becomes `[":53"]` for a positive parsed size and `["127.0.0.1:"+ListenPort]` otherwise; ClientReporting copies ReportClientInfo; the takeover runs inside only for a positive size |
| EdgeOS.Router.Setup | router/edgeos/setup.go:40-45 | the takeover runs iff the cache is off; otherwise nothing is issued |
| EdgeOS.Router.ConfigureThenSetup | router/edgeos/setup.go:29-45 | on a fresh adapter, Configure then Setup runs the takeover exactly once, whatever the cache size |
| EdgeOS.Router.SetupDNSMasq | router/edgeos/setup.go:47-53 | the trace and the error are those of playing write-then-restart |
| EdgeOS.Router.Restore | router/edgeos/setup.go:55-60 | the trace and the error are those of playing checked-removal-then-restart |
| EdgeOS.New | router/edgeos/setup.go:19-27 | found iff the probe path exists and is a directory; the adapter has path `/etc/dnsmasq.d/nextdns.conf` and port 5342 |

## Left out

- Process execution, the `uci` helper, file writes and removals, `os.Stat` and `internal.ReadOsRelease` are not part of this model.
  - They are host operations whose replies come from an oracle, or, for the OS release and the directory probe, a parameter.
  - What they do on the host (dnsmasq, the database, the file system) is not modelled.
- `config.ParseBytes` is not part of this model. It is a parameter, and a parse error counts as zero.
- Error texts are not modelled. The `dnsmasq restart: %v` wrapping is reduced to the failing operation, and the error message is not kept.
- Only the two fixed templates are modelled, with the template constructs they use. Go's general `text/template` engine is not.
- `ConfigureThenSetup` is not a function of the source. It is the calling order of the adapter's user (configure once, then set up once). It is written out to state the exactly-once takeover.
- Detection in `New` is reduced to its decision and its defaults. Which adapter a platform list tries first is outside these files.
