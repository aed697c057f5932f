# JustPing in Dafny

JustPing watches networks from many probes. A host keeps a websocket to every probe, relays proxy tunnels through
them, and can upgrade or restart them; a probe pings targets, detects latency shifts, traces routes and reports back;
a small client turns the host's proxy into a local SOCKS5 port. This project models the parts of that system that
are state machines or algorithms and proves what they promise.

The relay comes first. `Agent` and `Host` are transition systems: one step per lock region or channel operation of
the probe's and the host's tunnel code, with every timeout, overflow, failed write and close as a choice of the
environment. `Relay` puts a host, a probe and the websockets between them together: connections break and lose the
end of what is under way, sends on a broken connection may succeed and be lost, and what a replaced connection already
brought can still be handled after the probe is back. Theorems about the relay hold in every state any run can reach.
`Reconnects` and `Gaps` follow the bytes to the clients over reconnects, `Completion`, `Truncations` and `Upload` say
when a stream arrives whole, `Limits` holds the runs that show where it does not. `ProxyTab` and `ProxyService` are the objects
behind the two tables; their methods carry out the same state changes in place. `Announcements` says which steps give a
tunnel up, that the other end is told exactly when it should be, and that every request is answered; `Goroutines`,
that the goroutines of a dropped tunnel end.

The remaining modules follow one source file or component each: `Version`, `Feature`, `IdList`, `OrderStats` and
`Detector`, `Sessions`, `Window`, `Scheduler`, `Socks`, `Stream`, `Queue`, `Restart`. Code that updates objects is a
class with the same fields; a loop is a loop with invariants, proved against a specification that is then shown to
mean what the program is for. `Text` and `Wire` hold what several modules share.

## What turned out differently

* `Clean` is not idempotent ("vv1"); `Version.CleanIdempotentWhen` says exactly when it is. The order is therefore
  stated on cleaned strings.
* `IsNewer` says of the two placeholder versions, and only of them, that they are newer than themselves
  (`Version.IsNewerThanItself`).
* A new websocket replaces a live one without the tunnels of the old one being dropped (host/internal/ws/hub.go:36-48).
  If the connection broke with chunks in flight, the bytes a client receives can then have a hole: `Limits.ClientGap`
  reaches such a state. `Gaps.HarmlessExactly` says which reconnects are to blame: those at which some tunnel that the
  host still has, and whose client is or may yet be served, is neither complete at the host (nothing the probe sent is
  missing or still held anywhere) nor finished at the probe with every order of the held chunks fitting.
* Such a reconnect can also end a client's stream cleanly with its data missing, even where no hole can arise: the
  target is through, the last chunks are lost with the connection, and the ProxyClose goes out on the next one
  (`Limits.CleanTruncation`). `Truncations.LosslessExactly` says which reconnects are to blame: those at which the probe
  has yet to send the ProxyClose of a tunnel that the host still has for a client, and not everything the probe sent for
  it has been queued.
* A client that sends and then closes can lose the end of its upload with nothing failing anywhere: the close
  overtakes chunks in the probe's write queue (`Limits.UploadTailLost`). Everything read from the client does reach that
  queue (`Upload.UploadAccepted`); the target gets all of it exactly if the write loop has finished with the queue when
  the connection is released (`Upload.UploadComplete`).
* The comment of `RequestRestart` announces an error for an escalated restart (host/internal/ws/restart.go:37-57); the
  code reports it like any other crash (line 79). Only a caller that knows the build can tell: a crash reported for a
  build that understands the clean exit is an escalation (`Restart.Hub.RequestRestart`). The model follows the code.
* `SyncTargets` loses track of a running ping worker exactly when two targets share an id
  (`Scheduler.PingWorkers.SyncTargets`).
* A SOCKS5 request with port 0 or an empty name is answered with "address type not supported", like an unknown type
  (`Socks.ReadRequest`).

## Model

| member | source | states |
|---|---|---|
| Relay.TargetReceivesPrefix | agent/internal/client/proxy.go:179-239 | In every reachable state of host, probe and websocket, breaks and reconnects included, the bytes written to a target are a prefix of the bytes the host read from that tunnel's client |
| Relay.RunKeeps | host/internal/proxy/service.go:99-148 | What is read from a client, in flight, held by the receive loop and queued fits together for every tunnel at both ends, in every run |
| Reconnects.HarmlessIsGapless | host/internal/ws/hub.go:36-48 | In every reachable state, as long as every reconnect so far was harmless, the bytes written to a client are a prefix of those its probe read from the target, whether or not tunnels were dropped |
| Reconnects.ClientReceivesPrefix | host/internal/proxy/service.go:275-343 | Reconnects that find no tunnel of the probe are harmless, so the prefix holds over them; and a client whose tunnel the probe never opened gets nothing, whatever happens |
| Reconnects.RunDownKeeps | host/internal/proxy/service.go:114-136 | For every tunnel that can still serve a client, nothing is missing or every order of what is still on old and new connections fits what the probe read, in every run of harmless reconnects |
| Gaps.HarmfulLeavesGap | host/internal/ws/hub.go:36-48 | From any reachable state a reconnect that is not harmless has a continuation, without another reconnect, after which a client has received bytes that are not a prefix of what its probe read |
| Gaps.HarmlessExactly | host/internal/ws/hub.go:36-48 | After harmless reconnects, the next one keeps every client free of gaps in every continuation without another reconnect if and only if it is harmless |
| Gaps.RunTalk | agent/internal/client/proxy.go:151-176 | A good dial result comes before everything else said about its tunnel, on every connection and in every run |
| Reconnects.FitsExactly | host/internal/proxy/service.go:114-136 | Unless two first chunks can be swapped, the chunks held on several connections fit in every order exactly when only one connection holds any and they continue what is queued within what was read |
| Limits.HarmfulReconnect | agent/internal/client/proxy.go:179-198 | A reconnect that is not harmless can be reached although all before it were orderly |
| Limits.ClientGap | host/internal/ws/hub.go:36-48 | A reachable state in which a client has received bytes that are not a prefix of what its probe read |
| Completion.ClientReceivesAll | host/internal/proxy/service.go:316-343 | As long as every reconnect was lossless: if the target's end of stream ended the tunnel and the client writer ends without a failed write, the client has received exactly the bytes the probe read from the target; reconnects that find no tunnel are lossless |
| Completion.RunEndKeeps | agent/internal/client/proxy.go:192-239 | In such runs, wherever the ProxyClose of a tunnel at its end of stream is under way, its line brings exactly the chunks that are missing and nothing is held elsewhere |
| Truncations.LossyTruncates | host/internal/ws/hub.go:36-48 | From any reachable state a reconnect that is not lossless has a continuation, without another reconnect, in which a client's stream ends cleanly and is not what the probe read |
| Truncations.LosslessExactly | host/internal/ws/hub.go:36-48 | After lossless reconnects, the next one keeps every download complete in every continuation without another reconnect if and only if it is lossless |
| Limits.CleanTruncation | agent/internal/client/proxy.go:192-239 | A reachable state after a harmless reconnect in which the client's stream has ended cleanly with nothing delivered of the one chunk that was read |
| Upload.UploadAccepted | agent/internal/client/proxy.go:210-239 | If the client's end of stream ended the tunnel at both ends, the probe's write queue has accepted every chunk read from the client, in order |
| Upload.UploadComplete | agent/internal/client/proxy.go:200-239 | Then the target has received all of it, at once and in every continuation, if and only if the write loop is through with the queue when the connection is released; otherwise it never does |
| Upload.FlushedDelivers | agent/internal/client/proxy.go:200-208 | All that was accepted is delivered exactly when the queue is empty, no chunk is being written and a failed write was the last and got all its bytes through |
| Limits.UploadTailLost | agent/internal/client/proxy.go:200-239 | A run without any failing step, break or timeout after which the connection is closed with the client's only chunk still in the queue of an idle write loop |
| Limits.FinalWhenClosed | agent/internal/client/proxy.go:28-45 | What a tunnel with a closed connection has delivered never changes again, in any continuation of the run |
| Agent.RunKeeps | agent/internal/client/proxy.go:28-249 | The invariant of table, tunnels, connections and loops holds in every reachable state of the probe |
| Agent.Ownership | agent/internal/client/proxy.go:28-69 | A tab in the table is unclosed and under its own id, no write channel is closed twice, and every dialled connection is with its dialer, installed in an unclosed tab, being released by a drop, or closed |
| Agent.StaleStepsHarmless | agent/internal/client/proxy.go:226-239 | No step of one tunnel's goroutines changes or removes another tunnel, also not a newer one under the same id |
| Agent.NoSendAfterClose | agent/internal/client/proxy.go:28-69 | After close nothing is sent on the write channel and it is not closed again; it only drains |
| Agent.FrozenWhenClosed | agent/internal/client/proxy.go:28-45 | A closed connection stays closed and delivers nothing more |
| Agent.ShutStays | agent/internal/client/proxy.go:28-69 | Closed with its connection closed or never installed, a tunnel accepts and delivers nothing more |
| Agent.CloseOutput | agent/internal/client/proxy.go:226-239 | A ProxyClose is sent only by the announcing step of a drop; that the step comes is `Announcements.DropAnnounced` |
| Agent.OutOfTable | agent/internal/client/proxy.go:210-249 | A tunnel that has left the table is changed by its own goroutines and a pending enqueue only |
| Agent.DropFinal | agent/internal/client/proxy.go:226-249 | A drop is final: its cause never changes and a finished drop stays finished |
| Agent.StreamStep | agent/internal/client/proxy.go:179-220 | One step adds to a tunnel's accepted chunks exactly what it enqueued and to its sent chunks exactly what it sent; a refused chunk takes the tunnel out of the table |
| Host.RunKeeps | host/internal/proxy/service.go:99-343 | The invariant of tunnels, message handlers (one for each connection, replaced ones included) and session sizes holds in every reachable state of the host |
| Host.TunnelLife | host/internal/proxy/service.go:185-266 | At most 64 tunnels per session; each tunnel is removed once, done is closed once and after the removal, at most one ProxyClose is sent and after that; a tunnel whose opening failed is out of the table |
| Host.DrainComplete | host/internal/proxy/service.go:316-343 | A client writer that ends without a failed write has written, in order, every chunk queued before done closed |
| Host.ForeignHarmless | host/internal/proxy/service.go:99-148 | A probe cannot affect another probe's tunnels, whatever it sends |
| Host.StreamStep | host/internal/proxy/service.go:114-136 | One step queues for a client exactly the chunk a handler delivered and sends to the probe exactly the chunk read from the client |
| Host.EndStep | host/internal/proxy/service.go:201-219 | A finished removal keeps its cause; only a tunnel in the table can be ended by its client, and afterwards nothing more of it is read or sent |
| Host.SealStep | host/internal/proxy/service.go:57-59 | When done closes it covers everything queued so far, and that mark never moves; only a ProxyClose of the tunnel's own probe for a tunnel in the table makes that the cause of its end |
| Announcements.ProbeLeaves | agent/internal/client/proxy.go:151-239 | A failed target write, the target's end of stream, a full write channel (32), and a chunk over 65536 bytes or not decodable take a tunnel out of the probe's table with an announcement due; a failed dial, an unsent message, a ProxyClose and the end of the connection do so without; nothing else does |
| Announcements.DropAnnounced | agent/internal/client/proxy.go:192-239 | In every run, when the drop of a tunnel is over, the host was told exactly once, after the step that took it out, if that step is one to be told about, and never otherwise |
| Announcements.ProbeSays | agent/internal/client/proxy.go:114-239 | Every message of the probe with the one step that sends it: dial results, data of the read loop in hand, ProxyClose |
| Announcements.RequestOpens | agent/internal/client/proxy.go:120-146 | A request opens a tunnel exactly if it names a host and a port and its id is free |
| Announcements.RequestAnswered | agent/internal/client/proxy.go:147-176 | In every run a tunnel is dialled for once; a failed dial is refused once, a good one reported once, unless the tunnel closed before the connection came |
| Announcements.TunnelAdmitted | host/internal/proxy/service.go:185-199 | The host admits a tunnel exactly while its session has fewer than 64 |
| Announcements.HostLeaves | host/internal/proxy/service.go:99-343 | The steps that take a tunnel out of the host's table with a ProxyClose due (timeout, abandoned open, closed or slow client, failed write, bad chunk, revocation), those that do so without, and no others |
| Announcements.RemovalAnnounced | host/internal/proxy/service.go:201-219 | In every run, when a removal is over, the probe was told exactly once, after the step that removed the tunnel, if that step is one to be told about, and never otherwise |
| Announcements.HostSays | host/internal/proxy/service.go:221-311 | Every message of a tunnel's goroutines with the one step that sends it |
| Goroutines.ProbeDrops | agent/internal/client/proxy.go:226-239 | From the moment a tunnel is out of the table until its drop is over, whoever dropped it can go on |
| Goroutines.ProbeGoroutinesEnd | agent/internal/client/proxy.go:147-239 | After its drop is over the goroutines of a tunnel take at most nine steps more, however the run goes on; none can take another exactly when all have ended and the connection is closed |
| Goroutines.HostGoroutinesEnd | host/internal/proxy/service.go:201-343 | After its removal the opener, the writer and the finish of a tunnel take a bounded number of steps more, three for every chunk still queued; none can take another exactly when all have ended |
| ProxyTab.ProxyTunnel.Close | agent/internal/client/proxy.go:28-45 | Closing takes effect once and hands the connection out once |
| ProxyTab.ProxyTunnel.SetConn | agent/internal/client/proxy.go:47-55 | A connection that arrives after close is refused |
| ProxyTab.ProxyTunnel.Enqueue | agent/internal/client/proxy.go:57-69 | A chunk is queued exactly when the tunnel is open and its channel has room |
| ProxyTab.ProxyManager.Reserve | agent/internal/client/proxy.go:120-146 | A new tunnel is entered only under a free id |
| ProxyTab.ProxyManager.DropIf | agent/internal/client/proxy.go:226-239 | At most the expected tunnel is removed, and its connection is closed |
| ProxyTab.ProxyManager.DropAll | agent/internal/client/proxy.go:241-249 | The table is empty afterwards, and every tunnel that was in it closed with its connection |
| ProxyTab.Itoa | agent/internal/client/proxy.go:267-279 | The digits filled into the buffer from the right are the decimal form of the number |
| ProxyTab.DecimalReads | agent/internal/client/proxy.go:267-279 | Read as a number, the decimal form of n is n; it is digits only, without a leading zero |
| ProxyService.Service.AddTunnel | host/internal/proxy/service.go:185-199 | A tunnel is refused exactly when its session has 64 |
| ProxyService.Service.CountSession | host/internal/proxy/service.go:185-199 | The loop over the table counts the tunnels of one session |
| ProxyService.Service.Finish | host/internal/proxy/service.go:201-219 | The first finish removes the tunnel and closes done; every later one finds nothing |
| ProxyService.Service.DropAgent | host/internal/proxy/service.go:151-163 | Exactly the tunnels of the probe leave the table, and they are closed |
| ProxyService.Service.DropSession | host/internal/proxy/service.go:165-177 | Exactly the tunnels of the session leave the table, and they are closed |
| Wire.DeliveredPrefix | host/internal/proxy/service.go:316-343 | A write loop delivers a prefix of what its queue accepted, also when its last write fails half way |
| Detector.LatencyShiftDetector.Feed | agent/internal/traceroute/detector.go:42-121 | The method carries out exactly the step of the run semantics; what a run makes of the samples is the subject of the next rows |
| Detector.Thresholds | agent/internal/traceroute/detector.go:57-120 | When a sample is a candidate, a shift spurious and a plateau stable, as inequalities in the thresholds 25, 30 and 40 ms, 45%, 40% and 25%, and 2.5 and 3 deviations |
| Detector.HistoryFollows | agent/internal/traceroute/detector.go:42-128 | While no sample starts a streak, the history is the latest 30 of the old history and the positive samples, and no alarm is raised |
| Detector.HistoryIsLatest | agent/internal/traceroute/detector.go:42-128 | After any run, once 30 positive samples in a row started no streak, the history is exactly the latest 30 positive samples of the whole run |
| Detector.InvRun | agent/internal/traceroute/detector.go:42-128 | Between calls the pending streak is shorter than the required one and is the latest positive samples, each of them a candidate against the unchanged history, and the history is bounded by max(30, streak length) |
| Detector.HistoryPicked | agent/internal/traceroute/detector.go:42-128 | The history followed by the pending streak is a subsequence, in order, of the positive samples |
| Detector.AlarmMeaning | agent/internal/traceroute/detector.go:92-120 | An alarm means that the last positive samples, as many as required, all were candidates against one history, are clear of its median, agree with each other, and are the new history |
| Detector.StreakVerdict | agent/internal/traceroute/detector.go:92-120 | A full streak of candidates raises an alarm exactly when it is clear of the baseline and stable, then at its last sample and not before |
| Detector.PlateauDetected | agent/internal/traceroute/detector.go:57-120 | A plateau on one side of the baseline, far enough away and within 25 ms, is reported at its last sample and not before |
| Detector.AlarmRate | agent/internal/traceroute/detector.go:42-128 | k alarms, k at least 1, take at least 8 + k times the streak length positive samples |
| Detector.AlarmRateReached | agent/internal/traceroute/detector.go:42-128 | For every k some run reaches the exact bound |
| Detector.QuietBand | agent/internal/traceroute/detector.go:57-90 | Samples that stay inside a band of 25 ms never raise an alarm, however long |
| Detector.BandOf25Alarms | agent/internal/traceroute/detector.go:57-120 | A lasting jump of exactly 25 ms can raise one, so the band cannot be closed |
| OrderStats.CalcMedian | agent/internal/traceroute/detector.go:131-143 | The sorted copy gives the median |
| OrderStats.CalcMad | agent/internal/traceroute/detector.go:146-155 | The loop gives the median absolute deviation |
| OrderStats.MedianSplits | agent/internal/traceroute/detector.go:131-143 | At least half of the samples lie on either side of the median |
| OrderStats.MedianMiddle | agent/internal/traceroute/detector.go:131-143 | For any sorted permutation of the samples the median is the middle one, or the mean of the two in the middle |
| OrderStats.MadMajority | agent/internal/traceroute/detector.go:146-155 | A deviation of at most d means that at least half of the samples are within d |
| Version.Compare | shared/version/version.go:55-102 | The loop computes the order on cleaned versions, whose meaning is `Version.OrderMeaning` |
| Version.OrderAntisymmetric | shared/version/version.go:55-102 | Swapping the versions flips the sign, and the result is 0 exactly for equal cleaned strings |
| Version.OrderTransitive | shared/version/version.go:55-102 | Transitive across component lists of different lengths, the pre-release rule and the string tie-break |
| Version.OrderMeaning | shared/version/version.go:55-102 | Older means: a smaller number at the first component that differs, missing ones counting as 0; then a pre-release before its release; then the string that is a proper beginning of the other or has the smaller character where they first differ |
| Text.StrCompareMeaning | shared/version/version.go:101 | strings.Compare is negative exactly for strings in that order |
| Version.PartsMeaning | shared/version/version.go:63-68 | The components are the dot-separated parts of the text before the first hyphen |
| Version.AtoiMeaning | shared/version/version.go:76-83 | What a component counts for: the signed number it denotes, cut to 64 bits; a limit of that range when it is too large to be read; 0 for other text |
| Version.MissingIsZero | shared/version/version.go:76-83 | Writing out a missing component as 0 changes no component |
| Version.CleanMeaning | shared/version/version.go:22-27 | Cleaning takes the surrounding spaces and then at most one v and one V, in this order, whenever they are there |
| Version.CleanIdempotentWhen | shared/version/version.go:22-27 | Cleaning twice equals cleaning once exactly when, in the trimmed version, no space, v or V follows the optional v and V |
| Version.CleanNotIdempotent | shared/version/version.go:22-27 | "vv1" is a case where it does not |
| Version.DisplayKeepsVersion | shared/version/version.go:41-51 | The displayed form is the same version, displaying it again changes nothing, and it is the cleaned form behind one v exactly if that starts with a digit, else the trimmed input |
| Version.IsNewerStrictOnKnown | shared/version/version.go:107-124 | Among known versions IsNewer is a strict total order on cleaned strings (asymmetric, transitive, connected) and the opposite of AtLeast |
| Version.IsNewerThanItself | shared/version/version.go:116-124 | A version is newer than itself exactly when it is a placeholder |
| Text.SplitJoin | shared/version/version.go:55-102 | Splitting undoes joining when no part holds the separator |
| Text.JoinSplit | shared/version/version.go:55-102 | Joining undoes splitting, for every string |
| Text.TrimSpaceTrims | shared/version/version.go:22-27 | Trimming leaves no space at either end and leaves trimmed strings alone |
| Text.TrimSpaceCuts | shared/version/version.go:22-27 | Trimming takes spaces off both ends and nothing else |
| Feature.MinVersion | host/internal/feature/feature.go:52-59 | The loop finds the first row of a capability |
| Feature.Unsupported | host/internal/feature/feature.go:76-84 | The loop lists the capabilities a version lacks, in registry order |
| Feature.SupportsExactly | host/internal/feature/feature.go:66-72 | A capability is missing exactly if its first row gives a release, the version is one too, and it is older; untracked keys and placeholders are always supported |
| Feature.UnknownKeepsAll | host/internal/feature/feature.go:61-72 | A version that is empty, unknown or dev supports everything and is asked to exit cleanly |
| Feature.ShippedThresholds | host/internal/feature/feature.go:36-42 | The release from which each of the five shipped capabilities is supported |
| Feature.UpgradeKeepsFeatures | host/internal/feature/feature.go:66-72 | Upgrading a known version never loses a capability, for any registry |
| Feature.UpgradeClimbsLadder | host/internal/feature/legacy.go:82-94 | For one architecture an upgrade only moves from unsupported to crash to soft exit |
| Feature.UnsupportedIsSuffix | host/internal/feature/feature.go:76-84 | In an ascending registry the missing capabilities are a suffix, and each row is supported exactly below its start |
| Feature.RegistryAscends | host/internal/feature/feature.go:36-42 | The shipped registry is ascending and lies above the first release that can be crashed |
| Feature.LadderThresholds | host/internal/feature/legacy.go:37-94 | The restart ladder in terms of the two release thresholds and the architecture |
| Feature.ShippedLadder | host/internal/feature/legacy.go:37-94 | Soft exit from 1.2.1, crash from 1.0.3 on the eight 64-bit architectures, otherwise unsupported |
| IdList.NormalizeTargetIDList | host/internal/api/admin_agents.go:167-179 | The loop keeps the first occurrence of every trimmed, non-empty entry |
| IdList.SplitIDList | host/internal/ws/hub.go:152-160 | The loop collects the trimmed, non-empty entries |
| IdList.BuildTargetConfigs | host/internal/ws/hub.go:181-200 | The loop filters the targets and applies the overrides |
| IdList.EntriesByPart | host/internal/ws/hub.go:152-160 | The entries of a list are read part by part, in order |
| IdList.EntriesOfOne | host/internal/ws/hub.go:152-160 | A part gives its trimmed text, unless that is blank |
| IdList.DedupOrder | host/internal/api/admin_agents.go:167-179 | Of two entries that are kept, the one kept first also occurs first |
| IdList.NormalizedReadsBack | host/internal/api/admin_agents.go:167-179 | A normalised list reads back as the distinct entries of the original, in order |
| IdList.NormalizationKeepsMeaning | host/internal/api/admin_agents.go:167-179 | The other package parses the same set before and after normalisation, and normalising again changes nothing |
| IdList.ConfigsFilter | host/internal/ws/hub.go:181-200 | The synced targets are the ones not paused, with id and host unchanged and tracing off exactly where either side disabled it |
| IdList.KeptPositions | host/internal/ws/hub.go:181-200 | Every target that is not paused is kept, once and in order |
| IdList.NormalizationKeepsConfigs | host/internal/ws/hub.go:181-200 | A probe is synced the same targets for raw and normalised override lists |
| Sessions.Store.Issue | host/internal/proxy/session.go:60-109 | Issue adds exactly one credential, good for ten minutes, whose id and name no live one has, or it adds nothing and loses nothing; which of the two depends on the live credentials and the draws only |
| Sessions.OutcomeMeaning | host/internal/proxy/session.go:60-109 | When a session is issued, refused for its id or refused for want of a name, and every field of an issued one |
| Sessions.Store.Authenticate | host/internal/proxy/session.go:112-128 | A login is answered with a copy of the live credential of that name and password if there is one, and refused otherwise, whatever was purged |
| Sessions.Store.List | host/internal/proxy/session.go:131-144 | Exactly the live credentials, each once, sorted by expiry |
| Sessions.Store.Revoke | host/internal/proxy/session.go:147-161 | True exactly for the id of a live credential, which is dead from then on |
| Sessions.Store.PurgeLocked | host/internal/proxy/session.go:163-172 | The sweep removes exactly the expired sessions from both indexes and keeps them mutually inverse |
| Sessions.CredentialLife | host/internal/proxy/session.go:60-161 | Over any run after its issue a credential is live exactly while its window is open and its id is not revoked; while live its name opens with its password only; afterwards it never admits anyone |
| Sessions.RunKeepsDistinct | host/internal/proxy/session.go:60-109 | Over every run no two live credentials share an id or a name |
| Sessions.EntryThroughRun | host/internal/proxy/session.go:147-161 | A credential is revoked exactly by a revocation of its id inside its window |
| Sessions.PickName | host/internal/proxy/session.go:89-104 | The first free name among the draws before the first failed draw; all taken is a failure |
| Sessions.Store.PickUsername | host/internal/proxy/session.go:89-104 | The loop over the draws picks that name |
| Window.TargetWindow.Add | agent/internal/pinger/single.go:40-48 | The window is the last min(n, maxKeep) samples of everything ever added |
| Window.LastIsSuffix | agent/internal/pinger/single.go:40-48 | The last n of a list are its end, all of it when it is shorter |
| Window.TargetWindow.Summary | agent/internal/pinger/single.go:64-127 | The summary of exactly those samples |
| Window.SummaryOf | agent/internal/pinger/single.go:64-127 | The loops compute count, loss, extremes, mean, spread, jitter, latest sample and latest error of a window |
| Window.SummaryMeaning | agent/internal/pinger/single.go:96-119 | What every figure is, to within half a hundredth: extremes, sum over number, square root of the mean squared distance, weighted steps, last round trip, latest error |
| Window.SummaryOfNothing | agent/internal/pinger/single.go:68-125 | The summary when nothing was sent or nothing came back |
| Window.LastErrorIsLatest | agent/internal/pinger/single.go:83-94 | The latest error is that of the last failed sample that carries one |
| Window.RttsBySample | agent/internal/pinger/single.go:83-90 | The round trips are read sample by sample, in order |
| Window.RttsOfOne | agent/internal/pinger/single.go:83-90 | A sample gives its round trip exactly if it succeeded |
| Window.SumConcat | agent/internal/pinger/single.go:83-90 | The sum adds up the round trips |
| Window.SummaryOrdered | agent/internal/pinger/single.go:105-119 | After rounding the mean and the latest sample still lie between minimum and maximum; the jitter is at most the range and the standard deviation at most half of it |
| Window.StdDevBound | agent/internal/pinger/single.go:112-118 | The standard deviation is at most half the range |
| Window.VarianceBound | agent/internal/pinger/single.go:112-118 | Variance at most (max - mean)(mean - min) |
| Window.JitterWithinRange | agent/internal/pinger/pinger.go:141-151 | The jitter of section 6.4.1 of RFC 3550 is between 0 and max - min |
| Window.CalculateRFC3550Jitter | agent/internal/pinger/pinger.go:141-151 | The loop computes that jitter, rounded |
| Window.JitterWeighted | agent/internal/pinger/pinger.go:141-151 | The running mean in closed form: every step weighs 1/16, fading by 15/16 with each later step |
| Window.JitterOfEqualSteps | agent/internal/pinger/pinger.go:141-151 | After n equal steps of size d the jitter is d minus d times (15/16) to the n |
| Window.LossExact | agent/internal/pinger/single.go:96-125 | The loss is between 0 and 100, rounds to 0 exactly below one lost in 20000 and to 100 exactly up to one received in 20000 |
| Window.RoundNear | agent/internal/pinger/pinger.go:153-155 | Rounding moves a value by at most 0.005, rounds halves away from zero, is idempotent and odd |
| Scheduler.TargetScheduler.RunSerialTracerouteLoop | agent/cmd/agent/scheduler.go:145-172 | For any triggers, re-syncs and clock, traces never overlap and two traces of one target are 30 minutes apart, from end to start; and every trigger before the end is served by a turn of its own: unless cancelled, the first pass, periodic ones and re-syncs leave every target that may be traced with a trace ended less than 30 minutes before the turn began or in it, a shift does so for its target and traces nothing else |
| Scheduler.TargetScheduler.ExecuteSerialTraces | agent/cmd/agent/scheduler.go:207-253 | Only enabled targets of the snapshot are traced and only force breaks a cooldown; after a pass that was not cancelled every traceable target was traced in it or less than a cooldown before it |
| Scheduler.TargetScheduler.ExecuteSingleShiftTrace | agent/cmd/agent/scheduler.go:174-205 | At most one trace, of the asked target, if it is configured for tracing, and never inside its cooldown; afterwards such a target has been traced now or less than a cooldown ago |
| Scheduler.TraceRate | agent/cmd/agent/scheduler.go:145-253 | A span of time contains at most one start of a trace of a target per 30 minutes, plus one |
| Scheduler.PingWorkers.SyncTargets | agent/cmd/agent/scheduler.go:57-87 | The known workers stop and every id has a new one; targets are replaced, detectors survive, new ones ask for 30 samples, and the trace worker is triggered; every running worker stays reachable exactly if it was so before and no two targets share an id, or the scheduler has been stopped |
| Scheduler.PingWorkers.Stop | agent/cmd/agent/scheduler.go:255-263 | No worker runs any more, also none that the table had lost |
| Scheduler.TableReaches | agent/cmd/agent/scheduler.go:76-81 | Filling the table by id keeps every started worker exactly when the ids are distinct |
| Socks.Negotiate | tunnel/cmd/tunnel/socks5.go:79-106 | Accepts exactly the complete greetings that offer "no authentication", for any chunking, and answers as section 3 of RFC 1928 says |
| Socks.ReadAddr | tunnel/cmd/tunnel/socks5.go:136-174 | Reads exactly the well-formed addresses of the announced type |
| Socks.ReadRequest | tunnel/cmd/tunnel/socks5.go:109-133 | Accepts exactly the well-formed CONNECT requests and sends the reply each refusal calls for |
| Socks.Reader.ReadFull | tunnel/cmd/tunnel/socks5.go:79-91 | All of the asked bytes whenever that many are still coming, however they are cut; nothing is lost or reordered |
| Socks.HandleSOCKS5 | tunnel/cmd/tunnel/socks5.go:37-75 | A tunnel goes only where the client asked; upstream receives a prefix of what followed the request, all of it if no write fails, pipelined bytes first; every other ending sends the reply it calls for |
| Socks.RoundTrip | tunnel/cmd/tunnel/socks5.go:37-174 | For every greeting, request, payload and chunking, absent errors the destination is recovered and upstream receives exactly the payload |
| Socks.ClientOnce | tunnel/cmd/tunnel/socks5.go:79-174 | A byte stream can be read as a greeting, a request and a payload in only one way |
| Socks.NamesOnce | tunnel/cmd/tunnel/socks5.go:136-174 | An encoded address determines host, port and what follows |
| Socks.GreetingReads | tunnel/cmd/tunnel/socks5.go:79-106 | The bytes of a greeting, section 3 of RFC 1928 |
| Socks.RequestReads | tunnel/cmd/tunnel/socks5.go:109-174 | The bytes of a request, section 4 of RFC 1928: version, command, reserved, address type, address with its length where it is a name, and the port high byte first |
| Socks.AnswersRead | tunnel/cmd/tunnel/socks5.go:19-35 | The bytes of every answer, sections 3 and 6 of RFC 1928 |
| Stream.Conn.Read | shared/wsutil/conn.go:38-60 | The next bytes of the stream, at least one; the end of a message, empty or not, is never reported; it ends whenever a non-empty message remains |
| Stream.Conn.Write | shared/wsutil/conn.go:63-73 | One write is one message; the first that fails may leave any beginning of its message on the wire, and then nothing more goes out |
| Stream.Pump | shared/wsutil/conn.go:38-60 | With any buffers, what was read and what is left are exactly what arrived |
| Stream.RoundTrip | shared/wsutil/conn.go:38-73 | Wherever writes fail, the reads are a prefix of the writes, and all of them when no write failed and the stream ended without a fault or the reader asked often enough |
| Queue.Client.QueueReport | agent/internal/client/queue.go:12-33 | A report is sent under the probe's id, or queued with the oldest evicted at 500 |
| Queue.Client.FlushQueuedReports | agent/internal/client/queue.go:49-66 | Every queued report is offered once, in order; the failed ones stay in order |
| Queue.DeliveredExactly | agent/internal/client/queue.go:49-66 | A flush delivers exactly the reports whose sends work, in order |
| Queue.RemainingExactly | agent/internal/client/queue.go:49-66 | Exactly the others stay, in order |
| Queue.RunConserves | agent/internal/client/queue.go:12-66 | Over every run each report is in exactly one place once, the queue holds at most 500 in submission order, and evicted ones are older than all queued |
| Queue.OneFate | agent/internal/client/queue.go:12-66 | A report is queued, sent once or evicted, never two of these, and evicted only after 500 newer ones were submitted |
| Restart.Hub.BroadcastRestart | host/internal/ws/restart.go:113-190 | With anything happening meanwhile it ends and counts every connection of the snapshot in exactly one counter, and the counter says what the probe was sent and what could be delivered: unsupported nothing; crash a crash; soft exit a soft exit, its connection torn down; escalated a soft exit and then a crash; unreachable the request its build knows, failed, or a soft exit and then a failed crash. Nobody else is sent anything, and nobody is escalated within ten seconds |
| Restart.Hub.AwaitSoftExits | host/internal/ws/restart.go:154-190 | The polling loop ends and leaves nobody without a fate; connections gone when it starts are counted as clean exits and never crashed; the others are crashed once, no sooner than after ten seconds |
| Restart.Hub.RequestRestart | host/internal/ws/restart.go:58-89 | By build: nothing is sent; or one crash, reported delivered exactly if it was; or a soft exit, reported clean only if that connection was torn down and failed only if it could not be sent, else followed by a crash that is reported as one |
| Restart.Hub.Register | host/internal/ws/hub.go:36-48 | A new connection takes its predecessor's place and closes it |
| Restart.Hub.Unregister | host/internal/ws/hub.go:51-74 | Only the connection in the table itself is removed, so a stale one never removes its successor |
| Restart.Hub.SendToAgent | host/internal/ws/hub.go:97-117 | Sending to a probe without a connection is no error; otherwise it fails exactly when the connection is closed or its buffer full |
| Restart.Hub.SendWait | host/internal/ws/conn.go:69-103 | Ends; success means the message was accepted by an open connection, failure that it was closed or the time is up |
| Restart.AgentConn.SafeSend | host/internal/ws/conn.go:54-66 | Accepts exactly when open with room in the buffer |
| Restart.AgentConn.Close | host/internal/ws/conn.go:43-52 | Closing signals Gone, once, whoever does it |
| Restart.CountsTotal | host/internal/ws/restart.go:98-109 | The five counters of decided probes add up to their number |
| Restart.CountMeaning | host/internal/ws/restart.go:98-109 | A counter is the number of probes with its fate |

## Left out

- The web front end, the terminal UI, HTTP handlers, CONNECT parsing and basic authentication: presentation, routing and small parsers.
- The database, OAuth, JWT, cookies and settings; ICMP, DNS, geo lookups, downloads, installers and the crash payload: foreign calls. A ping, a dial, a send and a trace are choices of the environment or inputs.
- JSON, base64 and SHA-256: envelopes are lossless, a payload that does not decode is a message of its own, the hash is a function given to the store.
- Randomness: drawn bytes are inputs. Tunnel ids are assumed to be fresh.
- Real time: timers fire whenever the environment likes. Where time is the claim it is an integer that does not go back. In `Sessions` operations enter in the order of their clock readings; the program reads the clock just before it takes the lock.
- Floating point: `Window`, `OrderStats` and `Detector` compute over the reals, and `math.Sqrt` is a function given to `Window`; what is claimed of the standard deviation assumes that it is the square root.
- The write errors of the WebSocket library are final: after one every later write fails.
- The text form of IP addresses and of host:port: `Socks` keeps the address bytes and the port number.
- `strconv.Atoi` in `Version` follows the limits of a 64-bit machine.
- The relay's websocket queues are unbounded: a full buffer is a failed send, which the model allows at any time.
- The steps that follow the removal of a tunnel (closing, notifying, releasing the connection) are separate steps any time later; only what the probe's receive loop dropped is closed before the probe reconnects. That allows more interleavings than the program has.
- Reconnects.ClientReceivesPrefix: asks for orderly reconnects, because the claim fails without them; `Gaps.HarmlessExactly` says when.
- Scheduler.PingWorkers.SyncTargets: the detectors' samples and the ping loops themselves are not part of it.
- Restart.Hub.BroadcastRestart: what the counter of unreachable probes means to an operator is not claimed; a probe without a connection counts as reached.
- Restart.Hub.Disconnect: removal and closing are one step here and two in the program; nothing proved depends on it.
- Revoking a session does not reach tunnels that are added after its snapshot; nothing is claimed about them.
- Route classification, IP masking, quality grades, update checks and checksum parsing: they would only add easy members.
