# upnp-router-control in Dafny

A model of the control-point engine of upnp-router-control, a GTK tool that
finds a UPnP Internet Gateway Device on the local network. The tool shows the
router's identity, WAN status, external address and traffic, and manages its
port mappings. Four C sources are modelled, each in its own form:

- **src/urc-upnp.c**, the control point:
  - `upnp_strings.dfy` holds the pure helpers: the type comparator `device_service_cmp` over a C-string reading of `memcmp` and `atoi`, `parse_presentation_url` over `g_strsplit`/`g_strconcat`, and the comma split of `get_default_connection_service`.
  - `port_mappings.dfy` holds the port-mapping actions and the paginated `GetGenericPortMappingEntry` loop, as methods with invariants.
  - `router.dfy` holds the `RouterInfo` record as a class whose pollers, event handler and poll timers are proved against pure step functions.
  - `device_walk.dfy` holds the recursive `device_proxy_available_cb`, as a `ControlPoint` class with the static `level`, `connect_service` and byte totals. Its methods are proved equal to a recursive walk over a tree of devices, and the claim and level properties are proved about that walk.
  - `traffic.dfy` holds the baseline rule of `update_data_rate_cb`, on `guint` counters that wrap.
- **src/urc-graph.c**, the speed history: `speed_graph.dfy`. Two lists of samples are kept at 91 entries by a class. The file also has the integer grid and label arithmetic, and the walk the plotting loop makes along a list.
- **src/urc-gui.c**, the window:
  - `gui.dfy` holds the port list store as a class (clear, prepend all, remove a row), the byte-unit choice and the status-string mapping.
  - `gui_callbacks.dfy` holds the remove button and the add-port window.
- **src/upnp-port-mapper.c**, the older standalone mapper: `legacy_mapper.dfy`. Its global record, callback statics and labels are one class. Each callback is a pure step on a `Mapper` value, and the class's method applies it. The class and the walk run the code as written, including the three defects under "## Findings"; the corrected listing and pollers are defined beside them, and lemmas compare the two.

`upnp_types.dfy` holds the shared records: `PortForwardInfo`, the reply of an action, and the timers.

The network is an oracle, `UpnpTypes.Transport`: for each action, a function from the service and the arguments to `Ok(outputs)` or `Err(code, message)`. The same request always gets the same answer. GTK calls are recorded as values (`UpnpTypes.GuiCall`) or as label fields of the state, so that what the window is told is part of every contract.

## Model

| member | source | states |
|---|---|---|
| UpnpStrings.MemCmpIsPrefixTest | src/urc-upnp.c:791-794 | `memcmp` over the length of a NUL-free required string is 0 exactly when the candidate starts with it, including a candidate shorter than the prefix (whose NUL then differs) |
| UpnpStrings.DeviceServiceCmp | src/urc-upnp.c:785-790 | both strings missing gives 0, only the candidate missing gives -1, only the required string missing gives 1 |
| UpnpStrings.DeviceServiceCmpMeaning | src/urc-upnp.c:791-798 | 0 exactly when the candidate starts with the prefix and `atoi` of the rest is at least the version; -1 when the prefix matches with a lower version; non-zero on a prefix mismatch |
| UpnpStrings.Atoi | src/urc-upnp.c:795 | glibc's `(int) strtol`: the result is a 32-bit `int`, and it is the number read whenever that fits |
| UpnpStrings.ToCInt | src/urc-upnp.c:795 | the `long` to `int` cut lands in the `int` range, agrees with the value modulo 2^32, and keeps every value that fits |
| UpnpStrings.DecimalValueOfNatToString | src/urc-upnp.c:795 | the digits `%u` writes are read back as the same number |
| UpnpStrings.AtoiNatToString | src/urc-upnp.c:795 | `atoi` reads back a numeral below 2^31; one from 2^31 to 2^32 - 1 comes back 2^32 smaller (negative); no numeral comes back larger |
| UpnpStrings.VersionedTypeMatches | src/urc-upnp.c:795-798 | for n below 2^31, `<prefix><n>` matches version v exactly when n >= v; for any n a match implies n >= v and n < v compares -1; n from 2^31 to 2^32 - 1 compares -1 against every version >= 0 |
| UpnpStrings.MatchIsDownwardClosed | src/urc-upnp.c:796-797 | a type that matches version v matches every lower version (backward compatibility) |
| UpnpStrings.MissingVersionDoesNotMatch | src/urc-upnp.c:795-798 | a type with no version number after the prefix compares -1 for any version >= 1 |
| UpnpStrings.IgdVersionExamples | src/urc-upnp.c:827 | `InternetGatewayDevice:2` and `:1` match version 1; `:0` compares -1 |
| UpnpStrings.WanDeviceIsNotIgd | src/urc-upnp.c:827 | a WANDevice type is not taken for a gateway |
| UpnpStrings.FirstIndex | src/urc-upnp.c:739 | the first occurrence of a separator, or the length when there is none |
| UpnpStrings.FirstTwoFields | src/urc-upnp.c:739-741 | the first two `:` fields of the location joined by `:` are the location up to (not including) its second colon |
| UpnpStrings.ConcatStopsAtNull | src/urc-upnp.c:741 | `g_strconcat` stops at the first NULL argument |
| UpnpStrings.ParsePresentationUrl | src/urc-upnp.c:737-765 | a URL starting with `http` is returned unchanged; a missing URL becomes scheme:host + `/`; a relative one becomes scheme:host + the path; a location without a colon gives location + `:` |
| UpnpStrings.MissingPresentationUrlIsHostRoot | src/urc-upnp.c:737-746 | for `scheme:host:rest`, a missing URL gives `scheme:host/` |
| UpnpStrings.RelativePresentationUrlIsOnHost | src/urc-upnp.c:748-759 | for `scheme:host:rest`, a relative path p gives `scheme:host` + p |
| UpnpStrings.DefaultConnectionService | src/urc-upnp.c:558-589 | a service is kept exactly when the action succeeded with a value holding a comma, and it is the text after the first comma; an empty or missing value, or an error, gives none |
| UpnpStrings.DefaultConnectionServiceOfJoin | src/urc-upnp.c:563-573 | `"<device>,<serviceId>"` gives back the service id |
| PortMappings.DeletePortMapped | src/urc-upnp.c:46-79 | success exactly when the router accepts DeletePortMapping for that host, port and protocol; the router's error otherwise |
| PortMappings.AddPortMapping | src/urc-upnp.c:81-137 | the reply is the router's; on success the mapping's row is prepended to the list, otherwise the list is unchanged |
| PortMappings.GetMappedPort | src/urc-upnp.c:139-186 | an entry exactly when the query succeeds; the error is logged unless its code is 713 or 402 |
| PortMappings.FirstFailureIsUnique | src/urc-upnp.c:198 | the loop has a single stopping index: the first failing query |
| PortMappings.KeptContents | src/urc-upnp.c:211-212 | the kept entries are exactly the fetched entries with a non-zero external port |
| PortMappings.ReversedSnoc | src/urc-upnp.c:212 | prepending to a list of earlier entries gives the reversed fetch order |
| PortMappings.KeptGrows | src/urc-upnp.c:198-215 | one more answered index puts its entry, if its external port is non-zero, at the front of the prepended list, which stays the reversed kept entries |
| PortMappings.PrependAllOfReversed | src/urc-upnp.c:212-221 | prepending the reversed list row by row gives the rows in fetch order |
| PortMappings.CollectMappedPorts | src/urc-upnp.c:198-215 | for a router that fails some `guint` index, queries 0, 1, 2, ... and stops at the first failure whatever its code, below 2^32; the list is the kept entries reversed |
| PortMappings.DiscoverMappedPorts | src/urc-upnp.c:189-238 | the list store ends up holding exactly the entries with a non-zero external port, in fetch order |
| Router.ConnStatusStep | src/urc-upnp.c:241-291 | `connected` is true exactly when the status is "Connected"; a failure keeps it and disables the display; nothing else changes |
| Router.ConnectedMatchesDisplay | src/urc-upnp.c:264-289 | the flag agrees with the "Connected" markup the window shows |
| Router.ShownIp | src/urc-upnp.c:426-437 | "0.0.0.0" and a missing address are shown as none |
| Router.ExternalIpStep | src/urc-upnp.c:407-450 | a reply replaces the stored address; a failure keeps it and disables the display |
| Router.NatRsipStep | src/urc-upnp.c:453-486 | a reply sets both flags; a failure changes nothing |
| Router.EventStep | src/urc-upnp.c:621-675 | each event cancels its own poll; a status event sets `connected`; an address event is stored, and "0.0.0.0" is queried again instead of shown |
| Router.PollAndEventAgreeOnConnected | src/urc-upnp.c:659-669 | the poll and the event set `connected` from the same status in the same way |
| Router.AddressEventOutcome | src/urc-upnp.c:641-656 | the window is never shown "0.0.0.0" after an address event; the stored address is the event's, or the re-query's |
| Router.EventStopsOwnPoll | src/urc-upnp.c:621-675 | an event stops only its own poll timer and leaves the others and the data-rate timer alone |
| Router.RouterInfo.GetWanLinkProperties | src/urc-upnp.c:489-531 | the result is whether the router answered; the state is not changed |
| Router.RouterInfo.GetConnStatus | src/urc-upnp.c:241-291 | the new state and calls are `ConnStatusStep` of the old state on the router's reply |
| Router.RouterInfo.GetExternalIp | src/urc-upnp.c:407-450 | the new state and calls are `ExternalIpStep` of the old state |
| Router.RouterInfo.GetNatRsipStatus | src/urc-upnp.c:453-486 | the new state is `NatRsipStep` of the old state |
| Router.RouterInfo.ServiceEvent | src/urc-upnp.c:621-675 | the new state is `EventStep`; a port-count event re-lists the mappings |
| Router.RouterInfo.PortRequestTimeout | src/urc-upnp.c:592-599 | re-lists the mappings and re-arms the 10 s poll |
| Router.RouterInfo.ConnectionStatusTimeout | src/urc-upnp.c:601-608 | polls the status and re-arms the 10 s poll |
| Router.RouterInfo.ExternalIpTimeout | src/urc-upnp.c:610-617 | polls the address and re-arms the 10 s poll |
| Traffic.ByteDelta | src/urc-upnp.c:328-339 | a zero baseline gives 0; otherwise adding the delta to the baseline, modulo 2^32, gives the current total |
| Traffic.ByteDeltaIsUnique | src/urc-upnp.c:339 | the delta is the only 32-bit value with that property |
| Traffic.ByteDeltaCases | src/urc-upnp.c:339 | the plain difference when the counter grew, the wrapped difference when it went back |
| Traffic.ReceivedSample | src/urc-upnp.c:314-353 | success shows the rate and total and stores the total as the baseline; failure disables both and keeps the baseline |
| Traffic.SentSample | src/urc-upnp.c:355-395 | the same rule for the sent counter |
| Traffic.TrafficTick | src/urc-upnp.c:294-403 | both samples are taken in order and then the graph is redrawn |
| Traffic.CountersAreIndependent | src/urc-upnp.c:294-403 | each baseline depends only on its own counter |
| Traffic.FirstReadingStartsTheBaseline | src/urc-upnp.c:328-345 | the first reading shows rate 0, and the next delta is measured from it |
| DeviceWalk.PrefixesAreCStrings | src/urc-upnp.c:827 | the type prefixes have no NUL, so the comparator reads them whole |
| DeviceWalk.DeviceKindOf | src/urc-upnp.c:827 | gateway exactly when the type matches InternetGatewayDevice version 1; connection device when it matches WANConnectionDevice and not a gateway |
| DeviceWalk.ServiceKindOf | src/urc-upnp.c:993-1016 | the service tests in order: Layer3Forwarding or L3Forwarding, then WANCommonInterfaceConfig, then WANIPConnection |
| DeviceWalk.LaterGatewaysAreRecognised | src/urc-upnp.c:827 | every InternetGatewayDevice version from 1 to 2^31 - 1 is a gateway; versions from 2^31 to 2^32 - 1, negative for `atoi`, are not |
| DeviceWalk.LaterIpConnectionsAreRecognised | src/urc-upnp.c:1016 | every WANIPConnection version from 1 to 2^31 - 1 is the connection service; versions from 2^31 to 2^32 - 1 are not |
| DeviceWalk.DecideCases | src/urc-upnp.c:827-831 | a non-router, or a connection device below level 0, is passed over; a router returns when a device is already stored; otherwise it claims the record |
| DeviceWalk.FriendlyName | src/urc-upnp.c:878-885 | a non-empty name is kept; an empty one becomes the model name, or the model description when the model name is empty |
| DeviceWalk.FriendlyNameIsFilled | src/urc-upnp.c:928-935 | with a model name or description present, an empty name is replaced by a non-empty one |
| DeviceWalk.IdentityOf | src/urc-upnp.c:833-893 | the identity shown is the description's fields, the fixed name and the rebuilt presentation URL |
| DeviceWalk.ServicesKeepClaim | src/urc-upnp.c:992-1076 | the service loop leaves the level and the claimed device alone |
| DeviceWalk.WalkChildrenNext | src/urc-upnp.c:1097-1102 | one child step raises the level, walks the child and lowers the level |
| DeviceWalk.WalkDeviceRestoresLevel | src/urc-upnp.c:1097-1102 | `level` after any walk is what it was before |
| DeviceWalk.ClaimIsKept | src/urc-upnp.c:829-831 | once a device is stored, no walk changes it or the shown identity |
| DeviceWalk.FirstGatewayIsClaimed | src/urc-upnp.c:827-833 | the first gateway met becomes the main device with its identity |
| DeviceWalk.TopConnectionDeviceIsClaimed | src/urc-upnp.c:897-903 | a connection device at level 0 is claimed when no device is stored |
| DeviceWalk.LaterRouterIsIgnored | src/urc-upnp.c:829-831 | a later router returns before its services and children, and changes nothing |
| DeviceWalk.NestedConnectionDeviceIsWalked | src/urc-upnp.c:897 | a connection device below level 0 only has its services and children walked |
| DeviceWalk.ControlPoint.UpdateDataRate | src/urc-upnp.c:294-403 | the new state is one traffic tick with the timer re-armed for 1000 ms |
| DeviceWalk.ControlPoint.ConnectionServiceAvailable | src/urc-upnp.c:1016-1071 | stores the service, then queries the address, the status and the NAT flags, and arms the polls at 5, 6 and 7 s |
| DeviceWalk.ControlPoint.ServiceAvailable | src/urc-upnp.c:992-1073 | one service step, by service kind |
| DeviceWalk.ControlPoint.EnumServices | src/urc-upnp.c:957-1076 | the loop over the services is `WalkServices` |
| DeviceWalk.ControlPoint.EnumSubDevices | src/urc-upnp.c:1079-1106 | the loop over the children is `WalkChildren` |
| DeviceWalk.ControlPoint.DeviceAvailable | src/urc-upnp.c:802-1108 | the recursive callback is `WalkDevice` |
| SpeedGraph.Blanks | src/urc-graph.c:40-52 | n samples of speed 0 that are not valid |
| SpeedGraph.PushHead | src/urc-graph.c:60 | the new sample is the head |
| SpeedGraph.PushBound | src/urc-graph.c:62-66 | a list of at most 91 stays at most 91; a full list stays full, losing its last element while the rest shift by one in order |
| SpeedGraph.PushKeepsPlottable | src/urc-graph.c:266-287 | a list long enough to plot stays that long, with the new sample in front of the 90 newest |
| SpeedGraph.CDiv | src/urc-graph.c:128 | C division, truncating toward zero |
| SpeedGraph.YFrameCount | src/urc-graph.c:128-144 | 1, 2, 4 or 5 bands, each exactly for its range of heights, negative heights included |
| SpeedGraph.XLabelsCountDown | src/urc-graph.c:170-178 | the time labels are 90 - 15i, from 90 down to 0 |
| SpeedGraph.XLabel | src/urc-graph.c:174-178 | the first time label reads "90 seconds" |
| SpeedGraph.YLabelsCountDown | src/urc-graph.c:192-195 | for every count the grid takes, the speed labels fall strictly from 100 to 0 and never wrap |
| SpeedGraph.LinesAreTheReadSamples | src/urc-graph.c:270-287 | exactly the valid samples are drawn, each at its own slot with its own speed, newest first |
| SpeedGraph.SpeedGraph.InitGraph | src/urc-graph.c:34-53 | 91 unread samples are prepended to each list |
| SpeedGraph.SpeedGraph.UpdateDownload | src/urc-graph.c:56-67 | the download list is pushed, and the upload list is unchanged |
| SpeedGraph.SpeedGraph.UpdateUpload | src/urc-graph.c:69-80 | the upload list is pushed, and the download list is unchanged |
| SpeedGraph.SpeedGraph.ClearBackground | src/urc-graph.c:82-88 | the surface is gone afterwards, so a second call does nothing |
| SpeedGraph.SpeedGraph.PlotPath | src/urc-graph.c:262-287 | the loop draws `Path`: a move for a valid head, then the valid samples |
| Gui.RequestOfRowOf | src/urc-gui.c:288-298 | a row copies the mapping's fields, and its delete request names the mapping's host, port and protocol |
| Gui.PrependAllReverses | src/urc-gui.c:285-301 | the new rows are the entries in reverse order, ahead of the old rows |
| Gui.RemoveAt | src/urc-gui.c:352-355 | exactly the selected row is gone and the rest keep their order |
| Gui.PortsView.Clear | src/urc-gui.c:256-270 | the store is emptied, or left alone when there is no treeview |
| Gui.PortsView.AddMappedPorts | src/urc-gui.c:273-304 | the rows are `PrependAll` of the entries, or unchanged with no treeview |
| Gui.PortsView.RemoveRow | src/urc-gui.c:354 | the store loses exactly the given row |
| Gui.TotalUnit | src/urc-gui.c:503-522 | the unit whose divisor is at most the byte count and whose next one is above it: GiB from 2^30, MiB from 2^20, KiB from 1024, else B |
| Gui.TotalUnitIsUnique | src/urc-gui.c:549-568 | only one unit satisfies the thresholds, for received and sent totals alike |
| Gui.TotalValue | src/urc-gui.c:503-522 | the exact quotient: in B the byte count; in any other unit at least 1, below 1024 unless the unit is GiB, and below 4 in GiB |
| Gui.ConnStatusMarkup | src/urc-gui.c:698-718 | markup exactly for Connected, Disconnected, Connecting and Disconnecting; none for any other string |
| Gui.ConnStatusMarkupOfName | src/urc-gui.c:705-712 | the mapping and the state names are inverse |
| GuiCallbacks.AfterRemoveMeaning | src/urc-gui.c:335-355 | a failed delete keeps every row; a successful one drops only the selected row |
| GuiCallbacks.RemoveClicked | src/urc-gui.c:306-356 | no selection issues nothing and disables the button; otherwise the delete names the row and the store follows the reply |
| GuiCallbacks.NewMapping | src/urc-gui.c:126-134 | any remote host, lease time 0, enabled; the form's fields are copied |
| GuiCallbacks.FoldedFormForwardsSamePort | src/urc-gui.c:180-191 | with the form folded the mapping forwards a port to itself; unfolded, a local port set by hand is kept |
| GuiCallbacks.AddPortWindow.OnPortChange | src/urc-gui.c:180-191 | the local port follows the external one only while folded |
| GuiCallbacks.AddPortWindow.Apply | src/urc-gui.c:116-178 | adds the form's mapping; hides the window on success and shows the error otherwise |
| LegacyMapper.ListedContents | src/upnp-port-mapper.c:120-188 | with failures skipped, the rows are exactly the entries among 0..n-1 with a non-zero external port |
| LegacyMapper.ListedTop | src/upnp-port-mapper.c:165-178 | the last index listed is prepended, so it is the top row |
| LegacyMapper.AsWrittenStopsAtFailure | src/upnp-port-mapper.c:126-186 | as written, after the first failed index no later entry is listed |
| LegacyMapper.AsWrittenAgreesWithoutFailure | src/upnp-port-mapper.c:120-188 | without a failure the loop as written lists what the corrected loop lists |
| LegacyMapper.AsWrittenLosesLaterEntries | src/upnp-port-mapper.c:183-186 | entry 0 failing hides a good entry 1 in the loop as written, while the corrected loop lists it |
| LegacyMapper.ToggleEnabled | src/upnp-port-mapper.c:200-210 | the row count is kept |
| LegacyMapper.ToggleMeaning | src/upnp-port-mapper.c:200-210 | only the addressed row's enabled flag is negated; an invalid path changes nothing; toggling twice restores the rows |
| LegacyMapper.StatusStep | src/upnp-port-mapper.c:418-446 | `connected` exactly when "Connected"; failure keeps it and shows "unknown"; nothing else changes |
| LegacyMapper.IpStep | src/upnp-port-mapper.c:467-490 | a reply replaces the address; failure keeps it and shows "unknown" |
| LegacyMapper.StatusPollAsWrittenMissesConnection | src/upnp-port-mapper.c:406 | polling the common-interface service misses a connection the WAN connection service reports |
| LegacyMapper.IpPollAsWrittenMissesAddress | src/upnp-port-mapper.c:458 | polling the common-interface service misses an address the WAN connection service reports |
| LegacyMapper.EventStep | src/upnp-port-mapper.c:494-530 | a count event stores the count and re-lists as written (`ListedAsWritten`: nothing after the first failed index); an address event replaces the address; a status event sets `connected` exactly on "Connected" |
| LegacyMapper.PollAndEventAgree | src/upnp-port-mapper.c:424-427 | a successful poll and the matching event give the same state |
| LegacyMapper.ProgramsAgreeOnConnected | src/upnp-port-mapper.c:524-527 | the mapper and the control point set `connected` alike on a status event |
| LegacyMapper.RateTick | src/upnp-port-mapper.c:296-378 | the timer is kept exactly when both readings succeed; each successful reading becomes its baseline; the upload is not read after a failed download |
| LegacyMapper.DownloadFailureStopsEarly | src/upnp-port-mapper.c:334-340 | after a failed download the upload reply plays no part and its label is untouched |
| LegacyMapper.SameBaselineAsUrc | src/upnp-port-mapper.c:320-366 | successful readings follow the control point's baseline and delta rule |
| LegacyMapper.FirstReadingShowsZero | src/upnp-port-mapper.c:324-332 | a zero baseline shows rate 0 and stores the reading |
| LegacyMapper.LegacyKindOf | src/upnp-port-mapper.c:636-701 | exact type strings: Layer3Forwarding:1, then WANCommonInterfaceConfig:1, then the connection service by cached id or exact WANIPConnection:1 |
| LegacyMapper.ExactTypesOnly | src/upnp-port-mapper.c:590-673 | version 2 service types are dropped and a version 2 gateway is not recorded; `g_strcmp0(NULL, NULL)` picks a service without an id while none is cached |
| LegacyMapper.GatewayStep | src/upnp-port-mapper.c:590-620 | an exact `InternetGatewayDevice:1` is recorded with its name, vendor and URL; any other type changes nothing |
| LegacyMapper.ServicesKeepGateway | src/upnp-port-mapper.c:629-706 | the service loop keeps the gateway record and the rows |
| LegacyMapper.WalkKeepsRows | src/upnp-port-mapper.c:574-728 | the walk leaves the port rows and the count alone |
| LegacyMapper.LeafGatewayIsRecorded | src/upnp-port-mapper.c:590-620 | a gateway leaf is recorded with its own presentation URL |
| LegacyMapper.Unavailable | src/upnp-port-mapper.c:731-764 | only the exact gateway type clears the rows and blanks the labels; the record is kept |
| LegacyMapper.UnavailableIsIdempotent | src/upnp-port-mapper.c:731-764 | a second departure changes nothing more |
| LegacyMapper.PortMapper.MakePortMappingList | src/upnp-port-mapper.c:101-188 | the rows become those of `ListedAsWritten` for the stored count (the loop keeps the error flag the freed GError leaves); nothing else changes |
| LegacyMapper.PortMapper.ListEnableToggled | src/upnp-port-mapper.c:191-212 | the rows become `ToggleEnabled` of the path |
| LegacyMapper.StatusPollAsWritten | src/upnp-port-mapper.c:396-447 | polled on the common interface: `connected` is true exactly when that service reports "Connected"; failure keeps it and shows "unknown"; with no common interface nothing changes; the rest of the record and the rows are kept |
| LegacyMapper.IpPollAsWritten | src/upnp-port-mapper.c:450-491 | polled on the common interface, its address replaces the stored one; failure keeps it and shows "unknown"; with no common interface nothing changes |
| LegacyMapper.StatusPoll | src/upnp-port-mapper.c:396-447 | polled on the WAN connection service, `connected` is true exactly when that service reports "Connected"; failure keeps it and shows "unknown"; the rest of the record and the rows are kept |
| LegacyMapper.IpPoll | src/upnp-port-mapper.c:450-491 | polled on the WAN connection service, its address replaces the stored one; failure keeps it and shows "unknown" |
| LegacyMapper.PortMapper.GetConnStatus | src/upnp-port-mapper.c:396-447 | the state becomes `StatusPollAsWritten`; the result is whether the common interface answered, true when there is none |
| LegacyMapper.PortMapper.GetExternalIp | src/upnp-port-mapper.c:450-491 | the state becomes `IpPollAsWritten`; the result is whether the common interface answered, true when there is none |
| LegacyMapper.PortMapper.ServiceEvent | src/upnp-port-mapper.c:494-530 | the state becomes `EventStep`, the listing as written included |
| LegacyMapper.PortMapper.UpdateDataRate | src/upnp-port-mapper.c:296-378 | the state becomes `RateTick` of the two readings; the result keeps or stops the timer |
| LegacyMapper.PortMapper.ServiceAvailable | src/upnp-port-mapper.c:629-706 | one service step; the connection service is stored and then polled as written, on the common interface |
| LegacyMapper.PortMapper.EnumServices | src/upnp-port-mapper.c:623-706 | the service loop is `WalkServices` |
| LegacyMapper.PortMapper.EnumSubDevices | src/upnp-port-mapper.c:709-727 | the sub-device loop is `WalkChildren` |
| LegacyMapper.PortMapper.DeviceAvailable | src/upnp-port-mapper.c:574-728 | the recursive callback is `WalkDevice` |
| LegacyMapper.PortMapper.DeviceUnavailable | src/upnp-port-mapper.c:731-764 | the state becomes `Unavailable` |

## Code and documentation disagree

Where the code does something other than the project's documented design, the model follows the code:

- The control point polls each fact on its own 10 s timer, and the matching event cancels that timer. There is no single 300 s fallback poll.
- A byte counter that goes back is read as a 32-bit wrap (`guint` subtraction), not clamped to 0.
- A gateway is claimed at any depth of the device tree. Only a WANConnectionDevice is limited to level 0.
- Only WANIPConnection is taken as the connection service. The cached `connect_service` is computed but never compared (src/urc-upnp.c:1016).
- The mapper's `g_strcmp0` treats two missing strings as equal. A service without an id is therefore taken for the connection service while no default connection service is cached.

## Left out

- GTK and Cairo work is not modelled beyond the calls and labels the contracts name: markup strings, tooltips, dialogs, column setup, the about box and floating-point drawing.
- The floating-point rates (`duration_secs`, `/ 1024.0`) and the per-second unit scaling are not modelled. Only the integer baseline, the byte delta and the unit of the totals are.
- The transport (send_action, subscriptions, add_notify, the control point and context manager) is the `Transport` oracle. A router whose answers change over time is not modelled.
- GLib timers are flags (`Idle` or `Armed(ms)`). Repeated `g_timeout_add` sources in the mapper, one per WANCommonInterfaceConfig service met, are modelled as one flag.
- DeviceWalk.DataRateStep: each common interface met adds another 1000 ms rate source (src/urc-upnp.c:1012) beside the one each tick re-arms (src/urc-upnp.c:400); the model keeps one flag, so several sources ticking at once are not modelled.
- DeviceWalk.ConnectionServiceStep: each connection service met adds three more poll sources (src/urc-upnp.c:1063-1069); the model keeps one flag per poll.
- UpnpStrings.Atoi: follows glibc on an LP64 system (a 64-bit `long`, saturated by `strtol`, cut to 32 bits as GCC does); the C standard leaves an out-of-range `atoi` undefined, so a version number of 2^31 or more is promised nothing by other C libraries.
- Gui.TotalValue: the contract bounds the exact quotient. The program stores it in a `float` and prints it with `%0.1f`, which the model does not round: 1048575 B prints "1024.0 KiB" and 1073741823 B becomes the `float` 1024.0 MiB.
- PortMappings.CollectMappedPorts, PortMappings.DiscoverMappedPorts, Router.RouterInfo.ServiceEvent and Router.RouterInfo.PortRequestTimeout: they require a failing index below 2^32. A router that answers every `guint` index makes the source loop forever, the index wrapping to 0 (src/urc-upnp.c:198); that run is not modelled.
- LegacyMapper.StatusPollAsWritten and LegacyMapper.IpPollAsWritten: while no WANCommonInterfaceConfig service has been met, `router.wan_device` is NULL, `send_action` refuses it without setting the error, and the success branch reads uninitialised outputs. The model leaves the state unchanged there.
- LegacyMapper.ListedAsWritten: the error branch after the first failed index reads `error->message` from the freed GError and frees it again (src/upnp-port-mapper.c:184-185), undefined behaviour that can crash; the model goes on as if each later index only took the error branch.
- The router icon download (libcurl, a thread, file I/O) is not modelled.
- `device_proxy_unavailable_cb` of src/urc-upnp.c is not modelled. Its teardown frees `router` while the signals still hold it, and it matches the UDN by pointer.
- `RouterInfo` fields that `on_context_available` leaves uninitialised start empty in `Router.RouterInfo.constructor`.
- DeviceWalk.WalkDevice: the walk is stated over a `Rules` record of type tests so its proofs stay off strings. `SourceRules` is the instance of the code, and the string-level rules are proved separately.
- LegacyMapper.ServiceStep: a NULL or empty GetDefaultConnectionService value, on which the mapper's `g_strsplit` crashes, is modelled with the control point's rule (no service).
- LegacyMapper.ServiceStep: a failed Layer3Forwarding query frees its GError without resetting it, like `make_port_mapping_list`. Only the first later action in the same walk would see it, and the model lets every later action succeed or fail on its own reply.
- A tree path is a row index. A path `gtk_tree_model_get_iter_from_string` rejects is an index outside the rows.
- The mapper's own remove button and add window (in upnp-port-mapper.c) are not modelled. The control point's versions in urc-gui.c are.
- GuiCallbacks.NewMapping: the protocol is whatever the combo box holds. The NULL protocol of an empty combo is not modelled.
- GuiCallbacks.AddPortWindow: spin buttons are read as `guint` values directly; the `gdouble` conversion is not modelled.
- `src/urc-main.c` and the headers are not part of this model.

## Findings

| source | as written | input that shows it | evidently intended | confidence | as-written member | corrected member |
|---|---|---|---|---|---|---|
| src/upnp-port-mapper.c:183-186 | after a failed index the GError is freed but not set back to NULL, so every later `send_action` leaves it set and every later index takes the error branch, which reads the freed GError's message and frees it again (a use after free and a double free that can crash the program) | entry 0 fails, entry 1 succeeds with external port 8080 and count 2: the list stays empty | a failed index is skipped and the loop goes on with the next | not executed | LegacyMapper.AsWrittenLosesLaterEntries | LegacyMapper.ListedContents |
| src/upnp-port-mapper.c:406 | GetStatusInfo is sent to `router.wan_device`, the WANCommonInterfaceConfig service, which does not have it | a router whose WANIPConnection reports "Connected": the status shows "unknown" and `connected` stays false | send to `router.wan_service`, the WAN connection service | not executed | LegacyMapper.StatusPollAsWrittenMissesConnection | LegacyMapper.StatusPoll |
| src/upnp-port-mapper.c:458 | GetExternalIPAddress is sent to `router.wan_device` as well | a router whose WANIPConnection reports an address: the address shows "unknown" and is not stored | send to `router.wan_service` | not executed | LegacyMapper.IpPollAsWrittenMissesAddress | LegacyMapper.IpPoll |
