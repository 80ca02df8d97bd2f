/** The standalone mapper of upnp-port-mapper.c, the program the control point
    grew out of. Its global `router` record, the statics of two callbacks and
    the widgets it fills are the state of one class; every callback is a pure
    step on `Mapper` that a method of the class applies. Unlike urc-upnp.c it
    recognises types by exact string equality, records every gateway it meets,
    lists exactly `PortMappingNumberOfEntries` indices and stops the data-rate
    timer at the first failed reading. */
module LegacyMapper {
  import opened UpnpTypes
  import opened UpnpStrings
  import opened Gui
  import Router
  import Traffic
  import DeviceWalk

  // ---------------------------------------------------------------------
  // State

  /** The router name and configuration link labels. */
  datatype RouterLabel = RouterBlank | RouterShown(name: Option<string>, address: Option<string>)
  /** The WAN status label: blank, "unknown", or the Connected/Disconnected markup. */
  datatype StatusLabel = StatusBlank | StatusUnknown | StatusShown(connected: bool)
  /** The address label: blank, "unknown", or the address. */
  datatype IpLabel = IpBlank | IpUnknown | IpShown(ip: Option<string>)
  /** A rate label: blank, "n.a.", or the rate of this many bytes per tick. */
  datatype RateLabel = RateBlank | RateNa | RateShown(deltaBytes: U32)

  datatype Labels = Labels(router: RouterLabel, wanStatus: StatusLabel, ip: IpLabel,
                           downRate: RateLabel, upRate: RateLabel)

  const BlankLabels: Labels := Labels(RouterBlank, StatusBlank, IpBlank, RateBlank, RateBlank)

  /** `router_struct` (upnp-port-mapper.h), the static `connect_service` of
      `device_proxy_available_cb`, the two statics of `update_data_rate_cb`,
      its timer, the rows of the list store and the labels. */
  datatype Mapper = Mapper(
    mainDevice: Option<Router.DeviceId>,
    friendlyName: Option<string>,
    vendor: Option<string>,
    httpAddress: Option<string>,
    entries: U32,
    externalIp: Option<string>,
    connected: bool,
    wanService: Option<ServiceHandle>,
    wanDevice: Option<ServiceHandle>,
    connectService: Option<string>,
    oldReceived: U32,
    oldSent: U32,
    dataRateTimer: Timer,
    rows: seq<Row>,
    labels: Labels)

  /** The fields of `router_struct` that name the router and its services. */
  predicate SameRecord(a: Mapper, b: Mapper) {
    a.mainDevice == b.mainDevice && a.friendlyName == b.friendlyName && a.vendor == b.vendor
    && a.httpAddress == b.httpAddress && a.entries == b.entries && a.externalIp == b.externalIp
    && a.connected == b.connected && a.wanService == b.wanService && a.wanDevice == b.wanDevice
  }

  // ---------------------------------------------------------------------
  // make_port_mapping_list

  /** The rows after querying indices 0..n-1 on service h, each failure
      skipped (upnp-port-mapper.c:120-188 with the error reset after each
      failed index): every entry with a non-zero external port is prepended. */
  function Listed(t: Transport, h: ServiceHandle, n: nat): seq<Row> {
    if n == 0 then []
    else
      var prev := Listed(t, h, n - 1);
      match t.portMappingEntry(h, n - 1)
      case Ok(p) => if p.externalPort > 0 then [RowOf(p)] + prev else prev
      case Err(_) => prev
  }

  /** Exactly the entries with a non-zero external port among the indices
      0..n-1 become rows, whatever failed in between. */
  lemma {:induction false} ListedContents(t: Transport, h: ServiceHandle, n: nat)
    ensures |Listed(t, h, n)| <= n
    ensures forall r :: r in Listed(t, h, n) ==> (exists j :: (0 <= j < n && t.portMappingEntry(h, j).Ok?
      && t.portMappingEntry(h, j).value.externalPort > 0 && r == RowOf(t.portMappingEntry(h, j).value)))
    ensures forall j :: 0 <= j < n && t.portMappingEntry(h, j).Ok? && t.portMappingEntry(h, j).value.externalPort > 0 ==>
      RowOf(t.portMappingEntry(h, j).value) in Listed(t, h, n)
  {
    if n > 0 {
      ListedContents(t, h, n - 1);
      var prev := Listed(t, h, n - 1);
      var e := t.portMappingEntry(h, n - 1);
      var last: seq<Row> := if e.Ok? && e.value.externalPort > 0 then [RowOf(e.value)] else [];
      assert Listed(t, h, n) == last + prev;
      forall r | r in Listed(t, h, n)
        ensures exists j :: (0 <= j < n && t.portMappingEntry(h, j).Ok?
          && t.portMappingEntry(h, j).value.externalPort > 0 && r == RowOf(t.portMappingEntry(h, j).value))
      {
        if r in prev {
          var j :| 0 <= j < n - 1 && t.portMappingEntry(h, j).Ok?
            && t.portMappingEntry(h, j).value.externalPort > 0 && r == RowOf(t.portMappingEntry(h, j).value);
          assert 0 <= j < n;
        } else {
          assert r in last;
        }
      }
    }
  }

  /** The newest row is the entry of the highest listed index. */
  lemma ListedTop(t: Transport, h: ServiceHandle, n: nat, p: PortForwardInfo)
    requires t.portMappingEntry(h, n) == Ok(p) && p.externalPort > 0
    ensures Listed(t, h, n + 1)[0] == RowOf(p)
  {
  }

  /** The loop as written: `error` is freed after a failed index but not set
      back to NULL (upnp-port-mapper.c:183-186), and GLib never overwrites or
      clears a set GError, so every later index takes the error branch. */
  datatype Listing = Listing(rows: seq<Row>, errorSet: bool)

  function ListedAsWritten(t: Transport, h: ServiceHandle, n: nat): Listing {
    if n == 0 then Listing([], false)
    else
      var prev := ListedAsWritten(t, h, n - 1);
      if prev.errorSet then prev
      else
        match t.portMappingEntry(h, n - 1)
        case Ok(p) => Listing(if p.externalPort > 0 then [RowOf(p)] + prev.rows else prev.rows, false)
        case Err(_) => Listing(prev.rows, true)
  }

  /** As written, nothing after the first failed index is listed. */
  lemma {:induction false} AsWrittenStopsAtFailure(t: Transport, h: ServiceHandle, k: nat, n: nat)
    requires k < n && t.portMappingEntry(h, k).Err?
    ensures ListedAsWritten(t, h, n).errorSet
    ensures ListedAsWritten(t, h, n).rows == ListedAsWritten(t, h, k).rows
  {
    if n > k + 1 {
      AsWrittenStopsAtFailure(t, h, k, n - 1);
    }
  }

  /** Before any failure the two loops agree. */
  lemma {:induction false} AsWrittenAgreesWithoutFailure(t: Transport, h: ServiceHandle, n: nat)
    requires forall j :: 0 <= j < n ==> t.portMappingEntry(h, j).Ok?
    ensures ListedAsWritten(t, h, n) == Listing(Listed(t, h, n), false)
  {
    if n > 0 {
      AsWrittenAgreesWithoutFailure(t, h, n - 1);
    }
  }

  /** The discrepancy: a router whose entry 0 cannot be read but whose
      entry 1 can. The listing as written is empty; the entry belongs in the
      list. */
  lemma AsWrittenLosesLaterEntries(t: Transport, h: ServiceHandle, p: PortForwardInfo)
    requires t.portMappingEntry(h, 0).Err? && t.portMappingEntry(h, 1) == Ok(p) && p.externalPort > 0
    ensures ListedAsWritten(t, h, 2).rows == []
    ensures Listed(t, h, 2) == [RowOf(p)]
  {
    AsWrittenStopsAtFailure(t, h, 0, 2);
    assert Listed(t, h, 1) == [];
  }

  // ---------------------------------------------------------------------
  // list_enable_toggled_cb

  /** Negate the enabled column of row i, or change nothing when i does not
      name a row (upnp-port-mapper.c:200-210). The router is not told. */
  function ToggleEnabled(rows: seq<Row>, i: int): (r: seq<Row>)
    ensures |r| == |rows|
  {
    if 0 <= i < |rows| then rows[i := rows[i].(enabled := !rows[i].enabled)] else rows
  }

  /** Only the enabled flag of the addressed row changes; an invalid path
      changes nothing; toggling twice restores the list. */
  lemma ToggleMeaning(rows: seq<Row>, i: int)
    ensures forall j :: 0 <= j < |rows| && j != i ==> ToggleEnabled(rows, i)[j] == rows[j]
    ensures 0 <= i < |rows| ==> (ToggleEnabled(rows, i)[i].enabled == !rows[i].enabled
      && ToggleEnabled(rows, i)[i].(enabled := rows[i].enabled) == rows[i])
    ensures !(0 <= i < |rows|) ==> ToggleEnabled(rows, i) == rows
    ensures ToggleEnabled(ToggleEnabled(rows, i), i) == rows
  {
  }

  // ---------------------------------------------------------------------
  // get_conn_status and get_external_ip

  /** `get_conn_status` on a reply, upnp-port-mapper.c:396-447: on success
      `connected` is whether the status is exactly "Connected" and the label
      shows which; on failure the label says "unknown" and nothing else
      changes. */
  function StatusStep(s: Mapper, reply: Reply<StatusInfo>): (r: Mapper)
    ensures r.connected <==> (if reply.Ok? then reply.value.connectionStatus == "Connected" else s.connected)
    ensures r.labels.wanStatus == (if reply.Ok? then StatusShown(r.connected) else StatusUnknown)
    ensures r.(connected := s.connected, labels := s.labels) == s && r.labels.(wanStatus := s.labels.wanStatus) == s.labels
  {
    match reply
    case Ok(info) =>
      var c := info.connectionStatus == "Connected";
      s.(connected := c, labels := s.labels.(wanStatus := StatusShown(c)))
    case Err(_) => s.(labels := s.labels.(wanStatus := StatusUnknown))
  }

  /** `get_external_ip` on a reply, upnp-port-mapper.c:450-491: on success the
      reply replaces `external_ip` and is shown as it is; on failure the label
      says "unknown" and the stored address is kept. */
  function IpStep(s: Mapper, reply: Reply<Option<string>>): (r: Mapper)
    ensures r.externalIp == (if reply.Ok? then reply.value else s.externalIp)
    ensures r.labels.ip == (if reply.Ok? then IpShown(reply.value) else IpUnknown)
    ensures r.(externalIp := s.externalIp, labels := s.labels) == s && r.labels.(ip := s.labels.ip) == s.labels
  {
    match reply
    case Ok(ip) => s.(externalIp := ip, labels := s.labels.(ip := IpShown(ip)))
    case Err(_) => s.(labels := s.labels.(ip := IpUnknown))
  }

  /** The two pollers as written send their actions to `router.wan_device`
      (upnp-port-mapper.c:406 and 458), the WANCommonInterfaceConfig service,
      whose service template defines neither GetStatusInfo nor
      GetExternalIPAddress. This is what the program runs. While no common
      interface has been seen the proxy is NULL, the action is refused
      without an error being set, and nothing is recorded here. */
  function StatusPollAsWritten(s: Mapper, t: Transport): (r: Mapper)
    ensures s.wanDevice.Some? ==> var reply := t.statusInfo(s.wanDevice.value);
      (r.connected <==> (if reply.Ok? then reply.value.connectionStatus == "Connected" else s.connected))
      && r.labels.wanStatus == (if reply.Ok? then StatusShown(r.connected) else StatusUnknown)
    ensures s.wanDevice.None? ==> r == s
    ensures SameRecord(r, s.(connected := r.connected)) && r.rows == s.rows
  {
    if s.wanDevice.Some? then StatusStep(s, t.statusInfo(s.wanDevice.value)) else s
  }

  function IpPollAsWritten(s: Mapper, t: Transport): (r: Mapper)
    ensures s.wanDevice.Some? ==> var reply := t.externalIpAddress(s.wanDevice.value);
      r.externalIp == (if reply.Ok? then reply.value else s.externalIp)
      && r.labels.ip == (if reply.Ok? then IpShown(reply.value) else IpUnknown)
    ensures s.wanDevice.None? ==> r == s
    ensures SameRecord(r, s.(externalIp := r.externalIp)) && r.rows == s.rows
  {
    if s.wanDevice.Some? then IpStep(s, t.externalIpAddress(s.wanDevice.value)) else s
  }

  /** The pollers as intended, on the WANIPConnection service, which defines
      both actions. */
  function StatusPoll(s: Mapper, t: Transport): (r: Mapper)
    requires s.wanService.Some?
    ensures var reply := t.statusInfo(s.wanService.value);
      (r.connected <==> (if reply.Ok? then reply.value.connectionStatus == "Connected" else s.connected))
      && r.labels.wanStatus == (if reply.Ok? then StatusShown(r.connected) else StatusUnknown)
    ensures SameRecord(r, s.(connected := r.connected)) && r.rows == s.rows
  {
    StatusStep(s, t.statusInfo(s.wanService.value))
  }

  function IpPoll(s: Mapper, t: Transport): (r: Mapper)
    requires s.wanService.Some?
    ensures var reply := t.externalIpAddress(s.wanService.value);
      r.externalIp == (if reply.Ok? then reply.value else s.externalIp)
      && r.labels.ip == (if reply.Ok? then IpShown(reply.value) else IpUnknown)
    ensures SameRecord(r, s.(externalIp := r.externalIp)) && r.rows == s.rows
  {
    IpStep(s, t.externalIpAddress(s.wanService.value))
  }

  /** The discrepancy: when the common interface rejects GetStatusInfo (UPnP
      error 401, Invalid Action) and the connection service reports
      "Connected", the poll as written shows "unknown" and leaves a
      disconnected record disconnected; on the connection service the record
      becomes connected. */
  lemma StatusPollAsWrittenMissesConnection(s: Mapper, t: Transport, info: StatusInfo, e: ActionError)
    requires s.wanDevice.Some? && s.wanService.Some? && !s.connected
    requires t.statusInfo(s.wanDevice.value) == Err(e)
    requires t.statusInfo(s.wanService.value) == Ok(info) && info.connectionStatus == "Connected"
    ensures !StatusPollAsWritten(s, t).connected && StatusPollAsWritten(s, t).labels.wanStatus == StatusUnknown
    ensures StatusPoll(s, t).connected && StatusPoll(s, t).labels.wanStatus == StatusShown(true)
  {
  }

  /** The same for the address: as written the label says "unknown" and the
      address the connection service reports is never stored. */
  lemma IpPollAsWrittenMissesAddress(s: Mapper, t: Transport, ip: string, e: ActionError)
    requires s.wanDevice.Some? && s.wanService.Some? && s.externalIp.None?
    requires t.externalIpAddress(s.wanDevice.value) == Err(e)
    requires t.externalIpAddress(s.wanService.value) == Ok(Some(ip))
    ensures IpPollAsWritten(s, t).externalIp.None? && IpPollAsWritten(s, t).labels.ip == IpUnknown
    ensures IpPoll(s, t).externalIp == Some(ip) && IpPoll(s, t).labels.ip == IpShown(Some(ip))
  {
  }

  // ---------------------------------------------------------------------
  // service_proxy_event_cb

  /** `service_proxy_event_cb`, upnp-port-mapper.c:494-530, for the service
      the events come from: a count event stores the count and lists that
      many indices again, as the listing is written (nothing after the first
      failed index); an address event replaces and shows the address;
      a status event sets `connected` exactly when the value is "Connected". */
  function EventStep(s: Mapper, e: Router.Event, t: Transport): (r: Mapper)
    requires s.wanService.Some?
    ensures e.PortMappingNumberOfEntries? ==>
      r == s.(entries := e.count, rows := ListedAsWritten(t, s.wanService.value, e.count).rows)
    ensures e.ExternalIPAddress? ==> r == s.(externalIp := e.ip, labels := s.labels.(ip := IpShown(e.ip)))
    ensures e.ConnectionStatus? ==> ((r.connected <==> e.status == Some("Connected"))
      && r == s.(connected := r.connected, labels := s.labels.(wanStatus := StatusShown(r.connected))))
    ensures e.Unmanaged? ==> r == s
  {
    match e
    case PortMappingNumberOfEntries(n) => s.(entries := n, rows := ListedAsWritten(t, s.wanService.value, n).rows)
    case ExternalIPAddress(ip) => s.(externalIp := ip, labels := s.labels.(ip := IpShown(ip)))
    case ConnectionStatus(v) =>
      var c := v == Some("Connected");
      s.(connected := c, labels := s.labels.(wanStatus := StatusShown(c)))
    case Unmanaged(_) => s
  }

  /** Polling and events agree: a successful poll and an event carrying the
      same value leave the same state. */
  lemma PollAndEventAgree(s: Mapper, t: Transport, info: StatusInfo, ip: Option<string>)
    requires s.wanService.Some?
    ensures StatusStep(s, Ok(info)) == EventStep(s, Router.ConnectionStatus(Some(info.connectionStatus)), t)
    ensures IpStep(s, Ok(ip)) == EventStep(s, Router.ExternalIPAddress(ip), t)
  {
  }

  /** Both programs derive `connected` from a status event the same way. */
  lemma ProgramsAgreeOnConnected(s: Mapper, r: Router.RouterState, v: Option<string>, t: Transport,
                                 requery: Reply<Option<string>>)
    requires s.wanService.Some?
    ensures EventStep(s, Router.ConnectionStatus(v), t).connected
            == Router.EventStep(r, Router.ConnectionStatus(v), requery).state.connected
  {
  }

  // ---------------------------------------------------------------------
  // update_data_rate_cb

  const DataRateMs: nat := 1000

  /** The new state and whether the timer source is kept. */
  datatype Poll = Poll(state: Mapper, keep: bool)

  /** `update_data_rate_cb`, upnp-port-mapper.c:296-378, on the two replies of
      the common interface: a successful reading is shown as its `guint`
      difference from the stored one (0 while that is 0) and stored; a failed
      download reading says "n.a." and stops the timer before the upload
      counter is asked; a failed upload reading does the same for upload. */
  function RateTick(s: Mapper, rx: Reply<U32>, tx: Reply<U32>): (p: Poll)
    ensures p.keep <==> rx.Ok? && tx.Ok?
    ensures p.state.dataRateTimer == (if p.keep then s.dataRateTimer else Idle)
    ensures p.state.oldReceived == (if rx.Ok? then rx.value else s.oldReceived)
    ensures p.state.oldSent == (if rx.Ok? && tx.Ok? then tx.value else s.oldSent)
  {
    match rx
    case Err(_) => Poll(s.(dataRateTimer := Idle, labels := s.labels.(downRate := RateNa)), false)
    case Ok(down) =>
      var s1 := s.(oldReceived := down, labels := s.labels.(downRate := RateShown(Traffic.ByteDelta(s.oldReceived, down))));
      match tx
      case Err(_) => Poll(s1.(dataRateTimer := Idle, labels := s1.labels.(upRate := RateNa)), false)
      case Ok(up) => Poll(s1.(oldSent := up, labels := s1.labels.(upRate := RateShown(Traffic.ByteDelta(s.oldSent, up)))), true)
  }

  /** A failed download reading ends the tick: the upload reply plays no part
      and the upload label and baseline are untouched. */
  lemma DownloadFailureStopsEarly(s: Mapper, e: ActionError, tx: Reply<U32>, tx2: Reply<U32>)
    ensures RateTick(s, Err(e), tx) == RateTick(s, Err(e), tx2)
    ensures RateTick(s, Err(e), tx).state.labels.upRate == s.labels.upRate
    ensures RateTick(s, Err(e), tx).state.labels.downRate == RateNa
  {
  }

  /** The baseline rule is that of urc-upnp.c: the same stored readings and
      the same byte counts for the same replies. */
  lemma SameBaselineAsUrc(s: Mapper, down: U32, up: U32)
    ensures var p := RateTick(s, Ok(down), Ok(up));
      p.state.oldReceived == Traffic.ReceivedSample(s.oldReceived, Ok(down)).baseline
      && p.state.oldSent == Traffic.SentSample(s.oldSent, Ok(up)).baseline
      && p.state.labels.downRate == RateShown(Traffic.ReceivedSample(s.oldReceived, Ok(down)).calls[0].deltaBytes)
      && p.state.labels.upRate == RateShown(Traffic.SentSample(s.oldSent, Ok(up)).calls[0].deltaBytes)
  {
  }

  /** The first reading after start shows 0 and becomes the baseline. */
  lemma FirstReadingShowsZero(s: Mapper, down: U32, tx: Reply<U32>)
    requires s.oldReceived == 0
    ensures RateTick(s, Ok(down), tx).state.labels.downRate == RateShown(0)
    ensures RateTick(s, Ok(down), tx).state.oldReceived == down
  {
  }

  // ---------------------------------------------------------------------
  // device_proxy_available_cb and device_proxy_unavailable_cb

  const GatewayType1: string := IgdType + "1"
  const Layer3ForwardingType1: string := DeviceWalk.Layer3ForwardingType + "1"
  const WanCommonIfcType1: string := DeviceWalk.WanCommonIfcType + "1"
  const WanIpConnType1: string := DeviceWalk.WanIpConnType + "1"

  /** How the service loop treats a service, in the order of its tests
      (upnp-port-mapper.c:636-701): exact type strings, and the WAN
      connection service also by `g_strcmp0` of its id with the cached
      `connect_service`, under which two NULLs are equal. */
  datatype LegacyKind = Forwarding | CommonInterface | Connection | Dropped

  function LegacyKindOf(serviceType: Option<string>, serviceId: Option<string>, connectService: Option<string>): (k: LegacyKind)
    ensures k == Forwarding <==> serviceType == Some(Layer3ForwardingType1)
    ensures k == CommonInterface <==> serviceType == Some(WanCommonIfcType1)
    ensures k == Connection <==> (serviceType != Some(Layer3ForwardingType1) && serviceType != Some(WanCommonIfcType1)
      && (serviceId == connectService || serviceType == Some(WanIpConnType1)))
  {
    if serviceType == Some(Layer3ForwardingType1) then Forwarding
    else if serviceType == Some(WanCommonIfcType1) then CommonInterface
    else if serviceId == connectService || serviceType == Some(WanIpConnType1) then Connection
    else Dropped
  }

  /** Only version 1 is recognised: a later version of a type is dropped
      unless its id is the cached one, and while no default connection
      service is known a service without an id is taken as the WAN
      connection service; a version 2 gateway is not recorded. */
  lemma ExactTypesOnly(id: Option<string>, cached: Option<string>, s: Mapper, d: DeviceWalk.Device)
    requires id != cached
    ensures LegacyKindOf(Some(DeviceWalk.WanIpConnType + "2"), id, cached) == Dropped
    ensures LegacyKindOf(Some(DeviceWalk.Layer3ForwardingType + "2"), id, cached) == Dropped
    ensures LegacyKindOf(Some(DeviceWalk.WanIpConnType + "2"), None, None) == Connection
    ensures d.deviceType == Some(IgdType + "2") ==> GatewayStep(s, d) == s
  {
    assert (DeviceWalk.WanIpConnType + "2")[|DeviceWalk.WanIpConnType|] != WanIpConnType1[|DeviceWalk.WanIpConnType|];
    assert (DeviceWalk.Layer3ForwardingType + "2")[|DeviceWalk.Layer3ForwardingType|] != Layer3ForwardingType1[|DeviceWalk.Layer3ForwardingType|];
    assert (IgdType + "2")[|IgdType|] != GatewayType1[|IgdType|];
  }

  /** The gateway branch, upnp-port-mapper.c:590-620: every gateway of exact
      type `InternetGatewayDevice:1` overwrites the record with its name,
      manufacturer and raw presentation URL, and shows them. */
  function GatewayStep(s: Mapper, d: DeviceWalk.Device): (r: Mapper)
    ensures d.deviceType == Some(GatewayType1) ==> (r.mainDevice == Some(d.id)
      && r.friendlyName == d.info.friendlyName && r.vendor == d.info.manufacturer
      && r.httpAddress == d.info.presentationUrl
      && r.labels.router == RouterShown(d.info.friendlyName, d.info.presentationUrl))
    ensures d.deviceType != Some(GatewayType1) ==> r == s
  {
    if d.deviceType == Some(GatewayType1) then
      s.(mainDevice := Some(d.id), friendlyName := d.info.friendlyName, vendor := d.info.manufacturer,
         httpAddress := d.info.presentationUrl,
         labels := s.labels.(router := RouterShown(d.info.friendlyName, d.info.presentationUrl)))
    else s
  }

  /** The WAN connection branch, upnp-port-mapper.c:672-701: take the
      service, then run the two pollers as written, which ask the common
      interface rather than the service just taken. */
  function ConnectionStep(s: Mapper, h: ServiceHandle, t: Transport): Mapper {
    var s1 := s.(wanService := Some(h));
    IpPollAsWritten(StatusPollAsWritten(s1, t), t)
  }

  /** One service of the loop, upnp-port-mapper.c:629-706. A failed
      GetDefaultConnectionService keeps the cached value. */
  function ServiceStep(s: Mapper, svc: DeviceWalk.Service, t: Transport): Mapper {
    match LegacyKindOf(svc.serviceType, svc.serviceId, s.connectService)
    case Forwarding =>
      var reply := t.defaultConnectionService(svc.handle);
      if reply.Ok? then s.(connectService := DefaultConnectionService(reply)) else s
    case CommonInterface => s.(wanDevice := Some(svc.handle), dataRateTimer := Armed(DataRateMs))
    case Connection => ConnectionStep(s, svc.handle, t)
    case Dropped => s
  }

  /** The services services[..n], in order. */
  function WalkServices(s: Mapper, services: seq<DeviceWalk.Service>, n: nat, t: Transport): Mapper
    requires n <= |services|
  {
    if n == 0 then s else ServiceStep(WalkServices(s, services, n - 1, t), services[n - 1], t)
  }

  /** `device_proxy_available_cb` for d: the gateway test, the services,
      then each sub-device recursively (no nesting level is kept). */
  function WalkDevice(s: Mapper, d: DeviceWalk.Device, t: Transport): Mapper
    decreases d, |d.children| + 1
  {
    WalkChildren(WalkServices(GatewayStep(s, d), d.services, |d.services|, t), d, |d.children|, t)
  }

  function WalkChildren(s: Mapper, parent: DeviceWalk.Device, n: nat, t: Transport): Mapper
    requires n <= |parent.children|
    decreases parent, n
  {
    if n == 0 then s else WalkDevice(WalkChildren(s, parent, n - 1, t), parent.children[n - 1], t)
  }

  /** The service loop never touches the gateway fields, the count, the
      rows, or the router and rate labels. */
  lemma {:induction false} ServicesKeepGateway(s: Mapper, services: seq<DeviceWalk.Service>, n: nat, t: Transport)
    requires n <= |services|
    ensures var r := WalkServices(s, services, n, t);
      r.mainDevice == s.mainDevice && r.friendlyName == s.friendlyName && r.vendor == s.vendor
      && r.httpAddress == s.httpAddress && r.entries == s.entries && r.rows == s.rows
      && r.labels.router == s.labels.router && r.labels.downRate == s.labels.downRate
  {
    if n > 0 {
      ServicesKeepGateway(s, services, n - 1, t);
    }
  }

  /** A walk never changes the list store or the stored count: the list is
      only filled by the count event. */
  lemma {:induction false} WalkKeepsRows(s: Mapper, d: DeviceWalk.Device, t: Transport)
    ensures WalkDevice(s, d, t).rows == s.rows && WalkDevice(s, d, t).entries == s.entries
    decreases d, |d.children| + 1
  {
    var s1 := GatewayStep(s, d);
    ServicesKeepGateway(s1, d.services, |d.services|, t);
    ChildrenKeepRows(WalkServices(s1, d.services, |d.services|, t), d, |d.children|, t);
  }

  lemma {:induction false} ChildrenKeepRows(s: Mapper, parent: DeviceWalk.Device, n: nat, t: Transport)
    requires n <= |parent.children|
    ensures WalkChildren(s, parent, n, t).rows == s.rows && WalkChildren(s, parent, n, t).entries == s.entries
    decreases parent, n
  {
    if n > 0 {
      ChildrenKeepRows(s, parent, n - 1, t);
      WalkKeepsRows(WalkChildren(s, parent, n - 1, t), parent.children[n - 1], t);
    }
  }

  /** A gateway without sub-devices ends up as the recorded router, with its
      presentation URL kept as given (not rebuilt as urc-upnp.c does). */
  lemma LeafGatewayIsRecorded(s: Mapper, d: DeviceWalk.Device, t: Transport)
    requires d.deviceType == Some(GatewayType1) && d.children == []
    ensures WalkDevice(s, d, t).mainDevice == Some(d.id)
    ensures WalkDevice(s, d, t).httpAddress == d.info.presentationUrl
  {
    ServicesKeepGateway(GatewayStep(s, d), d.services, |d.services|, t);
  }

  /** `device_proxy_unavailable_cb`, upnp-port-mapper.c:731-764: only a
      departing gateway of exact type `InternetGatewayDevice:1` clears the
      list and blanks the labels; the router record itself is kept. */
  function Unavailable(s: Mapper, deviceType: Option<string>): (r: Mapper)
    ensures deviceType != Some(GatewayType1) ==> r == s
    ensures deviceType == Some(GatewayType1) ==> r.rows == [] && r.labels == BlankLabels
    ensures SameRecord(r, s) && r.connectService == s.connectService && r.dataRateTimer == s.dataRateTimer
  {
    if deviceType != Some(GatewayType1) then s else s.(rows := [], labels := BlankLabels)
  }

  /** A second departure changes nothing more. */
  lemma UnavailableIsIdempotent(s: Mapper, deviceType: Option<string>)
    ensures Unavailable(Unavailable(s, deviceType), deviceType) == Unavailable(s, deviceType)
  {
  }

  // ---------------------------------------------------------------------
  // The program state

  class PortMapper {
    var mainDevice: Option<Router.DeviceId>
    var friendlyName: Option<string>
    var vendor: Option<string>
    var httpAddress: Option<string>
    var entries: U32
    var externalIp: Option<string>
    var connected: bool
    var wanService: Option<ServiceHandle>
    var wanDevice: Option<ServiceHandle>
    var connectService: Option<string>
    var oldReceived: U32
    var oldSent: U32
    var dataRateTimer: Timer
    var rows: seq<Row>
    var labels: Labels

    function State(): Mapper
      reads this
    {
      Mapper(mainDevice, friendlyName, vendor, httpAddress, entries, externalIp, connected,
             wanService, wanDevice, connectService, oldReceived, oldSent, dataRateTimer, rows, labels)
    }

    /** The globals and statics start zeroed. */
    constructor ()
      ensures State() == Mapper(None, None, None, None, 0, None, false, None, None, None, 0, 0, Idle, [], BlankLabels)
    {
      mainDevice, friendlyName, vendor, httpAddress := None, None, None, None;
      entries, externalIp, connected, wanService, wanDevice := 0, None, false, None, None;
      connectService, oldReceived, oldSent, dataRateTimer := None, 0, 0, Idle;
      rows, labels := [], BlankLabels;
    }

    /** `make_port_mapping_list`: clear the list, then query the indices
        0..entries-1 in order, prepending each entry with a non-zero
        external port; the first failed index leaves `error` set, and every
        later index takes the error branch. */
    method MakePortMappingList(t: Transport)
      requires wanService.Some?
      modifies this
      ensures State() == old(State()).(rows := ListedAsWritten(t, old(wanService).value, old(entries)).rows)
    {
      rows := [];
      var h := wanService.value;
      var errorSet := false;
      for i := 0 to entries
        invariant ListedAsWritten(t, h, i) == Listing(rows, errorSet)
        invariant State() == old(State()).(rows := rows)
      {
        var reply := t.portMappingEntry(h, i);
        if !errorSet {
          if reply.Ok? {
            if reply.value.externalPort > 0 {
              rows := [RowOf(reply.value)] + rows;
            }
          } else {
            errorSet := true;
          }
        }
      }
    }

    /** `list_enable_toggled_cb` for the row a tree path names; a path that
        names no row is passed as an out-of-range index. */
    method ListEnableToggled(i: int)
      modifies this
      ensures State() == old(State()).(rows := ToggleEnabled(old(rows), i))
    {
      if 0 <= i < |rows| {
        rows := rows[i := rows[i].(enabled := !rows[i].enabled)];
      }
    }

    /** `get_conn_status`, sent to the common interface as written; `ok` is
        its return value, true also when the NULL proxy refused the action. */
    method GetConnStatus(t: Transport) returns (ok: bool)
      modifies this
      ensures State() == StatusPollAsWritten(old(State()), t)
      ensures ok == (old(wanDevice).Some? ==> t.statusInfo(old(wanDevice).value).Ok?)
    {
      if wanDevice.None? {
        return true;
      }
      var reply := t.statusInfo(wanDevice.value);
      match reply {
        case Ok(info) =>
          connected := info.connectionStatus == "Connected";
          labels := labels.(wanStatus := StatusShown(connected));
        case Err(_) =>
          labels := labels.(wanStatus := StatusUnknown);
      }
      ok := reply.Ok?;
    }

    /** `get_external_ip`, sent to the common interface as written. */
    method GetExternalIp(t: Transport) returns (ok: bool)
      modifies this
      ensures State() == IpPollAsWritten(old(State()), t)
      ensures ok == (old(wanDevice).Some? ==> t.externalIpAddress(old(wanDevice).value).Ok?)
    {
      if wanDevice.None? {
        return true;
      }
      var reply := t.externalIpAddress(wanDevice.value);
      match reply {
        case Ok(ip) =>
          externalIp := ip;
          labels := labels.(ip := IpShown(ip));
        case Err(_) =>
          labels := labels.(ip := IpUnknown);
      }
      ok := reply.Ok?;
    }

    /** `service_proxy_event_cb` for an event of the WAN connection service. */
    method ServiceEvent(e: Router.Event, t: Transport)
      requires wanService.Some?
      modifies this
      ensures State() == EventStep(old(State()), e, t)
    {
      match e {
        case PortMappingNumberOfEntries(n) =>
          entries := n;
          MakePortMappingList(t);
        case ExternalIPAddress(ip) =>
          externalIp := ip;
          labels := labels.(ip := IpShown(ip));
        case ConnectionStatus(v) =>
          connected := v == Some("Connected");
          labels := labels.(wanStatus := StatusShown(connected));
        case Unmanaged(_) =>
      }
    }

    /** One tick of `update_data_rate_cb` on the common interface; `keep` is
        its return value, and a false one removes the timer. */
    method UpdateDataRate(t: Transport) returns (keep: bool)
      requires wanDevice.Some?
      modifies this
      ensures var p := RateTick(old(State()), t.totalBytesReceived(old(wanDevice).value), t.totalBytesSent(old(wanDevice).value));
        State() == p.state && keep == p.keep
    {
      var h := wanDevice.value;
      var rx := t.totalBytesReceived(h);
      if rx.Err? {
        labels := labels.(downRate := RateNa);
        dataRateTimer := Idle;
        return false;
      }
      labels := labels.(downRate := RateShown(Traffic.ByteDelta(oldReceived, rx.value)));
      var tx := t.totalBytesSent(h);
      if tx.Err? {
        oldReceived := rx.value;
        labels := labels.(upRate := RateNa);
        dataRateTimer := Idle;
        return false;
      }
      labels := labels.(upRate := RateShown(Traffic.ByteDelta(oldSent, tx.value)));
      oldReceived, oldSent := rx.value, tx.value;
      keep := true;
    }

    /** One service of the loop. */
    method ServiceAvailable(svc: DeviceWalk.Service, t: Transport)
      modifies this
      ensures State() == ServiceStep(old(State()), svc, t)
    {
      match LegacyKindOf(svc.serviceType, svc.serviceId, connectService) {
        case Forwarding =>
          var reply := t.defaultConnectionService(svc.handle);
          if reply.Ok? {
            connectService := DefaultConnectionService(reply);
          }
        case CommonInterface =>
          wanDevice, dataRateTimer := Some(svc.handle), Armed(DataRateMs);
        case Connection =>
          wanService := Some(svc.handle);
          ghost var s1 := State();
          var _ := GetConnStatus(t);
          assert State() == StatusPollAsWritten(s1, t);
          var _ := GetExternalIp(t);
        case Dropped =>
      }
    }

    /** The service loop, in list order. */
    method EnumServices(services: seq<DeviceWalk.Service>, t: Transport)
      modifies this
      ensures State() == WalkServices(old(State()), services, |services|, t)
    {
      ghost var s0 := State();
      var i := 0;
      while i < |services|
        invariant 0 <= i <= |services|
        invariant State() == WalkServices(s0, services, i, t)
      {
        ServiceAvailable(services[i], t);
        i := i + 1;
      }
    }

    /** The sub-device loop: each sub-device is walked in turn. */
    method EnumSubDevices(d: DeviceWalk.Device, t: Transport)
      modifies this
      ensures State() == WalkChildren(old(State()), d, |d.children|, t)
      decreases d, 0
    {
      ghost var s0 := State();
      var j := 0;
      while j < |d.children|
        invariant 0 <= j <= |d.children|
        invariant State() == WalkChildren(s0, d, j, t)
      {
        DeviceAvailable(d.children[j], t);
        j := j + 1;
      }
    }

    /** `device_proxy_available_cb` for d and its sub-devices. */
    method DeviceAvailable(d: DeviceWalk.Device, t: Transport)
      modifies this
      ensures State() == WalkDevice(old(State()), d, t)
      decreases d, 1
    {
      if d.deviceType == Some(GatewayType1) {
        mainDevice, friendlyName, vendor := Some(d.id), d.info.friendlyName, d.info.manufacturer;
        httpAddress := d.info.presentationUrl;
        labels := labels.(router := RouterShown(d.info.friendlyName, d.info.presentationUrl));
      }
      EnumServices(d.services, t);
      EnumSubDevices(d, t);
    }

    /** `device_proxy_unavailable_cb` for a departing device of the given type. */
    method DeviceUnavailable(deviceType: Option<string>)
      modifies this
      ensures State() == Unavailable(old(State()), deviceType)
    {
      if deviceType == Some(GatewayType1) {
        rows, labels := [], BlankLabels;
      }
    }
  }
}
