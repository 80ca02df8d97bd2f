/** The router session of urc-upnp.c: the `RouterInfo` record the callbacks
    fill in, the pollers `get_conn_status`, `get_external_ip`,
    `get_nat_rsip_status` and `get_wan_link_properties`, the handler of the
    WANIPConnection events and the three 10-second poll timers. Each operation
    is a pure step on `RouterState`; the methods of the class apply it to the
    fields. */
module Router {
  import opened UpnpTypes
  import opened Gui
  import opened PortMappings

  /** Identity of a device proxy (the C code stores the pointer). */
  type DeviceId = nat

  /** What the router record keeps about the claimed device. */
  datatype RouterIdentity = RouterIdentity(
    friendlyName: Option<string>,
    brand: Option<string>,
    httpAddress: Option<string>,
    brandWebsite: Option<string>,
    modelDescription: Option<string>,
    modelName: Option<string>,
    modelNumber: Option<string>,
    upc: Option<string>,
    udn: Option<string>)

  /** The fields of `RouterInfo` the control logic reads and writes. */
  datatype RouterState = RouterState(
    mainDevice: Option<DeviceId>,
    identity: Option<RouterIdentity>,
    wanCommonIfc: Option<ServiceHandle>,
    wanConnService: Option<ServiceHandle>,
    externalIp: Option<string>,
    connected: bool,
    rsipAvailable: bool,
    natEnabled: bool,
    portRequestTimeout: Timer,
    connectionStatusTimeout: Timer,
    externalIpTimeout: Timer,
    dataRateTimer: Timer)

  /** A new state together with the calls made into the window on the way. */
  datatype Step = Step(state: RouterState, calls: seq<GuiCall>)

  const ZeroAddress: string := "0.0.0.0"
  /** Delay of every re-armed poll, `g_timeout_add_seconds(10, ...)`. */
  const PollMs: nat := 10000

  // ---------------------------------------------------------------------
  // Pollers

  /** `get_conn_status`, urc-upnp.c:241-291: on success `connected` becomes
      whether the status is exactly "Connected" and the status is shown; on
      failure the status display is disabled and nothing else changes. */
  function ConnStatusStep(s: RouterState, reply: Reply<StatusInfo>): (st: Step)
    ensures st.state.connected <==>
      (if reply.Ok? then reply.value.connectionStatus == "Connected" else s.connected)
    ensures st.state.(connected := s.connected) == s
    ensures reply.Ok? ==> st.calls == [SetConnStatus(Some(reply.value.connectionStatus))]
    ensures reply.Err? ==> st.calls == [DisableConnStatus]
  {
    match reply
    case Ok(info) => Step(s.(connected := info.connectionStatus == "Connected"), [SetConnStatus(Some(info.connectionStatus))])
    case Err(_) => Step(s, [DisableConnStatus])
  }

  /** The flag and the window agree after a successful poll: `connected` holds
      exactly when the window shows the Connected state. */
  lemma ConnectedMatchesDisplay(s: RouterState, info: StatusInfo)
    ensures var st := ConnStatusStep(s, Ok(info));
      st.state.connected <==> ConnStatusMarkup(st.calls[0].state) == Some(Connected)
  {
  }

  /** The address to show for a stored one: "0.0.0.0" means none. */
  function ShownIp(ip: Option<string>): (r: Option<string>)
    ensures r.None? <==> ip.None? || ip == Some(ZeroAddress)
    ensures r.Some? ==> r == ip
  {
    if ip == Some(ZeroAddress) then None else ip
  }

  /** `get_external_ip`, urc-upnp.c:407-450: on success the reply replaces
      `external_ip` and is shown, "0.0.0.0" as no address; on failure the
      address display is disabled and the stored address is kept. */
  function ExternalIpStep(s: RouterState, reply: Reply<Option<string>>): (st: Step)
    ensures st.state.externalIp == (if reply.Ok? then reply.value else s.externalIp)
    ensures st.state.(externalIp := s.externalIp) == s
    ensures reply.Ok? ==> st.calls == [SetExtIp(ShownIp(reply.value))]
    ensures reply.Err? ==> st.calls == [DisableExtIp]
  {
    match reply
    case Ok(ip) => Step(s.(externalIp := ip), [SetExtIp(ShownIp(ip))])
    case Err(_) => Step(s, [DisableExtIp])
  }

  /** `get_nat_rsip_status`, urc-upnp.c:453-486: the two flags are stored on
      success and kept on failure; nothing is shown. */
  function NatRsipStep(s: RouterState, reply: Reply<NatRsip>): (r: RouterState)
    ensures reply.Ok? ==> r.rsipAvailable == reply.value.rsipAvailable && r.natEnabled == reply.value.natEnabled
    ensures reply.Err? ==> r == s
    ensures r.(rsipAvailable := s.rsipAvailable, natEnabled := s.natEnabled) == s
  {
    match reply
    case Ok(n) => s.(rsipAvailable := n.rsipAvailable, natEnabled := n.natEnabled)
    case Err(_) => s
  }

  // ---------------------------------------------------------------------
  // Events

  /** The three state variables the control point subscribes to, plus any
      other name (urc-upnp.c:1046-1060). */
  datatype Event =
    | PortMappingNumberOfEntries(count: U32)
    | ExternalIPAddress(ip: Option<string>)
    | ConnectionStatus(status: Option<string>)
    | Unmanaged(variable: string)

  /** The state part of `service_proxy_event_cb`, urc-upnp.c:621-675. Each
      managed event cancels the poll timer of its own variable, which is not
      armed again. A status event sets `connected` exactly when the value is
      "Connected" and shows it. An address event replaces `external_ip`; the
      value "0.0.0.0" is not shown but asked for again with
      GetExternalIPAddress (whose reply is `requery`). A port-count event
      refreshes the list (done by the method). */
  function EventStep(s: RouterState, e: Event, requery: Reply<Option<string>>): (st: Step)
    ensures e.PortMappingNumberOfEntries? ==> st == Step(s.(portRequestTimeout := Idle), [])
    ensures e.ConnectionStatus? ==>
      st.state == s.(connectionStatusTimeout := Idle, connected := e.status == Some("Connected"))
      && st.calls == [SetConnStatus(e.status)]
    ensures e.ExternalIPAddress? && e.ip != Some(ZeroAddress) ==>
      st.state == s.(externalIpTimeout := Idle, externalIp := e.ip) && st.calls == [SetExtIp(e.ip)]
    ensures e.ExternalIPAddress? && e.ip == Some(ZeroAddress) ==>
      st == ExternalIpStep(s.(externalIpTimeout := Idle, externalIp := e.ip), requery)
    ensures e.Unmanaged? ==> st == Step(s, [])
  {
    match e
    case PortMappingNumberOfEntries(_) => Step(s.(portRequestTimeout := Idle), [])
    case ExternalIPAddress(ip) =>
      var s1 := s.(externalIpTimeout := Idle, externalIp := ip);
      if ip == Some(ZeroAddress) then ExternalIpStep(s1, requery) else Step(s1, [SetExtIp(ip)])
    case ConnectionStatus(v) =>
      Step(s.(connectionStatusTimeout := Idle, connected := v == Some("Connected")), [SetConnStatus(v)])
    case Unmanaged(_) => Step(s, [])
  }

  /** Polling and events agree on `connected`: a successful poll and an event
      carrying the same status string leave the same flag. */
  lemma PollAndEventAgreeOnConnected(s: RouterState, info: StatusInfo, requery: Reply<Option<string>>)
    ensures ConnStatusStep(s, Ok(info)).state.connected
            == EventStep(s, ConnectionStatus(Some(info.connectionStatus)), requery).state.connected
  {
  }

  /** An address event never shows "0.0.0.0" as an address, and after it the
      stored address is the event's value unless the follow-up query
      succeeded, in which case it is that reply. */
  lemma AddressEventOutcome(s: RouterState, ip: Option<string>, requery: Reply<Option<string>>)
    ensures var st := EventStep(s, ExternalIPAddress(ip), requery);
      (forall c :: c in st.calls && c.SetExtIp? ==> c.ip != Some(ZeroAddress))
      && st.state.externalIp == (if ip == Some(ZeroAddress) && requery.Ok? then requery.value else ip)
      && st.state.externalIpTimeout == Idle
  {
  }

  /** An event stops the polling of its own variable and leaves the other
      timers as they were. */
  lemma EventStopsOwnPoll(s: RouterState, e: Event, requery: Reply<Option<string>>)
    requires !e.Unmanaged?
    ensures var r := EventStep(s, e, requery).state;
      (e.PortMappingNumberOfEntries? ==> r.portRequestTimeout == Idle)
      && (e.ExternalIPAddress? ==> r.externalIpTimeout == Idle)
      && (e.ConnectionStatus? ==> r.connectionStatusTimeout == Idle)
      && r.dataRateTimer == s.dataRateTimer
      && (!e.PortMappingNumberOfEntries? ==> r.portRequestTimeout == s.portRequestTimeout)
      && (!e.ExternalIPAddress? ==> r.externalIpTimeout == s.externalIpTimeout)
      && (!e.ConnectionStatus? ==> r.connectionStatusTimeout == s.connectionStatusTimeout)
  {
  }

  // ---------------------------------------------------------------------
  // The record

  /** `RouterInfo`. `on_context_available` (urc-upnp.c:1166-1168) initialises
      only `main_device` and `external_ip`; the model starts every other field
      empty, disconnected and idle. */
  class RouterInfo {
    var mainDevice: Option<DeviceId>
    var identity: Option<RouterIdentity>
    var wanCommonIfc: Option<ServiceHandle>
    var wanConnService: Option<ServiceHandle>
    var externalIp: Option<string>
    var connected: bool
    var rsipAvailable: bool
    var natEnabled: bool
    var portRequestTimeout: Timer
    var connectionStatusTimeout: Timer
    var externalIpTimeout: Timer
    var dataRateTimer: Timer

    function State(): RouterState
      reads this
    {
      RouterState(mainDevice, identity, wanCommonIfc, wanConnService, externalIp, connected,
                  rsipAvailable, natEnabled, portRequestTimeout, connectionStatusTimeout,
                  externalIpTimeout, dataRateTimer)
    }

    method SetState(s: RouterState)
      modifies this
      ensures State() == s
    {
      mainDevice, identity, wanCommonIfc, wanConnService := s.mainDevice, s.identity, s.wanCommonIfc, s.wanConnService;
      externalIp, connected, rsipAvailable, natEnabled := s.externalIp, s.connected, s.rsipAvailable, s.natEnabled;
      portRequestTimeout, connectionStatusTimeout := s.portRequestTimeout, s.connectionStatusTimeout;
      externalIpTimeout, dataRateTimer := s.externalIpTimeout, s.dataRateTimer;
    }

    constructor ()
      ensures State() == RouterState(None, None, None, None, None, false, false, false, Idle, Idle, Idle, Idle)
    {
      mainDevice, identity, wanCommonIfc, wanConnService := None, None, None, None;
      externalIp, connected, rsipAvailable, natEnabled := None, false, false, false;
      portRequestTimeout, connectionStatusTimeout, externalIpTimeout, dataRateTimer := Idle, Idle, Idle, Idle;
    }

    /** `get_conn_status` on the WANIPConnection service. */
    method GetConnStatus(t: Transport) returns (ok: bool, calls: seq<GuiCall>)
      requires wanConnService.Some?
      modifies this
      ensures var reply := t.statusInfo(old(wanConnService).value);
        ok == reply.Ok? && Step(State(), calls) == ConnStatusStep(old(State()), reply)
    {
      var reply := t.statusInfo(wanConnService.value);
      match reply {
        case Ok(info) =>
          connected := info.connectionStatus == "Connected";
          calls := [SetConnStatus(Some(info.connectionStatus))];
        case Err(_) =>
          calls := [DisableConnStatus];
      }
      ok := reply.Ok?;
    }

    /** `get_external_ip` on the WANIPConnection service. */
    method GetExternalIp(t: Transport) returns (ok: bool, calls: seq<GuiCall>)
      requires wanConnService.Some?
      modifies this
      ensures var reply := t.externalIpAddress(old(wanConnService).value);
        ok == reply.Ok? && Step(State(), calls) == ExternalIpStep(old(State()), reply)
    {
      var reply := t.externalIpAddress(wanConnService.value);
      match reply {
        case Ok(ip) =>
          externalIp := ip;
          calls := [SetExtIp(ShownIp(externalIp))];
        case Err(_) =>
          calls := [DisableExtIp];
      }
      ok := reply.Ok?;
    }

    /** `get_nat_rsip_status` on the WANIPConnection service. */
    method GetNatRsipStatus(t: Transport) returns (ok: bool)
      requires wanConnService.Some?
      modifies this
      ensures var reply := t.natRsipStatus(old(wanConnService).value);
        ok == reply.Ok? && State() == NatRsipStep(old(State()), reply)
    {
      var reply := t.natRsipStatus(wanConnService.value);
      if reply.Ok? {
        rsipAvailable, natEnabled := reply.value.rsipAvailable, reply.value.natEnabled;
      }
      ok := reply.Ok?;
    }

    /** `get_wan_link_properties`, urc-upnp.c:489-531: the reply is only
        logged. */
    method GetWanLinkProperties(t: Transport) returns (ok: bool)
      requires wanCommonIfc.Some?
      ensures ok == t.commonLinkProperties(wanCommonIfc.value).Ok?
    {
      ok := t.commonLinkProperties(wanCommonIfc.value).Ok?;
    }

    /** `service_proxy_event_cb`, urc-upnp.c:621-675. A port-count event
        re-runs the enumeration, which needs some index to fail. */
    method ServiceEvent(e: Event, t: Transport, view: PortsView) returns (calls: seq<GuiCall>)
      requires wanConnService.Some?
      requires e.PortMappingNumberOfEntries? ==> exists k: U32 :: t.portMappingEntry(wanConnService.value, k).Err?
      modifies this, view
      ensures Step(State(), calls) == EventStep(old(State()), e, t.externalIpAddress(old(wanConnService).value))
      ensures e.PortMappingNumberOfEntries? && view.hasTreeview ==> exists n: nat ::
        FirstFailure(t, wanConnService.value, n) && view.rows == RowsOf(Kept(t, wanConnService.value, n))
      ensures !e.PortMappingNumberOfEntries? ==> view.rows == old(view.rows)
    {
      calls := [];
      match e {
        case PortMappingNumberOfEntries(_) =>
          portRequestTimeout := Idle;
          var n, _ := DiscoverMappedPorts(view, t, wanConnService.value);
        case ExternalIPAddress(ip) =>
          externalIpTimeout := Idle;
          externalIp := ip;
          if ip == Some(ZeroAddress) {
            var _, c := GetExternalIp(t);
            calls := c;
          } else {
            calls := [SetExtIp(ip)];
          }
        case ConnectionStatus(v) =>
          connectionStatusTimeout := Idle;
          calls := [SetConnStatus(v)];
          connected := v == Some("Connected");
        case Unmanaged(_) =>
      }
    }

    /** `get_mapped_ports_list_timeout`, urc-upnp.c:592-599: refresh the list
        and poll again in 10 seconds. */
    method PortRequestTimeout(t: Transport, view: PortsView)
      requires wanConnService.Some?
      requires exists k: U32 :: t.portMappingEntry(wanConnService.value, k).Err?
      modifies this, view
      ensures State() == old(State()).(portRequestTimeout := Armed(PollMs))
      ensures view.hasTreeview ==> exists n: nat ::
        FirstFailure(t, wanConnService.value, n) && view.rows == RowsOf(Kept(t, wanConnService.value, n))
    {
      var n, _ := DiscoverMappedPorts(view, t, wanConnService.value);
      portRequestTimeout := Armed(PollMs);
    }

    /** `get_connection_status_timeout`, urc-upnp.c:601-608. */
    method ConnectionStatusTimeout(t: Transport) returns (calls: seq<GuiCall>)
      requires wanConnService.Some?
      modifies this
      ensures var st := ConnStatusStep(old(State()), t.statusInfo(old(wanConnService).value));
        State() == st.state.(connectionStatusTimeout := Armed(PollMs)) && calls == st.calls
    {
      var _, c := GetConnStatus(t);
      calls := c;
      connectionStatusTimeout := Armed(PollMs);
    }

    /** `get_external_ip_timeout`, urc-upnp.c:610-617. */
    method ExternalIpTimeout(t: Transport) returns (calls: seq<GuiCall>)
      requires wanConnService.Some?
      modifies this
      ensures var st := ExternalIpStep(old(State()), t.externalIpAddress(old(wanConnService).value));
        State() == st.state.(externalIpTimeout := Armed(PollMs)) && calls == st.calls
    {
      var _, c := GetExternalIp(t);
      calls := c;
      externalIpTimeout := Armed(PollMs);
    }
  }
}
