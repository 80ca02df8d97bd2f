/** `device_proxy_available_cb` of urc-upnp.c (lines 802-1108): the recursive
    walk over an announced device, its services and its sub-devices. It claims
    the router record for the first gateway it meets, classifies services by
    type with the version-tolerant comparison, and keeps two statics between
    calls: the nesting `level` and the cached `connect_service`. The data-rate
    callback, whose statics are the two stored byte totals, is here as well
    because the walk starts it. */
module DeviceWalk {
  import opened UpnpTypes
  import opened UpnpStrings
  import opened Gui
  import opened Router
  import opened Traffic

  // ---------------------------------------------------------------------
  // Devices as the control point sees them

  /** A description URL: a device proxy is always created from one, so it is
      never empty. */
  type Location = s: string | s != [] witness ":"

  /** The description fields of a device proxy (`gupnp_device_info_get_*`). */
  datatype DeviceInfo = DeviceInfo(
    friendlyName: Option<string>,
    manufacturer: Option<string>,
    presentationUrl: Option<string>,
    manufacturerUrl: Option<string>,
    modelDescription: Option<string>,
    modelName: Option<string>,
    modelNumber: Option<string>,
    upc: Option<string>,
    udn: Option<string>,
    location: Location)

  datatype Service = Service(serviceType: Option<string>, serviceId: Option<string>, handle: ServiceHandle)

  datatype Device = Device(id: DeviceId, deviceType: Option<string>, info: DeviceInfo,
                           services: seq<Service>, children: seq<Device>)

  // ---------------------------------------------------------------------
  // Type tests

  const WcdType: string := DeviceUrn + "WANConnectionDevice:"
  const Layer3ForwardingType: string := ServiceUrn + "Layer3Forwarding:"
  const L3ForwardingType: string := ServiceUrn + "L3Forwarding:"
  const WanCommonIfcType: string := ServiceUrn + "WANCommonInterfaceConfig:"
  const WanIpConnType: string := ServiceUrn + "WANIPConnection:"

  lemma PrefixesAreCStrings()
    ensures NulFree(IgdType) && NulFree(WcdType)
    ensures NulFree(Layer3ForwardingType) && NulFree(L3ForwardingType)
    ensures NulFree(WanCommonIfcType) && NulFree(WanIpConnType)
  {
    IgdTypeIsCString();
    assert NulFree("WANConnectionDevice:") && NulFree("Layer3Forwarding:") && NulFree("L3Forwarding:");
    assert NulFree("WANCommonInterfaceConfig:") && NulFree("WANIPConnection:");
  }

  /** `device_service_cmp(t, prefix, 1) == 0` for one of the C-string
      prefixes above (`PrefixesAreCStrings`). */
  predicate IsType(t: Option<string>, prefix: string) {
    NulFree(prefix) && Matches(t, prefix, 1)
  }

  /** What the two device tests of urc-upnp.c:827 and 897 say about a
      device type; the gateway test is made first. */
  datatype DeviceKind = Gateway | ConnectionDevice | OtherDevice

  function DeviceKindOf(deviceType: Option<string>): (k: DeviceKind)
    ensures k == Gateway <==> IsType(deviceType, IgdType)
    ensures k == ConnectionDevice <==> !IsType(deviceType, IgdType) && IsType(deviceType, WcdType)
  {
    PrefixesAreCStrings();
    if IsType(deviceType, IgdType) then Gateway
    else if IsType(deviceType, WcdType) then ConnectionDevice
    else OtherDevice
  }

  /** What the service tests of urc-upnp.c:993-1016 say about a service
      type, in the order they are made. */
  datatype ServiceKind = Forwarding | CommonInterface | IpConnection | OtherService

  function ServiceKindOf(serviceType: Option<string>): (k: ServiceKind)
    ensures k == Forwarding <==> IsType(serviceType, Layer3ForwardingType) || IsType(serviceType, L3ForwardingType)
    ensures k == CommonInterface <==> !IsType(serviceType, Layer3ForwardingType) && !IsType(serviceType, L3ForwardingType)
                                      && IsType(serviceType, WanCommonIfcType)
    ensures k == IpConnection <==> !IsType(serviceType, Layer3ForwardingType) && !IsType(serviceType, L3ForwardingType)
                                   && !IsType(serviceType, WanCommonIfcType) && IsType(serviceType, WanIpConnType)
  {
    PrefixesAreCStrings();
    if IsType(serviceType, Layer3ForwardingType) || IsType(serviceType, L3ForwardingType) then Forwarding
    else if IsType(serviceType, WanCommonIfcType) then CommonInterface
    else if IsType(serviceType, WanIpConnType) then IpConnection
    else OtherService
  }

  /** Any later version of a type passes the same test: a gateway of version
      2 is still a gateway. */
  lemma LaterGatewaysAreRecognised(n: nat)
    requires n >= 1
    ensures n < IntLimit ==> DeviceKindOf(Some(IgdType + NatToString(n))) == Gateway
    ensures IntLimit <= n < 0x1_0000_0000 ==> DeviceKindOf(Some(IgdType + NatToString(n))) != Gateway
  {
    PrefixesAreCStrings();
    VersionedTypeMatches(IgdType, n, 1);
  }

  /** A type that differs from a prefix at a position inside it does not
      pass that prefix's test. */
  lemma NotTypeWhereDiffers(c: string, p: string, i: nat)
    requires NulFree(p) && i < |p| && i < |c| && c[i] != p[i]
    ensures !IsType(Some(c), p)
  {
    assert !StartsWith(c, p) by {
      if |p| <= |c| {
        assert c[..|p|][i] != p[i];
      }
    }
    DeviceServiceCmpMeaning(c, p, 1);
  }

  /** The IP connection test is the last of four, so a type passes it only
      when it fails the other three. */
  lemma IpConnectionKind(c: string)
    requires !IsType(Some(c), Layer3ForwardingType) && !IsType(Some(c), L3ForwardingType)
    requires !IsType(Some(c), WanCommonIfcType) && IsType(Some(c), WanIpConnType)
    ensures ServiceKindOf(Some(c)) == IpConnection
  {
  }

  /** Where a WANIPConnection type differs from the other service types. */
  lemma WanIpConnLetters(tail: string)
    ensures var c := WanIpConnType + tail; var k := |ServiceUrn|;
      c[k] == 'W' && c[k + 3] == 'I' && Layer3ForwardingType[k] == 'L' && L3ForwardingType[k] == 'L'
      && WanCommonIfcType[k + 3] == 'C' && k + 3 < |WanCommonIfcType| && k < |L3ForwardingType|
  {
  }

  lemma LaterIpConnectionsAreRecognised(n: nat)
    requires n >= 1
    ensures n < IntLimit ==> ServiceKindOf(Some(WanIpConnType + NatToString(n))) == IpConnection
    ensures IntLimit <= n < 0x1_0000_0000 ==> ServiceKindOf(Some(WanIpConnType + NatToString(n))) != IpConnection
  {
    PrefixesAreCStrings();
    var c := WanIpConnType + NatToString(n);
    var k := |ServiceUrn|;
    WanIpConnLetters(NatToString(n));
    NotTypeWhereDiffers(c, Layer3ForwardingType, k);
    NotTypeWhereDiffers(c, L3ForwardingType, k);
    NotTypeWhereDiffers(c, WanCommonIfcType, k + 3);
    VersionedTypeMatches(WanIpConnType, n, 1);
    if n < IntLimit {
      IpConnectionKind(c);
    }
  }

  // ---------------------------------------------------------------------
  // Claiming the router record

  /** What the walk does with a device before looking at its services. */
  datatype Decision = Claim(asConnectionDevice: bool) | Return | NotRouter

  /** urc-upnp.c:827-831 and 897-901: a gateway (at any depth), or a
      WANConnectionDevice at the top level, claims the record if none is
      stored and makes the walk return at once if one is. */
  function Decide(mainDevice: Option<DeviceId>, level: int, kind: DeviceKind): (r: Decision)
  {
    match kind
    case Gateway => if mainDevice.Some? then Return else Claim(false)
    case ConnectionDevice =>
      if level != 0 then NotRouter else if mainDevice.Some? then Return else Claim(true)
    case OtherDevice => NotRouter
  }

  /** Only a router device at the right depth is acted on, and then exactly
      according to whether a record is stored. */
  lemma DecideCases(mainDevice: Option<DeviceId>, level: int, kind: DeviceKind)
    ensures var r := Decide(mainDevice, level, kind);
      (r.NotRouter? <==> (kind == OtherDevice || (kind == ConnectionDevice && level != 0)))
      && (r.Return? <==> (!r.NotRouter? && mainDevice.Some?))
      && (r.Claim? ==> (r.asConnectionDevice <==> kind == ConnectionDevice))
  {
  }

  /** urc-upnp.c:878-885 and 928-935: an empty friendly name, or for a
      WANConnectionDevice the generic name "WANConnectionDevice", is replaced by
      the model name, or by the model description when the model name is
      empty. A NULL name is kept. */
  function FriendlyName(info: DeviceInfo, asConnectionDevice: bool): (r: Option<string>)
    ensures info.friendlyName != Some("") && !(asConnectionDevice && info.friendlyName == Some("WANConnectionDevice"))
            ==> r == info.friendlyName
    ensures r == info.friendlyName || r == info.modelName || r == info.modelDescription
    ensures r == Some("") ==> info.modelName == Some("") || info.friendlyName == info.modelName
  {
    if info.friendlyName == Some("") || (asConnectionDevice && info.friendlyName == Some("WANConnectionDevice")) then
      if info.modelName == Some("") then info.modelDescription else info.modelName
    else info.friendlyName
  }

  /** The fallback never leaves an empty name while the model name or the
      model description is non-empty. */
  lemma FriendlyNameIsFilled(info: DeviceInfo, asConnectionDevice: bool)
    requires info.friendlyName == Some("")
    requires info.modelName != Some("") || info.modelDescription != Some("")
    ensures FriendlyName(info, asConnectionDevice) != Some("")
  {
  }

  /** What the record keeps of a claimed device: its description fields, with
      the name fallback and the presentation URL made absolute. */
  function IdentityOf(info: DeviceInfo, asConnectionDevice: bool): (id: RouterIdentity)
    ensures id.friendlyName == FriendlyName(info, asConnectionDevice)
    ensures id.httpAddress == ParsePresentationUrl(info.presentationUrl, info.location)
    ensures id.brand == info.manufacturer && id.brandWebsite == info.manufacturerUrl
    ensures id.modelDescription == info.modelDescription && id.modelName == info.modelName
    ensures id.modelNumber == info.modelNumber && id.upc == info.upc && id.udn == info.udn
  {
    RouterIdentity(FriendlyName(info, asConnectionDevice), info.manufacturer,
                   ParsePresentationUrl(info.presentationUrl, info.location), info.manufacturerUrl,
                   info.modelDescription, info.modelName, info.modelNumber, info.upc, info.udn)
  }

  function RouterInfoCall(id: RouterIdentity): GuiCall {
    SetRouterInfo(id.friendlyName, id.httpAddress, id.brand, id.brandWebsite,
                  id.modelDescription, id.modelName, id.modelNumber)
  }

  /** The pure rules the walk applies to what a device announces: the two
      type tests and the identity read from a description. The walk below is
      stated for any rules, so that its proofs do not look into string
      matching; `SourceRules` are the ones of urc-upnp.c. */
  datatype Rules = Rules(deviceKind: Option<string> -> DeviceKind,
                         serviceKind: Option<string> -> ServiceKind,
                         identity: (DeviceInfo, bool) -> RouterIdentity)

  const SourceRules: Rules := Rules(DeviceKindOf, ServiceKindOf, IdentityOf)

  // ---------------------------------------------------------------------
  // The walk as a function of its state

  /** The router record, the statics of the two callbacks and the calls made
      into the window so far. */
  datatype Walk = Walk(router: RouterState, level: int, connectService: Option<string>,
                       oldReceived: U32, oldSent: U32, shown: seq<GuiCall>)

  /** Delay of the data-rate timer. */
  const DataRateMs: nat := 1000
  /** First delays of the three polls (urc-upnp.c:1062-1069). */
  const FirstPortPollMs: nat := 5000
  const FirstStatusPollMs: nat := 6000
  const FirstIpPollMs: nat := 7000

  /** `update_data_rate_cb`, urc-upnp.c:294-403: one tick of both counters on
      the WANCommonInterfaceConfig service, then the timer is armed again for
      one second (the callback returns FALSE, so only the new timer runs). */
  function DataRateStep(w: Walk, t: Transport): Walk
    requires w.router.wanCommonIfc.Some?
  {
    var h := w.router.wanCommonIfc.value;
    var k := TrafficTick(w.oldReceived, w.oldSent, t.totalBytesReceived(h), t.totalBytesSent(h));
    w.(oldReceived := k.received, oldSent := k.sent, shown := w.shown + k.calls,
       router := w.router.(dataRateTimer := Armed(DataRateMs)))
  }

  /** The WANIPConnection branch, urc-upnp.c:1016-1071: take the service,
      query the address, the status and the NAT flags, and arm the three polls. */
  function ConnectionServiceStep(w: Walk, h: ServiceHandle, t: Transport): Walk {
    var r0 := w.router.(wanConnService := Some(h));
    var ip := ExternalIpStep(r0, t.externalIpAddress(h));
    var st := ConnStatusStep(ip.state, t.statusInfo(h));
    var r3 := NatRsipStep(st.state, t.natRsipStatus(h));
    w.(router := r3.(portRequestTimeout := Armed(FirstPortPollMs),
                     connectionStatusTimeout := Armed(FirstStatusPollMs),
                     externalIpTimeout := Armed(FirstIpPollMs)),
       shown := w.shown + ip.calls + st.calls)
  }

  /** One service of the enumeration, urc-upnp.c:992-1073: the forwarding
      service gives the default connection service, the common interface
      starts the data-rate ticks, the IP connection is taken and queried, and
      any other service is dropped. */
  function ServiceStep(rules: Rules, w: Walk, s: Service, t: Transport): Walk {
    match rules.serviceKind(s.serviceType)
    case Forwarding => w.(connectService := DefaultConnectionService(t.defaultConnectionService(s.handle)))
    case CommonInterface => DataRateStep(w.(router := w.router.(wanCommonIfc := Some(s.handle))), t)
    case IpConnection => ConnectionServiceStep(w, s.handle, t)
    case OtherService => w
  }

  /** The services services[..n], in order. */
  function WalkServices(rules: Rules, w: Walk, services: seq<Service>, n: nat, t: Transport): Walk
    requires n <= |services|
  {
    if n == 0 then w else ServiceStep(rules, WalkServices(rules, w, services, n - 1, t), services[n - 1], t)
  }

  /** No service touches the nesting level or the claim. */
  lemma {:induction false} ServicesKeepClaim(rules: Rules, w: Walk, services: seq<Service>, n: nat, t: Transport)
    requires n <= |services|
    ensures var r := WalkServices(rules, w, services, n, t);
      r.level == w.level && r.router.mainDevice == w.router.mainDevice && r.router.identity == w.router.identity
  {
    if n > 0 {
      ServicesKeepClaim(rules, w, services, n - 1, t);
    }
  }

  /** Claim the record for d and show what was read. */
  function ClaimStep(rules: Rules, w: Walk, d: Device, asConnectionDevice: bool): Walk {
    var id := rules.identity(d.info, asConnectionDevice);
    w.(router := w.router.(mainDevice := Some(d.id), identity := Some(id)), shown := w.shown + [RouterInfoCall(id)])
  }

  /** `device_proxy_available_cb` for d: decide, then the services, then the
      sub-devices one level deeper. */
  function WalkDevice(rules: Rules, w: Walk, d: Device, t: Transport): Walk
    decreases d, |d.children| + 2
  {
    match Decide(w.router.mainDevice, w.level, rules.deviceKind(d.deviceType))
    case Return => w
    case Claim(c) => WalkBody(rules, ClaimStep(rules, w, d, c), d, t)
    case NotRouter => WalkBody(rules, w, d, t)
  }

  /** The two loops of the callback. */
  function WalkBody(rules: Rules, w: Walk, d: Device, t: Transport): Walk
    decreases d, |d.children| + 1
  {
    WalkChildren(rules, WalkServices(rules, w, d.services, |d.services|, t), d, |d.children|, t)
  }

  /** The sub-devices parent.children[..n]: each is walked with `level` one
      higher, and `level` is decremented after it. */
  function WalkChildren(rules: Rules, w: Walk, parent: Device, n: nat, t: Transport): Walk
    requires n <= |parent.children|
    decreases parent, n
  {
    if n == 0 then w
    else
      var w1 := WalkChildren(rules, w, parent, n - 1, t);
      var w2 := WalkDevice(rules, w1.(level := w1.level + 1), parent.children[n - 1], t);
      w2.(level := w2.level - 1)
  }

  /** One more sub-device of the loop. */
  lemma WalkChildrenNext(rules: Rules, w: Walk, parent: Device, n: nat, t: Transport)
    requires n < |parent.children|
    ensures var w1 := WalkChildren(rules, w, parent, n, t);
      var w2 := WalkDevice(rules, w1.(level := w1.level + 1), parent.children[n], t);
      WalkChildren(rules, w, parent, n + 1, t) == w2.(level := w2.level - 1)
  {
  }

  // ---------------------------------------------------------------------
  // Properties of the walk

  /** `level` is restored: after a device, and after each sub-device, it is
      back at its value before. */
  lemma {:induction false} WalkDeviceRestoresLevel(rules: Rules, w: Walk, d: Device, t: Transport)
    ensures WalkDevice(rules, w, d, t).level == w.level
    decreases d, |d.children| + 2
  {
    match Decide(w.router.mainDevice, w.level, rules.deviceKind(d.deviceType))
    case Return =>
    case Claim(c) => WalkBodyRestoresLevel(rules, ClaimStep(rules, w, d, c), d, t);
    case NotRouter => WalkBodyRestoresLevel(rules, w, d, t);
  }

  lemma {:induction false} WalkBodyRestoresLevel(rules: Rules, w: Walk, d: Device, t: Transport)
    ensures WalkBody(rules, w, d, t).level == w.level
    decreases d, |d.children| + 1
  {
    ServicesKeepClaim(rules, w, d.services, |d.services|, t);
    WalkChildrenRestoresLevel(rules, WalkServices(rules, w, d.services, |d.services|, t), d, |d.children|, t);
  }

  lemma {:induction false} WalkChildrenRestoresLevel(rules: Rules, w: Walk, parent: Device, n: nat, t: Transport)
    requires n <= |parent.children|
    ensures WalkChildren(rules, w, parent, n, t).level == w.level
    decreases parent, n
  {
    if n > 0 {
      WalkChildrenRestoresLevel(rules, w, parent, n - 1, t);
      var w1 := WalkChildren(rules, w, parent, n - 1, t);
      WalkDeviceRestoresLevel(rules, w1.(level := w1.level + 1), parent.children[n - 1], t);
    }
  }

  /** The record is claimed once: while a main device is stored, no walk
      replaces it or the identity kept for it. */
  lemma {:induction false} ClaimIsKept(rules: Rules, w: Walk, d: Device, t: Transport)
    requires w.router.mainDevice.Some?
    ensures WalkDevice(rules, w, d, t).router.mainDevice == w.router.mainDevice
    ensures WalkDevice(rules, w, d, t).router.identity == w.router.identity
    decreases d, |d.children| + 2
  {
    if Decide(w.router.mainDevice, w.level, rules.deviceKind(d.deviceType)).NotRouter? {
      ClaimIsKeptByBody(rules, w, d, t);
    }
  }

  lemma {:induction false} ClaimIsKeptByBody(rules: Rules, w: Walk, d: Device, t: Transport)
    requires w.router.mainDevice.Some?
    ensures WalkBody(rules, w, d, t).router.mainDevice == w.router.mainDevice
    ensures WalkBody(rules, w, d, t).router.identity == w.router.identity
    decreases d, |d.children| + 1
  {
    ServicesKeepClaim(rules, w, d.services, |d.services|, t);
    ClaimIsKeptByChildren(rules, WalkServices(rules, w, d.services, |d.services|, t), d, |d.children|, t);
  }

  lemma {:induction false} ClaimIsKeptByChildren(rules: Rules, w: Walk, parent: Device, n: nat, t: Transport)
    requires n <= |parent.children| && w.router.mainDevice.Some?
    ensures WalkChildren(rules, w, parent, n, t).router.mainDevice == w.router.mainDevice
    ensures WalkChildren(rules, w, parent, n, t).router.identity == w.router.identity
    decreases parent, n
  {
    if n > 0 {
      ClaimIsKeptByChildren(rules, w, parent, n - 1, t);
      var w1 := WalkChildren(rules, w, parent, n - 1, t);
      ClaimIsKept(rules, w1.(level := w1.level + 1), parent.children[n - 1], t);
    }
  }

  /** A gateway announced while the record is free becomes the main device,
      with the identity read from its own description, whatever its services
      and sub-devices are. */
  lemma FirstGatewayIsClaimed(rules: Rules, w: Walk, d: Device, t: Transport)
    requires w.router.mainDevice.None? && rules.deviceKind(d.deviceType) == Gateway
    ensures WalkDevice(rules, w, d, t).router.mainDevice == Some(d.id)
    ensures WalkDevice(rules, w, d, t).router.identity == Some(rules.identity(d.info, false))
  {
    ClaimIsKeptByBody(rules, ClaimStep(rules, w, d, false), d, t);
  }

  /** A top-level WANConnectionDevice is claimed the same way, with the
      generic name replaced. */
  lemma TopConnectionDeviceIsClaimed(rules: Rules, w: Walk, d: Device, t: Transport)
    requires w.router.mainDevice.None? && w.level == 0 && rules.deviceKind(d.deviceType) == ConnectionDevice
    ensures WalkDevice(rules, w, d, t).router.mainDevice == Some(d.id)
    ensures WalkDevice(rules, w, d, t).router.identity == Some(rules.identity(d.info, true))
  {
    ClaimIsKeptByBody(rules, ClaimStep(rules, w, d, true), d, t);
  }

  /** A router device announced while the record is taken changes nothing at
      all: its services and sub-devices are not looked at. */
  lemma LaterRouterIsIgnored(rules: Rules, w: Walk, d: Device, t: Transport)
    requires w.router.mainDevice.Some?
    requires rules.deviceKind(d.deviceType) == Gateway || (rules.deviceKind(d.deviceType) == ConnectionDevice && w.level == 0)
    ensures WalkDevice(rules, w, d, t) == w
  {
  }

  /** A nested WANConnectionDevice is walked like any other device: it never
      claims the record. */
  lemma NestedConnectionDeviceIsWalked(rules: Rules, w: Walk, d: Device, t: Transport)
    requires w.level != 0 && rules.deviceKind(d.deviceType) == ConnectionDevice
    ensures WalkDevice(rules, w, d, t) == WalkBody(rules, w, d, t)
  {
  }

  // ---------------------------------------------------------------------
  // The callbacks over their state

  /** The statics of `device_proxy_available_cb` and `update_data_rate_cb`,
      with the router record they work on. */
  class ControlPoint {
    const router: RouterInfo
    const rules: Rules
    var level: int
    var connectService: Option<string>
    var oldReceived: U32
    var oldSent: U32
    /** The calls made into the window, in order. */
    var shown: seq<GuiCall>

    function State(): Walk
      reads this, router
    {
      Walk(router.State(), level, connectService, oldReceived, oldSent, shown)
    }

    constructor (router: RouterInfo)
      ensures this.router == router && rules == SourceRules && level == 0 && connectService.None?
      ensures oldReceived == 0 && oldSent == 0 && shown == []
    {
      this.router := router;
      rules := SourceRules;
      level, connectService, oldReceived, oldSent, shown := 0, None, 0, 0, [];
    }

    /** `update_data_rate_cb`: both counters, the graph, the next timer. */
    method UpdateDataRate(t: Transport)
      requires router.wanCommonIfc.Some?
      modifies this, router
      ensures State() == DataRateStep(old(State()), t)
    {
      var h := router.wanCommonIfc.value;
      var down := ReceivedSample(oldReceived, t.totalBytesReceived(h));
      var up := SentSample(oldSent, t.totalBytesSent(h));
      oldReceived, oldSent := down.baseline, up.baseline;
      shown := shown + down.calls + up.calls + [UpdateGraph];
      router.dataRateTimer := Armed(DataRateMs);
    }

    /** The WANIPConnection branch: the three queries, then the three polls. */
    method ConnectionServiceAvailable(h: ServiceHandle, t: Transport)
      modifies this, router
      ensures State() == ConnectionServiceStep(old(State()), h, t)
    {
      router.wanConnService := Some(h);
      ghost var r0 := router.State();
      var _, c1 := router.GetExternalIp(t);
      ghost var r1 := router.State();
      assert r1 == ExternalIpStep(r0, t.externalIpAddress(h)).state;
      var _, c2 := router.GetConnStatus(t);
      ghost var r2 := router.State();
      assert r2 == ConnStatusStep(r1, t.statusInfo(h)).state;
      var _ := router.GetNatRsipStatus(t);
      router.portRequestTimeout := Armed(FirstPortPollMs);
      router.connectionStatusTimeout := Armed(FirstStatusPollMs);
      router.externalIpTimeout := Armed(FirstIpPollMs);
      shown := shown + c1 + c2;
    }

    /** The WANCommonInterfaceConfig branch: the link properties (only
        logged), then the first data-rate tick. */
    method CommonInterfaceAvailable(h: ServiceHandle, t: Transport)
      modifies this, router
      ensures State() == DataRateStep(old(State()).(router := old(State()).router.(wanCommonIfc := Some(h))), t)
    {
      router.wanCommonIfc := Some(h);
      var _ := router.GetWanLinkProperties(t);
      UpdateDataRate(t);
    }

    /** One service of the enumeration. */
    method ServiceAvailable(s: Service, t: Transport)
      modifies this, router
      ensures State() == ServiceStep(rules, old(State()), s, t)
    {
      match rules.serviceKind(s.serviceType) {
        case Forwarding =>
          connectService := DefaultConnectionService(t.defaultConnectionService(s.handle));
        case CommonInterface =>
          CommonInterfaceAvailable(s.handle, t);
        case IpConnection =>
          ConnectionServiceAvailable(s.handle, t);
        case OtherService =>
      }
    }

    /** The service loop of `device_proxy_available_cb`, in list order. */
    method EnumServices(services: seq<Service>, t: Transport)
      modifies this, router
      ensures State() == WalkServices(rules, old(State()), services, |services|, t)
    {
      ghost var w0 := State();
      var i := 0;
      while i < |services|
        invariant 0 <= i <= |services|
        invariant State() == WalkServices(rules, w0, services, i, t)
      {
        ServiceAvailable(services[i], t);
        i := i + 1;
      }
    }

    /** `level++` before a recursive pass. */
    method Descend()
      modifies this
      ensures State() == old(State()).(level := old(level) + 1)
    {
      level := level + 1;
    }

    /** `level--` after it. */
    method Ascend()
      modifies this
      ensures State() == old(State()).(level := old(level) - 1)
    {
      level := level - 1;
    }

    /** The sub-device loop: each sub-device is walked one level deeper. */
    method EnumSubDevices(d: Device, t: Transport)
      modifies this, router
      ensures State() == WalkChildren(rules, old(State()), d, |d.children|, t)
      decreases d, 0
    {
      ghost var w0 := State();
      var j := 0;
      while j < |d.children|
        invariant 0 <= j <= |d.children|
        invariant State() == WalkChildren(rules, w0, d, j, t)
      {
        Descend();
        DeviceAvailable(d.children[j], t);
        Ascend();
        WalkChildrenNext(rules, w0, d, j, t);
        j := j + 1;
      }
    }

    /** `device_proxy_available_cb` for d and, recursively, its sub-devices. */
    method DeviceAvailable(d: Device, t: Transport)
      modifies this, router
      ensures State() == WalkDevice(rules, old(State()), d, t)
      decreases d, 1
    {
      var decision := Decide(router.mainDevice, level, rules.deviceKind(d.deviceType));
      if decision.Return? {
        return;
      }
      if decision.Claim? {
        var id := rules.identity(d.info, decision.asConnectionDevice);
        router.mainDevice, router.identity := Some(d.id), Some(id);
        shown := shown + [RouterInfoCall(id)];
      }
      EnumServices(d.services, t);
      EnumSubDevices(d, t);
    }
  }
}
