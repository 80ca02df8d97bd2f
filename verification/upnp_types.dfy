/** Shared vocabulary of the control point: optional values (the C code's NULL
    pointers), the reply of a remote UPnP action, the port-mapping record and the
    abstract transport that answers actions. */
module UpnpTypes {

  /** A C pointer that may be NULL. */
  datatype Option<T> = None | Some(value: T)

  /** A `guint`: the unsigned 32-bit integers the actions exchange. */
  type U32 = x: int | 0 <= x < 0x1_0000_0000

  /** The GError an action call fills in: a UPnP error code and its text. */
  datatype ActionError = ActionError(code: int, message: string)

  /** What one remote action returns: its output arguments, or an error. */
  datatype Reply<T> = Ok(value: T) | Err(error: ActionError)

  /** Identity of a service proxy (the C code compares and stores pointers). */
  type ServiceHandle = nat

  /** `PortForwardInfo`: one entry of the router's port-mapping table, with the
      eight arguments of AddPortMapping / GetGenericPortMappingEntry. */
  datatype PortForwardInfo = PortForwardInfo(
    remoteHost: string,
    externalPort: U32,
    protocol: string,
    internalPort: U32,
    internalHost: string,
    enabled: bool,
    description: string,
    leaseTime: U32)

  /** Output arguments of GetStatusInfo. A NULL status string behaves exactly
      like any other string that is not "Connected", so it is a plain string. */
  datatype StatusInfo = StatusInfo(connectionStatus: string, lastConnectionError: string, uptime: U32)

  /** Output arguments of GetNATRSIPStatus. */
  datatype NatRsip = NatRsip(rsipAvailable: bool, natEnabled: bool)

  /** Key of a DeletePortMapping call: exactly the three arguments it sends. */
  datatype DeleteRequest = DeleteRequest(remoteHost: string, externalPort: U32, protocol: string)

  /** The network seen as an oracle: for every service and every action with its
      input arguments, the reply the router gives. Asking twice gives the same
      answer; nothing here models time or the wire. */
  datatype Transport = Transport(
    addPortMapping: (ServiceHandle, PortForwardInfo) -> Reply<()>,
    deletePortMapping: (ServiceHandle, DeleteRequest) -> Reply<()>,
    portMappingEntry: (ServiceHandle, nat) -> Reply<PortForwardInfo>,
    statusInfo: ServiceHandle -> Reply<StatusInfo>,
    externalIpAddress: ServiceHandle -> Reply<Option<string>>,
    natRsipStatus: ServiceHandle -> Reply<NatRsip>,
    commonLinkProperties: ServiceHandle -> Reply<()>,
    defaultConnectionService: ServiceHandle -> Reply<Option<string>>,
    totalBytesReceived: ServiceHandle -> Reply<U32>,
    totalBytesSent: ServiceHandle -> Reply<U32>)

  /** A GLib timeout source: not scheduled, or scheduled to fire after `ms`. */
  datatype Timer = Idle | Armed(ms: nat)

  /** The UPnP error codes that end an enumeration without being reported:
      713 SpecifiedArrayIndexInvalid (WANIPConnection:1 service template) and
      402 Invalid Args (section 3.2.2 of the UPnP Device Architecture 1.0). */
  const SpecifiedArrayIndexInvalid: int := 713
  const InvalidArgs: int := 402
}
