/** The parts of urc-gui.c that hold logic: the port-mapping list store and
    its three operations (clear, prepend a batch, remove one row), the unit
    chosen for the byte totals, the recognised WAN connection states, and the
    calls the control point makes into the window. */
module Gui {
  import opened UpnpTypes

  // ---------------------------------------------------------------------
  // Rows of the port-mapping list store

  /** One row of the list store: the seven columns of urc-gui.c:288-298. */
  datatype Row = Row(
    enabled: bool,
    description: string,
    protocol: string,
    internalPort: U32,
    externalPort: U32,
    localIp: string,
    remoteIp: string)

  /** The row `gui_add_mapped_ports` writes for a mapping. */
  function RowOf(p: PortForwardInfo): Row {
    Row(p.enabled, p.description, p.protocol, p.internalPort, p.externalPort, p.internalHost, p.remoteHost)
  }

  /** The three columns `on_button_remove_clicked` reads back to name the
      mapping to delete (urc-gui.c:329-333). */
  function RequestOf(r: Row): DeleteRequest {
    DeleteRequest(r.remoteIp, r.externalPort, r.protocol)
  }

  /** A row names the mapping it was made from: removing it deletes exactly the
      entry (remote host, external port, protocol) that was listed. */
  lemma RequestOfRowOf(p: PortForwardInfo)
    ensures RequestOf(RowOf(p)) == DeleteRequest(p.remoteHost, p.externalPort, p.protocol)
    ensures RowOf(p).enabled == p.enabled && RowOf(p).description == p.description
    ensures RowOf(p).internalPort == p.internalPort && RowOf(p).localIp == p.internalHost
  {
  }

  /** The store after prepending the entries of `ports` one by one, first
      entry first, in front of `rows`. */
  function PrependAll(ports: seq<PortForwardInfo>, rows: seq<Row>): seq<Row>
  {
    if ports == [] then rows
    else [RowOf(ports[|ports| - 1])] + PrependAll(ports[..|ports| - 1], rows)
  }

  /** Prepending one at a time reverses the batch: the new rows come in reverse
      input order, all in front of the rows that were there. */
  lemma {:induction false} PrependAllReverses(ports: seq<PortForwardInfo>, rows: seq<Row>)
    ensures |PrependAll(ports, rows)| == |ports| + |rows|
    ensures forall i :: 0 <= i < |ports| ==> PrependAll(ports, rows)[i] == RowOf(ports[|ports| - 1 - i])
    ensures PrependAll(ports, rows)[|ports|..] == rows
  {
    if ports != [] {
      var init := ports[..|ports| - 1];
      PrependAllReverses(init, rows);
      var r := PrependAll(ports, rows);
      assert r[1..] == PrependAll(init, rows);
      forall i | 0 <= i < |ports|
        ensures r[i] == RowOf(ports[|ports| - 1 - i])
      {
        if i > 0 {
          assert r[i] == PrependAll(init, rows)[i - 1];
          assert init[|init| - 1 - (i - 1)] == ports[|ports| - 1 - i];
        }
      }
    }
  }

  /** The store without row i: the row above it and every row below it keep
      their relative order. */
  function RemoveAt(rows: seq<Row>, i: nat): (r: seq<Row>)
    requires i < |rows|
    ensures |r| == |rows| - 1
    ensures forall j :: 0 <= j < i ==> r[j] == rows[j]
    ensures forall j :: i <= j < |r| ==> r[j] == rows[j + 1]
  {
    rows[..i] + rows[i + 1..]
  }

  /** The list store behind `gui->treeview`. `hasTreeview` is false before the
      window is built; the operations then return at once. */
  class PortsView {
    const hasTreeview: bool
    var rows: seq<Row>
    /** Sensitivity of the "remove" button. */
    var removeSensitive: bool

    constructor (hasTreeview: bool)
      ensures this.hasTreeview == hasTreeview && rows == [] && !removeSensitive
    {
      this.hasTreeview := hasTreeview;
      rows := [];
      removeSensitive := false;
    }

    /** `gui_clear_ports_list_treeview`, urc-gui.c:256-270: remove the first
        row until there is none. */
    method Clear()
      modifies this
      ensures rows == (if hasTreeview then [] else old(rows))
      ensures removeSensitive == old(removeSensitive)
    {
      if !hasTreeview {
        return;
      }
      while rows != []
        invariant removeSensitive == old(removeSensitive)
        decreases |rows|
      {
        rows := rows[1..];
      }
    }

    /** `gui_add_mapped_ports`, urc-gui.c:273-304: prepend one row per entry,
        in list order. */
    method AddMappedPorts(ports: seq<PortForwardInfo>)
      modifies this
      ensures rows == (if hasTreeview then PrependAll(ports, old(rows)) else old(rows))
      ensures removeSensitive == old(removeSensitive)
    {
      if !hasTreeview {
        return;
      }
      var i := 0;
      while i < |ports|
        invariant 0 <= i <= |ports|
        invariant rows == PrependAll(ports[..i], old(rows))
        invariant removeSensitive == old(removeSensitive)
      {
        assert ports[..i + 1][..i] == ports[..i];
        rows := [RowOf(ports[i])] + rows;
        i := i + 1;
      }
      assert ports[..i] == ports;
    }

    /** Drop the row at `i` (`gtk_list_store_remove`). */
    method RemoveRow(i: nat)
      requires i < |rows|
      modifies this
      ensures rows == RemoveAt(old(rows), i)
      ensures removeSensitive == old(removeSensitive)
    {
      rows := rows[..i] + rows[i + 1..];
    }

    method SetRemoveSensitive(b: bool)
      modifies this
      ensures removeSensitive == b && rows == old(rows)
    {
      removeSensitive := b;
    }
  }

  // ---------------------------------------------------------------------
  // Byte totals

  datatype ByteUnit = B | KiB | MiB | GiB

  function Divisor(u: ByteUnit): nat {
    match u
    case B => 1
    case KiB => 1024
    case MiB => 1048576
    case GiB => 1073741824
  }

  /** The unit `gui_set_total_received` (urc-gui.c:503-522) and
      `gui_set_total_sent` (urc-gui.c:549-568) print a total in: the largest
      one not exceeding the total, so the exact quotient lies in [1, 1024)
      except below 1 KiB; a 32-bit total stays below 4 GiB. The printed
      number is that quotient as a `float` rounded to one decimal, which can
      read 1024.0 just below the next unit. */
  function TotalUnit(bytes: U32): (u: ByteUnit)
    ensures u != B ==> Divisor(u) <= bytes
    ensures u != GiB ==> bytes < 1024 * Divisor(u)
  {
    if bytes >= 1073741824 then GiB
    else if bytes >= 1048576 then MiB
    else if bytes >= 1024 then KiB
    else B
  }

  /** The two bounds fix the unit: no other unit meets both. */
  lemma TotalUnitIsUnique(bytes: U32, v: ByteUnit)
    requires v != B ==> Divisor(v) <= bytes
    requires v != GiB ==> bytes < 1024 * Divisor(v)
    ensures v == TotalUnit(bytes)
  {
  }

  /** The exact quotient behind the number printed before the unit (the
      program prints it as a `float` with `%0.1f`). */
  function TotalValue(bytes: U32): (v: real)
    ensures TotalUnit(bytes) == B ==> v == bytes as real
    ensures TotalUnit(bytes) != B ==> 1.0 <= v
    ensures TotalUnit(bytes) != GiB ==> v < 1024.0
    ensures TotalUnit(bytes) == GiB ==> v < 4.0
  {
    var d := Divisor(TotalUnit(bytes)) as real;
    bytes as real / d
  }

  // ---------------------------------------------------------------------
  // WAN connection state

  /** The four states `gui_set_conn_status` has markup for. */
  datatype ConnState = Connected | Disconnected | Connecting | Disconnecting

  function StateName(c: ConnState): string {
    match c
    case Connected => "Connected"
    case Disconnected => "Disconnected"
    case Connecting => "Connecting"
    case Disconnecting => "Disconnecting"
  }

  /** The state whose markup `gui_set_conn_status` (urc-gui.c:698-718) sets:
      one of the four names compared exactly (`g_strcmp0`); None, NULL markup,
      for any other string and for NULL. */
  function ConnStatusMarkup(state: Option<string>): (r: Option<ConnState>)
    ensures r.Some? <==> (state.Some? &&
      (state.value == "Connected" || state.value == "Disconnected"
       || state.value == "Connecting" || state.value == "Disconnecting"))
    ensures r.Some? ==> StateName(r.value) == state.value
  {
    if state == Some("Connected") then Some(Connected)
    else if state == Some("Disconnected") then Some(Disconnected)
    else if state == Some("Connecting") then Some(Connecting)
    else if state == Some("Disconnecting") then Some(Disconnecting)
    else None
  }

  /** Every state is shown for its own name, and only for it. */
  lemma ConnStatusMarkupOfName(c: ConnState, s: string)
    ensures ConnStatusMarkup(Some(StateName(c))) == Some(c)
    ensures ConnStatusMarkup(Some(s)) == Some(c) ==> s == StateName(c)
  {
  }

  // ---------------------------------------------------------------------
  // What the control point asks of the window

  /** The calls urc-upnp.c makes into urc-gui.c for the status labels, the
      router information and the graph (urc-gui.h); their GTK effect is not
      modelled. A speed is given as the byte delta it is computed from: the
      window shows that delta divided by the query time and by 1024. */
  datatype GuiCall =
    | SetConnStatus(state: Option<string>)
    | DisableConnStatus
    | SetExtIp(ip: Option<string>)
    | DisableExtIp
    | SetDownloadSpeed(deltaBytes: U32)
    | DisableDownloadSpeed
    | SetUploadSpeed(deltaBytes: U32)
    | DisableUploadSpeed
    | SetTotalReceived(bytes: U32)
    | DisableTotalReceived
    | SetTotalSent(bytes: U32)
    | DisableTotalSent
    | UpdateGraph
    | SetRouterInfo(friendlyName: Option<string>, httpAddress: Option<string>, brand: Option<string>,
                    brandWebsite: Option<string>, modelDescription: Option<string>,
                    modelName: Option<string>, modelNumber: Option<string>)
}
