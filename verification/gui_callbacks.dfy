/** The two callbacks of urc-gui.c that talk to the router: the "remove"
    button of the port list and the add-port window, whose apply button
    builds a mapping from the form and whose external-port field keeps the
    local port in step while the advanced part is folded. */
module GuiCallbacks {
  import opened UpnpTypes
  import opened Gui
  import opened PortMappings

  // ---------------------------------------------------------------------
  // on_button_remove_clicked

  /** The rows after the router answered the delete of row i: the row is
      dropped on success and kept on failure. */
  function AfterRemove(rows: seq<Row>, i: nat, reply: Reply<()>): seq<Row>
    requires i < |rows|
  {
    if reply.Ok? then RemoveAt(rows, i) else rows
  }

  /** Only the selected row can disappear, and only when the router accepted
      the delete; every other row stays, in order. */
  lemma AfterRemoveMeaning(rows: seq<Row>, i: nat, reply: Reply<()>)
    requires i < |rows|
    ensures reply.Err? ==> AfterRemove(rows, i, reply) == rows
    ensures reply.Ok? ==> (|AfterRemove(rows, i, reply)| == |rows| - 1
      && AfterRemove(rows, i, reply) == rows[..i] + rows[i + 1..])
    ensures forall r :: r in rows && r != rows[i] ==> r in AfterRemove(rows, i, reply)
  {
    if reply.Ok? {
      var after := AfterRemove(rows, i, reply);
      assert after == rows[..i] + rows[i + 1..];
      forall r | r in rows && r != rows[i]
        ensures r in after
      {
        var k :| 0 <= k < |rows| && rows[k] == r;
        if k < i {
          assert after[k] == r;
        } else {
          assert after[k - 1] == r;
        }
      }
    }
  }

  /** `on_button_remove_clicked`, urc-gui.c:306-356. `selected` is the
      selected row, if any. With no selection the button is disabled and
      nothing is sent. Otherwise DeletePortMapping is sent with the row's
      remote host, external port and protocol; on success the row is removed
      from the store, on failure the store is kept and the error is shown. */
  method RemoveClicked(view: PortsView, t: Transport, service: ServiceHandle, selected: Option<nat>)
    returns (issued: Option<DeleteRequest>, dialog: Option<ActionError>)
    requires selected.Some? ==> selected.value < |view.rows|
    modifies view
    ensures selected.None? ==> (issued.None? && dialog.None?
      && view.rows == old(view.rows) && !view.removeSensitive)
    ensures selected.Some? ==> issued == Some(RequestOf(old(view.rows)[selected.value]))
    ensures selected.Some? ==> var reply := t.deletePortMapping(service, issued.value);
      view.rows == AfterRemove(old(view.rows), selected.value, reply)
      && dialog == (if reply.Err? then Some(reply.error) else None)
      && view.removeSensitive == old(view.removeSensitive)
  {
    if selected.None? {
      view.SetRemoveSensitive(false);
      return None, None;
    }
    var i := selected.value;
    var row := view.rows[i];
    issued := Some(RequestOf(row));
    var r := DeletePortMapped(t, service, row.protocol, row.externalPort, row.remoteIp);
    if r.Err? {
      dialog := Some(r.error);
    } else {
      dialog := None;
      view.RemoveRow(i);
    }
  }

  // ---------------------------------------------------------------------
  // The add-port window

  /** The mapping `gui_add_port_window_apply` builds from the form,
      urc-gui.c:126-134: always for any remote host, without lease time and
      enabled. */
  function NewMapping(description: string, protocol: string, localPort: U32, extPort: U32, localIp: string): (p: PortForwardInfo)
    ensures p.remoteHost == "" && p.leaseTime == 0 && p.enabled
    ensures p.description == description && p.protocol == protocol && p.internalHost == localIp
    ensures p.internalPort == localPort && p.externalPort == extPort
  {
    PortForwardInfo("", extPort, protocol, localPort, localIp, true, description, 0)
  }

  /** The local port after the external one changed, urc-gui.c:180-191:
      copied only while the advanced expander is folded. */
  function LocalPortAfterChange(expanded: bool, localPort: U32, extPort: U32): U32 {
    if expanded then localPort else extPort
  }

  /** In the folded form the mapping forwards a port to the same port, and
      unfolding the form protects a local port set by hand. */
  lemma FoldedFormForwardsSamePort(description: string, protocol: string, localPort: U32, extPort: U32, localIp: string)
    ensures NewMapping(description, protocol, LocalPortAfterChange(false, localPort, extPort), extPort, localIp).internalPort
            == NewMapping(description, protocol, LocalPortAfterChange(false, localPort, extPort), extPort, localIp).externalPort
    ensures LocalPortAfterChange(true, localPort, extPort) == localPort
  {
  }

  /** The fields of the add-port window. */
  class AddPortWindow {
    var description: string
    var protocol: string
    var localPort: U32
    var extPort: U32
    var localIp: string
    /** Whether the "advanced" expander is unfolded. */
    var expanded: bool
    var visible: bool

    /** `gui_run_add_port_window`, urc-gui.c:193-216: an empty form with the
        client address, shown. */
    constructor (clientIp: string, protocol: string)
      ensures description == "" && extPort == 0 && localPort == 0 && localIp == clientIp
      ensures this.protocol == protocol && !expanded && visible
    {
      description, this.protocol, localPort, extPort := "", protocol, 0, 0;
      localIp, expanded, visible := clientIp, false, true;
    }

    /** The external-port field changed. */
    method OnPortChange()
      modifies this
      ensures localPort == LocalPortAfterChange(old(expanded), old(localPort), old(extPort))
      ensures extPort == old(extPort) && expanded == old(expanded) && visible == old(visible)
      ensures description == old(description) && protocol == old(protocol) && localIp == old(localIp)
    {
      if !expanded {
        localPort := extPort;
      }
    }

    /** `gui_add_port_window_apply`, urc-gui.c:116-178: send AddPortMapping
        with the form's mapping (which adds its row to the list on success);
        hide the window on success, show the error otherwise. */
    method Apply(view: PortsView, t: Transport, service: ServiceHandle)
      returns (r: Reply<()>, dialog: Option<ActionError>)
      modifies this, view
      ensures var info := NewMapping(old(description), old(protocol), old(localPort), old(extPort), old(localIp));
        r == t.addPortMapping(service, info)
        && (r.Ok? && view.hasTreeview ==> view.rows == [RowOf(info)] + old(view.rows))
        && (r.Err? || !view.hasTreeview ==> view.rows == old(view.rows))
      ensures visible == (r.Err? && old(visible))
      ensures dialog == (if r.Err? then Some(r.error) else None)
      ensures description == old(description) && protocol == old(protocol) && localPort == old(localPort)
      ensures extPort == old(extPort) && localIp == old(localIp) && expanded == old(expanded)
      ensures view.removeSensitive == old(view.removeSensitive)
    {
      var info := NewMapping(description, protocol, localPort, extPort, localIp);
      r := AddPortMapping(view, t, service, info);
      if r.Err? {
        dialog := Some(r.error);
      } else {
        dialog := None;
        visible := false;
      }
    }
  }
}
