/** The port-mapping actions of urc-upnp.c: adding and deleting one mapping,
    and the paginated enumeration that refreshes the list view. */
module PortMappings {
  import opened UpnpTypes
  import opened Gui

  /** `delete_port_mapped`, urc-upnp.c:46-79: send DeletePortMapping with the
      key of one mapping. TRUE is `Ok`; FALSE hands back a copy of the error. */
  function DeletePortMapped(t: Transport, service: ServiceHandle, protocol: string,
                            externalPort: U32, remoteHost: string): (r: Reply<()>)
    ensures r.Ok? <==> t.deletePortMapping(service, DeleteRequest(remoteHost, externalPort, protocol)).Ok?
    ensures r.Err? ==> r.error == t.deletePortMapping(service, DeleteRequest(remoteHost, externalPort, protocol)).error
  {
    t.deletePortMapping(service, DeleteRequest(remoteHost, externalPort, protocol))
  }

  /** `add_port_mapping`, urc-upnp.c:81-137: send AddPortMapping with the eight
      fields of `info`; when the router accepts it, the new mapping is prepended
      to the list view at once, otherwise the view is left alone and the error
      is handed back. */
  method AddPortMapping(view: PortsView, t: Transport, service: ServiceHandle, info: PortForwardInfo)
    returns (r: Reply<()>)
    modifies view
    ensures r == t.addPortMapping(service, info)
    ensures r.Ok? && view.hasTreeview ==> view.rows == [RowOf(info)] + old(view.rows)
    ensures r.Err? || !view.hasTreeview ==> view.rows == old(view.rows)
    ensures view.removeSensitive == old(view.removeSensitive)
  {
    r := t.addPortMapping(service, info);
    if r.Ok? {
      view.AddMappedPorts([info]);
      assert [info][..0] == [];
    }
  }

  /** What `get_mapped_port` (urc-upnp.c:139-186) returns for one index: the
      entry, or NULL on any error. Only errors other than 713 and 402 are
      logged. */
  datatype Fetched = Fetched(entry: Option<PortForwardInfo>, logged: bool)

  function GetMappedPort(t: Transport, service: ServiceHandle, index: nat): (f: Fetched)
    ensures f.entry.Some? <==> t.portMappingEntry(service, index).Ok?
    ensures f.entry.Some? ==> f.entry.value == t.portMappingEntry(service, index).value
    ensures f.logged <==> t.portMappingEntry(service, index).Err?
                          && t.portMappingEntry(service, index).error.code != SpecifiedArrayIndexInvalid
                          && t.portMappingEntry(service, index).error.code != InvalidArgs
  {
    match t.portMappingEntry(service, index)
    case Ok(p) => Fetched(Some(p), false)
    case Err(e) => Fetched(None, e.code != SpecifiedArrayIndexInvalid && e.code != InvalidArgs)
  }

  /** Every index below n is answered. */
  predicate AllOk(t: Transport, service: ServiceHandle, n: nat) {
    forall j :: 0 <= j < n ==> t.portMappingEntry(service, j).Ok?
  }

  /** n is the first index whose query fails. */
  predicate FirstFailure(t: Transport, service: ServiceHandle, n: nat) {
    t.portMappingEntry(service, n).Err? && AllOk(t, service, n)
  }

  /** The first failing index is unique. */
  lemma FirstFailureIsUnique(t: Transport, service: ServiceHandle, n: nat, m: nat)
    requires FirstFailure(t, service, n) && FirstFailure(t, service, m)
    ensures n == m
  {
  }

  /** The entries among indices 0..n-1 that are listed, in index order: those
      the router returned with a non-zero external port (`KeptContents`). */
  function Kept(t: Transport, service: ServiceHandle, n: nat): (ks: seq<PortForwardInfo>)
    requires AllOk(t, service, n)
    ensures |ks| <= n
  {
    if n == 0 then []
    else
      var p := t.portMappingEntry(service, n - 1).value;
      Kept(t, service, n - 1) + (if p.externalPort > 0 then [p] else [])
  }

  /** Exactly the entries with a non-zero external port are kept, each one an
      answer of the router. */
  lemma {:induction false} KeptContents(t: Transport, service: ServiceHandle, n: nat)
    requires AllOk(t, service, n)
    ensures forall p :: p in Kept(t, service, n) ==> p.externalPort > 0
    ensures forall p :: p in Kept(t, service, n) ==> exists j :: 0 <= j < n && t.portMappingEntry(service, j) == Ok(p)
    ensures forall j :: 0 <= j < n && t.portMappingEntry(service, j).value.externalPort > 0 ==>
                        t.portMappingEntry(service, j).value in Kept(t, service, n)
  {
    if n > 0 {
      KeptContents(t, service, n - 1);
      var p := t.portMappingEntry(service, n - 1).value;
      var ks := Kept(t, service, n - 1);
      assert Kept(t, service, n) == ks + (if p.externalPort > 0 then [p] else []);
      forall q | q in Kept(t, service, n)
        ensures exists j :: 0 <= j < n && t.portMappingEntry(service, j) == Ok(q)
      {
        if q in ks {
          var j :| 0 <= j < n - 1 && t.portMappingEntry(service, j) == Ok(q);
          assert 0 <= j < n;
        } else {
          assert t.portMappingEntry(service, n - 1) == Ok(q);
        }
      }
    }
  }

  /** A sequence in reverse order, built the way a GSList is by prepending. */
  function Reversed<T>(xs: seq<T>): (r: seq<T>)
    ensures |r| == |xs|
    ensures forall k :: 0 <= k < |xs| ==> r[k] == xs[|xs| - 1 - k]
  {
    if xs == [] then [] else [xs[|xs| - 1]] + Reversed(xs[..|xs| - 1])
  }

  lemma ReversedSnoc<T>(xs: seq<T>, x: T)
    ensures Reversed(xs + [x]) == [x] + Reversed(xs)
  {
    assert (xs + [x])[..|xs|] == xs;
  }

  /** One more successful index extends the list built by prepending by at
      most that entry, at its front. */
  lemma KeptGrows(t: Transport, service: ServiceHandle, n: nat)
    requires AllOk(t, service, n + 1)
    ensures var p := t.portMappingEntry(service, n).value;
      Reversed(Kept(t, service, n + 1)) == (if p.externalPort > 0 then [p] else []) + Reversed(Kept(t, service, n))
  {
    var p := t.portMappingEntry(service, n).value;
    if p.externalPort > 0 {
      ReversedSnoc(Kept(t, service, n), p);
    } else {
      assert Kept(t, service, n + 1) == Kept(t, service, n) + [];
    }
  }

  function RowsOf(ports: seq<PortForwardInfo>): (rs: seq<Row>)
    ensures |rs| == |ports| && forall i :: 0 <= i < |ports| ==> rs[i] == RowOf(ports[i])
  {
    seq(|ports|, i requires 0 <= i < |ports| => RowOf(ports[i]))
  }

  /** Two prepends cancel out: a list built by prepending and shown by
      prepending comes out in the original order. */
  lemma PrependAllOfReversed(xs: seq<PortForwardInfo>)
    ensures PrependAll(Reversed(xs), []) == RowsOf(xs)
  {
    var ys := Reversed(xs);
    PrependAllReverses(ys, []);
    var r := PrependAll(ys, []);
    var rs := RowsOf(xs);
    assert |r| == |xs| == |rs|;
    forall i | 0 <= i < |xs|
      ensures r[i] == rs[i]
    {
      assert ys[|ys| - 1 - i] == xs[i];
    }
    assert r == rs;
  }

  /** The query loop of `discovery_mapped_ports_list`, urc-upnp.c:198-221:
      ask for entry 0, 1, 2, ... until the first call that fails, whatever its
      error, and prepend every entry with a non-zero external port to the list.
      `fetched` is the first failing index, so indices 0..fetched were asked
      for, and `logged` says whether its error was reported. The loop ends only if
      some index fails, which is what routers do past the end of the table; the
      index is a `guint`, so a failure must come below 2^32, and it is then
      reached before the index could wrap. */
  method CollectMappedPorts(t: Transport, service: ServiceHandle)
    returns (fetched: nat, logged: bool, portList: seq<PortForwardInfo>)
    requires exists k: U32 :: t.portMappingEntry(service, k).Err?
    ensures FirstFailure(t, service, fetched) && fetched < 0x1_0000_0000
    ensures logged == GetMappedPort(t, service, fetched).logged
    ensures portList == Reversed(Kept(t, service, fetched))
  {
    ghost var stop: U32 :| t.portMappingEntry(service, stop).Err?;
    var index: nat := 0;
    portList := [];
    var f := GetMappedPort(t, service, index);
    while f.entry.Some?
      invariant index <= stop
      invariant AllOk(t, service, index)
      invariant f == GetMappedPort(t, service, index)
      invariant portList == Reversed(Kept(t, service, index))
      decreases stop - index
    {
      var p := f.entry.value;
      KeptGrows(t, service, index);
      if p.externalPort > 0 {
        portList := [p] + portList;
      }
      index := index + 1;
      f := GetMappedPort(t, service, index);
    }
    fetched, logged := index, f.logged;
  }

  /** `discovery_mapped_ports_list`, urc-upnp.c:189-238: collect the entries,
      then clear the view once and fill it once, so the view shows the kept
      entries in table order. */
  method DiscoverMappedPorts(view: PortsView, t: Transport, service: ServiceHandle)
    returns (fetched: nat, logged: bool)
    requires exists k: U32 :: t.portMappingEntry(service, k).Err?
    modifies view
    ensures FirstFailure(t, service, fetched) && fetched < 0x1_0000_0000
    ensures logged == GetMappedPort(t, service, fetched).logged
    ensures view.rows == (if view.hasTreeview then RowsOf(Kept(t, service, fetched)) else old(view.rows))
    ensures view.removeSensitive == old(view.removeSensitive)
  {
    var portList;
    fetched, logged, portList := CollectMappedPorts(t, service);
    view.Clear();
    view.AddMappedPorts(portList);
    if view.hasTreeview {
      PrependAllOfReversed(Kept(t, service, fetched));
    }
  }
}
