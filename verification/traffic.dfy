/** The integer part of the traffic counters: the baseline rule shared by the
    two `update_data_rate_cb` callbacks (urc-upnp.c:294-403 and
    upnp-port-mapper.c:296-378). A rate is computed from the difference of two
    readings of a 32-bit byte counter, in `guint` arithmetic, and no rate is
    computed until a non-zero reading has been stored. */
module Traffic {
  import opened UpnpTypes
  import opened Gui

  const Wrap: int := 0x1_0000_0000

  /** The byte count a rate is computed from: 0 while the stored reading is 0,
      otherwise `current - stored` as a `guint`, so a counter that wrapped past
      2^32 once still gives the bytes moved since. */
  function ByteDelta(stored: U32, current: U32): (d: U32)
    ensures stored == 0 ==> d == 0
    ensures stored != 0 ==> (stored + d) % Wrap == current
  {
    if stored == 0 then 0 else (current - stored) % Wrap
  }

  /** The delta is the only 32-bit value that takes the stored reading to the new
      one: it inverts the counter's own wrapping addition. */
  lemma ByteDeltaIsUnique(stored: U32, current: U32, d: U32)
    requires stored != 0 && (stored + d) % Wrap == current
    ensures d == ByteDelta(stored, current)
  {
    var e := ByteDelta(stored, current);
    assert stored + d - (if stored + d < Wrap then 0 else Wrap) == current;
    assert stored + e - (if stored + e < Wrap then 0 else Wrap) == current;
  }

  /** Without wrap-around the delta is the plain difference; after one wrap it
      is the distance through 2^32. */
  lemma ByteDeltaCases(stored: U32, current: U32)
    requires stored != 0
    ensures stored <= current ==> ByteDelta(stored, current) == current - stored
    ensures current < stored ==> ByteDelta(stored, current) == current + Wrap - stored
  {
  }

  /** One sample of one counter: the new stored reading and the calls made. */
  datatype Sample = Sample(baseline: U32, calls: seq<GuiCall>)

  /** The received-bytes half of urc-upnp.c's `update_data_rate_cb`
      (urc-upnp.c:314-353): on success show the speed and the total and store
      the reading; on failure disable both displays and keep the stored
      reading. */
  function ReceivedSample(stored: U32, reply: Reply<U32>): (s: Sample)
    ensures s.baseline == (if reply.Ok? then reply.value else stored)
    ensures reply.Ok? ==> s.calls == [SetDownloadSpeed(ByteDelta(stored, reply.value)), SetTotalReceived(reply.value)]
    ensures reply.Err? ==> s.calls == [DisableDownloadSpeed, DisableTotalReceived]
  {
    match reply
    case Ok(current) => Sample(current, [SetDownloadSpeed(ByteDelta(stored, current)), SetTotalReceived(current)])
    case Err(_) => Sample(stored, [DisableDownloadSpeed, DisableTotalReceived])
  }

  /** The sent-bytes half (urc-upnp.c:355-395), the same rule on the other
      counter. */
  function SentSample(stored: U32, reply: Reply<U32>): (s: Sample)
    ensures s.baseline == (if reply.Ok? then reply.value else stored)
    ensures reply.Ok? ==> s.calls == [SetUploadSpeed(ByteDelta(stored, reply.value)), SetTotalSent(reply.value)]
    ensures reply.Err? ==> s.calls == [DisableUploadSpeed, DisableTotalSent]
  {
    match reply
    case Ok(current) => Sample(current, [SetUploadSpeed(ByteDelta(stored, current)), SetTotalSent(current)])
    case Err(_) => Sample(stored, [DisableUploadSpeed, DisableTotalSent])
  }

  /** Both halves of one tick of urc-upnp.c's callback, then the graph redraw. */
  datatype Tick = Tick(received: U32, sent: U32, calls: seq<GuiCall>)

  function TrafficTick(oldReceived: U32, oldSent: U32, rx: Reply<U32>, tx: Reply<U32>): (k: Tick)
    ensures k.received == ReceivedSample(oldReceived, rx).baseline
    ensures k.sent == SentSample(oldSent, tx).baseline
    ensures k.calls == ReceivedSample(oldReceived, rx).calls + SentSample(oldSent, tx).calls + [UpdateGraph]
  {
    var down := ReceivedSample(oldReceived, rx);
    var up := SentSample(oldSent, tx);
    Tick(down.baseline, up.baseline, down.calls + up.calls + [UpdateGraph])
  }

  /** The two counters are independent: what a tick stores for one depends
      neither on the other's reading nor on its reply. */
  lemma CountersAreIndependent(oldReceived: U32, oldSent: U32, rx: Reply<U32>, tx: Reply<U32>,
                               otherSent: U32, otherTx: Reply<U32>, otherReceived: U32, otherRx: Reply<U32>)
    ensures TrafficTick(oldReceived, oldSent, rx, tx).received == TrafficTick(oldReceived, otherSent, rx, otherTx).received
    ensures TrafficTick(oldReceived, oldSent, rx, tx).sent == TrafficTick(otherReceived, oldSent, otherRx, tx).sent
  {
  }

  /** The first successful reading gives speed 0 and becomes the baseline; the
      next one then gives the bytes moved in between. */
  lemma FirstReadingStartsTheBaseline(first: U32, second: U32)
    requires first != 0
    ensures var s1 := ReceivedSample(0, Ok(first));
      s1.calls[0] == SetDownloadSpeed(0) && s1.baseline == first
      && (first + ReceivedSample(s1.baseline, Ok(second)).calls[0].deltaBytes) % Wrap == second
  {
  }
}
