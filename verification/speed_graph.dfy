/** The speed history of urc-graph.c: two lists of samples, newest first,
    kept at GRAPH_POINTS + 1 entries, and the integer parts of the drawing
    code (the grid count, the axis labels and the walk along a list). */
module SpeedGraph {
  import opened UpnpStrings

  /** `SpeedValue` (urc-graph.h): a speed in KiB/s and whether it was read. */
  datatype SpeedValue = SpeedValue(speed: real, valid: bool)

  /** `GRAPH_POINTS`: the plotted slots are 0..GraphPoints. */
  const GraphPoints: nat := 90
  /** Length of a full history. */
  const HistoryLength: nat := GraphPoints + 1

  const Blank: SpeedValue := SpeedValue(0.0, false)

  /** n unread samples. */
  function Blanks(n: nat): (r: seq<SpeedValue>)
    ensures |r| == n && forall i :: 0 <= i < n ==> r[i] == Blank
  {
    seq(n, _ => Blank)
  }

  // ---------------------------------------------------------------------
  // The bounded history

  /** `update_*_graph`, urc-graph.c:56-80: prepend the sample, then drop the
      element at index GraphPoints + 1 if there is one. */
  function Push(values: seq<SpeedValue>, s: SpeedValue): seq<SpeedValue> {
    var l := [s] + values;
    if |l| > HistoryLength then l[..HistoryLength] + l[HistoryLength + 1..] else l
  }

  /** The new sample is at the head. */
  lemma PushHead(values: seq<SpeedValue>, s: SpeedValue)
    ensures Push(values, s)[0] == s
  {
  }

  /** A list of at most 91 entries stays within 91; a full one stays full,
      losing its oldest entry while the rest move back by one in order. */
  lemma PushBound(values: seq<SpeedValue>, s: SpeedValue)
    requires |values| <= HistoryLength
    ensures |Push(values, s)| <= HistoryLength
    ensures |values| < HistoryLength ==> Push(values, s) == [s] + values
    ensures |values| == HistoryLength ==> Push(values, s) == [s] + values[..GraphPoints]
  {
    if |values| == HistoryLength {
      var l := [s] + values;
      assert l[HistoryLength + 1..] == [];
      assert l[..HistoryLength] == [s] + values[..GraphPoints];
    }
  }

  /** A list long enough to plot stays long enough: the plotting walk's
      requirement is kept by every update. */
  lemma PushKeepsPlottable(values: seq<SpeedValue>, s: SpeedValue)
    requires |values| >= HistoryLength
    ensures |Push(values, s)| == |values|
    ensures Push(values, s)[..HistoryLength] == [s] + values[..GraphPoints]
  {
  }

  // ---------------------------------------------------------------------
  // The integer drawing arithmetic

  /** C's `/` on int, which truncates toward zero. */
  function CDiv(a: int, b: int): (q: int)
    requires b > 0
    ensures a >= 0 ==> q == a / b
    ensures a < 0 ==> q == -((-a) / b)
  {
    if a >= 0 then a / b else -((-a) / b)
  }

  /** The number of horizontal grid bands, urc-graph.c:128-144, from the
      drawing height already truncated to int. */
  function YFrameCount(height: int): (c: nat)
    ensures c == 1 <==> (-30 < height < 60)
    ensures c == 2 <==> (60 <= height < 120)
    ensures c == 4 <==> (120 <= height < 150)
    ensures c == 5 <==> (height >= 150 || height <= -30)
  {
    match CDiv(height, 30)
    case 0 => 1
    case 1 => 1
    case 2 => 2
    case 3 => 2
    case 4 => 4
    case _ => 5
  }

  /** The vertical scale in KiB/s. */
  const NetMax: nat := 100
  /** `x_frame_count`: six vertical bands. */
  const XFrameCount: nat := 6

  /** The value of the i-th time label, urc-graph.c:167-178. */
  function XLabelValue(i: nat): int {
    GraphPoints - (GraphPoints / XFrameCount) * i
  }

  /** The time labels run 90, 75, ..., 0 seconds, one per band edge. */
  lemma XLabelsCountDown(i: nat)
    requires i <= XFrameCount
    ensures XLabelValue(i) == 90 - 15 * i && XLabelValue(i) >= 0
    ensures XLabelValue(0) == GraphPoints && XLabelValue(XFrameCount) == 0
  {
  }

  /** The text of a time label: the first one carries the unit. */
  function XLabel(i: nat): (text: string)
    requires i <= XFrameCount
    ensures i == 0 ==> text == "90 seconds"
  {
    XLabelsCountDown(i);
    if i == 0 then NatToString(XLabelValue(i) as nat) + " seconds" else NatToString(XLabelValue(i) as nat)
  }

  /** The value of the i-th speed label, urc-graph.c:190-195, in `guint`
      arithmetic. For the counts the grid uses it never goes below zero, so
      the unsigned subtraction does not wrap. */
  function YLabelValue(count: nat, i: nat): int
    requires count > 0
  {
    NetMax - NetMax / count * i
  }

  /** For every count the grid can take, the speed labels fall strictly from
      100 at the top to 0 at the bottom line. */
  lemma YLabelsCountDown(height: int, i: nat, j: nat)
    requires i < j <= YFrameCount(height)
    ensures YLabelValue(YFrameCount(height), i) > YLabelValue(YFrameCount(height), j) >= 0
    ensures YLabelValue(YFrameCount(height), 0) == NetMax && YLabelValue(YFrameCount(height), YFrameCount(height)) == 0
  {
    var c := YFrameCount(height);
    assert NetMax / c * c == NetMax by {
      assert c == 1 || c == 2 || c == 4 || c == 5;
    }
    assert NetMax / c >= 20;
    assert NetMax / c * i < NetMax / c * j;
  }

  function YLabel(count: nat, i: nat): string
    requires count > 0 && i <= count && count in {1, 2, 4, 5}
  {
    NatToString(YLabelValue(count, i) as nat) + " KiB/s"
  }

  // ---------------------------------------------------------------------
  // The plotted path

  /** What the expose handler draws for one list: a move to the right edge
      for a read head sample, then a line to slot i for each read sample. */
  datatype PathStep = MoveToEdge(speed: real) | LineToSlot(slot: nat, speed: real)

  /** The lines for list entries 0..n-1: entry k is drawn at slot
      GraphPoints - k. */
  function Lines(values: seq<SpeedValue>, n: nat): seq<PathStep>
    requires n <= |values| && n <= HistoryLength
  {
    if n == 0 then []
    else
      var v := values[n - 1];
      Lines(values, n - 1) + (if v.valid then [LineToSlot(GraphPoints - (n - 1), v.speed)] else [])
  }

  function Path(values: seq<SpeedValue>): seq<PathStep>
    requires |values| >= HistoryLength
  {
    (if values[0].valid then [MoveToEdge(values[0].speed)] else []) + Lines(values, HistoryLength)
  }

  /** Exactly the read samples among the first n are drawn, each at its own
      slot with its own speed, from the newest (rightmost) to the oldest. */
  lemma {:induction false} LinesAreTheReadSamples(values: seq<SpeedValue>, n: nat)
    requires n <= |values| && n <= HistoryLength
    ensures |Lines(values, n)| <= n
    ensures forall p :: p in Lines(values, n) ==>
      p.LineToSlot? && GraphPoints - n < p.slot <= GraphPoints
      && values[GraphPoints - p.slot].valid && values[GraphPoints - p.slot].speed == p.speed
    ensures forall k :: 0 <= k < n && values[k].valid ==> LineToSlot(GraphPoints - k, values[k].speed) in Lines(values, n)
    ensures forall a, b :: 0 <= a < b < |Lines(values, n)| ==> Lines(values, n)[a].slot > Lines(values, n)[b].slot
  {
    if n > 0 {
      LinesAreTheReadSamples(values, n - 1);
      var prev := Lines(values, n - 1);
      var v := values[n - 1];
      var last: seq<PathStep> := if v.valid then [LineToSlot(GraphPoints - (n - 1), v.speed)] else [];
      assert Lines(values, n) == prev + last;
      forall a, b | 0 <= a < b < |prev + last|
        ensures (prev + last)[a].slot > (prev + last)[b].slot
      {
        if b >= |prev| {
          assert (prev + last)[a] in prev;
        }
      }
    }
  }

  // ---------------------------------------------------------------------
  // The two lists and the background surface

  class SpeedGraph {
    var downspeed: seq<SpeedValue>
    var upspeed: seq<SpeedValue>
    /** Whether the global `background` surface is allocated. */
    var hasBackground: bool

    /** The statics start as empty lists and a NULL surface. */
    constructor ()
      ensures downspeed == [] && upspeed == [] && !hasBackground
    {
      downspeed, upspeed, hasBackground := [], [], false;
    }

    /** `init_graph`, urc-graph.c:34-52: prepend 91 unread samples to the
        upload list, then 91 to the download list. */
    method InitGraph()
      modifies this
      ensures upspeed == Blanks(HistoryLength) + old(upspeed)
      ensures downspeed == Blanks(HistoryLength) + old(downspeed)
      ensures hasBackground == old(hasBackground)
    {
      for i := 0 to HistoryLength
        invariant upspeed == Blanks(i) + old(upspeed) && downspeed == old(downspeed)
        invariant hasBackground == old(hasBackground)
      {
        upspeed := [Blank] + upspeed;
        assert Blanks(i + 1) == [Blank] + Blanks(i);
      }
      for i := 0 to HistoryLength
        invariant upspeed == Blanks(HistoryLength) + old(upspeed)
        invariant downspeed == Blanks(i) + old(downspeed)
        invariant hasBackground == old(hasBackground)
      {
        downspeed := [Blank] + downspeed;
        assert Blanks(i + 1) == [Blank] + Blanks(i);
      }
    }

    /** `update_download_graph`, urc-graph.c:56-66. */
    method UpdateDownload(s: SpeedValue)
      modifies this
      ensures downspeed == Push(old(downspeed), s)
      ensures upspeed == old(upspeed) && hasBackground == old(hasBackground)
    {
      downspeed := [s] + downspeed;
      if |downspeed| > HistoryLength {
        downspeed := downspeed[..HistoryLength] + downspeed[HistoryLength + 1..];
      }
    }

    /** `update_upload_graph`, urc-graph.c:68-80. */
    method UpdateUpload(s: SpeedValue)
      modifies this
      ensures upspeed == Push(old(upspeed), s)
      ensures downspeed == old(downspeed) && hasBackground == old(hasBackground)
    {
      upspeed := [s] + upspeed;
      if |upspeed| > HistoryLength {
        upspeed := upspeed[..HistoryLength] + upspeed[HistoryLength + 1..];
      }
    }

    /** `clear_graph_background`, urc-graph.c:82-88: free the surface if
        there is one; a second call finds none and does nothing. */
    method ClearBackground()
      modifies this
      ensures !hasBackground
      ensures downspeed == old(downspeed) && upspeed == old(upspeed)
    {
      if hasBackground {
        hasBackground := false;
      }
    }

    /** The walk of `on_drawing_area_expose_event` along one list,
        urc-graph.c:262-287: i runs from GraphPoints down to 0 while the
        list pointer advances, so the list must have 91 entries. */
    method PlotPath(values: seq<SpeedValue>) returns (path: seq<PathStep>)
      requires |values| >= HistoryLength
      ensures path == Path(values)
    {
      path := if values[0].valid then [MoveToEdge(values[0].speed)] else [];
      ghost var head := path;
      var i: int := GraphPoints;
      var k: nat := 0;
      while i >= 0
        invariant -1 <= i <= GraphPoints && k == GraphPoints - i
        invariant path == head + Lines(values, k)
      {
        var v := values[k];
        if v.valid {
          path := path + [LineToSlot(i, v.speed)];
        }
        i, k := i - 1, k + 1;
      }
    }
  }
}
