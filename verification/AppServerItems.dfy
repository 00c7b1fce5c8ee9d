/** The app-server item mapper. It records an item's id before it looks at the item's
    type, so an item of a type it does not map uses up its id without a start, and it
    passes output on without a look at its record. The start-before-progress promise of
    the exec mapper therefore fails here.

    The record of ids lives in one call of drive_turn. An activation makes one call, or a
    second one after a cancel, with a fresh record and the same event sink; so within one
    call an id starts at most once, and within an activation at most once per call. */
module AppServerItems {
  type ItemId = string

  /** isTool: one of the five mapped tool types. */
  datatype Item = AgentMessage(id: ItemId) | Item(id: ItemId, isTool: bool, failed: bool)

  /** OutputDelta: command or file-change output, or the progress of an MCP call. */
  datatype Notification = ItemStarted(item: Item) | ItemCompleted(item: Item) | OutputDelta(itemId: ItemId)

  datatype AgentEvent =
    | ToolStart(toolId: ItemId) | ToolToken(toolId: ItemId) | ToolComplete(toolId: ItemId) | ToolError(toolId: ItemId)

  datatype Run = Run(started: set<ItemId>, log: seq<AgentEvent>)

  const FreshRun := Run({}, [])

  function EmitStarted(r: Run, item: Item): Run {
    if item.id in r.started then r
    else Run(r.started + {item.id}, if item.Item? && item.isTool then r.log + [ToolStart(item.id)] else r.log)
  }

  function EmitCompleted(r: Run, item: Item): Run {
    if item.AgentMessage? then r
    else
      var begun := EmitStarted(r, item);
      begun.(log := begun.log + [if item.failed then ToolError(item.id) else ToolComplete(item.id)])
  }

  function Handle(r: Run, n: Notification): Run {
    match n
    case ItemStarted(item) => EmitStarted(r, item)
    case ItemCompleted(item) => EmitCompleted(r, item)
    case OutputDelta(id) => r.(log := r.log + [ToolToken(id)])
  }

  function HandleAll(ns: seq<Notification>): Run
    decreases |ns|
  {
    if ns == [] then FreshRun else Handle(HandleAll(ns[..|ns| - 1]), ns[|ns| - 1])
  }

  /** A report uses up the id; a completed agent message does not. */
  predicate Reports(n: Notification, id: ItemId) {
    !n.OutputDelta? && n.item.id == id && (n.ItemStarted? || n.item.Item?)
  }

  predicate IsReported(ns: seq<Notification>, id: ItemId) {
    exists i :: 0 <= i < |ns| && Reports(ns[i], id)
  }

  /** The first report of the id is of a mapped type. */
  predicate FirstReportIsTool(ns: seq<Notification>, id: ItemId)
    decreases |ns|
  {
    if ns == [] then false
    else
      var earlier, last := ns[..|ns| - 1], ns[|ns| - 1];
      if IsReported(earlier, id) then FirstReportIsTool(earlier, id)
      else Reports(last, id) && last.item.Item? && last.item.isTool
  }

  function Starts(log: seq<AgentEvent>, id: ItemId): int
    decreases |log|
  {
    if log == [] then 0
    else Starts(log[..|log| - 1], id) + if log[|log| - 1] == ToolStart(id) then 1 else 0
  }

  lemma {:induction false} StartsAppend(log: seq<AgentEvent>, event: AgentEvent, id: ItemId)
    ensures Starts(log + [event], id) == Starts(log, id) + if event == ToolStart(id) then 1 else 0
  {
    assert (log + [event])[..|log|] == log;
  }

  lemma {:induction false} ReportedOneMore(ns: seq<Notification>, id: ItemId)
    requires ns != []
    ensures IsReported(ns, id) <==> IsReported(ns[..|ns| - 1], id) || Reports(ns[|ns| - 1], id)
  {
    var earlier := ns[..|ns| - 1];
    if IsReported(earlier, id) {
      var i :| 0 <= i < |earlier| && Reports(earlier[i], id);
      assert Reports(ns[i], id);
    }
    if IsReported(ns, id) {
      var i :| 0 <= i < |ns| && Reports(ns[i], id);
      assert i < |earlier| ==> Reports(earlier[i], id);
    }
  }

  lemma {:induction false} HandleStarts(r: Run, n: Notification, id: ItemId)
    ensures var after := Handle(r, n);
            && (id in after.started <==> id in r.started || Reports(n, id))
            && Starts(after.log, id) == Starts(r.log, id)
                 + if id !in r.started && Reports(n, id) && n.item.Item? && n.item.isTool then 1 else 0
  {
    if n.OutputDelta? {
      StartsAppend(r.log, ToolToken(n.itemId), id);
      return;
    }
    var begun := EmitStarted(r, n.item);
    StartsAppend(r.log, ToolStart(n.item.id), id);
    if n.ItemCompleted? && n.item.Item? {
      StartsAppend(begun.log, if n.item.failed then ToolError(n.item.id) else ToolComplete(n.item.id), id);
    }
  }

  /** Within one call of drive_turn every id has one start if its first report is of a
      mapped type, and none if not. */
  lemma {:induction false} StartedByFirstReport(ns: seq<Notification>, id: ItemId)
    ensures id in HandleAll(ns).started <==> IsReported(ns, id)
    ensures Starts(HandleAll(ns).log, id) == if FirstReportIsTool(ns, id) then 1 else 0
    decreases |ns|
  {
    if ns != [] {
      StartedByFirstReport(ns[..|ns| - 1], id);
      ReportedOneMore(ns, id);
      HandleStarts(HandleAll(ns[..|ns| - 1]), ns[|ns| - 1], id);
      if !IsReported(ns[..|ns| - 1], id) { UnreportedIsNoTool(ns[..|ns| - 1], id); }
    }
  }

  lemma {:induction false} UnreportedIsNoTool(ns: seq<Notification>, id: ItemId)
    requires !IsReported(ns, id)
    ensures !FirstReportIsTool(ns, id)
  {
    if ns != [] { ReportedOneMore(ns, id); }
  }

  /** One call of drive_turn: the notifications it took, and how many of the events they
      map to were written before the call ended. Only the last notification can be cut
      short, when the call is dropped while it waits for room in the event channel. */
  datatype Segment = Segment(taken: seq<Notification>, written: int)

  function LogBeforeLast(ns: seq<Notification>): seq<AgentEvent> {
    if ns == [] then [] else HandleAll(ns[..|ns| - 1]).log
  }

  predicate IsSegment(seg: Segment) {
    |LogBeforeLast(seg.taken)| <= seg.written <= |HandleAll(seg.taken).log|
  }

  function Emitted(seg: Segment): seq<AgentEvent>
    requires IsSegment(seg)
  {
    HandleAll(seg.taken).log[..seg.written]
  }

  /** The event stream of an activation: what its calls wrote, one after the other. */
  function Stream(segs: seq<Segment>): seq<AgentEvent>
    requires forall seg :: seg in segs ==> IsSegment(seg)
    decreases |segs|
  {
    if segs == [] then [] else Stream(segs[..|segs| - 1]) + Emitted(segs[|segs| - 1])
  }

  /** The call's first report of the id is of a mapped type, leaving out a last
      notification of which nothing was written. */
  predicate SegmentStarts(seg: Segment, id: ItemId) {
    var cut := seg.taken != [] && seg.written == |LogBeforeLast(seg.taken)|;
    FirstReportIsTool(if cut then seg.taken[..|seg.taken| - 1] else seg.taken, id)
  }

  function StartingSegments(segs: seq<Segment>, id: ItemId): int
    decreases |segs|
  {
    if segs == [] then 0
    else StartingSegments(segs[..|segs| - 1], id) + if SegmentStarts(segs[|segs| - 1], id) then 1 else 0
  }

  lemma {:induction false} StartsConcat(a: seq<AgentEvent>, b: seq<AgentEvent>, id: ItemId)
    ensures Starts(a + b, id) == Starts(a, id) + Starts(b, id)
    decreases |b|
  {
    if b == [] {
      assert a + b == a;
    } else {
      StartsConcat(a, b[..|b| - 1], id);
      assert (a + b)[..|a + b| - 1] == a + b[..|b| - 1];
    }
  }

  /** The last notification adds at most two events, the start first. */
  lemma {:induction false} LogGrows(ns: seq<Notification>)
    requires ns != []
    ensures var before, log := LogBeforeLast(ns), HandleAll(ns).log;
            && |before| <= |log| <= |before| + 2
            && log[..|before|] == before
            && (|log| == |before| + 2 ==> log[|before| + 1].ToolComplete? || log[|before| + 1].ToolError?)
  {
  }

  lemma {:induction false} SegmentStartsCounted(seg: Segment, id: ItemId)
    requires IsSegment(seg)
    ensures Starts(Emitted(seg), id) == if SegmentStarts(seg, id) then 1 else 0
  {
    var log := HandleAll(seg.taken).log;
    StartedByFirstReport(seg.taken, id);
    if seg.taken != [] {
      LogGrows(seg.taken);
      StartedByFirstReport(seg.taken[..|seg.taken| - 1], id);
      if seg.written == |LogBeforeLast(seg.taken)| {
        assert Emitted(seg) == LogBeforeLast(seg.taken);
      } else if seg.written == |log| {
        assert Emitted(seg) == log;
      } else {
        StartsAppend(Emitted(seg), log[seg.written], id);
        assert Emitted(seg) + [log[seg.written]] == log;
      }
    }
  }

  /** An id has one start for each call of the activation that starts it. */
  lemma {:induction false} OneStartPerSegment(segs: seq<Segment>, id: ItemId)
    requires forall seg :: seg in segs ==> IsSegment(seg)
    ensures Starts(Stream(segs), id) == StartingSegments(segs, id)
    decreases |segs|
  {
    if segs != [] {
      OneStartPerSegment(segs[..|segs| - 1], id);
      StartsConcat(Stream(segs[..|segs| - 1]), Emitted(segs[|segs| - 1]), id);
      SegmentStartsCounted(segs[|segs| - 1], id);
    }
  }

  /** An activation that is not cancelled starts an id at most once; a cancelled one does
      so exactly unless both of its calls start the id. */
  lemma {:induction false} StartedOnceExactly(first: Segment, second: Segment, id: ItemId)
    requires IsSegment(first) && IsSegment(second)
    ensures Starts(Stream([first]), id) <= 1
    ensures Starts(Stream([first, second]), id) <= 1 <==> !(SegmentStarts(first, id) && SegmentStarts(second, id))
  {
    OneStartPerSegment([first], id);
    OneStartPerSegment([first, second], id);
    assert [first, second][..1] == [first] && [first][..0] == [];
    assert StartingSegments([first], id) == if SegmentStarts(first, id) then 1 else 0;
  }

  /** The failing input: a tool reported started before the cancel and completed after it. */
  lemma {:induction false} CancelledToolStartsTwice()
    ensures var tool := Item("i", true, false);
            var first, second := Segment([ItemStarted(tool)], 1), Segment([ItemCompleted(tool)], 2);
            && IsSegment(first) && IsSegment(second)
            && Stream([first, second]) == [ToolStart("i"), ToolStart("i"), ToolComplete("i")]
  {
    var tool := Item("i", true, false);
    var first, second := Segment([ItemStarted(tool)], 1), Segment([ItemCompleted(tool)], 2);
    assert first.taken[..0] == [] && second.taken[..0] == [];
    assert HandleAll(first.taken) == Handle(FreshRun, first.taken[0]);
    assert HandleAll(second.taken) == Handle(FreshRun, second.taken[0]);
    assert [first, second][..1] == [first] && [first][..0] == [];
    assert Emitted(first) == [ToolStart("i")] && Emitted(second) == [ToolStart("i"), ToolComplete("i")];
    assert Stream([first]) == [ToolStart("i")];
  }

  /** The exact condition: when the latest call of an activation emits a completion, the
      stream before it holds a start of that id if and only if an earlier call started
      it, or the id's first report in this call was of a mapped type. */
  lemma {:induction false} FinishFollowsStartExactly(earlier: seq<Segment>, ns: seq<Notification>, item: Item)
    requires item.Item?
    requires forall seg :: seg in earlier ==> IsSegment(seg)
    ensures var all := ns + [ItemCompleted(item)];
            var log := Stream(earlier) + HandleAll(all).log;
            && HandleAll(all).log != []
            && log[|log| - 1] == (if item.failed then ToolError(item.id) else ToolComplete(item.id))
            && (Starts(log[..|log| - 1], item.id) > 0
                <==> StartingSegments(earlier, item.id) > 0 || FirstReportIsTool(all, item.id))
  {
    CompletionIsLast(ns, item);
    OneStartPerSegment(earlier, item.id);
    StartingIsCounted(earlier, item.id);
    StartsBeforeLast(Stream(earlier), HandleAll(ns + [ItemCompleted(item)]).log, item.id);
  }

  lemma {:induction false} StartsBeforeLast(stream: seq<AgentEvent>, log: seq<AgentEvent>, id: ItemId)
    requires log != []
    ensures var all := stream + log;
            && all[|all| - 1] == log[|log| - 1]
            && Starts(all[..|all| - 1], id) == Starts(stream, id) + Starts(log[..|log| - 1], id)
  {
    StartsConcat(stream, log[..|log| - 1], id);
    assert (stream + log)[..|stream + log| - 1] == stream + log[..|log| - 1];
  }

  lemma {:induction false} CompletionIsLast(ns: seq<Notification>, item: Item)
    requires item.Item?
    ensures var all := ns + [ItemCompleted(item)]; var log := HandleAll(all).log;
            && log != [] && log[|log| - 1] == (if item.failed then ToolError(item.id) else ToolComplete(item.id))
            && Starts(log[..|log| - 1], item.id) == if FirstReportIsTool(all, item.id) then 1 else 0
  {
    var all := ns + [ItemCompleted(item)];
    assert all[..|ns|] == ns;
    StartedByFirstReport(all, item.id);
    var begun := EmitStarted(HandleAll(ns), item);
    assert HandleAll(all).log[..|begun.log|] == begun.log;
  }

  /** The same for output and progress. */
  lemma {:induction false} OutputFollowsStartExactly(earlier: seq<Segment>, ns: seq<Notification>, id: ItemId)
    requires forall seg :: seg in earlier ==> IsSegment(seg)
    ensures var log := Stream(earlier) + HandleAll(ns + [OutputDelta(id)]).log;
            && log != [] && log[|log| - 1] == ToolToken(id)
            && (Starts(log[..|log| - 1], id) > 0 <==> StartingSegments(earlier, id) > 0 || FirstReportIsTool(ns, id))
  {
    var all := ns + [OutputDelta(id)];
    assert all[..|ns|] == ns;
    StartedByFirstReport(ns, id);
    OneStartPerSegment(earlier, id);
    StartingIsCounted(earlier, id);
    assert HandleAll(all).log == HandleAll(ns).log + [ToolToken(id)];
    StartsBeforeLast(Stream(earlier), HandleAll(all).log, id);
  }

  /** The failing input: output that is reported ahead of its item. */
  lemma {:induction false} OutputComesBeforeStart()
    ensures HandleAll([OutputDelta("i"), ItemStarted(Item("i", true, false))]).log == [ToolToken("i"), ToolStart("i")]
  {
    var ns := [OutputDelta("i"), ItemStarted(Item("i", true, false))];
    assert ns[..1] == [OutputDelta("i")] && ns[..1][..0] == [];
    assert HandleAll(ns[..1]) == Handle(FreshRun, OutputDelta("i"));
  }

  lemma {:induction false} StartingIsCounted(segs: seq<Segment>, id: ItemId)
    ensures StartingSegments(segs, id) >= 0
    decreases |segs|
  {
    if segs != [] { StartingIsCounted(segs[..|segs| - 1], id); }
  }

  /** An item of an unmapped type completes without ever having started. */
  lemma UnmappedItemNeverStarts()
    ensures HandleAll([ItemCompleted(Item("i", false, false))]).log == [ToolComplete("i")]
  {
    var ns := [ItemCompleted(Item("i", false, false))];
    assert ns[..0] == [];
    assert HandleAll(ns) == Handle(FreshRun, ns[0]);
  }

  /** No id was started twice, and every started id is on record. */
  ghost predicate StartsAreRecorded(r: Run) {
    forall id :: 0 <= Starts(r.log, id) <= if id in r.started then 1 else 0
  }

  lemma {:induction false} HandleKeepsRecord(r: Run, n: Notification)
    requires StartsAreRecorded(r)
    ensures StartsAreRecorded(Handle(r, n))
  {
    forall id: ItemId
      ensures 0 <= Starts(Handle(r, n).log, id) <= if id in Handle(r, n).started then 1 else 0
    {
      HandleStarts(r, n, id);
    }
  }

  class AppRunState {
    var started: set<ItemId>
    var log: seq<AgentEvent>

    constructor ()
      ensures View() == FreshRun
      ensures StartsAreRecorded(View())
    {
      started, log := {}, [];
    }

    ghost function View(): Run
      reads this
    {
      Run(started, log)
    }

    method EmitItemStarted(item: Item)
      requires StartsAreRecorded(View())
      modifies this
      ensures View() == EmitStarted(old(View()), item)
      ensures StartsAreRecorded(View()) && started == old(started) + {item.id}
      ensures log == if item.id !in old(started) && item.Item? && item.isTool
                     then old(log) + [ToolStart(item.id)] else old(log)
    {
      ghost var before := View();
      HandleKeepsRecord(before, ItemStarted(item));
      if item.id in started { return; }
      started := started + {item.id};
      if item.AgentMessage? || !item.isTool { return; }
      log := log + [ToolStart(item.id)];
    }

    method EmitToolToken(id: ItemId)
      requires StartsAreRecorded(View())
      modifies this`log
      ensures View() == Handle(old(View()), OutputDelta(id)) && StartsAreRecorded(View())
      ensures log == old(log) + [ToolToken(id)]
    {
      HandleKeepsRecord(View(), OutputDelta(id));
      log := log + [ToolToken(id)];
    }

    method EmitItemCompleted(item: Item)
      requires StartsAreRecorded(View())
      modifies this
      ensures View() == EmitCompleted(old(View()), item)
      ensures StartsAreRecorded(View())
      ensures item.AgentMessage? ==> View() == old(View())
      ensures item.Item? ==> item.id in started && log != []
                             && log[|log| - 1] == if item.failed then ToolError(item.id) else ToolComplete(item.id)
    {
      ghost var before := View();
      HandleKeepsRecord(before, ItemCompleted(item));
      if item.AgentMessage? { return; }
      EmitItemStarted(item);
      log := log + [if item.failed then ToolError(item.id) else ToolComplete(item.id)];
    }
  }
}
