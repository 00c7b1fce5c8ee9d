/** The Codex exec event mapper: cumulative item snapshots become deltas, and item
    lifecycles become tool events. */
module ExecMapper {
  import opened Outcomes
  import opened Text

  const TOOL_RESULT_TRUNCATE_CHARS: nat := 20_000

  type ItemId = string

  datatype Stage = Started | Updated | Completed

  datatype Tool = Bash | ApplyPatch | Mcp(server: string, tool: string) | WebSearch

  /** An item as the stream reports it, with the identifier it may lack. */
  datatype Item =
    | AgentMessage(rawId: Option<string>, text: string)
    | Reasoning(rawId: Option<string>, text: string)
    | CommandExecution(rawId: Option<string>, output: string, exitCode: Option<int>, statusFailed: bool)
    | StructuredTool(rawId: Option<string>, tool: Tool, error: Option<string>, result: string)
    | TodoList(rawId: Option<string>)
    | UnknownItem(rawId: Option<string>, typeName: string)

  datatype LifecycleKind = ThreadStarted | TurnStarted | TurnCompleted | TurnFailed | StreamError

  datatype StreamEvent = ItemEvent(stage: Stage, item: Item) | Lifecycle(kind: LifecycleKind)

  /** Text cut to the event limit, and how many characters were dropped. */
  datatype Shown = Shown(text: string, dropped: int)

  datatype ErrorText = ExitCode(code: Option<int>) | Output(shown: Shown)

  datatype AgentEvent =
    | Token(content: string)
    | ReasoningToken(content: string)
    | ToolStart(toolId: ItemId, tool: Tool)
    | ToolToken(toolId: ItemId, content: string)
    | ToolComplete(toolId: ItemId, result: Shown)
    | ToolError(toolId: ItemId, error: ErrorText)
    | RunnerProgress
    | LifecycleNotice(kind: LifecycleKind)

  /** Which part of the mapper emitted an event, and for which item. */
  datatype Origin = FromItem(id: ItemId) | FromDenial | FromStream

  datatype Entry = Entry(origin: Origin, event: AgentEvent)

  datatype Run = Run(
    started: set<ItemId>,
    itemText: map<ItemId, string>,
    itemOutput: map<ItemId, string>,
    toolErrorEmitted: bool,
    lastAgentMessage: string,
    log: seq<Entry>)

  const FreshRun := Run({}, map[], map[], false, "", [])

  // ---------- The mapping ----------

  function Truncate(text: string): Shown {
    if |text| <= TOOL_RESULT_TRUNCATE_CHARS then Shown(text, 0)
    else Shown(text[..TOOL_RESULT_TRUNCATE_CHARS], |text| - TOOL_RESULT_TRUNCATE_CHARS)
  }

  function TypeName(item: Item): string {
    match item
    case AgentMessage(_, _) => "agent_message"
    case Reasoning(_, _) => "reasoning"
    case CommandExecution(_, _, _, _) => "command_execution"
    case StructuredTool(_, tool, _, _) =>
      (match tool case ApplyPatch => "file_change" case Mcp(_, _) => "mcp_tool_call" case _ => "web_search")
    case TodoList(_) => "todo_list"
    case UnknownItem(_, name) => name
  }

  function IdOf(item: Item): ItemId {
    if item.rawId.Some? && item.rawId.value != "" then item.rawId.value else "codex-" + TypeName(item)
  }

  /** An emitted event, with the two bookkeeping fields that follow the log. */
  function Emit(r: Run, entry: Entry): Run {
    r.(log := r.log + [entry],
       started := if entry.event.ToolStart? then r.started + {entry.event.toolId} else r.started,
       toolErrorEmitted := r.toolErrorEmitted || entry.event.ToolError?)
  }

  /** What extends the previous snapshot, or the whole of a snapshot that does not. */
  function Delta(previous: string, snapshot: string): string {
    if previous <= snapshot then snapshot[|previous|..] else snapshot
  }

  function Recorded(seen: map<ItemId, string>, id: ItemId): string {
    if id in seen then seen[id] else ""
  }

  function TextSnapshot(r: Run, id: ItemId, text: string, isReasoning: bool): Run {
    var delta := Delta(Recorded(r.itemText, id), text);
    var after := if delta == "" then r
                 else Emit(r, Entry(FromItem(id), if isReasoning then ReasoningToken(delta) else Token(delta)));
    after.(itemText := after.itemText[id := text])
  }

  function OutputSnapshot(r: Run, id: ItemId, output: string): Run {
    var delta := Delta(Recorded(r.itemOutput, id), output);
    var after := if delta == "" then r else Emit(r, Entry(FromItem(id), ToolToken(id, delta)));
    after.(itemOutput := after.itemOutput[id := output])
  }

  function EnsureStarted(r: Run, id: ItemId, tool: Tool): Run {
    if id in r.started then r else Emit(r, Entry(FromItem(id), ToolStart(id, tool)))
  }

  function CommandOutcome(id: ItemId, item: Item): AgentEvent
    requires item.CommandExecution?
  {
    if item.exitCode == Some(0) && !item.statusFailed then ToolComplete(id, Truncate(item.output))
    else ToolError(id, if IsBlank(item.output) then ExitCode(item.exitCode) else Output(Truncate(item.output)))
  }

  function StructuredOutcome(id: ItemId, item: Item): AgentEvent
    requires item.StructuredTool?
  {
    if item.error.Some? then ToolError(id, Output(Shown(item.error.value, 0)))
    else ToolComplete(id, Truncate(item.result))
  }

  function HandleCommand(r: Run, id: ItemId, stage: Stage, item: Item): Run
    requires item.CommandExecution?
  {
    var after := OutputSnapshot(EnsureStarted(r, id, Bash), id, item.output);
    if stage == Completed then Emit(after, Entry(FromItem(id), CommandOutcome(id, item))) else after
  }

  function HandleStructured(r: Run, id: ItemId, stage: Stage, item: Item): Run
    requires item.StructuredTool?
  {
    var after := EnsureStarted(r, id, item.tool);
    if stage == Completed then Emit(after, Entry(FromItem(id), StructuredOutcome(id, item))) else after
  }

  function HandleItem(r: Run, stage: Stage, item: Item): Run {
    var id := IdOf(item);
    match item
    case AgentMessage(_, text) =>
      var after := TextSnapshot(r, id, text, false);
      if stage == Completed && text != "" then after.(lastAgentMessage := text) else after
    case Reasoning(_, text) => TextSnapshot(r, id, text, true)
    case CommandExecution(_, _, _, _) => HandleCommand(r, id, stage, item)
    case StructuredTool(_, _, _, _) => HandleStructured(r, id, stage, item)
    case TodoList(_) => Emit(r, Entry(FromStream, RunnerProgress))
    case UnknownItem(_, _) => r
  }

  // ---------- The synthetic sandbox denial ----------

  function LowerAscii(s: string): string {
    seq(|s|, i requires 0 <= i < |s| => if 'A' <= s[i] <= 'Z' then (s[i] as int + 32) as char else s[i])
  }

  predicate OccursAt(s: string, part: string, i: int) {
    0 <= i <= |s| - |part| && s[i..i + |part|] == part
  }

  predicate Contains(s: string, part: string) {
    exists i :: 0 <= i <= |s| - |part| && OccursAt(s, part, i)
  }

  predicate LooksLikeSandboxDenial(text: string) {
    var lower := LowerAscii(text);
    && (Contains(lower, "operation not permitted")
        || Contains(lower, "permission denied")
        || Contains(lower, "read-only file system"))
    && (Contains(lower, "sandbox") || Contains(lower, "command")
        || Contains(lower, "write") || Contains(lower, "exit status"))
  }

  predicate ReportsDenial(sandboxed: bool, stage: Stage, item: Item) {
    stage == Completed && sandboxed && item.AgentMessage? && LooksLikeSandboxDenial(item.text)
  }

  function DenialError(item: Item): AgentEvent
    requires item.AgentMessage?
  {
    var id := if item.rawId.Some? then item.rawId.value else "codex-sandbox-denial";
    ToolError(id + "-sandbox-denial", Output(Truncate(item.text)))
  }

  /** sandboxed: the policy's sandbox is not danger-full-access. */
  function HandleEvent(r: Run, sandboxed: bool, event: StreamEvent): Run {
    match event
    case Lifecycle(kind) => Emit(r, Entry(FromStream, LifecycleNotice(kind)))
    case ItemEvent(stage, item) =>
      var after := HandleItem(r, stage, item);
      if ReportsDenial(sandboxed, stage, item) && !after.toolErrorEmitted
      then Emit(after, Entry(FromDenial, DenialError(item))) else after
  }

  function HandleAll(r: Run, sandboxed: bool, events: seq<StreamEvent>): Run
    decreases |events|
  {
    if events == [] then r
    else HandleEvent(HandleAll(r, sandboxed, events[..|events| - 1]), sandboxed, events[|events| - 1])
  }

  // ---------- Tool lifecycles in the emitted stream ----------

  function StartedIn(log: seq<Entry>): set<ItemId>
    decreases |log|
  {
    if log == [] then {}
    else
      var last := log[|log| - 1].event;
      StartedIn(log[..|log| - 1]) + if last.ToolStart? then {last.toolId} else {}
  }

  predicate HasToolError(log: seq<Entry>) {
    exists i :: 0 <= i < |log| && log[i].event.ToolError?
  }

  predicate IsToolProgress(event: AgentEvent) { event.ToolToken? || event.ToolComplete? || event.ToolError? }

  /** What an entry demands of the log before it. */
  predicate Admissible(started: set<ItemId>, errorSeen: bool, entry: Entry) {
    && (entry.event.ToolStart? ==> entry.origin == FromItem(entry.event.toolId) && entry.event.toolId !in started)
    && (IsToolProgress(entry.event) ==>
          || (entry.origin == FromItem(entry.event.toolId) && entry.event.toolId in started)
          || (entry.origin == FromDenial && entry.event.ToolError? && !errorSeen))
  }

  ghost predicate LifecyclesAreOrdered(log: seq<Entry>) {
    forall i :: 0 <= i < |log| ==> Admissible(StartedIn(log[..i]), HasToolError(log[..i]), log[i])
  }

  ghost predicate Inv(r: Run) {
    && r.started == StartedIn(r.log)
    && (r.toolErrorEmitted <==> HasToolError(r.log))
    && LifecyclesAreOrdered(r.log)
  }

  lemma {:induction false} EmitKeepsInv(r: Run, entry: Entry)
    requires Inv(r) && Admissible(r.started, r.toolErrorEmitted, entry)
    ensures Inv(Emit(r, entry))
  {
    var log := r.log + [entry];
    assert log[..|r.log|] == r.log;
    assert HasToolError(log) <==> HasToolError(r.log) || entry.event.ToolError? by {
      if entry.event.ToolError? { assert log[|r.log|].event.ToolError?; }
      if HasToolError(r.log) {
        var i :| 0 <= i < |r.log| && r.log[i].event.ToolError?;
        assert log[i].event.ToolError?;
      }
    }
    forall i | 0 <= i < |log| ensures Admissible(StartedIn(log[..i]), HasToolError(log[..i]), log[i]) {
      assert i < |r.log| ==> log[..i] == r.log[..i];
    }
  }

  lemma {:induction false} CommandKeepsInv(r: Run, id: ItemId, stage: Stage, item: Item)
    requires Inv(r) && item.CommandExecution?
    ensures Inv(HandleCommand(r, id, stage, item))
  {
    StartKeepsInv(r, id, Bash);
    var begun := EnsureStarted(r, id, Bash);
    OutputKeepsInv(begun, id, item.output);
    EmitKeepsInv(OutputSnapshot(begun, id, item.output), Entry(FromItem(id), CommandOutcome(id, item)));
  }

  lemma {:induction false} StructuredKeepsInv(r: Run, id: ItemId, stage: Stage, item: Item)
    requires Inv(r) && item.StructuredTool?
    ensures Inv(HandleStructured(r, id, stage, item))
  {
    StartKeepsInv(r, id, item.tool);
    EmitKeepsInv(EnsureStarted(r, id, item.tool), Entry(FromItem(id), StructuredOutcome(id, item)));
  }

  lemma {:induction false} ItemKeepsInv(r: Run, stage: Stage, item: Item)
    requires Inv(r)
    ensures Inv(HandleItem(r, stage, item))
  {
    var id := IdOf(item);
    match item
    case AgentMessage(_, text) => TextKeepsInv(r, id, text, false);
    case Reasoning(_, text) => TextKeepsInv(r, id, text, true);
    case CommandExecution(_, _, _, _) => CommandKeepsInv(r, id, stage, item);
    case StructuredTool(_, _, _, _) => StructuredKeepsInv(r, id, stage, item);
    case TodoList(_) => EmitKeepsInv(r, Entry(FromStream, RunnerProgress));
    case UnknownItem(_, _) =>
  }

  lemma {:induction false} StartKeepsInv(r: Run, id: ItemId, tool: Tool)
    requires Inv(r)
    ensures Inv(EnsureStarted(r, id, tool)) && id in EnsureStarted(r, id, tool).started
  {
    if id !in r.started { EmitKeepsInv(r, Entry(FromItem(id), ToolStart(id, tool))); }
  }

  lemma {:induction false} TextKeepsInv(r: Run, id: ItemId, text: string, isReasoning: bool)
    requires Inv(r)
    ensures Inv(TextSnapshot(r, id, text, isReasoning))
  {
    var delta := Delta(Recorded(r.itemText, id), text);
    EmitKeepsInv(r, Entry(FromItem(id), if isReasoning then ReasoningToken(delta) else Token(delta)));
  }

  lemma {:induction false} OutputKeepsInv(r: Run, id: ItemId, output: string)
    requires Inv(r) && id in r.started
    ensures Inv(OutputSnapshot(r, id, output)) && id in OutputSnapshot(r, id, output).started
  {
    EmitKeepsInv(r, Entry(FromItem(id), ToolToken(id, Delta(Recorded(r.itemOutput, id), output))));
  }

  lemma {:induction false} EventKeepsInv(r: Run, sandboxed: bool, event: StreamEvent)
    requires Inv(r)
    ensures Inv(HandleEvent(r, sandboxed, event))
  {
    match event
    case Lifecycle(kind) => EmitKeepsInv(r, Entry(FromStream, LifecycleNotice(kind)));
    case ItemEvent(stage, item) =>
      ItemKeepsInv(r, stage, item);
      var after := HandleItem(r, stage, item);
      if ReportsDenial(sandboxed, stage, item) && !after.toolErrorEmitted {
        EmitKeepsInv(after, Entry(FromDenial, DenialError(item)));
      }
  }

  lemma {:induction false} RunKeepsInv(sandboxed: bool, events: seq<StreamEvent>)
    ensures Inv(HandleAll(FreshRun, sandboxed, events))
    decreases |events|
  {
    if events != [] {
      RunKeepsInv(sandboxed, events[..|events| - 1]);
      EventKeepsInv(HandleAll(FreshRun, sandboxed, events[..|events| - 1]), sandboxed, events[|events| - 1]);
    }
  }

  lemma {:induction false} StartedMeansLogged(log: seq<Entry>, id: ItemId)
    ensures id in StartedIn(log) <==> exists j :: 0 <= j < |log| && log[j].event.ToolStart? && log[j].event.toolId == id
    decreases |log|
  {
    if log != [] {
      var n := |log| - 1;
      StartedMeansLogged(log[..n], id);
      if id in StartedIn(log[..n]) {
        var j :| 0 <= j < n && log[..n][j].event.ToolStart? && log[..n][j].event.toolId == id;
        assert log[j].event.ToolStart?;
      }
      if exists j :: 0 <= j < n && log[j].event.ToolStart? && log[j].event.toolId == id {
        var j :| 0 <= j < n && log[j].event.ToolStart? && log[j].event.toolId == id;
        assert log[..n][j].event.ToolStart?;
      }
    }
  }

  /** In the stream one process makes: a tool id is started at most once; output, completion
      and error of an item follow the start of the same id; and a synthetic denial
      comes only where no tool error was emitted before it. */
  lemma {:induction false} LifecycleOrder(sandboxed: bool, events: seq<StreamEvent>, i: int)
    requires 0 <= i < |HandleAll(FreshRun, sandboxed, events).log|
    ensures var log := HandleAll(FreshRun, sandboxed, events).log;
            && (log[i].event.ToolStart? ==>
                  forall j :: 0 <= j < i && log[j].event.ToolStart? ==> log[j].event.toolId != log[i].event.toolId)
            && (IsToolProgress(log[i].event) && log[i].origin != FromDenial ==>
                  exists j :: 0 <= j < i && log[j].event.ToolStart? && log[j].event.toolId == log[i].event.toolId)
            && (log[i].origin == FromDenial && IsToolProgress(log[i].event) ==>
                  log[i].event.ToolError? && forall j :: 0 <= j < i ==> !log[j].event.ToolError?)
  {
    RunKeepsInv(sandboxed, events);
    var log := HandleAll(FreshRun, sandboxed, events).log;
    var before := log[..i];
    assert Admissible(StartedIn(before), HasToolError(before), log[i]);
    if log[i].event.ToolStart? || IsToolProgress(log[i].event) {
      StartedMeansLogged(before, log[i].event.toolId);
    }
    forall j | 0 <= j < i ensures before[j] == log[j] {}
  }

  // ---------- Snapshots and deltas ----------

  /** The two cumulative records: message text (with reasoning), and tool output. */
  datatype Channel = TextChannel | OutputChannel

  function RecordOf(r: Run, id: ItemId, channel: Channel): string {
    Recorded(if channel == TextChannel then r.itemText else r.itemOutput, id)
  }

  function SnapshotOf(item: Item, channel: Channel): Option<string> {
    match item
    case AgentMessage(_, text) => if channel == TextChannel then Some(text) else None
    case Reasoning(_, text) => if channel == TextChannel then Some(text) else None
    case CommandExecution(_, output, _, _) => if channel == OutputChannel then Some(output) else None
    case _ => None
  }

  predicate Reports(event: StreamEvent, id: ItemId, channel: Channel) {
    event.ItemEvent? && IdOf(event.item) == id && SnapshotOf(event.item, channel).Some?
  }

  /** The last snapshot the stream reported for an item, whatever came in between. */
  function LastSnapshot(events: seq<StreamEvent>, id: ItemId, channel: Channel): string
    decreases |events|
  {
    if events == [] then ""
    else if Reports(events[|events| - 1], id, channel) then SnapshotOf(events[|events| - 1].item, channel).value
    else LastSnapshot(events[..|events| - 1], id, channel)
  }

  /** Event k, if it reports the item, extends the snapshot before it. */
  predicate ExtendsAt(events: seq<StreamEvent>, k: int, id: ItemId, channel: Channel)
    requires 0 <= k < |events|
  {
    Reports(events[k], id, channel) ==>
      LastSnapshot(events[..k], id, channel) <= SnapshotOf(events[k].item, channel).value
  }

  /** What one entry adds to the text a listener has received for an item. */
  function Content(entry: Entry, id: ItemId, channel: Channel): string {
    if entry.origin != FromItem(id) then ""
    else match entry.event
      case Token(content) => if channel == TextChannel then content else ""
      case ReasoningToken(content) => if channel == TextChannel then content else ""
      case ToolToken(_, content) => if channel == OutputChannel then content else ""
      case _ => ""
  }

  /** Everything a listener received for an item from log position start on. */
  function Received(log: seq<Entry>, start: int, id: ItemId, channel: Channel): string
    decreases |log|
  {
    if log == [] || |log| <= start then ""
    else Received(log[..|log| - 1], start, id, channel) + Content(log[|log| - 1], id, channel)
  }

  lemma {:induction false} ReceivedAppend(log: seq<Entry>, entry: Entry, start: int, id: ItemId, channel: Channel)
    requires start <= |log|
    ensures Received(log + [entry], start, id, channel)
              == Received(log, start, id, channel) + Content(entry, id, channel)
  {
    assert (log + [entry])[..|log|] == log;
  }

  /** An item's received text and its record, before and after. */
  ghost predicate AddsDelta(r: Run, after: Run, start: int, id: ItemId, channel: Channel, snapshot: string) {
    && |r.log| <= |after.log|
    && Received(after.log, start, id, channel)
         == Received(r.log, start, id, channel) + Delta(RecordOf(r, id, channel), snapshot)
    && RecordOf(after, id, channel) == snapshot
  }

  ghost predicate AddsNothing(r: Run, after: Run, start: int, id: ItemId, channel: Channel) {
    && |r.log| <= |after.log|
    && Received(after.log, start, id, channel) == Received(r.log, start, id, channel)
    && RecordOf(after, id, channel) == RecordOf(r, id, channel)
  }

  lemma {:induction false} EmitAddsNothing(r: Run, entry: Entry, start: int, id: ItemId, channel: Channel)
    requires start <= |r.log| && Content(entry, id, channel) == ""
    ensures AddsNothing(r, Emit(r, entry), start, id, channel)
  {
    ReceivedAppend(r.log, entry, start, id, channel);
    assert Received(r.log, start, id, channel) + "" == Received(r.log, start, id, channel);
  }

  /** Emitting a delta adds it; an empty delta is not emitted, and adds nothing. */
  lemma {:induction false} EmitAddsContent(r: Run, entry: Entry, delta: string, start: int, id: ItemId,
                                           channel: Channel)
    requires start <= |r.log| && Content(entry, id, channel) == delta
    ensures var after := if delta == "" then r else Emit(r, entry);
            Received(after.log, start, id, channel) == Received(r.log, start, id, channel) + delta
  {
    if delta == "" {
      assert Received(r.log, start, id, channel) + "" == Received(r.log, start, id, channel);
    } else {
      ReceivedAppend(r.log, entry, start, id, channel);
    }
  }

  lemma {:induction false} TextAddsDelta(r: Run, own: ItemId, text: string, isReasoning: bool, start: int,
                                         id: ItemId, channel: Channel)
    requires start <= |r.log|
    ensures var after := TextSnapshot(r, own, text, isReasoning);
            if own == id && channel == TextChannel then AddsDelta(r, after, start, id, channel, text)
            else AddsNothing(r, after, start, id, channel)
  {
    var delta := Delta(Recorded(r.itemText, own), text);
    var entry := Entry(FromItem(own), if isReasoning then ReasoningToken(delta) else Token(delta));
    if own == id && channel == TextChannel {
      EmitAddsContent(r, entry, delta, start, id, channel);
    } else {
      EmitAddsNothing(r, entry, start, id, channel);
    }
  }

  lemma {:induction false} OutputAddsDelta(r: Run, own: ItemId, output: string, start: int, id: ItemId,
                                           channel: Channel)
    requires start <= |r.log|
    ensures var after := OutputSnapshot(r, own, output);
            if own == id && channel == OutputChannel then AddsDelta(r, after, start, id, channel, output)
            else AddsNothing(r, after, start, id, channel)
  {
    var delta := Delta(Recorded(r.itemOutput, own), output);
    var entry := Entry(FromItem(own), ToolToken(own, delta));
    if own == id && channel == OutputChannel {
      EmitAddsContent(r, entry, delta, start, id, channel);
    } else {
      EmitAddsNothing(r, entry, start, id, channel);
    }
  }

  lemma {:induction false} StartAddsNothing(r: Run, own: ItemId, tool: Tool, start: int, id: ItemId, channel: Channel)
    requires start <= |r.log|
    ensures AddsNothing(r, EnsureStarted(r, own, tool), start, id, channel)
  {
    if own !in r.started { EmitAddsNothing(r, Entry(FromItem(own), ToolStart(own, tool)), start, id, channel); }
  }

  lemma {:induction false} CommandAddsDelta(r: Run, own: ItemId, stage: Stage, item: Item, start: int, id: ItemId,
                                            channel: Channel)
    requires start <= |r.log| && item.CommandExecution?
    ensures var after := HandleCommand(r, own, stage, item);
            if own == id && channel == OutputChannel then AddsDelta(r, after, start, id, channel, item.output)
            else AddsNothing(r, after, start, id, channel)
  {
    var begun := EnsureStarted(r, own, Bash);
    StartAddsNothing(r, own, Bash, start, id, channel);
    OutputAddsDelta(begun, own, item.output, start, id, channel);
    EmitAddsNothing(OutputSnapshot(begun, own, item.output), Entry(FromItem(own), CommandOutcome(own, item)),
                    start, id, channel);
  }

  lemma {:induction false} StructuredAddsNothing(r: Run, own: ItemId, stage: Stage, item: Item, start: int,
                                                 id: ItemId, channel: Channel)
    requires start <= |r.log| && item.StructuredTool?
    ensures AddsNothing(r, HandleStructured(r, own, stage, item), start, id, channel)
  {
    StartAddsNothing(r, own, item.tool, start, id, channel);
    EmitAddsNothing(EnsureStarted(r, own, item.tool), Entry(FromItem(own), StructuredOutcome(own, item)),
                    start, id, channel);
  }

  lemma {:induction false} ItemAddsDelta(r: Run, stage: Stage, item: Item, start: int, id: ItemId, channel: Channel)
    requires start <= |r.log|
    ensures var after := HandleItem(r, stage, item);
            if IdOf(item) == id && SnapshotOf(item, channel).Some?
            then AddsDelta(r, after, start, id, channel, SnapshotOf(item, channel).value)
            else AddsNothing(r, after, start, id, channel)
  {
    var own := IdOf(item);
    match item
    case AgentMessage(_, text) => TextAddsDelta(r, own, text, false, start, id, channel);
    case Reasoning(_, text) => TextAddsDelta(r, own, text, true, start, id, channel);
    case CommandExecution(_, _, _, _) => CommandAddsDelta(r, own, stage, item, start, id, channel);
    case StructuredTool(_, _, _, _) => StructuredAddsNothing(r, own, stage, item, start, id, channel);
    case TodoList(_) => EmitAddsNothing(r, Entry(FromStream, RunnerProgress), start, id, channel);
    case UnknownItem(_, _) =>
  }

  /** One event adds to what was received for an item the delta of its snapshot, if
      the event reports that item, and leaves every other item's record alone. */
  lemma {:induction false} EventAddsDelta(r: Run, sandboxed: bool, event: StreamEvent, start: int, id: ItemId,
                                          channel: Channel)
    requires start <= |r.log|
    ensures var after := HandleEvent(r, sandboxed, event);
            if Reports(event, id, channel)
            then AddsDelta(r, after, start, id, channel, SnapshotOf(event.item, channel).value)
            else AddsNothing(r, after, start, id, channel)
  {
    match event
    case Lifecycle(kind) => EmitAddsNothing(r, Entry(FromStream, LifecycleNotice(kind)), start, id, channel);
    case ItemEvent(stage, item) =>
      ItemAddsDelta(r, stage, item, start, id, channel);
      if item.AgentMessage? {
        EmitAddsNothing(HandleItem(r, stage, item), Entry(FromDenial, DenialError(item)), start, id, channel);
      }
  }

  /** The record of an item is its last snapshot. */
  lemma {:induction false} RecordIsLastSnapshot(sandboxed: bool, events: seq<StreamEvent>, id: ItemId, channel: Channel)
    ensures RecordOf(HandleAll(FreshRun, sandboxed, events), id, channel) == LastSnapshot(events, id, channel)
    decreases |events|
  {
    if events != [] {
      var earlier := events[..|events| - 1];
      RecordIsLastSnapshot(sandboxed, earlier, id, channel);
      EventAddsDelta(HandleAll(FreshRun, sandboxed, earlier), sandboxed, events[|events| - 1], 0, id, channel);
    }
  }

  lemma {:induction false} DeltaCompletes(previous: string, snapshot: string)
    ensures previous <= snapshot ==> previous + Delta(previous, snapshot) == snapshot
    ensures !(previous <= snapshot) || previous == "" ==> "" + Delta(previous, snapshot) == snapshot
  {
  }

  /** What was received since start is the item's current snapshot. */
  ghost predicate HoldsText(r: Run, start: int, id: ItemId, channel: Channel) {
    start <= |r.log| && Received(r.log, start, id, channel) == RecordOf(r, id, channel)
  }

  ghost predicate ExtendsRecord(r: Run, event: StreamEvent, id: ItemId, channel: Channel) {
    Reports(event, id, channel) ==> RecordOf(r, id, channel) <= SnapshotOf(event.item, channel).value
  }

  lemma {:induction false} EventKeepsText(r: Run, sandboxed: bool, event: StreamEvent, start: int, id: ItemId,
                                          channel: Channel)
    requires HoldsText(r, start, id, channel) && ExtendsRecord(r, event, id, channel)
    ensures HoldsText(HandleEvent(r, sandboxed, event), start, id, channel)
  {
    EventAddsDelta(r, sandboxed, event, start, id, channel);
    if Reports(event, id, channel) {
      DeltaCompletes(RecordOf(r, id, channel), SnapshotOf(event.item, channel).value);
    }
  }

  lemma {:induction false} ExtendsAtExtendsRecord(sandboxed: bool, events: seq<StreamEvent>, k: nat, id: ItemId,
                                                  channel: Channel)
    requires k < |events| && ExtendsAt(events, k, id, channel)
    ensures ExtendsRecord(HandleAll(FreshRun, sandboxed, events[..k]), events[k], id, channel)
  {
    RecordIsLastSnapshot(sandboxed, events[..k], id, channel);
  }

  lemma {:induction false} HandleOneMore(sandboxed: bool, events: seq<StreamEvent>, k: nat)
    requires k < |events|
    ensures HandleAll(FreshRun, sandboxed, events[..k + 1])
              == HandleEvent(HandleAll(FreshRun, sandboxed, events[..k]), sandboxed, events[k])
  {
    assert events[..k + 1][..k] == events[..k];
  }

  /** What a listener holds stays the current snapshot while snapshots extend. */
  lemma {:induction false} ExtendingKeepsText(sandboxed: bool, events: seq<StreamEvent>, m: nat, n: nat, start: int,
                                              id: ItemId, channel: Channel)
    requires m <= n <= |events|
    requires forall k :: m <= k < n ==> ExtendsAt(events, k, id, channel)
    requires HoldsText(HandleAll(FreshRun, sandboxed, events[..m]), start, id, channel)
    ensures HoldsText(HandleAll(FreshRun, sandboxed, events[..n]), start, id, channel)
    decreases n
  {
    if n > m {
      var k := n - 1;
      ExtendingKeepsText(sandboxed, events, m, k, start, id, channel);
      ExtendsAtExtendsRecord(sandboxed, events, k, id, channel);
      HandleOneMore(sandboxed, events, k);
      EventKeepsText(HandleAll(FreshRun, sandboxed, events[..k]), sandboxed, events[k], start, id, channel);
    }
  }

  lemma {:induction false} ResetStartsAfresh(r: Run, sandboxed: bool, event: StreamEvent, id: ItemId, channel: Channel)
    requires Reports(event, id, channel)
    requires RecordOf(r, id, channel) == "" || !(RecordOf(r, id, channel) <= SnapshotOf(event.item, channel).value)
    ensures HoldsText(HandleEvent(r, sandboxed, event), |r.log|, id, channel)
  {
    EventAddsDelta(r, sandboxed, event, |r.log|, id, channel);
    DeltaCompletes(RecordOf(r, id, channel), SnapshotOf(event.item, channel).value);
    assert Received(r.log, |r.log|, id, channel) == "";
  }

  /** Over any interleaving: let event m be the last that does not extend the item's
      snapshot (or its first). What was received for the item from then on is its
      current snapshot. */
  lemma {:induction false} ReceivedSinceReset(sandboxed: bool, events: seq<StreamEvent>, m: nat, id: ItemId,
                                              channel: Channel)
    requires m < |events| && Reports(events[m], id, channel)
    requires LastSnapshot(events[..m], id, channel) == "" || !ExtendsAt(events, m, id, channel)
    requires forall k :: m < k < |events| ==> ExtendsAt(events, k, id, channel)
    ensures Received(HandleAll(FreshRun, sandboxed, events).log,
                     |HandleAll(FreshRun, sandboxed, events[..m]).log|, id, channel)
              == LastSnapshot(events, id, channel)
  {
    var r := HandleAll(FreshRun, sandboxed, events[..m]);
    RecordIsLastSnapshot(sandboxed, events[..m], id, channel);
    ResetStartsAfresh(r, sandboxed, events[m], id, channel);
    HandleOneMore(sandboxed, events, m);
    ExtendingKeepsText(sandboxed, events, m + 1, |events|, |r.log|, id, channel);
    assert events[..|events|] == events;
    RecordIsLastSnapshot(sandboxed, events, id, channel);
  }

  /** When every snapshot extends the one before, all that was received is the final
      text. */
  lemma {:induction false} ReceivedIsFinalText(sandboxed: bool, events: seq<StreamEvent>, id: ItemId, channel: Channel)
    requires forall k :: 0 <= k < |events| ==> ExtendsAt(events, k, id, channel)
    ensures Received(HandleAll(FreshRun, sandboxed, events).log, 0, id, channel) == LastSnapshot(events, id, channel)
  {
    ExtendingKeepsText(sandboxed, events, 0, |events|, 0, id, channel);
    assert events[..|events|] == events;
    RecordIsLastSnapshot(sandboxed, events, id, channel);
  }

  /** What a listener is sent for one snapshot: the part that extends the record, or
      the whole of a snapshot that does not extend it. */
  ghost predicate SendsSnapshot(before: Run, after: Run, id: ItemId, channel: Channel, snapshot: string) {
    var record := RecordOf(before, id, channel);
    var received := Received(after.log, |before.log|, id, channel);
    && RecordOf(after, id, channel) == snapshot
    && (if record <= snapshot then record + received == snapshot else received == snapshot)
  }

  lemma {:induction false} AddsDeltaSends(before: Run, after: Run, id: ItemId, channel: Channel, snapshot: string)
    requires AddsDelta(before, after, |before.log|, id, channel, snapshot)
    ensures SendsSnapshot(before, after, id, channel, snapshot)
  {
    assert Received(before.log, |before.log|, id, channel) == "";
    var delta := Delta(RecordOf(before, id, channel), snapshot);
    assert "" + delta == delta;
    DeltaCompletes(RecordOf(before, id, channel), snapshot);
  }

  lemma {:induction false} TextSends(r: Run, id: ItemId, text: string, isReasoning: bool)
    ensures SendsSnapshot(r, TextSnapshot(r, id, text, isReasoning), id, TextChannel, text)
  {
    TextAddsDelta(r, id, text, isReasoning, |r.log|, id, TextChannel);
    AddsDeltaSends(r, TextSnapshot(r, id, text, isReasoning), id, TextChannel, text);
  }

  lemma {:induction false} OutputSends(r: Run, id: ItemId, output: string)
    ensures SendsSnapshot(r, OutputSnapshot(r, id, output), id, OutputChannel, output)
  {
    OutputAddsDelta(r, id, output, |r.log|, id, OutputChannel);
    AddsDeltaSends(r, OutputSnapshot(r, id, output), id, OutputChannel, output);
  }

  /** An item event sends its own snapshot and leaves every other record alone. */
  lemma {:induction false} ItemSendsSnapshot(r: Run, stage: Stage, item: Item, id: ItemId, channel: Channel)
    ensures var after := HandleItem(r, stage, item);
            if IdOf(item) == id && SnapshotOf(item, channel).Some?
            then SendsSnapshot(r, after, id, channel, SnapshotOf(item, channel).value)
            else RecordOf(after, id, channel) == RecordOf(r, id, channel)
  {
    ItemAddsDelta(r, stage, item, |r.log|, id, channel);
    if IdOf(item) == id && SnapshotOf(item, channel).Some? {
      AddsDeltaSends(r, HandleItem(r, stage, item), id, channel, SnapshotOf(item, channel).value);
    }
  }

  // ---------- What an event adds, field by field ----------

  predicate IsOutcome(event: AgentEvent) { event.ToolComplete? || event.ToolError? }

  /** The text, up to the limit, with the number of characters beyond it. */
  ghost predicate IsCut(shown: Shown, text: string) {
    if |text| > 20_000 then shown.text == text[..20_000] && shown.dropped == |text| - 20_000
    else shown.text == text && shown.dropped == 0
  }

  ghost predicate Extends(r: Run, after: Run) {
    |r.log| <= |after.log| && after.log[..|r.log|] == r.log
  }

  /** The entries from n on start the tool first, unless it was started, and hold one
      outcome, in the last place, if any is due. */
  ghost predicate AddsToolEvents(r: Run, after: Run, id: ItemId, tool: Tool, isDone: bool) {
    && Extends(r, after)
    && (id !in r.started ==> |after.log| > |r.log| && after.log[|r.log|] == Entry(FromItem(id), ToolStart(id, tool)))
    && (isDone ==> |after.log| > |r.log| && after.log[|after.log| - 1].origin == FromItem(id)
                   && IsOutcome(after.log[|after.log| - 1].event))
    && forall j :: |r.log| <= j < |after.log| - (if isDone then 1 else 0) ==> !IsOutcome(after.log[j].event)
  }

  /** A command succeeds with exit code 0 and a status other than failed. */
  ghost predicate IsCommandOutcome(event: AgentEvent, id: ItemId, item: Item)
    requires item.CommandExecution?
  {
    if item.exitCode == Some(0) && !item.statusFailed then
      event.ToolComplete? && event.toolId == id && IsCut(event.result, item.output)
    else
      && event.ToolError? && event.toolId == id
      && if exists i :: 0 <= i < |item.output| && !IsWhitespace(item.output[i])
         then event.error.Output? && IsCut(event.error.shown, item.output)
         else event.error == ExitCode(item.exitCode)
  }

  /** The other tools fail when they report an error. */
  ghost predicate IsStructuredOutcome(event: AgentEvent, id: ItemId, item: Item)
    requires item.StructuredTool?
  {
    if item.error.Some? then event == ToolError(id, Output(Shown(item.error.value, 0)))
    else event.ToolComplete? && event.toolId == id && IsCut(event.result, item.result)
  }

  /** Text goes out as one token at most, of the kind its item has. */
  ghost predicate AddsText(r: Run, after: Run, id: ItemId, isReasoning: bool) {
    && Extends(r, after) && |after.log| <= |r.log| + 1
    && (|after.log| > |r.log| ==>
          && after.log[|r.log|].origin == FromItem(id)
          && if isReasoning then after.log[|r.log|].event.ReasoningToken? else after.log[|r.log|].event.Token?)
  }

  ghost predicate IsMapped(r: Run, after: Run, stage: Stage, item: Item) {
    var id := IdOf(item);
    && (match item
        case AgentMessage(_, _) => AddsText(r, after, id, false)
        case Reasoning(_, _) => AddsText(r, after, id, true)
        case CommandExecution(_, _, _, _) =>
          && AddsToolEvents(r, after, id, Bash, stage == Completed)
          && (stage == Completed ==> IsCommandOutcome(after.log[|after.log| - 1].event, id, item))
        case StructuredTool(_, tool, _, _) =>
          && AddsToolEvents(r, after, id, tool, stage == Completed)
          && (stage == Completed ==> IsStructuredOutcome(after.log[|after.log| - 1].event, id, item))
        case TodoList(_) => after == r.(log := r.log + [Entry(FromStream, RunnerProgress)])
        case UnknownItem(_, _) => after == r)
    && after.lastAgentMessage ==
         if item.AgentMessage? && stage == Completed && item.text != "" then item.text else r.lastAgentMessage
  }

  lemma {:induction false} BlankMeansNoWord(s: string)
    ensures IsBlank(s) <==> !exists i :: 0 <= i < |s| && !IsWhitespace(s[i])
  {
  }

  lemma {:induction false} CommandOutcomeByFields(id: ItemId, item: Item)
    requires item.CommandExecution?
    ensures IsCommandOutcome(CommandOutcome(id, item), id, item) && IsOutcome(CommandOutcome(id, item))
  {
    BlankMeansNoWord(item.output);
  }

  lemma {:induction false} StartAdds(r: Run, id: ItemId, tool: Tool)
    ensures AddsToolEvents(r, EnsureStarted(r, id, tool), id, tool, false)
  {
  }

  lemma {:induction false} OneMoreAdds(r: Run, begun: Run, after: Run, id: ItemId, tool: Tool, event: AgentEvent)
    requires AddsToolEvents(r, begun, id, tool, false)
    requires after.log == begun.log + [Entry(FromItem(id), event)]
    ensures AddsToolEvents(r, after, id, tool, IsOutcome(event))
  {
    assert after.log[..|r.log|] == begun.log[..|r.log|];
  }

  lemma {:induction false} CommandAdds(r: Run, id: ItemId, stage: Stage, item: Item)
    requires item.CommandExecution?
    ensures var after := HandleCommand(r, id, stage, item);
            && AddsToolEvents(r, after, id, Bash, stage == Completed)
            && (stage == Completed ==> after.log[|after.log| - 1].event == CommandOutcome(id, item))
  {
    var begun := EnsureStarted(r, id, Bash);
    var told := OutputSnapshot(begun, id, item.output);
    var delta := Delta(Recorded(begun.itemOutput, id), item.output);
    StartAdds(r, id, Bash);
    if delta != "" { OneMoreAdds(r, begun, told, id, Bash, ToolToken(id, delta)); }
    if stage == Completed {
      CommandOutcomeByFields(id, item);
      OneMoreAdds(r, told, HandleCommand(r, id, stage, item), id, Bash, CommandOutcome(id, item));
    }
  }

  lemma {:induction false} CommandIsMapped(r: Run, stage: Stage, item: Item)
    requires item.CommandExecution?
    ensures IsMapped(r, HandleItem(r, stage, item), stage, item)
  {
    CommandAdds(r, IdOf(item), stage, item);
    CommandOutcomeByFields(IdOf(item), item);
    assert HandleItem(r, stage, item).lastAgentMessage == r.lastAgentMessage;
  }

  lemma {:induction false} ItemIsMapped(r: Run, stage: Stage, item: Item)
    ensures IsMapped(r, HandleItem(r, stage, item), stage, item)
  {
    if item.CommandExecution? { CommandIsMapped(r, stage, item); }
  }

  /** An item is known by the id it has, or else by its type. */
  lemma IdByFields(item: Item)
    ensures item.rawId.Some? && item.rawId.value != "" ==> IdOf(item) == item.rawId.value
    ensures item.rawId.None? || item.rawId.value == "" ==>
              match item
              case AgentMessage(_, _) => IdOf(item) == "codex-" + "agent_message"
              case Reasoning(_, _) => IdOf(item) == "codex-" + "reasoning"
              case CommandExecution(_, _, _, _) => IdOf(item) == "codex-" + "command_execution"
              case StructuredTool(_, ApplyPatch, _, _) => IdOf(item) == "codex-" + "file_change"
              case StructuredTool(_, Mcp(_, _), _, _) => IdOf(item) == "codex-" + "mcp_tool_call"
              case StructuredTool(_, _, _, _) => IdOf(item) == "codex-" + "web_search"
              case TodoList(_) => IdOf(item) == "codex-" + "todo_list"
              case UnknownItem(_, name) => IdOf(item) == "codex-" + name
  {
  }

  predicate SameLetter(c: char, lower: char) { c == lower || ('A' <= c <= 'Z' && c as int + 32 == lower as int) }

  /** The phrase stands somewhere in the text, in either case. */
  predicate Mentions(text: string, phrase: string) {
    exists i :: 0 <= i <= |text| - |phrase| && ReadsAt(text, phrase, i)
  }

  predicate ReadsAt(text: string, phrase: string, i: int)
    requires 0 <= i <= |text| - |phrase|
  {
    forall k :: 0 <= k < |phrase| ==> SameLetter(text[i + k], phrase[k])
  }

  lemma {:induction false} ContainsMeansMentions(text: string, phrase: string)
    requires forall k :: 0 <= k < |phrase| ==> !('A' <= phrase[k] <= 'Z')
    ensures Contains(LowerAscii(text), phrase) <==> Mentions(text, phrase)
  {
    var lower := LowerAscii(text);
    if Contains(lower, phrase) {
      var i :| 0 <= i <= |lower| - |phrase| && OccursAt(lower, phrase, i);
      forall k | 0 <= k < |phrase| ensures SameLetter(text[i + k], phrase[k]) {
        assert lower[i..i + |phrase|][k] == phrase[k];
      }
      assert ReadsAt(text, phrase, i);
    }
    if Mentions(text, phrase) {
      var i :| 0 <= i <= |text| - |phrase| && ReadsAt(text, phrase, i);
      assert lower[i..i + |phrase|] == phrase;
      assert OccursAt(lower, phrase, i);
    }
  }

  /** A message reads like a sandbox denial if it mentions a refusal and an operation. */
  lemma {:induction false} DenialByText(text: string)
    ensures LooksLikeSandboxDenial(text) <==>
              && (|| Mentions(text, "operation not permitted") || Mentions(text, "permission denied")
                  || Mentions(text, "read-only file system"))
              && (|| Mentions(text, "sandbox") || Mentions(text, "command")
                  || Mentions(text, "write") || Mentions(text, "exit status"))
  {
    ContainsMeansMentions(text, "operation not permitted");
    ContainsMeansMentions(text, "permission denied");
    ContainsMeansMentions(text, "read-only file system");
    ContainsMeansMentions(text, "sandbox");
    ContainsMeansMentions(text, "command");
    ContainsMeansMentions(text, "write");
    ContainsMeansMentions(text, "exit status");
  }

  /** A denial is added exactly for a completed agent message that reads like one, in a
      sandbox, when the item itself left no tool error behind it and none came before. */
  ghost predicate AddsDenial(after: Run, next: Run, item: Item)
    requires item.AgentMessage?
  {
    && |next.log| == |after.log| + 1 && next.log[..|after.log|] == after.log
    && next.toolErrorEmitted
    && var entry := next.log[|after.log|];
       && entry.origin == FromDenial && entry.event.ToolError?
       && entry.event.toolId
            == (if item.rawId.Some? then item.rawId.value else "codex-sandbox-denial") + "-sandbox-denial"
       && entry.event.error.Output? && IsCut(entry.event.error.shown, item.text)
  }

  lemma {:induction false} EventByFields(r: Run, sandboxed: bool, event: StreamEvent)
    requires Inv(r)
    ensures var next := HandleEvent(r, sandboxed, event);
            match event
            case Lifecycle(kind) => next == r.(log := r.log + [Entry(FromStream, LifecycleNotice(kind))])
            case ItemEvent(stage, item) =>
              var after := HandleItem(r, stage, item);
              && IsMapped(r, after, stage, item)
              && if && item.AgentMessage? && stage == Completed && sandboxed
                    && LooksLikeSandboxDenial(item.text) && !HasToolError(after.log)
                 then AddsDenial(after, next, item) else next == after
  {
    if event.ItemEvent? {
      ItemIsMapped(r, event.stage, event.item);
      ItemKeepsInv(r, event.stage, event.item);
    }
  }

  // ---------- The stream of an activation ----------

  /** One process, or two: an activation retries a resumed process that showed no turn,
      with a fresh mapper on the same event sink. */
  datatype Activation = Once(events: seq<StreamEvent>) | Retried(first: seq<StreamEvent>, second: seq<StreamEvent>)

  predicate ShowsTurn(event: StreamEvent) {
    event.Lifecycle? && (event.kind == TurnStarted || event.kind == TurnCompleted)
  }

  predicate IsActivation(a: Activation) {
    a.Retried? ==> forall k :: 0 <= k < |a.first| ==> !ShowsTurn(a.first[k])
  }

  function LogOf(sandboxed: bool, events: seq<StreamEvent>): seq<Entry> {
    HandleAll(FreshRun, sandboxed, events).log
  }

  /** The notice of the retry stands between the two. */
  function Stream(sandboxed: bool, a: Activation): seq<Entry> {
    match a
    case Once(events) => LogOf(sandboxed, events)
    case Retried(first, second) =>
      LogOf(sandboxed, first) + [Entry(FromStream, RunnerProgress)] + LogOf(sandboxed, second)
  }

  /** Where the second process's part of the stream begins. */
  function SecondPart(sandboxed: bool, first: seq<StreamEvent>): int { |LogOf(sandboxed, first)| + 1 }

  predicate StartsTool(entry: Entry, id: ItemId) { entry.event.ToolStart? && entry.event.toolId == id }

  function Starts(log: seq<Entry>, id: ItemId): int
    decreases |log|
  {
    if log == [] then 0 else Starts(log[..|log| - 1], id) + if StartsTool(log[|log| - 1], id) then 1 else 0
  }

  /** The stream reports a tool item under the id, at whatever stage. */
  predicate ReportsTool(events: seq<StreamEvent>, id: ItemId) {
    exists k :: 0 <= k < |events| && IsToolReport(events[k], id)
  }

  predicate IsToolReport(event: StreamEvent, id: ItemId) {
    event.ItemEvent? && (event.item.CommandExecution? || event.item.StructuredTool?) && IdOf(event.item) == id
  }

  lemma {:induction false} StartsConcat(a: seq<Entry>, b: seq<Entry>, id: ItemId)
    ensures Starts(a + b, id) == Starts(a, id) + Starts(b, id)
    decreases |b|
  {
    if b == [] {
      assert a + b == a;
    } else {
      StartsConcat(a, b[..|b| - 1], id);
      assert (a + b)[..|a + b| - 1] == a + b[..|b| - 1];
    }
  }

  lemma {:induction false} OrderedPrefix(log: seq<Entry>, n: nat)
    requires LifecyclesAreOrdered(log) && n <= |log|
    ensures LifecyclesAreOrdered(log[..n])
  {
    forall i | 0 <= i < n ensures Admissible(StartedIn(log[..n][..i]), HasToolError(log[..n][..i]), log[..n][i]) {
      assert log[..n][..i] == log[..i];
    }
  }

  lemma {:induction false} OrderedStartsOnce(log: seq<Entry>, id: ItemId)
    requires LifecyclesAreOrdered(log)
    ensures Starts(log, id) == if id in StartedIn(log) then 1 else 0
    decreases |log|
  {
    if log != [] {
      var n := |log| - 1;
      OrderedPrefix(log, n);
      OrderedStartsOnce(log[..n], id);
      assert Admissible(StartedIn(log[..n]), HasToolError(log[..n]), log[n]);
    }
  }

  lemma {:induction false} CommandStarts(r: Run, own: ItemId, stage: Stage, item: Item)
    requires item.CommandExecution?
    ensures HandleCommand(r, own, stage, item).started == r.started + {own}
  {
    var begun := EnsureStarted(r, own, Bash);
    assert begun.started == r.started + {own};
    assert OutputSnapshot(begun, own, item.output).started == begun.started;
  }

  lemma {:induction false} ItemStarts(r: Run, stage: Stage, item: Item)
    ensures HandleItem(r, stage, item).started
              == r.started + if item.CommandExecution? || item.StructuredTool? then {IdOf(item)} else {}
  {
    var own := IdOf(item);
    match item
    case AgentMessage(_, text) => assert TextSnapshot(r, own, text, false).started == r.started;
    case Reasoning(_, text) => assert TextSnapshot(r, own, text, true).started == r.started;
    case CommandExecution(_, _, _, _) => CommandStarts(r, own, stage, item);
    case StructuredTool(_, tool, _, _) => assert EnsureStarted(r, own, tool).started == r.started + {own};
    case _ =>
  }

  lemma {:induction false} EventStarts(r: Run, sandboxed: bool, event: StreamEvent, id: ItemId)
    ensures id in HandleEvent(r, sandboxed, event).started <==> id in r.started || IsToolReport(event, id)
  {
    if event.ItemEvent? { ItemStarts(r, event.stage, event.item); }
  }

  lemma {:induction false} StartedIsReported(sandboxed: bool, events: seq<StreamEvent>, id: ItemId)
    ensures id in HandleAll(FreshRun, sandboxed, events).started <==> ReportsTool(events, id)
    decreases |events|
  {
    if events != [] {
      var n := |events| - 1;
      StartedIsReported(sandboxed, events[..n], id);
      EventStarts(HandleAll(FreshRun, sandboxed, events[..n]), sandboxed, events[n], id);
      ReportedOneMore(events, id);
    }
  }

  lemma {:induction false} ReportedOneMore(events: seq<StreamEvent>, id: ItemId)
    requires events != []
    ensures ReportsTool(events, id) <==>
              ReportsTool(events[..|events| - 1], id) || IsToolReport(events[|events| - 1], id)
  {
    var n := |events| - 1;
    var earlier := events[..n];
    if ReportsTool(earlier, id) {
      var k :| 0 <= k < n && IsToolReport(earlier[k], id);
      assert IsToolReport(events[k], id);
    }
    if ReportsTool(events, id) {
      var k :| 0 <= k < |events| && IsToolReport(events[k], id);
      assert k < n ==> IsToolReport(earlier[k], id);
    }
  }

  /** One process starts an id once if it reports a tool under it, and never if not. */
  lemma {:induction false} ProcessStartsOnce(sandboxed: bool, events: seq<StreamEvent>, id: ItemId)
    ensures Starts(LogOf(sandboxed, events), id) == if ReportsTool(events, id) then 1 else 0
  {
    RunKeepsInv(sandboxed, events);
    OrderedStartsOnce(LogOf(sandboxed, events), id);
    StartedIsReported(sandboxed, events, id);
  }

  lemma {:induction false} RetriedStarts(sandboxed: bool, first: seq<StreamEvent>, second: seq<StreamEvent>, id: ItemId)
    ensures Starts(Stream(sandboxed, Retried(first, second)), id)
              == (if ReportsTool(first, id) then 1 else 0) + (if ReportsTool(second, id) then 1 else 0)
  {
    var a, notice, b := LogOf(sandboxed, first), [Entry(FromStream, RunnerProgress)], LogOf(sandboxed, second);
    ProcessStartsOnce(sandboxed, first, id);
    ProcessStartsOnce(sandboxed, second, id);
    StartsConcat(a, notice, id);
    StartsConcat(a + notice, b, id);
    assert notice[..0] == [];
    assert Starts(notice, id) == 0;
  }

  predicate BothReport(first: seq<StreamEvent>, second: seq<StreamEvent>, id: ItemId) {
    ReportsTool(first, id) && ReportsTool(second, id)
  }

  /** An activation starts an id at most once exactly unless it is retried and both of
      its processes report a tool under it. */
  lemma {:induction false} StartedOnceExactly(sandboxed: bool, a: Activation, id: ItemId)
    ensures Starts(Stream(sandboxed, a), id) <= 1 <==> !(a.Retried? && BothReport(a.first, a.second, id))
  {
    match a
    case Once(events) => ProcessStartsOnce(sandboxed, events, id);
    case Retried(first, second) => RetriedStarts(sandboxed, first, second, id);
  }

  /** The failing input: both processes report the start of one command. */
  lemma {:induction false} RetriedItemStartsTwice(sandboxed: bool)
    ensures var events := [ItemEvent(Started, CommandExecution(Some("item_0"), "", None, false))];
            var start := Entry(FromItem("item_0"), ToolStart("item_0", Bash));
            && IsActivation(Retried(events, events))
            && Stream(sandboxed, Retried(events, events)) == [start, Entry(FromStream, RunnerProgress), start]
  {
    var event := ItemEvent(Started, CommandExecution(Some("item_0"), "", None, false));
    assert [event][..0] == [];
    assert HandleAll(FreshRun, sandboxed, [event]) == HandleEvent(FreshRun, sandboxed, event);
    assert LogOf(sandboxed, [event]) == [Entry(FromItem("item_0"), ToolStart("item_0", Bash))];
  }

  /** The part of the stream, of one process or the other, that holds entry i. */
  function PartStart(sandboxed: bool, a: Activation, i: int): int {
    if a.Retried? && i >= SecondPart(sandboxed, a.first) then SecondPart(sandboxed, a.first) else 0
  }

  ghost predicate FollowsStart(log: seq<Entry>, i: int, id: ItemId)
    requires 0 <= i < |log|
  {
    exists j :: 0 <= j < i && StartsTool(log[j], id)
  }

  ghost predicate HasNoErrors(log: seq<Entry>, from: int, to: int)
    requires 0 <= from <= to <= |log|
  {
    forall j :: from <= j < to ==> !log[j].event.ToolError?
  }

  /** Item output, completion and error follow a start of the same id, and no tool error
      precedes a synthetic denial from start on. */
  ghost predicate InOrder(log: seq<Entry>, i: int, start: int)
    requires 0 <= start <= i < |log|
  {
    IsToolProgress(log[i].event) ==>
      if log[i].origin != FromDenial then FollowsStart(log, i, log[i].event.toolId)
      else log[i].event.ToolError? && HasNoErrors(log, start, i)
  }

  lemma {:induction false} OrderInFirst(a: seq<Entry>, b: seq<Entry>, i: int)
    requires 0 <= i < |a| && InOrder(a, i, 0)
    ensures InOrder(a + b, i, 0)
  {
    var log := a + b;
    assert forall j :: 0 <= j <= i ==> log[j] == a[j];
    if IsToolProgress(a[i].event) && a[i].origin != FromDenial {
      var j :| 0 <= j < i && StartsTool(a[j], a[i].event.toolId);
      assert StartsTool(log[j], log[i].event.toolId);
    }
  }

  lemma {:induction false} OrderInSecond(a: seq<Entry>, b: seq<Entry>, i: int)
    requires 0 <= i < |b| && InOrder(b, i, 0)
    ensures InOrder(a + b, |a| + i, |a|)
  {
    var log := a + b;
    assert log[|a| + i] == b[i];
    if IsToolProgress(b[i].event) {
      if b[i].origin != FromDenial {
        var j :| 0 <= j < i && StartsTool(b[j], b[i].event.toolId);
        assert StartsTool(log[|a| + j], b[i].event.toolId);
      } else {
        forall j | |a| <= j < |a| + i ensures !log[j].event.ToolError? { assert log[j] == b[j - |a|]; }
      }
    }
  }

  lemma {:induction false} OrderAcrossNotice(a: seq<Entry>, b: seq<Entry>, i: int)
    requires 0 <= i < |a| + 1 + |b|
    requires i < |a| ==> InOrder(a, i, 0)
    requires i > |a| ==> InOrder(b, i - |a| - 1, 0)
    ensures InOrder(a + [Entry(FromStream, RunnerProgress)] + b, i, if i > |a| then |a| + 1 else 0)
  {
    var before := a + [Entry(FromStream, RunnerProgress)];
    if i > |a| {
      OrderInSecond(before, b, i - |before|);
    } else {
      if i < |a| { OrderInFirst(a, [Entry(FromStream, RunnerProgress)], i); }
      OrderInFirst(before, b, i);
    }
  }

  lemma {:induction false} ProcessOrder(sandboxed: bool, events: seq<StreamEvent>, i: int)
    requires 0 <= i < |LogOf(sandboxed, events)|
    ensures InOrder(LogOf(sandboxed, events), i, 0)
  {
    LifecycleOrder(sandboxed, events, i);
    var log := LogOf(sandboxed, events);
    if IsToolProgress(log[i].event) && log[i].origin != FromDenial {
      var j :| 0 <= j < i && log[j].event.ToolStart? && log[j].event.toolId == log[i].event.toolId;
      assert StartsTool(log[j], log[i].event.toolId);
    }
  }

  /** In every activation's stream item output, completion and error still follow a
      start of the same id; and no tool error precedes a synthetic denial in the part
      of the process that made it. */
  lemma {:induction false} ActivationOrder(sandboxed: bool, a: Activation, i: int)
    requires 0 <= i < |Stream(sandboxed, a)|
    ensures 0 <= PartStart(sandboxed, a, i) <= i
    ensures InOrder(Stream(sandboxed, a), i, PartStart(sandboxed, a, i))
  {
    match a
    case Once(events) => ProcessOrder(sandboxed, events, i);
    case Retried(first, second) =>
      var before, after := LogOf(sandboxed, first), LogOf(sandboxed, second);
      if i < |before| { ProcessOrder(sandboxed, first, i); }
      if i > |before| { ProcessOrder(sandboxed, second, i - |before| - 1); }
      OrderAcrossNotice(before, after, i);
  }

  /** A denial follows an earlier tool error exactly if it is the second process's and
      the first process emitted one. */
  lemma {:induction false} DenialFollowsErrorExactly(sandboxed: bool, a: Activation, i: int)
    requires 0 <= i < |Stream(sandboxed, a)|
    requires Stream(sandboxed, a)[i].origin == FromDenial && IsToolProgress(Stream(sandboxed, a)[i].event)
    ensures (exists j :: 0 <= j < i && Stream(sandboxed, a)[j].event.ToolError?)
              <==> PartStart(sandboxed, a, i) > 0 && HasToolError(LogOf(sandboxed, a.first))
  {
    ActivationOrder(sandboxed, a, i);
    var log := Stream(sandboxed, a);
    if a.Retried? {
      var part := LogOf(sandboxed, a.first);
      assert forall j :: 0 <= j < |part| ==> log[j] == part[j];
      if HasToolError(part) {
        var j :| 0 <= j < |part| && part[j].event.ToolError?;
        assert log[j].event.ToolError?;
      }
    }
  }

  predicate TurnStartsBefore(events: seq<StreamEvent>, k: int)
    requires 0 <= k <= |events|
  {
    exists j :: 0 <= j < k && events[j] == Lifecycle(TurnStarted)
  }

  /** Items come only after the turn has started. */
  predicate ItemsFollowTurn(events: seq<StreamEvent>) {
    forall k :: 0 <= k < |events| && events[k].ItemEvent? ==> TurnStartsBefore(events, k)
  }

  lemma {:induction false} NoTurnMeansNoItems(events: seq<StreamEvent>)
    requires ItemsFollowTurn(events) && forall k :: 0 <= k < |events| ==> !ShowsTurn(events[k])
    ensures forall k :: 0 <= k < |events| ==> events[k].Lifecycle?
  {
    forall k | 0 <= k < |events| ensures !TurnStartsBefore(events, k) {
      forall j | 0 <= j < k ensures events[j] != Lifecycle(TurnStarted) { assert !ShowsTurn(events[j]); }
    }
  }

  lemma {:induction false} LifecyclesMakeNoErrors(sandboxed: bool, events: seq<StreamEvent>)
    requires forall k :: 0 <= k < |events| ==> events[k].Lifecycle?
    ensures !HasToolError(LogOf(sandboxed, events))
    decreases |events|
  {
    if events != [] {
      var n := |events| - 1;
      LifecyclesMakeNoErrors(sandboxed, events[..n]);
      var notice := Entry(FromStream, LifecycleNotice(events[n].kind));
      assert LogOf(sandboxed, events) == LogOf(sandboxed, events[..n]) + [notice];
    }
  }

  /** With items behind their turn, a retried activation keeps the order of one process:
      no id is started twice, and no tool error precedes a denial. */
  lemma {:induction false} TurnFirstKeepsOrder(sandboxed: bool, a: Activation, id: ItemId, i: int)
    requires IsActivation(a) && (a.Retried? ==> ItemsFollowTurn(a.first))
    requires 0 <= i < |Stream(sandboxed, a)|
    ensures Starts(Stream(sandboxed, a), id) <= 1
    ensures var log := Stream(sandboxed, a);
            log[i].origin == FromDenial && IsToolProgress(log[i].event) ==>
              forall j :: 0 <= j < i ==> !log[j].event.ToolError?
  {
    if a.Retried? {
      NoTurnMeansNoItems(a.first);
      LifecyclesMakeNoErrors(sandboxed, a.first);
    }
    StartedOnceExactly(sandboxed, a, id);
    var log := Stream(sandboxed, a);
    if log[i].origin == FromDenial && IsToolProgress(log[i].event) { DenialFollowsErrorExactly(sandboxed, a, i); }
  }

  lemma {:induction false} ReceivedAfter(a: seq<Entry>, b: seq<Entry>, id: ItemId, channel: Channel)
    ensures Received(a + b, |a|, id, channel) == Received(b, 0, id, channel)
    decreases |b|
  {
    if b == [] {
      assert a + b == a;
    } else {
      ReceivedAfter(a, b[..|b| - 1], id, channel);
      assert (a + b)[..|a + b| - 1] == a + b[..|b| - 1];
    }
  }

  /** What is received from the notice of the retry on is the second process's text. */
  lemma {:induction false} RetryReceivesAnew(
      sandboxed: bool, first: seq<StreamEvent>, second: seq<StreamEvent>, id: ItemId, channel: Channel)
    requires forall k :: 0 <= k < |second| ==> ExtendsAt(second, k, id, channel)
    ensures Received(Stream(sandboxed, Retried(first, second)), SecondPart(sandboxed, first), id, channel)
              == LastSnapshot(second, id, channel)
  {
    ReceivedAfter(LogOf(sandboxed, first) + [Entry(FromStream, RunnerProgress)], LogOf(sandboxed, second), id, channel);
    ReceivedIsFinalText(sandboxed, second, id, channel);
  }

  // ---------- The mapper's state ----------

  class RunState {
    var started: set<ItemId>
    var itemText: map<ItemId, string>
    var itemOutput: map<ItemId, string>
    var toolErrorEmitted: bool
    var lastAgentMessage: string
    var log: seq<Entry>            // the event sink

    constructor ()
      ensures View() == FreshRun && Inv(View())
    {
      started, itemText, itemOutput, toolErrorEmitted, lastAgentMessage, log := {}, map[], map[], false, "", [];
    }

    ghost function View(): Run
      reads this
    {
      Run(started, itemText, itemOutput, toolErrorEmitted, lastAgentMessage, log)
    }

    method EmitTextDelta(id: ItemId, text: string, isReasoning: bool)
      modifies this
      ensures View() == TextSnapshot(old(View()), id, text, isReasoning)
      ensures SendsSnapshot(old(View()), View(), id, TextChannel, text)
      ensures itemText == old(itemText)[id := text] && itemOutput == old(itemOutput)
    {
      ghost var before := View();
      var previous := if id in itemText then itemText[id] else "";
      var delta := if previous <= text then text[|previous|..] else text;
      if delta != "" {
        log := log + [Entry(FromItem(id), if isReasoning then ReasoningToken(delta) else Token(delta))];
      }
      itemText := itemText[id := text];
      assert View() == TextSnapshot(before, id, text, isReasoning);
      TextSends(before, id, text, isReasoning);
    }

    method EmitToolOutputDelta(id: ItemId, output: string)
      modifies this
      ensures View() == OutputSnapshot(old(View()), id, output)
      ensures SendsSnapshot(old(View()), View(), id, OutputChannel, output)
      ensures itemOutput == old(itemOutput)[id := output] && itemText == old(itemText)
    {
      ghost var before := View();
      var previous := if id in itemOutput then itemOutput[id] else "";
      var delta := if previous <= output then output[|previous|..] else output;
      if delta != "" {
        log := log + [Entry(FromItem(id), ToolToken(id, delta))];
      }
      itemOutput := itemOutput[id := output];
      assert View() == OutputSnapshot(before, id, output);
      OutputSends(before, id, output);
    }

    method EnsureToolStarted(id: ItemId, tool: Tool)
      modifies this
      ensures View() == EnsureStarted(old(View()), id, tool)
      ensures id in started
      ensures id in old(started) ==> log == old(log)
    {
      if id !in started {
        started := started + {id};
        log := log + [Entry(FromItem(id), ToolStart(id, tool))];
      }
    }

    method EmitOutcome(id: ItemId, outcome: AgentEvent)
      requires outcome.ToolComplete? || outcome.ToolError?
      modifies this
      ensures View() == Emit(old(View()), Entry(FromItem(id), outcome))
    {
      log := log + [Entry(FromItem(id), outcome)];
      if outcome.ToolError? {
        toolErrorEmitted := true;
      }
    }

    method HandleItemEvent(stage: Stage, item: Item)
      requires Inv(View())
      modifies this
      ensures View() == HandleItem(old(View()), stage, item) && Inv(View())
      ensures IsMapped(old(View()), View(), stage, item)
      ensures forall id, channel ::
                if IdOf(item) == id && SnapshotOf(item, channel).Some?
                then SendsSnapshot(old(View()), View(), id, channel, SnapshotOf(item, channel).value)
                else RecordOf(View(), id, channel) == RecordOf(old(View()), id, channel)
    {
      ghost var before := View();
      ItemKeepsInv(before, stage, item);
      ItemIsMapped(before, stage, item);
      forall id, channel
        ensures var after := HandleItem(before, stage, item);
                if IdOf(item) == id && SnapshotOf(item, channel).Some?
                then SendsSnapshot(before, after, id, channel, SnapshotOf(item, channel).value)
                else RecordOf(after, id, channel) == RecordOf(before, id, channel)
      {
        ItemSendsSnapshot(before, stage, item, id, channel);
      }
      DispatchItem(stage, item);
    }

    /** The match of handle_item_event. */
    method DispatchItem(stage: Stage, item: Item)
      modifies this
      ensures View() == HandleItem(old(View()), stage, item)
    {
      var id := IdOf(item);
      match item {
        case AgentMessage(_, text) =>
          EmitTextDelta(id, text, false);
          if stage == Completed && text != "" { lastAgentMessage := text; }
        case Reasoning(_, text) =>
          EmitTextDelta(id, text, true);
        case CommandExecution(_, output, _, _) =>
          EnsureToolStarted(id, Bash);
          EmitToolOutputDelta(id, output);
          if stage == Completed { EmitOutcome(id, CommandOutcome(id, item)); }
        case StructuredTool(_, tool, _, _) =>
          EnsureToolStarted(id, tool);
          if stage == Completed { EmitOutcome(id, StructuredOutcome(id, item)); }
        case TodoList(_) =>
          log := log + [Entry(FromStream, RunnerProgress)];
        case UnknownItem(_, _) =>
      }
    }

    /** handle_event. */
    method HandleStreamEvent(sandboxed: bool, event: StreamEvent)
      requires Inv(View())
      modifies this
      ensures View() == HandleEvent(old(View()), sandboxed, event) && Inv(View())
    {
      ghost var before := View();
      match event {
        case Lifecycle(kind) =>
          log := log + [Entry(FromStream, LifecycleNotice(kind))];
        case ItemEvent(stage, item) =>
          DispatchItem(stage, item);
          var denies := ReportsDenial(sandboxed, stage, item);
          if denies && !toolErrorEmitted { EmitDenial(item); }
      }
      assert View() == HandleEvent(before, sandboxed, event);
      EventKeepsInv(before, sandboxed, event);
    }

    method EmitDenial(item: Item)
      requires item.AgentMessage?
      modifies this
      ensures View() == Emit(old(View()), Entry(FromDenial, DenialError(item)))
    {
      log := log + [Entry(FromDenial, DenialError(item))];
      toolErrorEmitted := true;
    }

    /** The loop of run_process over the parsed lines, events in arrival order. */
    method HandleStream(sandboxed: bool, events: seq<StreamEvent>)
      requires View() == FreshRun
      modifies this
      ensures View() == HandleAll(FreshRun, sandboxed, events)
      ensures Inv(View())
    {
      for i := 0 to |events|
        invariant View() == HandleAll(FreshRun, sandboxed, events[..i]) && Inv(View())
      {
        assert events[..i + 1][..i] == events[..i];
        HandleStreamEvent(sandboxed, events[i]);
      }
      assert events[..|events|] == events;
    }
  }
}
