/** The Claude permission relay: control requests from the CLI, one decision task per
    relayed request, the `pending` table of abort handles, cancellation, id reuse and
    the end of the stream, in every interleaving. */
module ClaudeControl {
  import opened Outcomes
  import opened Permissions

  type RequestId = string

  datatype Tool = AskUserQuestion | OtherTool(name: string)

  /** The stdout frames the relay looks at. A request's subtype is supported only if
      it is can_use_tool. */
  datatype Frame =
    | Request(requestId: RequestId, supported: bool, tool: Tool)
    | Cancel(requestId: RequestId)
    | OtherFrame

  /** bypassMode: the configured permission_mode is bypassPermissions. */
  datatype Context = Context(permission: Resolution, bypassMode: bool, hasHost: bool, timeout: int)

  /** A decision task. Once an abort is requested it may die at its next await, or
      still answer if it had none left. */
  datatype Task = Deciding(since: int, aborting: bool) | Decided(allow: bool, since: int, at: int) | Dead

  datatype Written = Written(index: int, requestId: RequestId, allow: bool)

  /** A request is known by its position in the stream, so that a reused request id
      still names two requests. */
  datatype Relay = Relay(
    context: Context,
    now: int,
    frames: seq<Frame>,
    tasks: map<int, Task>,
    pending: map<RequestId, int>,
    written: seq<Written>,
    closed: bool,
    hostApproved: set<int>)      // history: the requests the host said yes to

  datatype HostReply = HostApproved | HostRefused | CallFailed

  datatype Step =
    | Tick(elapsed: int)
    | FrameArrives(frame: Frame)
    | HostAnswers(task: int, reply: HostReply)
    | TimesOut(task: int)
    | DecidesLocally(task: int)      // AskUserQuestion, or no host
    | Dies(task: int)
    | Close                          // result, end of stream, error or cancellation

  // ---------- The transitions ----------

  /** Requests that handle_control_request answers on the spot. */
  predicate IsImmediate(c: Context, f: Frame) {
    f.Request? && (!f.supported || c.permission.effective == Plan || c.permission.SuppressesPrompts())
  }

  predicate IsRelayed(c: Context, f: Frame) { f.Request? && !IsImmediate(c, f) }

  predicate ImmediateAllow(c: Context, f: Frame) {
    f.Request? && f.supported && c.permission.effective != Plan && c.permission.SuppressesPrompts()
  }

  predicate AsksHost(r: Relay, k: int) {
    0 <= k < |r.frames| && r.frames[k].Request? && r.frames[k].tool != AskUserQuestion && r.context.hasHost
  }

  predicate IsDeciding(r: Relay, k: int) { k in r.tasks && r.tasks[k].Deciding? }

  predicate Enabled(r: Relay, step: Step) {
    match step
    case Tick(elapsed) => elapsed >= 0
    case FrameArrives(_) => !r.closed
    case HostAnswers(k, _) => IsDeciding(r, k) && AsksHost(r, k) && r.now - r.tasks[k].since <= r.context.timeout
    case TimesOut(k) => IsDeciding(r, k) && AsksHost(r, k) && r.now - r.tasks[k].since >= r.context.timeout
    case DecidesLocally(k) => IsDeciding(r, k) && !AsksHost(r, k)
    case Dies(k) => IsDeciding(r, k) && r.tasks[k].aborting
    case Close => !r.closed
  }

  /** `handle.abort()`: no effect on a task that has finished. */
  function Abort(tasks: map<int, Task>, k: int): map<int, Task> {
    if k in tasks && tasks[k].Deciding? then tasks[k := tasks[k].(aborting := true)] else tasks
  }

  /** The `pending` entry of an id, aborted because it is removed or replaced. */
  function AbortNamed(r: Relay, id: RequestId): map<int, Task> {
    if id in r.pending then Abort(r.tasks, r.pending[id]) else r.tasks
  }

  function Respond(r: Relay, k: int, allow: bool): Relay {
    if 0 <= k < |r.frames| && r.frames[k].Request?
    then r.(written := r.written + [Written(k, r.frames[k].requestId, allow)]) else r
  }

  function Decide(r: Relay, k: int, allow: bool): Relay
    requires IsDeciding(r, k)
  {
    Respond(r.(tasks := r.tasks[k := Decided(allow, r.tasks[k].since, r.now)]), k, allow)
  }

  function Told(r: Relay, k: int, reply: HostReply): Relay {
    if reply == HostApproved then r.(hostApproved := r.hostApproved + {k}) else r
  }

  function Receive(r: Relay, f: Frame): Relay {
    var k := |r.frames|;
    var seen := r.(frames := r.frames + [f]);
    match f
    case Request(id, _, _) =>
      if IsImmediate(r.context, f) then Respond(seen, k, ImmediateAllow(r.context, f))
      else seen.(tasks := AbortNamed(r, id)[k := Deciding(r.now, false)], pending := r.pending[id := k])
    case Cancel(id) => seen.(tasks := AbortNamed(r, id), pending := r.pending - {id})
    case OtherFrame => seen
  }

  /** The drain after the read loop: every handle still in the table is aborted. */
  function AbortAll(r: Relay): map<int, Task> {
    map k | k in r.tasks ::
      if r.tasks[k].Deciding? && k in r.pending.Values then r.tasks[k].(aborting := true)
      else r.tasks[k]
  }

  function Next(r: Relay, step: Step): Relay
    requires Enabled(r, step)
  {
    match step
    case Tick(elapsed) => r.(now := r.now + elapsed)
    case FrameArrives(f) => Receive(r, f)
    case HostAnswers(k, reply) => Decide(Told(r, k, reply), k, reply == HostApproved)
    case TimesOut(k) => Decide(r, k, false)
    case DecidesLocally(k) =>
      Decide(r, k, 0 <= k < |r.frames| && r.frames[k].Request? &&
             r.frames[k].tool != AskUserQuestion && r.context.bypassMode)
    case Dies(k) => r.(tasks := r.tasks[k := Dead])
    case Close => r.(tasks := AbortAll(r), pending := map[], closed := true)
  }

  function Opened(c: Context): Relay { Relay(c, 0, [], map[], map[], [], false, {}) }

  ghost predicate IsRun(r: Relay, steps: seq<Step>)
    decreases |steps|
  {
    steps == [] || (Enabled(r, steps[0]) && IsRun(Next(r, steps[0]), steps[1..]))
  }

  ghost function After(r: Relay, steps: seq<Step>): Relay
    requires IsRun(r, steps)
    decreases |steps|
  {
    if steps == [] then r else After(Next(r, steps[0]), steps[1..])
  }

  // ---------- What every run keeps ----------

  ghost function Count(written: seq<Written>, k: int): int {
    if written == [] then 0
    else Count(written[..|written| - 1], k) + (if written[|written| - 1].index == k then 1 else 0)
  }

  ghost predicate IsAnswered(r: Relay, k: int) {
    && 0 <= k < |r.frames| && r.frames[k].Request?
    && (IsRelayed(r.context, r.frames[k]) ==> k in r.tasks && r.tasks[k].Decided?)
  }

  /** Decision tasks exist exactly for the relayed requests. */
  ghost predicate TasksOwnRelayed(r: Relay) {
    forall k :: k in r.tasks <==> 0 <= k < |r.frames| && IsRelayed(r.context, r.frames[k])
  }

  ghost predicate OneAnswerEach(r: Relay) {
    forall k :: Count(r.written, k) == if IsAnswered(r, k) then 1 else 0
  }

  ghost predicate IsRightAnswer(r: Relay, w: Written) {
    && IsAnswered(r, w.index)
    && var f := r.frames[w.index];
       && w.requestId == f.requestId
       && w.allow == if IsRelayed(r.context, f) then r.tasks[w.index].allow else ImmediateAllow(r.context, f)
  }

  ghost predicate WritesAreRight(r: Relay) {
    forall i :: 0 <= i < |r.written| ==> IsRightAnswer(r, r.written[i])
  }

  /** A request may be allowed by a host that approved it, asked no longer ago than
      the timeout, or with no host in bypass mode; never a structured question. */
  ghost predicate MayAllow(r: Relay, k: int, elapsed: int) {
    && 0 <= k < |r.frames| && r.frames[k].Request? && r.frames[k].tool != AskUserQuestion
    && (if r.context.hasHost then k in r.hostApproved && elapsed <= r.context.timeout else r.context.bypassMode)
  }

  ghost predicate AllowsAreAuthorised(r: Relay) {
    && (forall k :: k in r.tasks && r.tasks[k].Decided? && r.tasks[k].allow ==>
          MayAllow(r, k, r.tasks[k].at - r.tasks[k].since))
    && (forall k :: k in r.hostApproved ==> k in r.tasks && r.tasks[k].Decided? && r.tasks[k].allow)
  }

  predicate Names(f: Frame, id: RequestId) { !f.OtherFrame? && f.requestId == id }

  /** The table points each id at a relayed request of that id. */
  ghost predicate PendingIsOwn(r: Relay) {
    forall id :: id in r.pending ==> 0 <= r.pending[id] < |r.frames| && Names(r.frames[r.pending[id]], id)
  }

  /** The frames that take an id's entry from its task: a cancellation of the id, or a
      further relayed request of it. A request answered on the spot does neither. */
  predicate Displaces(c: Context, f: Frame, id: RequestId) {
    Names(f, id) && (f.Cancel? || IsRelayed(c, f))
  }

  ghost predicate IsDisplaced(c: Context, frames: seq<Frame>, k: int) {
    0 <= k < |frames| && frames[k].Request?
    && exists j :: k < j < |frames| && Displaces(c, frames[j], frames[k].requestId)
  }

  predicate IsAborted(task: Task) { task.Dead? || (task.Deciding? && task.aborting) }

  /** Only the end of the stream or a later frame that displaces it aborts a task. */
  ghost predicate AbortsAreCalledFor(r: Relay) {
    forall k :: k in r.tasks && IsAborted(r.tasks[k]) ==> r.closed || IsDisplaced(r.context, r.frames, k)
  }

  /** The table's entry of this frame's id is the task k. */
  predicate Holds(r: Relay, f: Frame, k: int) {
    !f.OtherFrame? && f.requestId in r.pending && r.pending[f.requestId] == k
  }

  /** Every task that still may decide unhindered is in the table of an open stream,
      and no frame has displaced it. */
  ghost predicate LiveTasksAreHeld(r: Relay) {
    forall k :: k in r.tasks && r.tasks[k].Deciding? && !r.tasks[k].aborting ==>
      !r.closed && 0 <= k < |r.frames| && Holds(r, r.frames[k], k) && !IsDisplaced(r.context, r.frames, k)
  }

  ghost predicate Inv(r: Relay) {
    && TasksOwnRelayed(r) && OneAnswerEach(r) && WritesAreRight(r) && AllowsAreAuthorised(r)
    && PendingIsOwn(r) && AbortsAreCalledFor(r) && LiveTasksAreHeld(r)
    && (r.closed ==> r.pending == map[])
  }

  lemma {:induction false} CountAppend(written: seq<Written>, w: Written)
    ensures forall k :: Count(written + [w], k) == Count(written, k) + if w.index == k then 1 else 0
  {
    assert (written + [w])[..|written|] == written;
  }

  /** A step that writes nothing, decides nothing and reads no frame. */
  ghost predicate SameAnswers(r: Relay, s: Relay) {
    && s.context == r.context && s.frames == r.frames && s.written == r.written
    && s.hostApproved == r.hostApproved && s.tasks.Keys == r.tasks.Keys
    && forall k :: k in r.tasks ==>
         (s.tasks[k].Decided? <==> r.tasks[k].Decided?) && (r.tasks[k].Decided? ==> s.tasks[k] == r.tasks[k])
  }

  lemma {:induction false} SameAnswersKeep(r: Relay, s: Relay)
    requires SameAnswers(r, s) && TasksOwnRelayed(r) && OneAnswerEach(r) && WritesAreRight(r) && AllowsAreAuthorised(r)
    ensures TasksOwnRelayed(s) && OneAnswerEach(s) && WritesAreRight(s) && AllowsAreAuthorised(s)
  {
    assert forall k :: IsAnswered(s, k) <==> IsAnswered(r, k);
    assert forall i :: 0 <= i < |r.written| ==> IsRightAnswer(r, r.written[i]) && IsRightAnswer(s, r.written[i]);
  }

  lemma {:induction false} ReceiveAnswers(r: Relay, f: Frame)
    requires TasksOwnRelayed(r)
    ensures TasksOwnRelayed(Receive(r, f))
    ensures forall k :: k != |r.frames| ==> (IsAnswered(Receive(r, f), k) <==> IsAnswered(r, k))
    ensures IsAnswered(Receive(r, f), |r.frames|) <==> IsImmediate(r.context, f)
    ensures forall k :: k in r.tasks && r.tasks[k].Decided? ==> Receive(r, f).tasks[k] == r.tasks[k]
  {
    var s := Receive(r, f);
    assert |r.frames| !in r.tasks && s.frames == r.frames + [f];
    assert forall j :: 0 <= j < |r.frames| ==> s.frames[j] == r.frames[j];
  }

  lemma {:induction false} ReceiveKeepsAnswers(r: Relay, f: Frame)
    requires Inv(r)
    ensures OneAnswerEach(Receive(r, f)) && WritesAreRight(Receive(r, f))
  {
    ReceiveAnswers(r, f);
    var s, k := Receive(r, f), |r.frames|;
    if IsImmediate(r.context, f) {
      CountAppend(r.written, Written(k, f.requestId, ImmediateAllow(r.context, f)));
    }
    forall i | 0 <= i < |r.written| ensures IsRightAnswer(s, r.written[i]) {
      assert IsRightAnswer(r, r.written[i]) && r.written[i].index != k;
    }
  }

  lemma {:induction false} ReceiveKeepsAllows(r: Relay, f: Frame)
    requires TasksOwnRelayed(r) && AllowsAreAuthorised(r)
    ensures AllowsAreAuthorised(Receive(r, f))
  {
    ReceiveAnswers(r, f);
    var s := Receive(r, f);
    assert s.hostApproved == r.hostApproved && s.context == r.context && s.frames == r.frames + [f];
    forall k | k in s.tasks && s.tasks[k].Decided?
      ensures k in r.tasks && r.tasks[k] == s.tasks[k]
      ensures s.tasks[k].allow ==> MayAllow(s, k, s.tasks[k].at - s.tasks[k].since)
    {
      assert r.tasks[k].allow ==> MayAllow(r, k, r.tasks[k].at - r.tasks[k].since);
    }
  }

  lemma {:induction false} ReceiveKeepsTable(r: Relay, f: Frame)
    requires PendingIsOwn(r)
    ensures PendingIsOwn(Receive(r, f))
  {
    assert Receive(r, f).frames == r.frames + [f];
  }

  lemma {:induction false} DisplacedOneMore(c: Context, frames: seq<Frame>, f: Frame, k: int)
    requires 0 <= k < |frames| && frames[k].Request?
    ensures IsDisplaced(c, frames + [f], k) <==> IsDisplaced(c, frames, k) || Displaces(c, f, frames[k].requestId)
  {
    var longer, id := frames + [f], frames[k].requestId;
    if IsDisplaced(c, frames, k) {
      var j :| k < j < |frames| && Displaces(c, frames[j], id);
      assert Displaces(c, longer[j], id);
    }
    if Displaces(c, f, id) { assert Displaces(c, longer[|frames|], id); }
    if IsDisplaced(c, longer, k) {
      var j :| k < j < |longer| && Displaces(c, longer[j], id);
      assert j < |frames| ==> Displaces(c, frames[j], id);
    }
  }

  lemma {:induction false} ReceiveKeepsAborts(r: Relay, f: Frame)
    requires Inv(r)
    ensures AbortsAreCalledFor(Receive(r, f))
  {
    var s := Receive(r, f);
    forall k | k in s.tasks && IsAborted(s.tasks[k])
      ensures s.closed || IsDisplaced(s.context, s.frames, k)
    {
      DisplacedOneMore(r.context, r.frames, f, k);
    }
  }

  lemma {:induction false} ReceiveKeepsLive(r: Relay, f: Frame)
    requires Inv(r) && !r.closed
    ensures LiveTasksAreHeld(Receive(r, f))
  {
    var s, n := Receive(r, f), |r.frames|;
    assert s.frames == r.frames + [f];
    forall k | k in s.tasks && s.tasks[k].Deciding? && !s.tasks[k].aborting
      ensures 0 <= k < |s.frames| && Holds(s, s.frames[k], k) && !IsDisplaced(s.context, s.frames, k)
    {
      if k != n { DisplacedOneMore(r.context, r.frames, f, k); }
    }
  }

  lemma {:induction false} DecideKeepsAnswers(r: Relay, k: int, allow: bool)
    requires TasksOwnRelayed(r) && OneAnswerEach(r) && WritesAreRight(r) && IsDeciding(r, k)
    ensures TasksOwnRelayed(Decide(r, k, allow))
            && OneAnswerEach(Decide(r, k, allow)) && WritesAreRight(Decide(r, k, allow))
  {
    var s := Decide(r, k, allow);
    CountAppend(r.written, Written(k, r.frames[k].requestId, allow));
    assert forall j :: j != k ==> (IsAnswered(s, j) <==> IsAnswered(r, j));
    forall i | 0 <= i < |r.written| ensures IsRightAnswer(s, r.written[i]) {
      assert IsRightAnswer(r, r.written[i]) && r.written[i].index != k;
    }
  }

  lemma {:induction false} DecideKeepsAllows(r: Relay, k: int, told: Relay, allow: bool)
    requires Inv(r) && IsDeciding(r, k)
    requires told == Told(r, k, if allow && r.context.hasHost then HostApproved else HostRefused)
    requires allow ==> MayAllow(told, k, r.now - r.tasks[k].since)
    ensures AllowsAreAuthorised(Decide(told, k, allow))
  {
    var s := Decide(told, k, allow);
    assert s.frames == r.frames && s.context == r.context;
    forall j | j in s.tasks && s.tasks[j].Decided? && s.tasks[j].allow
      ensures MayAllow(s, j, s.tasks[j].at - s.tasks[j].since)
    {
      assert j != k ==> s.tasks[j] == r.tasks[j] && MayAllow(r, j, r.tasks[j].at - r.tasks[j].since);
    }
  }

  /** What the table promises does not depend on decided tasks. */
  lemma {:induction false} DecideKeepsTable(r: Relay, k: int, told: Relay, allow: bool)
    requires Inv(r) && IsDeciding(r, k) && (told == r || told == Told(r, k, HostApproved))
    ensures var s := Decide(told, k, allow); PendingIsOwn(s) && AbortsAreCalledFor(s) && LiveTasksAreHeld(s)
  {
    var s := Decide(told, k, allow);
    assert s.frames == r.frames && s.context == r.context && s.pending == r.pending && s.closed == r.closed;
    assert forall j :: j in s.tasks ==> s.tasks[j].Decided? || s.tasks[j] == r.tasks[j];
  }

  lemma {:induction false} DecideKeepsInv(r: Relay, k: int, told: Relay, allow: bool)
    requires Inv(r) && IsDeciding(r, k)
    requires told == Told(r, k, if allow && r.context.hasHost then HostApproved else HostRefused)
    requires allow ==> MayAllow(told, k, r.now - r.tasks[k].since)
    ensures Inv(Decide(told, k, allow)) && Decide(told, k, allow).context == r.context
  {
    DecideKeepsAnswers(told, k, allow);
    DecideKeepsAllows(r, k, told, allow);
    DecideKeepsTable(r, k, told, allow);
  }

  lemma {:induction false} ReceiveKeepsInv(r: Relay, f: Frame)
    requires Inv(r) && !r.closed
    ensures Inv(Receive(r, f))
  {
    ReceiveAnswers(r, f);
    ReceiveKeepsAnswers(r, f);
    ReceiveKeepsAllows(r, f);
    ReceiveKeepsTable(r, f);
    ReceiveKeepsAborts(r, f);
    ReceiveKeepsLive(r, f);
  }

  /** The passing of time, the death of a task, and the end of the stream. */
  lemma {:induction false} QuietStepKeepsInv(r: Relay, step: Step)
    requires Inv(r) && Enabled(r, step) && (step.Tick? || step.Dies? || step.Close?)
    ensures Inv(Next(r, step))
  {
    var s := Next(r, step);
    SameAnswersKeep(r, s);
    assert s.frames == r.frames && s.context == r.context;
    if step.Close? {
      forall k | k in s.tasks ensures s.tasks[k].Deciding? ==> s.tasks[k].aborting {
        if r.tasks[k].Deciding? && !r.tasks[k].aborting {
          assert r.pending[r.frames[k].requestId] in r.pending.Values;
        }
      }
    }
  }

  lemma {:induction false} StepKeepsInv(r: Relay, step: Step)
    requires Inv(r) && Enabled(r, step)
    ensures Inv(Next(r, step)) && Next(r, step).context == r.context
  {
    match step
    case FrameArrives(f) => ReceiveKeepsInv(r, f);
    case HostAnswers(k, reply) => DecideKeepsInv(r, k, Told(r, k, reply), reply == HostApproved);
    case TimesOut(k) => DecideKeepsInv(r, k, r, false);
    case DecidesLocally(k) =>
      assert !r.context.hasHost || r.frames[k].tool == AskUserQuestion;
      DecideKeepsInv(r, k, r, r.frames[k].tool != AskUserQuestion && r.context.bypassMode);
    case _ => QuietStepKeepsInv(r, step);
  }

  lemma {:induction false} RunKeepsInv(r: Relay, steps: seq<Step>)
    requires Inv(r) && IsRun(r, steps)
    ensures Inv(After(r, steps)) && After(r, steps).context == r.context
    decreases |steps|
  {
    if steps != [] {
      StepKeepsInv(r, steps[0]);
      RunKeepsInv(Next(r, steps[0]), steps[1..]);
    }
  }

  // ---------- The promises ----------

  /** Each control request has at most one response, and an immediate one exactly one. */
  lemma AtMostOneResponse(c: Context, steps: seq<Step>, k: int)
    requires IsRun(Opened(c), steps) && 0 <= k < |After(Opened(c), steps).frames|
    ensures var r := After(Opened(c), steps); var f := r.frames[k];
            Count(r.written, k) ==
              if IsImmediate(c, f) || (IsRelayed(c, f) && k in r.tasks && r.tasks[k].Decided?) then 1 else 0
  {
    RunKeepsInv(Opened(c), steps);
  }

  /** The activation runs unattended. */
  predicate IsUnattended(resolution: Resolution) {
    resolution.requested == RequestAuto || resolution.effective == Auto
  }

  /** A request is answered at once if it is not a tool call, in plan mode, and when the
      activation runs unattended. */
  predicate AnsweredAtOnce(c: Context, supported: bool) {
    !supported || c.permission.effective == Plan || IsUnattended(c.permission)
  }

  /** Exactly when a response allows: at once if the activation runs unattended, outside
      plan mode; and otherwise for a tool call that is no structured question, if the
      host approved it or, with no host, in bypass mode. A host approval is in time. */
  lemma AllowIsAuthorised(c: Context, steps: seq<Step>, i: int)
    requires IsRun(Opened(c), steps) && 0 <= i < |After(Opened(c), steps).written|
    ensures var r := After(Opened(c), steps); var w := r.written[i];
            && 0 <= w.index < |r.frames| && r.frames[w.index].Request? && r.frames[w.index].requestId == w.requestId
            && var f := r.frames[w.index];
               && (w.allow <==>
                     && f.supported && c.permission.effective != Plan
                     && (|| IsUnattended(c.permission)
                         || (f.tool != AskUserQuestion
                             && if c.hasHost then w.index in r.hostApproved else c.bypassMode)))
               && (w.allow && !IsUnattended(c.permission) && c.hasHost ==>
                     && w.index in r.tasks && r.tasks[w.index].Decided?
                     && r.tasks[w.index].at - r.tasks[w.index].since <= c.timeout)
               && (w.index in r.hostApproved ==> w.allow)
  {
    RunKeepsInv(Opened(c), steps);
    var r := After(Opened(c), steps);
    assert IsRightAnswer(r, r.written[i]);
    RunKeepsMode(Opened(c), steps);
  }

  /** With no host the mode decides every relayed request but a question. */
  ghost predicate ModeDecides(r: Relay) {
    forall k :: k in r.tasks && r.tasks[k].Decided? && 0 <= k < |r.frames| && r.frames[k].Request? ==>
      r.tasks[k].allow ==
        (r.frames[k].tool != AskUserQuestion && if r.context.hasHost then k in r.hostApproved else r.context.bypassMode)
  }

  lemma {:induction false} ReceiveKeepsMode(r: Relay, f: Frame)
    requires Inv(r) && ModeDecides(r)
    ensures ModeDecides(Receive(r, f))
  {
    var s := Receive(r, f);
    ReceiveAnswers(r, f);
    assert s.frames == r.frames + [f] && s.context == r.context && s.hostApproved == r.hostApproved;
    assert forall k :: k in s.tasks && s.tasks[k].Decided? ==> k in r.tasks && s.tasks[k] == r.tasks[k];
  }

  lemma {:induction false} StepKeepsMode(r: Relay, step: Step)
    requires Inv(r) && ModeDecides(r) && Enabled(r, step)
    ensures ModeDecides(Next(r, step))
  {
    if step.FrameArrives? {
      ReceiveKeepsMode(r, step.frame);
    } else {
      assert Next(r, step).frames == r.frames && Next(r, step).context == r.context;
    }
  }

  lemma {:induction false} RunKeepsMode(r: Relay, steps: seq<Step>)
    requires Inv(r) && ModeDecides(r) && IsRun(r, steps)
    ensures ModeDecides(After(r, steps))
    decreases |steps|
  {
    if steps != [] {
      StepKeepsInv(r, steps[0]);
      StepKeepsMode(r, steps[0]);
      RunKeepsMode(Next(r, steps[0]), steps[1..]);
    }
  }

  /** Time passes for every task alike: a host may answer until the timeout, and from
      then on the task may time out. */
  lemma {:induction false} TimeoutComes(r: Relay, k: int, elapsed: int)
    requires IsDeciding(r, k) && AsksHost(r, k) && elapsed >= 0
    ensures var later, asked := Next(r, Tick(elapsed)), r.now + elapsed - r.tasks[k].since;
            && (Enabled(later, TimesOut(k)) <==> asked >= r.context.timeout)
            && forall reply :: Enabled(later, HostAnswers(k, reply)) <==> asked <= r.context.timeout
  {
  }

  /** The frame's own effect: an immediate request gets one response, which allows only
      when unattended; a relayed one gets a task asked from now on, which the table then
      holds; a cancelled id leaves the table; nothing else is written or entered. */
  lemma {:induction false} FrameByFields(r: Relay, f: Frame)
    ensures var s, k := Receive(r, f), |r.frames|;
            match f
            case Request(id, supported, tool) =>
              if AnsweredAtOnce(r.context, supported) then
                && s.tasks == r.tasks && s.pending == r.pending
                && s.written == r.written + [Written(k, id, supported && r.context.permission.effective != Plan)]
              else
                && s.written == r.written && s.pending == r.pending[id := k]
                && k in s.tasks && s.tasks[k] == Deciding(r.now, false)
            case Cancel(id) => s.written == r.written && id !in s.pending && s.pending == r.pending - {id}
            case OtherFrame => s == r.(frames := r.frames + [f])
  {
    var s := r.(frames := r.frames + [f]);
    assert s.frames[|r.frames|] == f;
  }

  /** A frame changes one existing task at most: the one the table holds for the
      frame's id, which is aborted if it had not finished and the frame displaces it.
      Tasks of the same id that the table no longer holds are left alone, and so is
      the entry of every id the frame does not displace. */
  lemma FrameTouchesOnlyItsId(r: Relay, f: Frame, k: int, other: RequestId)
    requires Inv(r) && k in r.tasks
    ensures var s := Receive(r, f);
            && k in s.tasks
            && (if Holds(r, f, k) && Displaces(r.context, f, f.requestId) && r.tasks[k].Deciding?
                then s.tasks[k] == r.tasks[k].(aborting := true)
                else s.tasks[k] == r.tasks[k])
            && (!Displaces(r.context, f, other) ==>
                  (other in s.pending <==> other in r.pending)
                  && (other in r.pending ==> s.pending[other] == r.pending[other]))
  {
  }

  /** While the stream is open, an undecided task is aborted, or dead of it, exactly if
      a later frame displaced it; and until then the table holds it. */
  lemma OnlyOwnIdAborts(c: Context, steps: seq<Step>, k: int)
    requires IsRun(Opened(c), steps)
    requires var r := After(Opened(c), steps); !r.closed && k in r.tasks && !r.tasks[k].Decided?
    ensures var r := After(Opened(c), steps);
            && (IsAborted(r.tasks[k]) <==> IsDisplaced(c, r.frames, k))
            && (!IsAborted(r.tasks[k]) ==> 0 <= k < |r.frames| && Holds(r, r.frames[k], k))
  {
    RunKeepsInv(Opened(c), steps);
  }

  /** Once the stream is closed no task can decide without having been aborted, and the
      table is empty. */
  lemma ClosedStreamAbortsAll(c: Context, steps: seq<Step>, k: int)
    requires IsRun(Opened(c), steps)
    requires var r := After(Opened(c), steps); r.closed && k in r.tasks
    ensures var r := After(Opened(c), steps); (r.tasks[k].Decided? || IsAborted(r.tasks[k])) && r.pending == map[]
  {
    RunKeepsInv(Opened(c), steps);
  }

  // ---------- The executor's table ----------

  class ControlRelay {
    const context: Context
    var now: int
    var frames: seq<Frame>
    var tasks: map<int, Task>
    var pending: map<RequestId, int>
    var written: seq<Written>
    var closed: bool
    ghost var hostApproved: set<int>

    constructor (context: Context)
      ensures View() == Opened(context)
    {
      this.context := context;
      now, frames, tasks, pending, written, closed, hostApproved := 0, [], map[], map[], [], false, {};
    }

    ghost function View(): Relay
      reads this
    {
      Relay(context, now, frames, tasks, pending, written, closed, hostApproved)
    }

    method AbortHandle(k: int)
      modifies this`tasks
      ensures tasks == Abort(old(tasks), k)
    {
      if k in tasks && tasks[k].Deciding? {
        tasks := tasks[k := tasks[k].(aborting := true)];
      }
    }

    /** handle_frame, as far as control frames go. */
    method HandleFrame(f: Frame)
      requires Inv(View()) && !closed
      modifies this
      ensures View() == Receive(old(View()), f) && Inv(View())
      ensures f.Cancel? ==> f.requestId !in pending && written == old(written)
      ensures f.OtherFrame? ==> tasks == old(tasks) && pending == old(pending) && written == old(written)
    {
      ghost var before := View();
      frames := frames + [f];
      match f {
        case Request(id, supported, tool) => HandleControlRequest(id, supported, tool);
        case Cancel(id) =>
          if id in pending {
            AbortHandle(pending[id]);
            pending := pending - {id};
          }
        case OtherFrame =>
      }
      assert View().pending == Receive(before, f).pending;
      StepKeepsInv(before, FrameArrives(f));
    }

    method HandleControlRequest(id: RequestId, supported: bool, tool: Tool)
      requires |frames| > 0 && frames[|frames| - 1] == Request(id, supported, tool)
      requires |frames| - 1 !in tasks
      modifies this
      ensures View() == Receive(old(View()).(frames := old(frames)[..|old(frames)| - 1]), Request(id, supported, tool))
      ensures if AnsweredAtOnce(context, supported)
              then && written == old(written)
                        + [Written(|frames| - 1, id, supported && context.permission.effective != Plan)]
                   && pending == old(pending) && tasks == old(tasks)
              else id in pending && pending[id] == |frames| - 1 && written == old(written)
                   && |frames| - 1 in tasks && tasks[|frames| - 1] == Deciding(now, false)
    {
      var k := |frames| - 1;
      assert frames == frames[..k] + [frames[k]];
      if !supported {
        written := written + [Written(k, id, false)];
        return;
      }
      if context.permission.effective == Plan {
        written := written + [Written(k, id, false)];
        return;
      }
      if context.permission.SuppressesPrompts() {
        written := written + [Written(k, id, true)];
        return;
      }
      // Inserting over an entry drops its handle, which aborts that task.
      if id in pending {
        AbortHandle(pending[id]);
      }
      tasks := tasks[k := Deciding(now, false)];
      pending := pending[id := k];
    }

    /** decide_and_respond: reply is None for a timeout. */
    method DecideAndRespond(k: int, reply: Option<HostReply>) returns (ghost step: Step)
      requires Inv(View()) && IsDeciding(View(), k)
      requires AsksHost(View(), k) ==>
                 if reply.Some? then now - tasks[k].since <= context.timeout
                 else now - tasks[k].since >= context.timeout
      modifies this
      ensures Enabled(old(View()), step) && View() == Next(old(View()), step) && Inv(View())
      ensures var allow := frames[k].tool != AskUserQuestion
                           && if context.hasHost then reply == Some(HostApproved) else context.bypassMode;
              && written == old(written) + [Written(k, frames[k].requestId, allow)]
              && tasks == old(tasks)[k := Decided(allow, old(tasks)[k].since, now)]
    {
      step := if !AsksHost(View(), k) then DecidesLocally(k)
              else if reply.Some? then HostAnswers(k, reply.value)
              else TimesOut(k);
      StepKeepsInv(View(), step);
      var allow;
      if frames[k].tool == AskUserQuestion {
        allow := false;
      } else if context.hasHost {
        allow := reply == Some(HostApproved);
        if allow { hostApproved := hostApproved + {k}; }
      } else {
        allow := context.bypassMode;
      }
      tasks := tasks[k := Decided(allow, tasks[k].since, now)];
      written := written + [Written(k, frames[k].requestId, allow)];
    }
  }
}
