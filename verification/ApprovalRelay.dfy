/** The app-server approval relay: server requests dispatched by drive_turn, one
    relay task per relayed approval, host replies, timeouts, the end of the turn and
    the drop of its future, in every interleaving. */
module ApprovalRelay {
  import opened Outcomes
  import opened Permissions

  type JsonId = string

  const METHOD_NOT_FOUND := -32601     // section 5.1 of JSON-RPC 2.0

  /** The request methods drive_turn tells apart, and everything else. */
  datatype Method =
    | CommandExecution       // item/commandExecution/requestApproval
    | FileChange             // item/fileChange/requestApproval
    | GranularPermissions    // item/permissions/requestApproval
    | ExecCommand            // execCommandApproval
    | ApplyPatch             // applyPatchApproval
    | OtherMethod(name: string)

  datatype ServerMessage =
    ServerMessage(id: Option<JsonId>, name: Method, threadId: Option<string>, turnId: Option<string>)

  datatype Verdict = Accept | Decline | Approved | Denied

  datatype Response =
    | Decision(id: JsonId, decision: Verdict)
    | EmptyPermissions(id: JsonId)
    | Error(id: JsonId, code: int)

  datatype Disposition = Relay | Deny

  predicate IsApprovalMethod(name: Method) { !name.OtherMethod? }

  function ApprovalResponse(id: JsonId, name: Method, approved: bool): Response {
    match name
    case GranularPermissions => EmptyPermissions(id)
    case ExecCommand | ApplyPatch => Decision(id, if approved then Approved else Denied)
    case _ => Decision(id, if approved then Accept else Decline)
  }

  /** A response the server acts on as a grant. */
  predicate IsPositive(r: Response) { r.Decision? && (r.decision == Accept || r.decision == Approved) }

  function DispositionOf(resolution: Resolution): Disposition {
    if resolution.effective == Plan then Deny
    else if resolution.SuppressesPrompts() then Deny
    else Relay
  }

  datatype Context = Context(threadId: string, turnId: string, disposition: Disposition, hasHost: bool, timeout: int)

  predicate MatchesTurn(c: Context, m: ServerMessage) {
    && !(m.threadId.Some? && m.threadId.value != c.threadId)
    && !(m.turnId.Some? && m.turnId.value != c.turnId)
  }

  /** Every condition that drive_turn puts on starting a relay. */
  predicate IsRelayed(c: Context, m: ServerMessage) {
    && m.id.Some? && IsApprovalMethod(m.name) && MatchesTurn(c, m)
    && m.name != GranularPermissions && c.disposition == Relay
  }

  function ImmediateResponse(m: ServerMessage): Response
    requires m.id.Some?
  {
    if IsApprovalMethod(m.name) then ApprovalResponse(m.id.value, m.name, false)
    else Error(m.id.value, METHOD_NOT_FOUND)
  }

  // ---------- The step system ----------

  /** A relay task: since when it asks the host, and when it got its verdict. */
  datatype Task = Asking(since: int) | Answered(approved: bool, since: int, at: int) | Aborted

  datatype Written = Written(index: int, response: Response)

  datatype Phase = Driving | Draining | Finished | FutureGone

  /** A request is known by its position in the stream the turn consumed, so that a
      server which reuses an id still has two requests. */
  datatype Turn = Turn(
    context: Context, now: int, incoming: seq<ServerMessage>, tasks: map<int, Task>,
    written: seq<Written>, phase: Phase,
    hostApproved: set<int>)      // history: the requests the host said yes to

  datatype HostReply = HostApproved | HostRefused | CallFailed

  datatype Step =
    | Tick(elapsed: int)
    | Incoming(message: ServerMessage)
    | HostAnswers(task: int, reply: HostReply)
    | RelayTimesOut(task: int)
    | NoHost(task: int)
    | EndTurn
    | Join(task: int)          // `abort`, then `await`, of one handle
    | Finish
    | DropFuture

  predicate IsAsking(t: Turn, k: int) { k in t.tasks && t.tasks[k].Asking? }

  predicate Enabled(t: Turn, step: Step) {
    match step
    case Tick(elapsed) => elapsed >= 0
    case Incoming(_) => t.phase == Driving
    // An abort only takes effect at a task's next await, so a task that has not
    // been joined may still answer while the turn drains or after the drop.
    case HostAnswers(k, _) => IsAsking(t, k) && t.context.hasHost && t.now - t.tasks[k].since <= t.context.timeout
    case RelayTimesOut(k) => IsAsking(t, k) && t.context.hasHost && t.now - t.tasks[k].since >= t.context.timeout
    case NoHost(k) => IsAsking(t, k) && !t.context.hasHost
    case EndTurn => t.phase == Driving
    case Join(k) => (t.phase == Draining || t.phase == FutureGone) && IsAsking(t, k)
    case Finish => t.phase == Draining && forall k :: k in t.tasks ==> !t.tasks[k].Asking?
    case DropFuture => t.phase == Driving || t.phase == Draining
  }

  /** The tail of a relay task, which has no await: record the verdict and write it. */
  function Answer(t: Turn, k: int, approved: bool): Turn
    requires IsAsking(t, k)
  {
    if 0 <= k < |t.incoming| && t.incoming[k].id.Some? then
      var m := t.incoming[k];
      t.(tasks := t.tasks[k := Answered(approved, t.tasks[k].since, t.now)],
         written := t.written + [Written(k, ApprovalResponse(m.id.value, m.name, approved))])
    else t
  }

  function Told(t: Turn, k: int, reply: HostReply): Turn {
    if reply == HostApproved then t.(hostApproved := t.hostApproved + {k}) else t
  }

  function Dispatch(t: Turn, m: ServerMessage): Turn {
    var k := |t.incoming|;
    var u := t.(incoming := t.incoming + [m]);
    if m.id.None? then u
    else if IsRelayed(t.context, m) then u.(tasks := t.tasks[k := Asking(t.now)])
    else u.(written := t.written + [Written(k, ImmediateResponse(m))])
  }

  function Next(t: Turn, step: Step): Turn
    requires Enabled(t, step)
  {
    match step
    case Tick(elapsed) => t.(now := t.now + elapsed)
    case Incoming(m) => Dispatch(t, m)
    case HostAnswers(k, reply) => Answer(Told(t, k, reply), k, reply == HostApproved)
    case RelayTimesOut(k) => Answer(t, k, false)
    case NoHost(k) => Answer(t, k, false)
    case EndTurn => t.(phase := Draining)
    case Join(k) => t.(tasks := t.tasks[k := Aborted])
    case Finish => t.(phase := Finished)
    case DropFuture => t.(phase := FutureGone)
  }

  function Started(c: Context): Turn { Turn(c, 0, [], map[], [], Driving, {}) }

  ghost predicate IsRun(t: Turn, steps: seq<Step>)
    decreases |steps|
  {
    steps == [] || (Enabled(t, steps[0]) && IsRun(Next(t, steps[0]), steps[1..]))
  }

  ghost function After(t: Turn, steps: seq<Step>): Turn
    requires IsRun(t, steps)
    decreases |steps|
  {
    if steps == [] then t else After(Next(t, steps[0]), steps[1..])
  }

  // ---------- What every run keeps ----------

  ghost function Count(written: seq<Written>, k: int): int {
    if written == [] then 0
    else Count(written[..|written| - 1], k) + (if written[|written| - 1].index == k then 1 else 0)
  }

  /** Request k has had its answer: at once, or from its relay task. */
  ghost predicate IsAnswered(t: Turn, k: int) {
    && 0 <= k < |t.incoming| && t.incoming[k].id.Some?
    && if IsRelayed(t.context, t.incoming[k]) then k in t.tasks && t.tasks[k].Answered? else true
  }

  /** Relay tasks exist exactly for the requests that must be relayed. */
  ghost predicate TasksOwnRelayed(t: Turn) {
    forall k :: k in t.tasks <==> 0 <= k < |t.incoming| && IsRelayed(t.context, t.incoming[k])
  }

  ghost predicate OneAnswerEach(t: Turn) {
    forall k :: Count(t.written, k) == if IsAnswered(t, k) then 1 else 0
  }

  /** The response to request k is the one its method and its verdict call for. */
  ghost predicate IsRightResponse(t: Turn, w: Written) {
    && IsAnswered(t, w.index)
    && var m := t.incoming[w.index];
       w.response == if IsRelayed(t.context, m) then ApprovalResponse(m.id.value, m.name, t.tasks[w.index].approved)
                     else ImmediateResponse(m)
  }

  ghost predicate WritesAreRight(t: Turn) {
    forall i :: 0 <= i < |t.written| ==> IsRightResponse(t, t.written[i])
  }

  /** A task's approval came from an attached host, within the timeout of being asked. */
  ghost predicate ApprovalsAreTimely(t: Turn) {
    && (forall k :: k in t.tasks && t.tasks[k].Answered? && t.tasks[k].approved ==>
          t.context.hasHost && k in t.hostApproved && t.tasks[k].at - t.tasks[k].since <= t.context.timeout)
    && (forall k :: k in t.hostApproved ==> k in t.tasks && t.tasks[k].Answered? && t.tasks[k].approved)
  }

  ghost predicate Inv(t: Turn) {
    && TasksOwnRelayed(t) && OneAnswerEach(t) && WritesAreRight(t) && ApprovalsAreTimely(t)
    && (t.phase == Finished ==> forall k :: k in t.tasks ==> !t.tasks[k].Asking?)
  }

  lemma CountAppend(written: seq<Written>, w: Written)
    ensures forall k :: Count(written + [w], k) == Count(written, k) + if w.index == k then 1 else 0
  {
    assert (written + [w])[..|written|] == written;
  }

  lemma {:induction false} DispatchAnswers(t: Turn, m: ServerMessage)
    requires TasksOwnRelayed(t)
    ensures TasksOwnRelayed(Dispatch(t, m))
    ensures forall k :: k != |t.incoming| ==> (IsAnswered(Dispatch(t, m), k) <==> IsAnswered(t, k))
    ensures IsAnswered(Dispatch(t, m), |t.incoming|) <==> m.id.Some? && !IsRelayed(t.context, m)
  {
    var u, k := Dispatch(t, m), |t.incoming|;
    assert u.context == t.context && u.incoming[k] == m && k !in t.tasks;
    assert forall j :: 0 <= j < k ==> u.incoming[j] == t.incoming[j];
  }

  lemma {:induction false} DispatchKeepsCounts(t: Turn, m: ServerMessage)
    requires TasksOwnRelayed(t) && OneAnswerEach(t)
    ensures OneAnswerEach(Dispatch(t, m))
  {
    DispatchAnswers(t, m);
    if m.id.Some? && !IsRelayed(t.context, m) {
      CountAppend(t.written, Written(|t.incoming|, ImmediateResponse(m)));
    }
  }

  lemma {:induction false} DispatchKeepsWrites(t: Turn, m: ServerMessage)
    requires TasksOwnRelayed(t) && WritesAreRight(t)
    ensures WritesAreRight(Dispatch(t, m))
  {
    DispatchAnswers(t, m);
    var u, k := Dispatch(t, m), |t.incoming|;
    forall i | 0 <= i < |t.written| ensures IsRightResponse(u, t.written[i]) {
      assert IsRightResponse(t, t.written[i]) && t.written[i].index != k;
    }
  }

  lemma {:induction false} DispatchKeepsInv(t: Turn, m: ServerMessage)
    requires Inv(t) && t.phase == Driving
    ensures Inv(Dispatch(t, m))
  {
    DispatchAnswers(t, m);
    DispatchKeepsCounts(t, m);
    DispatchKeepsWrites(t, m);
  }

  lemma {:induction false} AnswerKeepsInv(t: Turn, k: int, approved: bool)
    requires Inv(t) && IsAsking(t, k)
    requires approved ==> t.context.hasHost && t.now - t.tasks[k].since <= t.context.timeout
    ensures Inv(Answer(Told(t, k, if approved then HostApproved else HostRefused), k, approved))
  {
    var u := Answer(Told(t, k, if approved then HostApproved else HostRefused), k, approved);
    var m := t.incoming[k];
    CountAppend(t.written, Written(k, ApprovalResponse(m.id.value, m.name, approved)));
    assert forall j :: j != k ==> (IsAnswered(u, j) <==> IsAnswered(t, j));
  }

  lemma {:induction false} StepKeepsInv(t: Turn, step: Step)
    requires Inv(t) && Enabled(t, step)
    ensures Inv(Next(t, step))
  {
    match step
    case Incoming(m) => DispatchKeepsInv(t, m);
    case HostAnswers(k, reply) => AnswerKeepsInv(t, k, reply == HostApproved);
    case RelayTimesOut(k) => AnswerKeepsInv(t, k, false);
    case NoHost(k) => AnswerKeepsInv(t, k, false);
    case Join(k) => assert forall j :: IsAnswered(Next(t, step), j) <==> IsAnswered(t, j);
    case _ => assert forall j :: IsAnswered(Next(t, step), j) <==> IsAnswered(t, j);
  }

  lemma {:induction false} RunKeepsInv(t: Turn, steps: seq<Step>)
    requires Inv(t) && IsRun(t, steps)
    ensures Inv(After(t, steps)) && After(t, steps).context == t.context
    decreases |steps|
  {
    if steps != [] {
      StepKeepsInv(t, steps[0]);
      RunKeepsInv(Next(t, steps[0]), steps[1..]);
    }
  }

  // ---------- The promises ----------

  /** Every request with an id was answered at once or is owned by one relay task,
      and no request, relayed or not, has two responses. */
  lemma AnsweredOrOwned(c: Context, steps: seq<Step>, k: int)
    requires IsRun(Started(c), steps) && 0 <= k < |After(Started(c), steps).incoming|
    ensures var t := After(Started(c), steps); var m := t.incoming[k];
            && (m.id.None? ==> k !in t.tasks && Count(t.written, k) == 0)
            && (m.id.Some? && !IsRelayed(c, m) ==> k !in t.tasks && Count(t.written, k) == 1)
            && (m.id.Some? && IsRelayed(c, m) ==>
                  k in t.tasks && Count(t.written, k) == if t.tasks[k].Answered? then 1 else 0)
  {
    RunKeepsInv(Started(c), steps);
  }

  /** A grant is written for a request exactly when it was relayed and the host
      approved that request within the timeout. */
  lemma GrantsAreAuthorised(c: Context, steps: seq<Step>, i: int)
    requires IsRun(Started(c), steps) && 0 <= i < |After(Started(c), steps).written|
    ensures var t := After(Started(c), steps); var w := t.written[i];
            && 0 <= w.index < |t.incoming|
            && var m := t.incoming[w.index];
               && m.id == Some(w.response.id)
               && (IsPositive(w.response) <==>
                     c.disposition == Relay && IsRelayed(c, m) && w.index in t.hostApproved)
               && (IsPositive(w.response) ==>
                     c.hasHost && m.threadId in {None, Some(c.threadId)} && m.turnId in {None, Some(c.turnId)} &&
                     m.name != GranularPermissions && !m.name.OtherMethod? &&
                     w.index in t.tasks && t.tasks[w.index].Answered? &&
                     t.tasks[w.index].at - t.tasks[w.index].since <= c.timeout)
  {
    RunKeepsInv(Started(c), steps);
    var t := After(Started(c), steps);
    assert IsRightResponse(t, t.written[i]);
  }

  /** The response to a request whose approval is refused, method by method. */
  ghost predicate IsDecline(response: Response, id: JsonId, name: Method) {
    match name
    case CommandExecution | FileChange => response == Decision(id, Decline)
    case ExecCommand | ApplyPatch => response == Decision(id, Denied)
    case GranularPermissions => response == EmptyPermissions(id)
    case OtherMethod(_) => response == Error(id, -32601)
  }

  ghost predicate IsGrant(response: Response, id: JsonId, name: Method) {
    match name
    case CommandExecution | FileChange => response == Decision(id, Accept)
    case ExecCommand | ApplyPatch => response == Decision(id, Approved)
    case GranularPermissions => false
    case OtherMethod(_) => false
  }

  /** A request that a relay task is to answer: an approval with an id, for this thread
      and this turn where it names them, not the granular method, with prompts on. */
  predicate AsksThisTurn(c: Context, m: ServerMessage) {
    && m.id.Some? && m.threadId in {None, Some(c.threadId)} && m.turnId in {None, Some(c.turnId)}
    && m.name in {CommandExecution, FileChange, ExecCommand, ApplyPatch}
    && c.disposition == Relay
  }

  /** The dispatch of one message: such a request gets a task, asked from now on, and no
      response yet; every other request gets its refusal at once and no task; a message
      without an id gets neither. */
  lemma {:induction false} DispatchByFields(t: Turn, m: ServerMessage)
    requires t.phase == Driving
    ensures var n, k := Next(t, Incoming(m)), |t.incoming|;
            && n.incoming == t.incoming + [m]
            && (if AsksThisTurn(t.context, m)
                then n.tasks == t.tasks[k := Asking(t.now)] && n.written == t.written
                else n.tasks == t.tasks
                     && if m.id.None? then n.written == t.written
                        else |n.written| == |t.written| + 1 && n.written[..|t.written|] == t.written
                             && n.written[|t.written|].index == k
                             && IsDecline(n.written[|t.written|].response, m.id.value, m.name))
  {
    assert IsRelayed(t.context, m) <==> AsksThisTurn(t.context, m);
    assert Next(t, Incoming(m)) == Dispatch(t, m);
  }

  /** Time passes for every task alike: a host may answer until the timeout, and from
      then on the task may time out. */
  lemma {:induction false} TimeoutComes(t: Turn, k: int, elapsed: int)
    requires IsAsking(t, k) && t.context.hasHost && elapsed >= 0
    ensures var later, asked := Next(t, Tick(elapsed)), t.now + elapsed - t.tasks[k].since;
            && (Enabled(later, RelayTimesOut(k)) <==> asked >= t.context.timeout)
            && forall reply :: Enabled(later, HostAnswers(k, reply)) <==> asked <= t.context.timeout
  {
  }

  /** The steps of the ending write nothing: the loop is over, a joined task is aborted
      and no other changes, and a dropped turn is gone. */
  lemma {:induction false} EndingsByFields(t: Turn, k: int)
    ensures Enabled(t, EndTurn) ==> Next(t, EndTurn) == t.(phase := Draining)
    ensures Enabled(t, Join(k)) ==> Next(t, Join(k)) == t.(tasks := t.tasks[k := Aborted])
    ensures Enabled(t, DropFuture) ==> Next(t, DropFuture) == t.(phase := FutureGone)
  {
  }

  /** Prompts are on unless the activation plans or runs unattended. */
  lemma DispositionByMode(resolution: Resolution)
    ensures DispositionOf(resolution) == Relay <==>
              resolution.effective !in {Plan, Auto} && resolution.requested != RequestAuto
  {
  }

  /** A plan or prompt-suppressed activation never writes a grant. */
  lemma NoGrantWithoutRelay(c: Context, resolution: Resolution, steps: seq<Step>, i: int)
    requires c.disposition == DispositionOf(resolution)
    requires resolution.effective == Plan || resolution.SuppressesPrompts()
    requires IsRun(Started(c), steps) && 0 <= i < |After(Started(c), steps).written|
    ensures !IsPositive(After(Started(c), steps).written[i].response)
  {
    GrantsAreAuthorised(c, steps, i);
  }

  /** Once every relay has been joined, nothing of this turn is ever written again:
      what lets the connection go back to the warm slot. */
  lemma {:induction false} FinishedTurnIsSilent(t: Turn, steps: seq<Step>)
    requires Inv(t) && t.phase == Finished && IsRun(t, steps)
    ensures After(t, steps).written == t.written && After(t, steps).phase == Finished
    decreases |steps|
  {
    if steps != [] {
      StepKeepsInv(t, steps[0]);
      FinishedTurnIsSilent(Next(t, steps[0]), steps[1..]);
    }
  }

  // ---------- The turn ----------

  class ActiveTurn {
    const context: Context
    var now: int
    var incoming: seq<ServerMessage>
    var tasks: map<int, Task>
    var written: seq<Written>
    var phase: Phase
    ghost var hostApproved: set<int>

    constructor (context: Context)
      ensures View() == Started(context)
    {
      this.context := context;
      now, incoming, tasks, written, phase, hostApproved := 0, [], map[], [], Driving, {};
    }

    ghost function View(): Turn
      reads this
    {
      Turn(context, now, incoming, tasks, written, phase, hostApproved)
    }

    method Send(response: Response)
      requires incoming != []
      modifies this`written
      ensures written == old(written) + [Written(|incoming| - 1, response)]
    {
      written := written + [Written(|incoming| - 1, response)];
    }

    /** The incoming arm of drive_turn, for one message. */
    method HandleIncoming(message: ServerMessage)
      requires Inv(View()) && phase == Driving
      modifies this
      ensures View() == Next(old(View()), Incoming(message)) && Inv(View())
      ensures if AsksThisTurn(context, message)
              then tasks == old(tasks)[|old(incoming)| := Asking(now)] && written == old(written)
              else tasks == old(tasks)
      ensures message.id.Some? && !AsksThisTurn(context, message) ==>
                && |written| == |old(written)| + 1 && written[|old(written)|].index == |old(incoming)|
                && IsDecline(written[|old(written)|].response, message.id.value, message.name)
    {
      DispatchKeepsInv(View(), message);
      DispatchByFields(View(), message);
      DispatchIncoming(message);
    }

    /** Its branches, in order. */
    method DispatchIncoming(message: ServerMessage)
      requires phase == Driving
      modifies this
      ensures View() == Next(old(View()), Incoming(message))
    {
      incoming := incoming + [message];
      if message.id.None? {
        return;
      }
      var id := message.id.value;
      if IsApprovalMethod(message.name) {
        if !MatchesTurn(context, message) {
          Send(ApprovalResponse(id, message.name, false));
          return;
        }
        if message.name == GranularPermissions {
          Send(ApprovalResponse(id, message.name, false));
          return;
        }
        match context.disposition {
          case Deny => Send(ApprovalResponse(id, message.name, false));
          case Relay => tasks := tasks[|incoming| - 1 := Asking(now)];
        }
      } else {
        Send(Error(id, METHOD_NOT_FOUND));
      }
    }

    /** The end of one relay task: reply, failure, timeout, or no host at all. */
    method CompleteRelay(k: int, reply: Option<HostReply>) returns (ghost step: Step)
      requires Inv(View()) && IsAsking(View(), k)
      requires reply.Some? ==> context.hasHost && now - tasks[k].since <= context.timeout
      requires reply.None? && context.hasHost ==> now - tasks[k].since >= context.timeout
      modifies this
      ensures Enabled(old(View()), step) && View() == Next(old(View()), step) && Inv(View())
      ensures |written| == |old(written)| + 1 && written[|old(written)|].index == k
      ensures IsPositive(written[|old(written)|].response) <==> reply == Some(HostApproved)
      ensures tasks == old(tasks)[k := Answered(reply == Some(HostApproved), old(tasks)[k].since, now)]
      ensures var m, response := incoming[k], written[|old(written)|].response;
              && m.id.Some?
              && if reply == Some(HostApproved) then IsGrant(response, m.id.value, m.name)
                 else IsDecline(response, m.id.value, m.name)
    {
      step := if reply.Some? then HostAnswers(k, reply.value)
              else if context.hasHost then RelayTimesOut(k)
              else NoHost(k);
      StepKeepsInv(View(), step);
      var request := incoming[k];
      var approved := if context.hasHost then reply == Some(HostApproved) else false;
      if approved { hostApproved := hostApproved + {k}; }
      tasks := tasks[k := Answered(approved, tasks[k].since, now)];
      written := written + [Written(k, ApprovalResponse(request.id.value, request.name, approved))];
    }

    /** The loop after the outcome: abort and await every relay handle. */
    method JoinRelays(handles: seq<int>)
      requires Inv(View()) && phase == Draining
      requires forall k :: k in tasks ==> k in handles
      requires forall k :: k in handles ==> k in tasks
      modifies this
      ensures Inv(View()) && phase == Finished && written == old(written) && incoming == old(incoming)
      ensures tasks.Keys == old(tasks).Keys
      ensures forall k :: k in tasks ==> tasks[k] == if old(tasks)[k].Asking? then Aborted else old(tasks)[k]
    {
      for i := 0 to |handles|
        invariant Inv(View()) && phase == Draining && written == old(written) && incoming == old(incoming)
        invariant tasks.Keys == old(tasks).Keys
        invariant forall j :: 0 <= j < i ==> handles[j] in tasks && !tasks[handles[j]].Asking?
        invariant forall k :: k in tasks ==> tasks[k] == old(tasks)[k] || (old(tasks)[k].Asking? && tasks[k] == Aborted)
      {
        var k := handles[i];
        assert k in tasks;
        if tasks[k].Asking? {
          StepKeepsInv(View(), Join(k));
          tasks := tasks[k := Aborted];
        }
      }
      StepKeepsInv(View(), Finish);
      phase := Finished;
    }
  }
}
