/** The app-server request multiplexer: client requests, the reader task and their
    shared `pending` map, interleaved at every await point.

    A call is one activation of request_with_timeout; an id is the number it puts
    on the wire. The two are kept apart so that "the reply reaches the call that
    issued its id" says something. */
module RequestMux {
  import opened Outcomes

  type Call = int
  type Id = int

  /** A line from the server, as far as routing looks at it. */
  datatype Message = Message(id: Option<Id>, hasMethod: bool, body: string)

  datatype Failure = SendFailed | TimedOut | Closed

  datatype Phase =
    | Issued                     // id drawn, not yet in `pending`
    | Registered                 // in `pending`, not yet sent
    | Waiting                    // sent, awaiting the reply or the timeout
    | Leaving(why: Failure)      // failed; about to remove its id
    | Returned(result: Result<Message, Failure>)
    | Abandoned                  // the calling future was dropped

  /** The reader between `remove` and `send`. */
  datatype Held = Nothing | Reply(call: Call, message: Message)

  datatype CallState = CallState(id: Id, phase: Phase)

  datatype Mux = Mux(
    nextId: Id,
    issuers: seq<Call>,                    // history: issuers[i] drew id i + 1
    pending: map<Id, Call>,
    calls: map<Call, CallState>,
    buffered: map<Call, Message>,          // replies sent into a oneshot, not yet received
    held: Held,
    forwarded: seq<Message>,               // what went on to the event queue
    readerAlive: bool)

  const Fresh := Mux(1, [], map[], map[], map[], Nothing, [], true)

  datatype Step =
    | Issue(call: Call)
    | Register(call: Call)
    | Send(call: Call, accepted: bool)
    | Timeout(call: Call)
    | Leave(call: Call)
    | Receive(call: Call)
    | FindClosed(call: Call)
    | DropFuture(call: Call)
    | ReadLine(message: Message)
    | Deliver
    | ReaderExit

  predicate InPhase(m: Mux, call: Call, phase: Phase) { call in m.calls && m.calls[call].phase == phase }

  predicate Finished(m: Mux, call: Call) { call in m.calls && m.calls[call].phase.Returned? }

  ghost predicate Enabled(m: Mux, step: Step) {
    match step
    case Issue(call) => call !in m.calls
    case Register(call) => InPhase(m, call, Issued)
    case Send(call, _) => InPhase(m, call, Registered)
    case Timeout(call) => InPhase(m, call, Waiting)
    case Leave(call) => call in m.calls && m.calls[call].phase.Leaving?
    case Receive(call) => InPhase(m, call, Waiting) && call in m.buffered
    // The oneshot's sender is gone: neither pending nor held, and nothing was sent.
    case FindClosed(call) => InPhase(m, call, Waiting) && call !in m.buffered
                             && (forall id :: id in m.pending ==> m.pending[id] != call)
                             && (m.held.Reply? ==> m.held.call != call)
    case DropFuture(call) => call in m.calls && !Finished(m, call) && m.calls[call].phase != Abandoned
    case ReadLine(_) => m.readerAlive && m.held.Nothing?
    case Deliver => m.held.Reply?
    case ReaderExit => m.readerAlive && m.held.Nothing?
  }

  function SetPhase(m: Mux, call: Call, phase: Phase): Mux
    requires call in m.calls
  {
    m.(calls := m.calls[call := m.calls[call].(phase := phase)])
  }

  function InsertPending(m: Mux, call: Call, id: Id): Mux
    requires call in m.calls
  {
    SetPhase(m, call, Registered).(pending := m.pending[id := call])
  }

  /** The oneshot send, which fails when the receiving half is gone. */
  function DeliverHeld(m: Mux, call: Call, message: Message): Mux {
    if InPhase(m, call, Registered) || InPhase(m, call, Waiting)
    then m.(held := Nothing, buffered := m.buffered[call := message])
    else m.(held := Nothing)
  }

  /** A line is routed to a call only if it has no method and its id is pending. */
  predicate Routed(m: Mux, message: Message) {
    !message.hasMethod && message.id.Some? && message.id.value in m.pending
  }

  ghost function Next(m: Mux, step: Step): Mux
    requires Enabled(m, step)
  {
    match step
    case Issue(call) =>
      m.(nextId := m.nextId + 1, issuers := m.issuers + [call],
         calls := m.calls[call := CallState(m.nextId, Issued)])
    case Register(call) => InsertPending(m, call, m.calls[call].id)
    case Send(call, accepted) => SetPhase(m, call, if accepted then Waiting else Leaving(SendFailed))
    case Timeout(call) => SetPhase(m, call, Leaving(TimedOut))
    case Leave(call) =>
      SetPhase(m, call, Returned(Err(m.calls[call].phase.why)))
      .(pending := m.pending - {m.calls[call].id}, buffered := m.buffered - {call})
    case Receive(call) =>
      SetPhase(m, call, Returned(Ok(m.buffered[call]))).(buffered := m.buffered - {call})
    case FindClosed(call) => SetPhase(m, call, Returned(Err(Closed)))
    case DropFuture(call) => SetPhase(m, call, Abandoned).(buffered := m.buffered - {call})
    case ReadLine(message) =>
      if Routed(m, message) then
        m.(held := Reply(m.pending[message.id.value], message), pending := m.pending - {message.id.value})
      else m.(forwarded := m.forwarded + [message])
    case Deliver => DeliverHeld(m, m.held.call, m.held.message)
    case ReaderExit => m.(readerAlive := false, pending := map[])
  }

  ghost predicate IsRun(m: Mux, steps: seq<Step>)
    decreases |steps|
  {
    steps == [] || (Enabled(m, steps[0]) && IsRun(Next(m, steps[0]), steps[1..]))
  }

  ghost function After(m: Mux, steps: seq<Step>): Mux
    requires IsRun(m, steps)
    decreases |steps|
  {
    if steps == [] then m else After(Next(m, steps[0]), steps[1..])
  }

  // ---------- The invariant ----------

  ghost predicate Answers(m: Mux, call: Call, message: Message) {
    call in m.calls && message.id == Some(m.calls[call].id) && !message.hasMethod
  }

  /** Ids are drawn once each, all from below the counter. */
  ghost predicate IdsAreDistinct(m: Mux) {
    && m.nextId == |m.issuers| + 1
    && forall c :: c in m.calls ==> 1 <= m.calls[c].id < m.nextId && m.issuers[m.calls[c].id - 1] == c
  }

  /** The call has registered and has not returned. */
  ghost predicate Underway(m: Mux, call: Call) {
    call in m.calls && !m.calls[call].phase.Issued? && !m.calls[call].phase.Returned?
  }

  /** A pending id belongs to the call that issued it. */
  ghost predicate PendingIsOwned(m: Mux) {
    forall id :: id in m.pending ==> Underway(m, m.pending[id]) && m.calls[m.pending[id]].id == id
  }

  /** A reply on its way is addressed to its call, whose id is no longer pending. */
  ghost predicate RepliesAreAddressed(m: Mux) {
    && (forall c :: c in m.buffered ==> Underway(m, c) && Answers(m, c, m.buffered[c]) && m.calls[c].id !in m.pending)
    && (m.held.Reply? ==> HeldIsAddressed(m, m.held.call, m.held.message))
    && (forall c :: c in m.calls && m.calls[c].phase.Returned? && m.calls[c].phase.result.Ok? ==>
          Answers(m, c, m.calls[c].phase.result.value))
    && (forall c :: Finished(m, c) ==> m.calls[c].id !in m.pending)
  }

  ghost predicate HeldIsAddressed(m: Mux, c: Call, message: Message) {
    Answers(m, c, message) && m.calls[c].id !in m.pending && c !in m.buffered && !m.calls[c].phase.Issued?
  }

  ghost predicate Inv(m: Mux) {
    IdsAreDistinct(m) && PendingIsOwned(m) && RepliesAreAddressed(m)
  }

  lemma {:induction false} IssueKeepsInv(m: Mux, call: Call)
    requires Inv(m) && Enabled(m, Issue(call))
    ensures Inv(Next(m, Issue(call)))
  {
  }

  lemma {:induction false} IssuedIdIsUnused(m: Mux, call: Call)
    requires Inv(m) && InPhase(m, call, Issued)
    ensures m.calls[call].id !in m.pending
    ensures forall c :: c in m.calls && c != call ==> m.calls[c].id != m.calls[call].id
  {
  }

  lemma {:induction false} RegisterKeepsPending(m: Mux, call: Call, id: Id)
    requires PendingIsOwned(m) && InPhase(m, call, Issued) && m.calls[call].id == id
    ensures PendingIsOwned(InsertPending(m, call, id))
  {
  }

  lemma {:induction false} RegisterKeepsInv(m: Mux, call: Call)
    requires Inv(m) && InPhase(m, call, Issued)
    ensures Inv(InsertPending(m, call, m.calls[call].id))
  {
    IssuedIdIsUnused(m, call);
    RegisterKeepsPending(m, call, m.calls[call].id);
  }

  lemma {:induction false} SendKeepsInv(m: Mux, call: Call, accepted: bool)
    requires Inv(m) && Enabled(m, Send(call, accepted))
    ensures Inv(Next(m, Send(call, accepted)))
  {
  }

  lemma {:induction false} TimeoutKeepsInv(m: Mux, call: Call)
    requires Inv(m) && Enabled(m, Timeout(call))
    ensures Inv(Next(m, Timeout(call)))
  {
  }

  lemma {:induction false} LeaveKeepsInv(m: Mux, call: Call)
    requires Inv(m) && Enabled(m, Leave(call))
    ensures Inv(Next(m, Leave(call)))
  {
  }

  lemma {:induction false} ReceiveKeepsInv(m: Mux, call: Call)
    requires Inv(m) && Enabled(m, Receive(call))
    ensures Inv(Next(m, Receive(call)))
  {
  }

  lemma {:induction false} FindClosedKeepsInv(m: Mux, call: Call)
    requires Inv(m) && Enabled(m, FindClosed(call))
    ensures Inv(Next(m, FindClosed(call)))
  {
  }

  lemma {:induction false} DropFutureKeepsInv(m: Mux, call: Call)
    requires Inv(m) && Enabled(m, DropFuture(call))
    ensures Inv(Next(m, DropFuture(call)))
  {
  }

  lemma {:induction false} ReadLineKeepsInv(m: Mux, message: Message)
    requires Inv(m) && Enabled(m, ReadLine(message))
    ensures Inv(Next(m, ReadLine(message)))
  {
    if Routed(m, message) {
      var id := message.id.value;
      var c := m.pending[id];
      assert Underway(m, c) && m.calls[c].id == id;
    }
  }

  lemma {:induction false} DeliverKeepsPending(m: Mux, call: Call, message: Message)
    requires IdsAreDistinct(m) && PendingIsOwned(m)
    ensures IdsAreDistinct(DeliverHeld(m, call, message)) && PendingIsOwned(DeliverHeld(m, call, message))
  {
    var n := DeliverHeld(m, call, message);
    assert n.calls == m.calls && n.pending == m.pending && n.nextId == m.nextId && n.issuers == m.issuers;
    assert forall c :: Underway(n, c) <==> Underway(m, c);
  }

  lemma {:induction false} DeliverKeepsReplies(m: Mux, call: Call, message: Message)
    requires RepliesAreAddressed(m) && m.held == Reply(call, message)
    ensures RepliesAreAddressed(DeliverHeld(m, call, message))
  {
    var n := DeliverHeld(m, call, message);
    assert n.calls == m.calls && n.pending == m.pending && n.held == Nothing;
    forall c | c in n.buffered
      ensures Underway(n, c) && Answers(n, c, n.buffered[c]) && n.calls[c].id !in n.pending
    {
      assert c == call || (c in m.buffered && n.buffered[c] == m.buffered[c]);
    }
  }

  lemma {:induction false} DeliverKeepsInv(m: Mux, call: Call, message: Message)
    requires Inv(m) && m.held == Reply(call, message)
    ensures Inv(DeliverHeld(m, call, message))
  {
    DeliverKeepsPending(m, call, message);
    DeliverKeepsReplies(m, call, message);
  }

  lemma {:induction false} ReaderExitKeepsInv(m: Mux)
    requires Inv(m) && Enabled(m, ReaderExit)
    ensures Inv(Next(m, ReaderExit))
  {
  }

  lemma {:induction false} StepKeepsInv(m: Mux, step: Step)
    requires Inv(m) && Enabled(m, step)
    ensures Inv(Next(m, step))
  {
    match step
    case Issue(call) => IssueKeepsInv(m, call);
    case Register(call) => RegisterKeepsInv(m, call);
    case Send(call, accepted) => SendKeepsInv(m, call, accepted);
    case Timeout(call) => TimeoutKeepsInv(m, call);
    case Leave(call) => LeaveKeepsInv(m, call);
    case Receive(call) => ReceiveKeepsInv(m, call);
    case FindClosed(call) => FindClosedKeepsInv(m, call);
    case DropFuture(call) => DropFutureKeepsInv(m, call);
    case ReadLine(message) => ReadLineKeepsInv(m, message);
    case Deliver => DeliverKeepsInv(m, m.held.call, m.held.message);
    case ReaderExit => ReaderExitKeepsInv(m);
  }

  lemma {:induction false} RunKeepsInv(m: Mux, steps: seq<Step>)
    requires Inv(m) && IsRun(m, steps)
    ensures Inv(After(m, steps))
    decreases |steps|
  {
    if steps != [] {
      StepKeepsInv(m, steps[0]);
      RunKeepsInv(Next(m, steps[0]), steps[1..]);
    }
  }

  // ---------- The promises, over every run from a fresh connection ----------

  /** A call that returned a reply returned one carrying the id it issued, no two
      calls have the same id, and no call that returned leaves its id pending. */
  lemma RepliesReachTheirIssuer(steps: seq<Step>, c: Call)
    requires IsRun(Fresh, steps) && Finished(After(Fresh, steps), c)
    ensures var m := After(Fresh, steps); var result := m.calls[c].phase.result;
            && m.calls[c].id !in m.pending
            && (result.Ok? ==> result.value.id == Some(m.calls[c].id) && !result.value.hasMethod)
            && forall d :: d in m.calls && d != c ==> m.calls[d].id != m.calls[c].id
  {
    RunKeepsInv(Fresh, steps);
  }

  lemma PendingIdsAreIssued(steps: seq<Step>, id: Id)
    requires IsRun(Fresh, steps) && id in After(Fresh, steps).pending
    ensures var m := After(Fresh, steps);
            id < m.nextId && m.pending[id] in m.calls && m.calls[m.pending[id]].id == id
  {
    RunKeepsInv(Fresh, steps);
  }

  /** A late reply: the line goes to the event queue and touches no call. */
  lemma LateReplyCompletesNothing(m: Mux, c: Call, late: Message)
    requires Inv(m) && Enabled(m, ReadLine(late)) && Finished(m, c)
    requires late.id == Some(m.calls[c].id)
    ensures Next(m, ReadLine(late)) == m.(forwarded := m.forwarded + [late])
  {
  }

  /** No step changes the result of a call that has returned. */
  lemma {:induction false} ResultsAreFinal(m: Mux, steps: seq<Step>, c: Call)
    requires IsRun(m, steps) && Finished(m, c)
    ensures c in After(m, steps).calls && After(m, steps).calls[c] == m.calls[c]
    decreases |steps|
  {
    if steps != [] {
      ResultsAreFinal(Next(m, steps[0]), steps[1..], c);
    }
  }

  // ---------- No reply is lost ----------

  /** Lines that are not for a call go on whole, and nothing else changes. */
  lemma OtherLinesAreForwarded(m: Mux, line: Message)
    requires Enabled(m, ReadLine(line))
    requires line.hasMethod || line.id.None? || line.id.value !in m.pending
    ensures Next(m, ReadLine(line)) == m.(forwarded := m.forwarded + [line])
  {
  }

  /** A methodless line with a pending id is held for the call that registered it, and
      is not forwarded. */
  lemma PendingLineIsHeld(m: Mux, line: Message)
    requires Inv(m) && Enabled(m, ReadLine(line))
    requires !line.hasMethod && line.id.Some? && line.id.value in m.pending
    ensures var n := Next(m, ReadLine(line));
            && n.held == Reply(m.pending[line.id.value], line) && n.forwarded == m.forwarded
            && n.pending == m.pending - {line.id.value} && n.calls == m.calls && n.buffered == m.buffered
  {
  }

  /** The reader does nothing else until it has delivered what it holds. */
  lemma {:induction false} HeldWaitsForDelivery(m: Mux, steps: seq<Step>, call: Call, reply: Message)
    requires IsRun(m, steps) && m.held == Reply(call, reply) && Deliver !in steps
    ensures After(m, steps).held == Reply(call, reply)
    decreases |steps|
  {
    if steps != [] {
      assert steps[0] in steps && forall step :: step in steps[1..] ==> step in steps;
      HeldWaitsForDelivery(Next(m, steps[0]), steps[1..], call, reply);
    }
  }

  /** Delivery reaches a call that has registered, before or after it sent its request,
      and no other. */
  lemma DeliveryReachesTheCall(m: Mux, call: Call, reply: Message)
    requires Inv(m) && m.held == Reply(call, reply)
    requires m.calls[call].phase == Registered || m.calls[call].phase == Waiting
    ensures var n := Next(m, Deliver);
            && call in n.buffered && n.buffered[call] == reply && n.held == Nothing
            && n.calls == m.calls && n.pending == m.pending && n.forwarded == m.forwarded
            && forall c :: c != call ==> (c in n.buffered <==> c in m.buffered)
  {
  }

  predicate TakesReply(step: Step, call: Call) {
    step == Receive(call) || step == Leave(call) || step == DropFuture(call)
  }

  lemma {:induction false} StepKeepsBuffered(m: Mux, step: Step, call: Call)
    requires Inv(m) && Enabled(m, step) && call in m.buffered && !TakesReply(step, call)
    ensures call in Next(m, step).buffered && Next(m, step).buffered[call] == m.buffered[call]
  {
  }

  /** A delivered reply stays until its call receives it, leaves with an error or is
      dropped. */
  lemma {:induction false} DeliveredReplyStays(m: Mux, steps: seq<Step>, call: Call)
    requires Inv(m) && IsRun(m, steps) && call in m.buffered
    requires forall i :: 0 <= i < |steps| ==> !TakesReply(steps[i], call)
    ensures call in After(m, steps).buffered && After(m, steps).buffered[call] == m.buffered[call]
    decreases |steps|
  {
    if steps != [] {
      StepKeepsInv(m, steps[0]);
      StepKeepsBuffered(m, steps[0], call);
      DeliveredReplyStays(Next(m, steps[0]), steps[1..], call);
    }
  }

  /** And the call returns exactly that reply. */
  lemma ReceiveReturnsDelivered(m: Mux, call: Call)
    requires Enabled(m, Receive(call))
    ensures Next(m, Receive(call)).calls[call] == CallState(m.calls[call].id, Returned(Ok(m.buffered[call])))
    ensures forall c :: c in m.calls && c != call ==> Next(m, Receive(call)).calls[c] == m.calls[c]
  {
  }

  /** While the reader lives, what a registered call waits for is registered still, on
      its way, or there. */
  ghost predicate RepliesAreAwaited(m: Mux) {
    m.readerAlive ==> forall c :: c in m.calls && (m.calls[c].phase == Registered || m.calls[c].phase == Waiting) ==>
      IsAwaited(m, c)
  }

  ghost predicate IsAwaited(m: Mux, c: Call)
    requires c in m.calls
  {
    || (m.calls[c].id in m.pending && m.pending[m.calls[c].id] == c)
    || (m.held.Reply? && m.held.call == c)
    || c in m.buffered
  }

  lemma {:induction false} ReaderKeepsAwaited(m: Mux, step: Step)
    requires Inv(m) && RepliesAreAwaited(m) && Enabled(m, step)
    requires step.ReadLine? || step.Deliver? || step.ReaderExit?
    ensures RepliesAreAwaited(Next(m, step))
  {
    var n := Next(m, step);
    if n.readerAlive {
      forall c | c in n.calls && (n.calls[c].phase == Registered || n.calls[c].phase == Waiting)
        ensures IsAwaited(n, c)
      {
        assert IsAwaited(m, c);
      }
    }
  }

  lemma {:induction false} RegisterKeepsAwaited(m: Mux, call: Call)
    requires Inv(m) && RepliesAreAwaited(m) && Enabled(m, Register(call))
    ensures RepliesAreAwaited(Next(m, Register(call)))
  {
    var n := Next(m, Register(call));
    IssuedIdIsUnused(m, call);
    forall c | m.readerAlive && c in n.calls && (n.calls[c].phase == Registered || n.calls[c].phase == Waiting)
      ensures IsAwaited(n, c)
    {
      assert c != call ==> IsAwaited(m, c) && m.calls[c].id != m.calls[call].id;
    }
  }

  lemma {:induction false} CallKeepsAwaited(m: Mux, step: Step)
    requires Inv(m) && RepliesAreAwaited(m) && Enabled(m, step)
    requires !step.Register? && !step.ReadLine? && !step.Deliver? && !step.ReaderExit?
    ensures RepliesAreAwaited(Next(m, step))
  {
    var n := Next(m, step);
    forall c | m.readerAlive && c in n.calls && (n.calls[c].phase == Registered || n.calls[c].phase == Waiting)
      ensures IsAwaited(n, c)
    {
      assert c in m.calls && IsAwaited(m, c);
      assert step.Leave? ==> m.calls[step.call].id != m.calls[c].id;
    }
  }

  lemma {:induction false} RunKeepsAwaited(m: Mux, steps: seq<Step>)
    requires Inv(m) && RepliesAreAwaited(m) && IsRun(m, steps)
    ensures RepliesAreAwaited(After(m, steps))
    decreases |steps|
  {
    if steps != [] {
      StepKeepsInv(m, steps[0]);
      match steps[0] {
        case Register(call) => RegisterKeepsAwaited(m, call);
        case ReadLine(_) => ReaderKeepsAwaited(m, steps[0]);
        case Deliver => ReaderKeepsAwaited(m, steps[0]);
        case ReaderExit => ReaderKeepsAwaited(m, steps[0]);
        case _ => CallKeepsAwaited(m, steps[0]);
      }
      RunKeepsAwaited(Next(m, steps[0]), steps[1..]);
    }
  }

  /** On every run no call finds its channel closed while the reader lives. */
  lemma NoneIsClosedWhileReading(steps: seq<Step>, c: Call)
    requires IsRun(Fresh, steps) && After(Fresh, steps).readerAlive
    ensures !Enabled(After(Fresh, steps), FindClosed(c))
  {
    RunKeepsInv(Fresh, steps);
    RunKeepsAwaited(Fresh, steps);
  }

  /** Once the reader has gone every call still waiting finds its channel closed, unless
      its reply was there already. */
  lemma {:induction false} ExitClosesWaiters(m: Mux, c: Call)
    requires Enabled(m, ReaderExit) && c in m.calls && m.calls[c].phase == Waiting
    ensures var gone := Next(m, ReaderExit);
            && !gone.readerAlive && gone.calls == m.calls && gone.buffered == m.buffered
            && if c in m.buffered then Enabled(gone, Receive(c)) else Enabled(gone, FindClosed(c))
  {
  }

  // ---------- Every result has its cause ----------

  /** What a call ends with was done to it: a refused send, a timeout, a closed channel,
      or a line the reader read. */
  ghost predicate IsExplained(m: Mux, done: seq<Step>) {
    && (forall c :: c in m.calls ==> PhaseIsExplained(m.calls[c].phase, c, done))
    && (forall c :: c in m.buffered ==> ReadLine(m.buffered[c]) in done)
    && (m.held.Reply? ==> ReadLine(m.held.message) in done)
  }

  ghost predicate PhaseIsExplained(phase: Phase, c: Call, done: seq<Step>) {
    match phase
    case Leaving(why) => FailureIsExplained(why, c, done)
    case Returned(Err(why)) => FailureIsExplained(why, c, done)
    case Returned(Ok(reply)) => ReadLine(reply) in done
    case _ => true
  }

  ghost predicate FailureIsExplained(why: Failure, c: Call, done: seq<Step>) {
    match why
    case SendFailed => Send(c, false) in done
    case TimedOut => Timeout(c) in done
    case Closed => FindClosed(c) in done
  }

  lemma {:induction false} StepIsExplained(m: Mux, done: seq<Step>, step: Step)
    requires IsExplained(m, done) && Enabled(m, step)
    ensures IsExplained(Next(m, step), done + [step])
  {
    var n := Next(m, step);
    assert forall x :: x in done + [step] <==> x in done || x == step;
    forall c | c in n.calls ensures PhaseIsExplained(n.calls[c].phase, c, done + [step]) {
      assert c in m.calls ==> PhaseIsExplained(m.calls[c].phase, c, done);
    }
  }

  lemma {:induction false} RunIsExplained(m: Mux, done: seq<Step>, steps: seq<Step>)
    requires IsExplained(m, done) && IsRun(m, steps)
    ensures IsExplained(After(m, steps), done + steps)
    decreases |steps|
  {
    if steps == [] {
      assert done + steps == done;
    } else {
      StepIsExplained(m, done, steps[0]);
      RunIsExplained(Next(m, steps[0]), done + [steps[0]], steps[1..]);
      assert done + steps == (done + [steps[0]]) + steps[1..];
    }
  }

  /** Over every run a call returns a line only if the reader read it, and an error only
      for the reason it names. */
  lemma ResultsHaveCauses(steps: seq<Step>, c: Call)
    requires IsRun(Fresh, steps) && Finished(After(Fresh, steps), c)
    ensures match After(Fresh, steps).calls[c].phase.result
            case Ok(reply) => ReadLine(reply) in steps
            case Err(SendFailed) => Send(c, false) in steps
            case Err(TimedOut) => Timeout(c) in steps
            case Err(Closed) => FindClosed(c) in steps
  {
    RunIsExplained(Fresh, [], steps);
    assert [] + steps == steps;
  }

  /** The other way round: what was done to a call decides what it ends with. */
  ghost predicate IsForced(m: Mux, done: seq<Step>) {
    forall c :: c in m.calls ==>
      && (Send(c, false) in done ==> FailedWith(m.calls[c].phase, SendFailed))
      && (Timeout(c) in done ==> FailedWith(m.calls[c].phase, TimedOut))
  }

  predicate FailedWith(phase: Phase, why: Failure) {
    phase == Leaving(why) || phase == Returned(Err(why)) || phase == Abandoned
  }

  ghost predicate OnlyIssuedAreMoved(m: Mux, done: seq<Step>) {
    forall c :: (Send(c, false) in done || Timeout(c) in done) ==> c in m.calls
  }

  lemma {:induction false} StepIsForced(m: Mux, done: seq<Step>, step: Step)
    requires IsForced(m, done) && OnlyIssuedAreMoved(m, done) && Enabled(m, step)
    ensures IsForced(Next(m, step), done + [step]) && OnlyIssuedAreMoved(Next(m, step), done + [step])
  {
    var n := Next(m, step);
    assert forall x :: x in done + [step] <==> x in done || x == step;
    forall c | c in n.calls
      ensures Send(c, false) in done + [step] ==> FailedWith(n.calls[c].phase, SendFailed)
      ensures Timeout(c) in done + [step] ==> FailedWith(n.calls[c].phase, TimedOut)
    {
      assert c !in m.calls ==> n.calls[c].phase == Issued;
    }
  }

  lemma {:induction false} RunIsForced(m: Mux, done: seq<Step>, steps: seq<Step>)
    requires IsForced(m, done) && OnlyIssuedAreMoved(m, done) && IsRun(m, steps)
    ensures IsForced(After(m, steps), done + steps)
    decreases |steps|
  {
    if steps == [] {
      assert done + steps == done;
    } else {
      StepIsForced(m, done, steps[0]);
      RunIsForced(Next(m, steps[0]), done + [steps[0]], steps[1..]);
      assert done + steps == (done + [steps[0]]) + steps[1..];
    }
  }

  /** A refused send and a timeout are what their call reports, if it still returns. */
  lemma FailuresAreReported(steps: seq<Step>, c: Call)
    requires IsRun(Fresh, steps) && Finished(After(Fresh, steps), c)
    ensures var result := After(Fresh, steps).calls[c].phase.result;
            && (Send(c, false) in steps <==> result == Err(SendFailed))
            && (Timeout(c) in steps <==> result == Err(TimedOut))
  {
    RunIsForced(Fresh, [], steps);
    ResultsHaveCauses(steps, c);
    assert [] + steps == steps;
  }

  /** A dropped call leaves its id in the map: the reply to it is taken and reaches
      nobody, not the event queue either. */
  lemma {:induction false} DroppedReplyIsSwallowed(m: Mux, call: Call, reply: Message)
    requires Inv(m) && Enabled(m, DropFuture(call)) && Enabled(m, ReadLine(reply))
    requires m.calls[call].id in m.pending && reply == Message(Some(m.calls[call].id), false, reply.body)
    ensures var dropped := Next(m, DropFuture(call));
            var n := Next(Next(dropped, ReadLine(reply)), Deliver);
            && dropped.pending == m.pending && dropped.forwarded == m.forwarded
            && n.forwarded == m.forwarded && n.buffered == dropped.buffered && n.held == Nothing
  {
    assert m.pending[m.calls[call].id] == call;
  }

  /** How far along a call is. */
  function Rank(phase: Phase): int {
    match phase
    case Issued => 0
    case Registered => 1
    case Waiting => 2
    case Leaving(_) => 3
    case Returned(_) => 4
    case Abandoned => 4
  }

  predicate MovesCall(step: Step, c: Call) {
    match step
    case Register(call) => call == c
    case Send(call, _) => call == c
    case Timeout(call) => call == c
    case Leave(call) => call == c
    case Receive(call) => call == c
    case FindClosed(call) => call == c
    case DropFuture(call) => call == c
    case _ => false
  }

  /** A call only moves on, so it registers, sends, times out and returns once at most;
      the reader and other calls do not move it. */
  lemma {:induction false} CallsOnlyMoveOn(m: Mux, step: Step, c: Call)
    requires Enabled(m, step) && c in m.calls
    ensures var n := Next(m, step);
            && c in n.calls && n.calls[c].id == m.calls[c].id
            && (if MovesCall(step, c) then Rank(n.calls[c].phase) > Rank(m.calls[c].phase)
                else n.calls[c].phase == m.calls[c].phase)
  {
  }

  // ---------- Lines and calls, one to one ----------

  ghost predicate RoutesTo(m: Mux, step: Step, c: Call) {
    step.ReadLine? && Routed(m, step.message) && m.pending[step.message.id.value] == c
  }

  /** How many lines the reader has routed to a call rather than forwarded. */
  ghost function RoutedTo(m: Mux, steps: seq<Step>, c: Call): nat
    requires IsRun(m, steps)
    decreases |steps|
  {
    if steps == [] then 0
    else (if RoutesTo(m, steps[0], c) then 1 else 0) + RoutedTo(Next(m, steps[0]), steps[1..], c)
  }

  /** A call may still be routed a reply: it is yet to register, or its id is pending. */
  ghost predicate Open(m: Mux, c: Call) {
    c !in m.calls || m.calls[c].phase.Issued? || m.calls[c].id in m.pending
  }

  lemma {:induction false} RoutingClosesTheCall(m: Mux, step: Step, c: Call)
    requires Inv(m) && Enabled(m, step)
    ensures !Open(m, c) ==> !Open(Next(m, step), c)
    ensures RoutesTo(m, step, c) ==> Open(m, c) && !Open(Next(m, step), c)
  {
    if RoutesTo(m, step, c) {
      var id := step.message.id.value;
      assert Underway(m, c) && m.calls[c].id == id;
    }
  }

  lemma {:induction false} AtMostOneReply(m: Mux, steps: seq<Step>, c: Call)
    requires Inv(m) && IsRun(m, steps)
    ensures RoutedTo(m, steps, c) <= if Open(m, c) then 1 else 0
    decreases |steps|
  {
    if steps != [] {
      StepKeepsInv(m, steps[0]);
      RoutingClosesTheCall(m, steps[0], c);
      AtMostOneReply(Next(m, steps[0]), steps[1..], c);
    }
  }

  // ---------- The connection ----------

  /** The shared fields of a connection; one method per stretch between awaits. */
  class Connection {
    var nextId: Id
    ghost var issuers: seq<Call>
    var pending: map<Id, Call>
    var calls: map<Call, CallState>
    var buffered: map<Call, Message>
    var held: Held
    var forwarded: seq<Message>
    var readerAlive: bool

    constructor ()
      ensures View() == Fresh
    {
      nextId, issuers, pending, calls, buffered, held, forwarded, readerAlive
        := 1, [], map[], map[], map[], Nothing, [], true;
    }

    ghost function View(): Mux
      reads this
    {
      Mux(nextId, issuers, pending, calls, buffered, held, forwarded, readerAlive)
    }

    /** `fetch_add`. */
    method IssueId(call: Call) returns (id: Id)
      requires Inv(View()) && Enabled(View(), Issue(call))
      modifies this
      ensures View() == Next(old(View()), Issue(call)) && Inv(View())
      ensures id == calls[call].id && id !in pending
    {
      StepKeepsInv(View(), Issue(call));
      id := nextId;
      nextId, issuers := nextId + 1, issuers + [call];
      calls := calls[call := CallState(id, Issued)];
    }

    /** `pending.lock().await.insert`. */
    method Insert(call: Call)
      requires Inv(View()) && Enabled(View(), Register(call))
      modifies this
      ensures View() == Next(old(View()), Register(call)) && Inv(View())
      ensures forall id :: id in old(pending) ==> id in pending && pending[id] == old(pending)[id]
    {
      StepKeepsInv(View(), Register(call));
      pending := pending[calls[call].id := call];
      calls := calls[call := calls[call].(phase := Registered)];
    }

    /** The failure exits: remove the id, return the error. */
    method RemoveAndReturn(call: Call) returns (failure: Failure)
      requires Inv(View()) && Enabled(View(), Leave(call))
      modifies this
      ensures View() == Next(old(View()), Leave(call)) && Inv(View())
      ensures calls[call].phase == Returned(Err(failure)) && calls[call].id !in pending
    {
      StepKeepsInv(View(), Leave(call));
      failure := calls[call].phase.why;
      pending, buffered := pending - {calls[call].id}, buffered - {call};
      calls := calls[call := calls[call].(phase := Returned(Err(failure)))];
    }

    /** One line in the reader task. */
    method RouteLine(message: Message)
      requires Inv(View()) && Enabled(View(), ReadLine(message))
      modifies this
      ensures View() == Next(old(View()), ReadLine(message)) && Inv(View())
      ensures calls == old(calls) && buffered == old(buffered)
      ensures if !message.hasMethod && message.id.Some? && message.id.value in old(pending)
              then held == Reply(old(pending)[message.id.value], message) && forwarded == old(forwarded)
              else held == Nothing && pending == old(pending) && forwarded == old(forwarded) + [message]
    {
      StepKeepsInv(View(), ReadLine(message));
      if !message.hasMethod {
        if message.id.Some? {
          var id := message.id.value;
          if id in pending {
            held := Reply(pending[id], message);
            pending := pending - {id};
            return;
          }
        }
      }
      forwarded := forwarded + [message];
    }

    /** `reply.send`, which fails silently when the receiver is gone. */
    method SendReply()
      requires Inv(View()) && Enabled(View(), Deliver)
      modifies this
      ensures View() == Next(old(View()), Deliver) && Inv(View())
      ensures held == Nothing && calls == old(calls)
      ensures old(calls)[old(held).call].phase == Registered || old(calls)[old(held).call].phase == Waiting ==>
                old(held).call in buffered && buffered[old(held).call] == old(held).message
    {
      StepKeepsInv(View(), Deliver);
      var Reply(call, message) := held;
      held := Nothing;
      var phase := calls[call].phase;
      if phase == Registered || phase == Waiting {
        buffered := buffered[call := message];
      }
    }

    /** The reader's last act. */
    method ClearPending()
      requires Inv(View()) && Enabled(View(), ReaderExit)
      modifies this
      ensures View() == Next(old(View()), ReaderExit) && Inv(View())
      ensures pending == map[] && !readerAlive && buffered == old(buffered)
    {
      StepKeepsInv(View(), ReaderExit);
      readerAlive := false;
      pending := map[];
    }
  }
}
