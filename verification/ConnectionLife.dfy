/** The server requests of one app-server connection, over all the turns it serves.
    The reader queues every line; an activation discards what is queued before it begins
    its turn; the turn takes lines in order until it ends, and what it leaves waits for
    the next activation. So a request can be lost between turns, and this module says
    exactly which ones are. */
module ConnectionLife {
  import opened Outcomes
  import opened ApprovalRelay

  /** Requests are known by their position among all arrivals. Turn t was offered the
      arrivals from starts[t] on, and took as many as it has incoming. */
  datatype Life = Life(
    arrived: seq<ServerMessage>,
    taken: int,                  // arrivals that have left the queue
    drained: bool,               // the activation has emptied the queue
    turns: seq<Turn>,
    starts: seq<int>)

  const Connected := Life([], 0, false, [], [])

  datatype LifeStep =
    | Arrive(message: ServerMessage)
    | Drain
    | BeginTurn(context: Context)
    | Take                       // the incoming arm of drive_turn
    | InTurn(step: Step)         // anything else that happens to the turn

  /** Only a connection whose last turn has joined its relays is driven again. */
  predicate IsIdle(l: Life) {
    l.turns == [] || l.turns[|l.turns| - 1].phase == Finished
  }

  predicate LifeEnabled(l: Life, step: LifeStep) {
    match step
    case Arrive(_) => true
    case Drain => IsIdle(l)
    case BeginTurn(_) => IsIdle(l) && l.drained
    case Take => l.turns != [] && l.turns[|l.turns| - 1].phase == Driving && 0 <= l.taken < |l.arrived|
    case InTurn(s) => l.turns != [] && !s.Incoming? && Enabled(l.turns[|l.turns| - 1], s)
  }

  function LifeNext(l: Life, step: LifeStep): Life
    requires LifeEnabled(l, step)
  {
    match step
    case Arrive(m) => l.(arrived := l.arrived + [m])
    case Drain => l.(taken := |l.arrived|, drained := true)
    case BeginTurn(c) => l.(drained := false, turns := l.turns + [Started(c)], starts := l.starts + [l.taken])
    case Take =>
      var last := |l.turns| - 1;
      l.(taken := l.taken + 1, turns := l.turns[last := Next(l.turns[last], Incoming(l.arrived[l.taken]))])
    case InTurn(s) =>
      var last := |l.turns| - 1;
      l.(turns := l.turns[last := Next(l.turns[last], s)])
  }

  ghost predicate IsLife(l: Life, steps: seq<LifeStep>)
    decreases |steps|
  {
    steps == [] || (LifeEnabled(l, steps[0]) && IsLife(LifeNext(l, steps[0]), steps[1..]))
  }

  ghost function LifeAfter(l: Life, steps: seq<LifeStep>): Life
    requires IsLife(l, steps)
    decreases |steps|
  {
    if steps == [] then l else LifeAfter(LifeNext(l, steps[0]), steps[1..])
  }

  // ---------- Which turn took which arrival ----------

  function End(l: Life, t: int): int
    requires 0 <= t < |l.turns| && |l.starts| == |l.turns|
  {
    l.starts[t] + |l.turns[t].incoming|
  }

  /** Turn t took arrival i. */
  predicate ConsumedBy(l: Life, i: int, t: int) {
    |l.starts| == |l.turns| && 0 <= t < |l.turns| && l.starts[t] <= i < End(l, t)
  }

  /** Arrival i left the queue, and no turn took it. */
  ghost predicate IsSkipped(l: Life, i: int) {
    0 <= i < l.taken && forall t :: !ConsumedBy(l, i, t)
  }

  ghost predicate TookInOrder(l: Life, t: int) {
    && |l.starts| == |l.turns| && 0 <= t < |l.turns|
    && 0 <= l.starts[t] && End(l, t) <= l.taken <= |l.arrived|
    && l.turns[t].incoming == l.arrived[l.starts[t]..End(l, t)]
  }

  ghost predicate EndsBefore(l: Life, s: int, t: int) {
    |l.starts| == |l.turns| && 0 <= s < t < |l.turns| && End(l, s) <= l.starts[t]
  }

  ghost predicate TurnsAreOrdered(l: Life) {
    forall s, t :: 0 <= s < t < |l.turns| ==> EndsBefore(l, s, t)
  }

  ghost predicate TurnsAreSound(l: Life) {
    && (forall t :: 0 <= t < |l.turns| ==> Inv(l.turns[t]))
    && (forall t :: 0 <= t < |l.turns| - 1 ==> l.turns[t].phase == Finished)
  }

  ghost predicate LifeInv(l: Life) {
    && |l.starts| == |l.turns| && 0 <= l.taken <= |l.arrived|
    && (forall t :: 0 <= t < |l.turns| ==> TookInOrder(l, t))
    && TurnsAreOrdered(l) && TurnsAreSound(l)
    && (l.turns != [] && l.turns[|l.turns| - 1].phase == Driving ==> End(l, |l.turns| - 1) == l.taken)
  }

  lemma {:induction false} TurnStepTakes(t: Turn, step: Step)
    requires Inv(t) && Enabled(t, step)
    ensures Inv(Next(t, step))
    ensures Next(t, step).incoming == t.incoming + if step.Incoming? then [step.message] else []
    ensures Next(t, step).phase == Driving ==> t.phase == Driving
    ensures Next(t, step).context == t.context
  {
    StepKeepsInv(t, step);
  }

  /** Nothing the ordering and the soundness of the turns speak of has changed. */
  lemma {:induction false} SameTurnsKeepOrder(l: Life, n: Life)
    requires LifeInv(l) && n.turns == l.turns && n.starts == l.starts
    ensures TurnsAreOrdered(n) && TurnsAreSound(n)
  {
    forall s, t | 0 <= s < t < |n.turns| ensures EndsBefore(n, s, t) {
      assert EndsBefore(l, s, t);
    }
  }

  lemma {:induction false} ArriveKeepsInv(l: Life, m: ServerMessage)
    requires LifeInv(l)
    ensures LifeInv(LifeNext(l, Arrive(m)))
  {
    var n := LifeNext(l, Arrive(m));
    SameTurnsKeepOrder(l, n);
    forall t | 0 <= t < |n.turns| ensures TookInOrder(n, t) {
      assert TookInOrder(l, t);
      assert n.arrived[n.starts[t]..End(n, t)] == l.arrived[l.starts[t]..End(l, t)];
    }
  }

  lemma {:induction false} DrainKeepsInv(l: Life)
    requires LifeInv(l) && IsIdle(l)
    ensures LifeInv(LifeNext(l, Drain))
  {
    var n := LifeNext(l, Drain);
    SameTurnsKeepOrder(l, n);
    forall t | 0 <= t < |n.turns| ensures TookInOrder(n, t) { assert TookInOrder(l, t); }
  }

  lemma {:induction false} BeginKeepsInv(l: Life, c: Context)
    requires LifeInv(l) && LifeEnabled(l, BeginTurn(c))
    ensures LifeInv(LifeNext(l, BeginTurn(c)))
  {
    var n := LifeNext(l, BeginTurn(c));
    forall t | 0 <= t < |n.turns| ensures TookInOrder(n, t) && (t < |l.turns| ==> End(n, t) == End(l, t)) {
      assert t < |l.turns| ==> TookInOrder(l, t);
    }
    forall s, t | 0 <= s < t < |n.turns| ensures EndsBefore(n, s, t) {
      assert t < |l.turns| ==> EndsBefore(l, s, t);
      assert TookInOrder(l, s);
    }
  }

  /** A step of the last turn replaces it by one that took what it took before, or one
      arrival more. */
  lemma {:induction false} LastTurnKeepsWindows(l: Life, n: Life, t: int)
    requires LifeInv(l) && l.turns != [] && 0 <= t < |l.turns|
    requires n.arrived == l.arrived && n.starts == l.starts && l.taken <= n.taken <= |l.arrived|
    requires |n.turns| == |l.turns| && n.turns[..|l.turns| - 1] == l.turns[..|l.turns| - 1]
    requires var last := |l.turns| - 1;
             n.turns[last].incoming == l.turns[last].incoming + l.arrived[l.taken..n.taken]
    requires n.taken == l.taken || End(l, |l.turns| - 1) == l.taken
    ensures TookInOrder(n, t) && End(n, t) == End(l, t) + if t == |l.turns| - 1 then n.taken - l.taken else 0
  {
    assert TookInOrder(l, t);
    if t < |l.turns| - 1 {
      assert n.turns[t] == n.turns[..|l.turns| - 1][t];
    } else {
      assert n.turns[t].incoming == l.arrived[l.starts[t]..End(l, t)] + l.arrived[l.taken..n.taken];
    }
  }

  lemma {:induction false} LastTurnReplaced(l: Life, n: Life)
    requires LifeInv(l) && l.turns != []
    requires n.arrived == l.arrived && n.starts == l.starts && l.taken <= n.taken <= |l.arrived|
    requires |n.turns| == |l.turns| && n.turns[..|l.turns| - 1] == l.turns[..|l.turns| - 1]
    requires var last := |l.turns| - 1;
             && n.turns[last].incoming == l.turns[last].incoming + l.arrived[l.taken..n.taken]
             && (n.turns[last].phase == Driving ==> l.turns[last].phase == Driving)
             && Inv(n.turns[last])
    requires n.taken == l.taken || End(l, |l.turns| - 1) == l.taken
    ensures LifeInv(n)
  {
    var last := |l.turns| - 1;
    forall t | 0 <= t < |n.turns|
      ensures TookInOrder(n, t) && End(n, t) == End(l, t) + if t == last then n.taken - l.taken else 0
    {
      LastTurnKeepsWindows(l, n, t);
    }
    assert forall t :: 0 <= t < last ==> n.turns[t] == n.turns[..last][t] && l.turns[t] == l.turns[..last][t];
    forall s, t | 0 <= s < t < |n.turns| ensures EndsBefore(n, s, t) { assert EndsBefore(l, s, t); }
  }

  lemma {:induction false} LastTurnKeepsInv(l: Life, step: LifeStep)
    requires LifeInv(l) && LifeEnabled(l, step) && (step.Take? || step.InTurn?)
    ensures LifeInv(LifeNext(l, step))
  {
    var n, last := LifeNext(l, step), |l.turns| - 1;
    TurnStepTakes(l.turns[last], if step.Take? then Incoming(l.arrived[l.taken]) else step.step);
    assert n.turns[..last] == l.turns[..last];
    assert n.turns[last].incoming == l.turns[last].incoming + l.arrived[l.taken..n.taken];
    LastTurnReplaced(l, n);
  }

  lemma {:induction false} LifeStepKeepsInv(l: Life, step: LifeStep)
    requires LifeInv(l) && LifeEnabled(l, step)
    ensures LifeInv(LifeNext(l, step))
  {
    match step
    case Arrive(m) => ArriveKeepsInv(l, m);
    case Drain => DrainKeepsInv(l);
    case BeginTurn(c) => BeginKeepsInv(l, c);
    case _ => LastTurnKeepsInv(l, step);
  }

  lemma {:induction false} LifeKeepsInv(l: Life, steps: seq<LifeStep>)
    requires LifeInv(l) && IsLife(l, steps)
    ensures LifeInv(LifeAfter(l, steps))
    decreases |steps|
  {
    if steps != [] {
      LifeStepKeepsInv(l, steps[0]);
      LifeKeepsInv(LifeNext(l, steps[0]), steps[1..]);
    }
  }

  // ---------- Responses over the whole connection ----------

  /** The responses the first n turns wrote to arrival i. */
  ghost function ResponsesOf(l: Life, n: nat, i: int): int
    requires |l.starts| == |l.turns| && n <= |l.turns|
  {
    if n == 0 then 0
    else ResponsesOf(l, n - 1, i)
         + if ConsumedBy(l, i, n - 1) then Count(l.turns[n - 1].written, i - l.starts[n - 1])
            else 0
  }

  /** Turn t took arrival i and answered it: at once, or from its relay task. */
  ghost predicate AnsweredBy(l: Life, i: int, t: int) {
    ConsumedBy(l, i, t) && IsAnswered(l.turns[t], i - l.starts[t])
  }

  lemma {:induction false} OneTurnPerArrival(l: Life, i: int, s: int, t: int)
    requires LifeInv(l) && ConsumedBy(l, i, s) && s != t
    ensures !ConsumedBy(l, i, t)
  {
    if 0 <= t < |l.turns| {
      assert if s < t then EndsBefore(l, s, t) else EndsBefore(l, t, s);
    }
  }

  lemma {:induction false} ResponsesCounted(l: Life, n: nat, i: int)
    requires LifeInv(l) && n <= |l.turns|
    ensures ResponsesOf(l, n, i) == if exists t :: 0 <= t < n && AnsweredBy(l, i, t) then 1 else 0
    decreases n
  {
    if n > 0 {
      var last := n - 1;
      ResponsesCounted(l, last, i);
      assert Inv(l.turns[last]);
      if ConsumedBy(l, i, last) {
        forall t | 0 <= t < last ensures !AnsweredBy(l, i, t) { OneTurnPerArrival(l, i, last, t); }
        assert AnsweredBy(l, i, last) <==> IsAnswered(l.turns[last], i - l.starts[last]);
      }
    }
  }

  /** Over every life of a connection, each arrival has at most one response, whichever
      turns it has seen, and these requests have none: the ones still queued, the ones
      skipped, and the relayed ones whose task has not answered. */
  lemma UnansweredExactly(steps: seq<LifeStep>, i: int)
    requires IsLife(Connected, steps) && 0 <= i < |LifeAfter(Connected, steps).arrived|
    ensures var l := LifeAfter(Connected, steps); var m := l.arrived[i];
            && |l.starts| == |l.turns|
            && 0 <= ResponsesOf(l, |l.turns|, i) <= 1
            && (m.id.Some? ==>
                  (ResponsesOf(l, |l.turns|, i) == 0 <==> i >= l.taken || IsSkipped(l, i) || IsUndecided(l, i)))
            && (m.id.None? ==> ResponsesOf(l, |l.turns|, i) == 0)
  {
    LifeKeepsInv(Connected, steps);
    var l := LifeAfter(Connected, steps);
    ResponsesCounted(l, |l.turns|, i);
    forall t | ConsumedBy(l, i, t)
      ensures l.turns[t].incoming[i - l.starts[t]] == l.arrived[i] && i < l.taken
    {
      assert TookInOrder(l, t);
    }
    if IsUndecided(l, i) {
      var t :| UndecidedBy(l, i, t);
      forall s | s != t ensures !AnsweredBy(l, i, s) { OneTurnPerArrival(l, i, t, s); }
    }
    forall t | ConsumedBy(l, i, t) && l.arrived[i].id.Some?
      ensures AnsweredBy(l, i, t) || UndecidedBy(l, i, t)
    {
    }
  }

  /** A turn took the arrival as a request to relay, and its task has no verdict. */
  ghost predicate UndecidedBy(l: Life, i: int, t: int) {
    && ConsumedBy(l, i, t)
    && var turn, k := l.turns[t], i - l.starts[t];
       IsRelayed(turn.context, turn.incoming[k]) && !(k in turn.tasks && turn.tasks[k].Answered?)
  }

  ghost predicate IsUndecided(l: Life, i: int) { exists t :: UndecidedBy(l, i, t) }

  /** Every response on the wire answers one arrival, by that arrival's own id. */
  lemma ResponsesAnswerArrivals(steps: seq<LifeStep>, t: int, j: int)
    requires IsLife(Connected, steps)
    requires var l := LifeAfter(Connected, steps); 0 <= t < |l.turns| && 0 <= j < |l.turns[t].written|
    ensures var l := LifeAfter(Connected, steps);
            && |l.starts| == |l.turns|
            && var w := l.turns[t].written[j]; var i := l.starts[t] + w.index;
               && 0 <= i < |l.arrived| && AnsweredBy(l, i, t) && l.arrived[i].id == Some(w.response.id)
               && forall s :: s != t ==> !ConsumedBy(l, i, s)
  {
    LifeKeepsInv(Connected, steps);
    var l := LifeAfter(Connected, steps);
    var w := l.turns[t].written[j];
    var i := l.starts[t] + w.index;
    assert Inv(l.turns[t]) && TookInOrder(l, t) && IsRightResponse(l.turns[t], w);
    forall s | s != t ensures !ConsumedBy(l, i, s) { OneTurnPerArrival(l, i, t, s); }
  }

  /** Between the beginnings of two turns, and before the first, the queue is drained. */
  ghost predicate DrainedSince(steps: seq<LifeStep>, j: int) {
    exists i :: 0 <= i < j <= |steps| && steps[i] == Drain && forall k :: i < k < j ==> !steps[k].BeginTurn?
  }

  lemma {:induction false} EachTurnIsDrained(l: Life, steps: seq<LifeStep>, j: int)
    requires IsLife(l, steps) && 0 <= j < |steps| && steps[j].BeginTurn?
    ensures DrainedSince(steps, j) || (l.drained && forall k :: 0 <= k < j ==> !steps[k].BeginTurn?)
    decreases |steps|
  {
    if j > 0 {
      var rest := steps[1..];
      EachTurnIsDrained(LifeNext(l, steps[0]), rest, j - 1);
      if DrainedSince(rest, j - 1) {
        var i :| 0 <= i < j - 1 && rest[i] == Drain && forall k :: i < k < j - 1 ==> !rest[k].BeginTurn?;
        assert steps[i + 1] == Drain;
        forall k | i + 1 < k < j ensures !steps[k].BeginTurn? { assert steps[k] == rest[k - 1]; }
      } else {
        forall k | 0 < k < j ensures !steps[k].BeginTurn? { assert steps[k] == rest[k - 1]; }
        assert steps[0] == Drain ==> DrainedSince(steps, j);
      }
    }
  }

  /** Every turn of a connection is preceded by a drain of its own. */
  lemma TurnsAreDrained(steps: seq<LifeStep>, j: int)
    requires IsLife(Connected, steps) && 0 <= j < |steps| && steps[j].BeginTurn?
    ensures DrainedSince(steps, j)
  {
    EachTurnIsDrained(Connected, steps, j);
  }

  // ---------- Where the skipped requests lie ----------

  /** n turns ended before arrival i, and the next one was offered only later arrivals. */
  ghost predicate BetweenTurns(l: Life, i: int, n: int)
    requires |l.starts| == |l.turns|
  {
    && 0 <= n <= |l.turns|
    && (n > 0 ==> End(l, n - 1) <= i)
    && (n < |l.turns| ==> i < l.starts[n])
  }

  /** A request is skipped exactly if it left the queue between two turns: it came after
      the last line its predecessor turn took, and before the next turn's first. Within
      the lines a turn takes, none is skipped. */
  lemma {:induction false} SkippedExactly(l: Life, i: int)
    requires LifeInv(l) && 0 <= i < l.taken
    ensures IsSkipped(l, i) <==> exists n :: BetweenTurns(l, i, n)
  {
    if IsSkipped(l, i) {
      var n := 0;
      while n < |l.turns| && l.starts[n] <= i
        invariant 0 <= n <= |l.turns|
        invariant n > 0 ==> End(l, n - 1) <= i
      {
        assert !ConsumedBy(l, i, n);
        n := n + 1;
      }
      assert BetweenTurns(l, i, n);
    }
    if exists n :: BetweenTurns(l, i, n) {
      var n :| BetweenTurns(l, i, n);
      forall t ensures !ConsumedBy(l, i, t) {
        if 0 <= t < |l.turns| {
          assert t < n - 1 ==> EndsBefore(l, t, n - 1) && TookInOrder(l, n - 1);
          assert n < t ==> EndsBefore(l, n, t) && TookInOrder(l, n);
        }
      }
    }
  }

  lemma {:induction false} StepKeepsSkipped(l: Life, step: LifeStep, i: int)
    requires LifeInv(l) && LifeEnabled(l, step) && IsSkipped(l, i)
    ensures IsSkipped(LifeNext(l, step), i)
  {
    var n, last := LifeNext(l, step), |l.turns| - 1;
    if step.InTurn? { TurnStepTakes(l.turns[last], step.step); }
    forall t ensures !ConsumedBy(n, i, t) {
      assert !ConsumedBy(l, i, t);
    }
  }

  /** A skipped request stays unanswered, however long the connection lives. */
  lemma {:induction false} SkippedForGood(l: Life, steps: seq<LifeStep>, i: int)
    requires LifeInv(l) && IsLife(l, steps) && IsSkipped(l, i)
    ensures LifeInv(LifeAfter(l, steps)) && IsSkipped(LifeAfter(l, steps), i)
    ensures ResponsesOf(LifeAfter(l, steps), |LifeAfter(l, steps).turns|, i) == 0
    decreases |steps|
  {
    if steps == [] {
      ResponsesCounted(l, |l.turns|, i);
    } else {
      LifeStepKeepsInv(l, steps[0]);
      StepKeepsSkipped(l, steps[0], i);
      SkippedForGood(LifeNext(l, steps[0]), steps[1..], i);
    }
  }

  /** The smallest loss: a request that arrives before the activation's drain. */
  lemma {:induction false} EarlyRequestIsSkipped(m: ServerMessage, c: Context)
    ensures var steps := [Arrive(m), Drain, BeginTurn(c)];
            IsLife(Connected, steps) && IsSkipped(LifeAfter(Connected, steps), 0)
  {
    var steps := [Arrive(m), Drain, BeginTurn(c)];
    var l1 := LifeNext(Connected, Arrive(m));
    var l2 := LifeNext(l1, Drain);
    var l3 := LifeNext(l2, BeginTurn(c));
    assert steps[1..] == [Drain, BeginTurn(c)] && steps[1..][1..] == [BeginTurn(c)] && steps[1..][1..][1..] == [];
    assert IsLife(l3, []) && LifeAfter(l3, []) == l3;
    assert IsLife(l2, [BeginTurn(c)]) && LifeAfter(l2, [BeginTurn(c)]) == l3;
    assert IsLife(l1, [Drain, BeginTurn(c)]) && LifeAfter(l1, [Drain, BeginTurn(c)]) == l3;
    assert LifeAfter(Connected, steps) == l3;
  }
}
