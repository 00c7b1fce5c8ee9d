/** What activations of one app-server executor share: the run lock, the provider
    token file and the warm connection slot. Any number of activations queue, run,
    fail and are dropped; a drop unwinds the locals in reverse order, connection
    first, then the token guard, then the lock. */
module RunLease {
  import opened Outcomes

  type Act = int
  type Conn = int

  datatype TurnOutcome = Unfinished | Completed | NotCompleted

  datatype Lock = Free | HeldBy(act: Act)
  datatype Slot = Empty | Warm(conn: Conn)

  datatype Phase =
    | Queued
    | Entered                    // holds run_lock
    | Installed                  // token in place, or none needed
    | Starting                   // no live warm connection; spawning one
    | Holding(conn: Conn)
    | Driving(conn: Conn, turn: int)
    | Drove(conn: Conn, outcome: TurnOutcome)
    | Unwinding                  // the connection is parked or dropped
    | Cleared                    // the token guard is dropped
    | Gone

  datatype Activation = Activation(token: Option<string>, guard: bool, phase: Phase)

  datatype Turn = Turn(conn: Conn, outcome: TurnOutcome)

  datatype Executor = Executor(
    bamboo: bool,                // auth mode uses the token file
    acts: map<Act, Activation>,
    lock: Lock,
    file: string,
    slot: Slot,
    nextConn: Conn,
    turns: seq<Turn>)            // history: every turn started, in order

  datatype InstallResult = OpenFails(truncated: bool) | WriteFails(written: string) | WriteOk

  datatype Step =
    | Submit(act: Act, token: Option<string>)
    | Acquire(act: Act)
    | Install(act: Act, result: InstallResult)
    | TakeConnection(act: Act, alive: bool)
    | Start(act: Act, ok: bool)
    | BeginTurn(act: Act)
    | EndTurn(act: Act, completed: bool)
    | Park(act: Act)             // put a completed connection back
    | Leave(act: Act)            // an error return, or the future dropped: the connection goes
    | ClearToken(act: Act)
    | Unlock(act: Act)

  predicate Holds(phase: Phase) { phase.Holding? || phase.Driving? || phase.Drove? }

  predicate Enabled(e: Executor, step: Step) {
    match step
    case Submit(act, _) => act !in e.acts
    case Acquire(act) => act in e.acts && e.acts[act].phase == Queued && e.lock == Free
    case Install(act, result) => act in e.acts && e.acts[act].phase == Entered
        && (result.WriteFails? && e.acts[act].token.Some? ==> result.written <= e.acts[act].token.value)
    case TakeConnection(act, _) => act in e.acts && e.acts[act].phase == Installed
    case Start(act, _) => act in e.acts && e.acts[act].phase == Starting
    case BeginTurn(act) => act in e.acts && e.acts[act].phase.Holding?
    case EndTurn(act, _) => act in e.acts && e.acts[act].phase.Driving? && 0 <= e.acts[act].phase.turn < |e.turns|
    case Park(act) => act in e.acts && e.acts[act].phase.Drove? && e.acts[act].phase.outcome == Completed
    case Leave(act) => act in e.acts && e.acts[act].phase !in {Unwinding, Cleared, Gone}
    case ClearToken(act) => act in e.acts && e.acts[act].phase == Unwinding
    case Unlock(act) => act in e.acts && e.acts[act].phase == Cleared
  }

  function At(e: Executor, act: Act, phase: Phase): Executor
    requires act in e.acts
  {
    e.(acts := e.acts[act := e.acts[act].(phase := phase)])
  }

  function Guarded(e: Executor, act: Act): Executor
    requires act in e.acts
  {
    e.(acts := e.acts[act := e.acts[act].(guard := true)])
  }

  function InstallToken(e: Executor, act: Act, result: InstallResult): Executor
    requires act in e.acts
  {
    if !e.bamboo then At(e, act, Installed)
    else if e.acts[act].token.None? then At(e, act, Unwinding)
    else match result
      case OpenFails(truncated) => At(e, act, Unwinding).(file := if truncated then "" else e.file)
      case WriteFails(written) => At(Guarded(e, act), act, Unwinding).(file := written)
      case WriteOk => At(Guarded(e, act), act, Installed).(file := e.acts[act].token.value)
  }

  function Next(e: Executor, step: Step): Executor
    requires Enabled(e, step)
  {
    match step
    case Submit(act, token) => e.(acts := e.acts[act := Activation(token, false, Queued)])
    case Acquire(act) => At(e, act, Entered).(lock := HeldBy(act))
    case Install(act, result) => InstallToken(e, act, result)
    case TakeConnection(act, alive) =>
      At(e, act, if e.slot.Warm? && alive then Holding(e.slot.conn) else Starting).(slot := Empty)
    case Start(act, ok) =>
      if ok then At(e, act, Holding(e.nextConn)).(nextConn := e.nextConn + 1) else At(e, act, Unwinding)
    case BeginTurn(act) =>
      var c := e.acts[act].phase.conn;
      At(e, act, Driving(c, |e.turns|)).(turns := e.turns + [Turn(c, Unfinished)])
    case EndTurn(act, completed) =>
      var Driving(c, turn) := e.acts[act].phase;
      var outcome := if completed then Completed else NotCompleted;
      At(e, act, Drove(c, outcome)).(turns := e.turns[turn := Turn(c, outcome)])
    case Park(act) => At(e, act, Unwinding).(slot := Warm(e.acts[act].phase.conn))
    case Leave(act) => At(e, act, if e.acts[act].phase == Queued then Gone else Unwinding)
    case ClearToken(act) =>
      At(e, act, Cleared).(file := if e.acts[act].guard then "" else e.file)
    case Unlock(act) => At(e, act, Gone).(lock := Free)
  }

  function Idle(bamboo: bool): Executor { Executor(bamboo, map[], Free, "", Empty, 0, []) }

  ghost predicate IsRun(e: Executor, steps: seq<Step>)
    decreases |steps|
  {
    steps == [] || (Enabled(e, steps[0]) && IsRun(Next(e, steps[0]), steps[1..]))
  }

  ghost function After(e: Executor, steps: seq<Step>): Executor
    requires IsRun(e, steps)
    decreases |steps|
  {
    if steps == [] then e else After(Next(e, steps[0]), steps[1..])
  }

  // ---------- The invariant ----------

  predicate InsideLock(phase: Phase) { phase != Queued && phase != Gone }

  predicate PastInstall(phase: Phase) { phase == Installed || phase == Starting || Holds(phase) }

  ghost predicate LockIsExclusive(e: Executor) {
    && (forall a :: a in e.acts ==> (InsideLock(e.acts[a].phase) <==> e.lock == HeldBy(a)))
    && (e.lock.HeldBy? ==> e.lock.act in e.acts)
  }

  /** The lock holder's state; only it touches the file, the slot and the connections. */
  function Holder(e: Executor): Activation {
    if e.lock.HeldBy? && e.lock.act in e.acts then e.acts[e.lock.act] else Activation(None, false, Gone)
  }

  /** A non-empty token file is (the written part of) the lock holder's own token,
      and its guard will clear it. */
  ghost predicate TokenIsHolders(e: Executor) {
    var h := Holder(e);
    && (e.file != "" ==> h.guard && h.phase != Cleared && h.token.Some? && e.file <= h.token.value)
    && (e.bamboo && PastInstall(h.phase) ==> h.guard && h.token == Some(e.file))
  }

  /** Each connection has one owner at most: the slot, or the lock holder. */
  ghost predicate ConnectionsAreOwned(e: Executor) {
    var phase := Holder(e).phase;
    && (e.slot.Warm? ==> e.slot.conn < e.nextConn)
    && (Holds(phase) ==> e.slot == Empty && phase.conn < e.nextConn)
    && (phase == Starting ==> e.slot == Empty)
    && (forall i :: 0 <= i < |e.turns| ==> e.turns[i].conn < e.nextConn)
  }

  ghost predicate OnlyCompleted(turns: seq<Turn>, conn: Conn) {
    forall i :: 0 <= i < |turns| && turns[i].conn == conn ==> turns[i].outcome == Completed
  }

  /** A connection that may be driven next has only completed turns behind it. */
  ghost predicate AvailableIsClean(e: Executor) {
    && (e.slot.Warm? ==> OnlyCompleted(e.turns, e.slot.conn))
    && match Holder(e).phase
       case Holding(c) => OnlyCompleted(e.turns, c)
       case Driving(c, turn) =>
         turn == |e.turns| - 1 >= 0 && e.turns[turn] == Turn(c, Unfinished) && OnlyCompleted(e.turns[..turn], c)
       case Drove(c, outcome) => outcome == Completed ==> OnlyCompleted(e.turns, c)
       case _ => true
  }

  /** A turn is started on a connection only after all its earlier turns completed. */
  ghost predicate ReuseOnlyAfterCompletion(e: Executor) {
    forall i, j :: 0 <= i < j < |e.turns| && e.turns[i].conn == e.turns[j].conn ==> e.turns[i].outcome == Completed
  }

  ghost predicate Inv(e: Executor) {
    LockIsExclusive(e) && TokenIsHolders(e) && ConnectionsAreOwned(e)
    && AvailableIsClean(e) && ReuseOnlyAfterCompletion(e)
  }

  lemma {:induction false} StepKeepsLock(e: Executor, step: Step)
    requires LockIsExclusive(e) && Enabled(e, step)
    ensures LockIsExclusive(Next(e, step))
  {
  }

  lemma {:induction false} StepKeepsToken(e: Executor, step: Step)
    requires LockIsExclusive(e) && TokenIsHolders(e) && Enabled(e, step)
    ensures TokenIsHolders(Next(e, step))
  {
  }

  lemma {:induction false} StepKeepsOwners(e: Executor, step: Step)
    requires LockIsExclusive(e) && ConnectionsAreOwned(e) && Enabled(e, step)
    ensures ConnectionsAreOwned(Next(e, step))
  {
  }

  lemma {:induction false} TurnStepKeepsClean(e: Executor, step: Step)
    requires LockIsExclusive(e) && AvailableIsClean(e) && ConnectionsAreOwned(e) && Enabled(e, step)
    requires step.BeginTurn? || step.EndTurn?
    ensures AvailableIsClean(Next(e, step))
  {
    if step.BeginTurn? {
      assert Next(e, step).turns[..|e.turns|] == e.turns;
    }
  }

  lemma {:induction false} OtherStepKeepsClean(e: Executor, step: Step)
    requires LockIsExclusive(e) && AvailableIsClean(e) && ConnectionsAreOwned(e) && Enabled(e, step)
    requires !step.BeginTurn? && !step.EndTurn?
    ensures AvailableIsClean(Next(e, step))
  {
    assert Next(e, step).turns == e.turns;
  }

  lemma {:induction false} StepKeepsReuse(e: Executor, step: Step)
    requires LockIsExclusive(e) && AvailableIsClean(e) && ReuseOnlyAfterCompletion(e) && Enabled(e, step)
    ensures ReuseOnlyAfterCompletion(Next(e, step))
  {
  }

  lemma {:induction false} StepKeepsInv(e: Executor, step: Step)
    requires Inv(e) && Enabled(e, step)
    ensures Inv(Next(e, step))
  {
    StepKeepsLock(e, step);
    StepKeepsToken(e, step);
    StepKeepsOwners(e, step);
    if step.BeginTurn? || step.EndTurn? { TurnStepKeepsClean(e, step); } else { OtherStepKeepsClean(e, step); }
    StepKeepsReuse(e, step);
  }

  lemma {:induction false} RunKeepsInv(e: Executor, steps: seq<Step>)
    requires Inv(e) && IsRun(e, steps)
    ensures Inv(After(e, steps)) && After(e, steps).bamboo == e.bamboo
    decreases |steps|
  {
    if steps != [] {
      StepKeepsInv(e, steps[0]);
      RunKeepsInv(Next(e, steps[0]), steps[1..]);
    }
  }

  // ---------- The promises, over every run from an idle executor ----------

  /** The token file is non-empty only while some activation holds the run lock and
      has not dropped its guard, and then it holds that activation's token; past the
      install nothing overwrites or clears it before that activation unwinds. */
  lemma TokenFileIsTheHolders(bamboo: bool, steps: seq<Step>)
    requires IsRun(Idle(bamboo), steps)
    ensures var e := After(Idle(bamboo), steps);
            && (e.file != "" ==>
                  e.lock.HeldBy? && e.lock.act in e.acts && e.acts[e.lock.act].token.Some?
                  && e.file <= e.acts[e.lock.act].token.value)
            && (forall a :: a in e.acts && bamboo && PastInstall(e.acts[a].phase) ==> e.acts[a].token == Some(e.file))
            && (forall a :: a in e.acts && e.acts[a].phase == Cleared ==> e.file == "")
  {
    RunKeepsInv(Idle(bamboo), steps);
  }

  /** No two activations own a connection, and none owns the parked one. */
  lemma ConnectionsAreExclusive(bamboo: bool, steps: seq<Step>, a: Act, b: Act)
    requires IsRun(Idle(bamboo), steps)
    requires var acts := After(Idle(bamboo), steps).acts;
             a in acts && b in acts && Holds(acts[a].phase) && Holds(acts[b].phase)
    ensures a == b && After(Idle(bamboo), steps).slot == Empty
  {
    RunKeepsInv(Idle(bamboo), steps);
  }

  /** The warm slot holds a connection only if every turn ever driven on it
      completed, and over the whole history a connection is driven again only then. */
  lemma WarmReuseIsClean(bamboo: bool, steps: seq<Step>)
    requires IsRun(Idle(bamboo), steps)
    ensures var e := After(Idle(bamboo), steps);
            && (e.slot.Warm? ==> OnlyCompleted(e.turns, e.slot.conn))
            && ReuseOnlyAfterCompletion(e)
  {
    RunKeepsInv(Idle(bamboo), steps);
  }

  // ---------- Outcomes as the steps tell them ----------

  predicate BeginsOn(e: Executor, step: Step, c: Conn) {
    step.BeginTurn? && step.act in e.acts && e.acts[step.act].phase == Holding(c)
  }

  predicate EndsOn(e: Executor, step: Step, c: Conn, completed: bool) {
    && step.EndTurn? && step.completed == completed
    && step.act in e.acts && e.acts[step.act].phase.Driving? && e.acts[step.act].phase.conn == c
  }

  /** How many turns the steps begin on a connection. */
  ghost function Begins(e: Executor, steps: seq<Step>, c: Conn): int
    requires IsRun(e, steps)
    decreases |steps|
  {
    if steps == [] then 0
    else (if BeginsOn(e, steps[0], c) then 1 else 0) + Begins(Next(e, steps[0]), steps[1..], c)
  }

  /** And how many they end, completed or not. */
  ghost function Ends(e: Executor, steps: seq<Step>, c: Conn, completed: bool): int
    requires IsRun(e, steps)
    decreases |steps|
  {
    if steps == [] then 0
    else (if EndsOn(e, steps[0], c, completed) then 1 else 0) + Ends(Next(e, steps[0]), steps[1..], c, completed)
  }

  function Tally(turns: seq<Turn>, c: Conn, outcome: TurnOutcome): int
    decreases |turns|
  {
    if turns == [] then 0
    else Tally(turns[..|turns| - 1], c, outcome) + if turns[|turns| - 1] == Turn(c, outcome) then 1 else 0
  }

  lemma {:induction false} TallyAppend(turns: seq<Turn>, turn: Turn, c: Conn, outcome: TurnOutcome)
    ensures Tally(turns + [turn], c, outcome) == Tally(turns, c, outcome) + if turn == Turn(c, outcome) then 1 else 0
  {
    assert (turns + [turn])[..|turns|] == turns;
  }

  lemma {:induction false} TallyOfCompleted(turns: seq<Turn>, c: Conn, outcome: TurnOutcome)
    requires OnlyCompleted(turns, c) && outcome != Completed
    ensures Tally(turns, c, outcome) == 0
    decreases |turns|
  {
    if turns != [] { TallyOfCompleted(turns[..|turns| - 1], c, outcome); }
  }

  /** What one step adds to the tally of a connection's turns. */
  function Added(e: Executor, step: Step, c: Conn, outcome: TurnOutcome): int {
    var begun := if BeginsOn(e, step, c) then 1 else 0;
    var done := if EndsOn(e, step, c, true) then 1 else 0;
    var failed := if EndsOn(e, step, c, false) then 1 else 0;
    match outcome
    case Unfinished => begun - done - failed
    case Completed => done
    case NotCompleted => failed
  }

  lemma {:induction false} StepTallies(e: Executor, step: Step, c: Conn, outcome: TurnOutcome)
    requires Inv(e) && Enabled(e, step)
    ensures Tally(Next(e, step).turns, c, outcome) == Tally(e.turns, c, outcome) + Added(e, step, c, outcome)
  {
    match step
    case BeginTurn(act) =>
      TallyAppend(e.turns, Turn(e.acts[act].phase.conn, Unfinished), c, outcome);
    case EndTurn(act, completed) =>
      var Driving(own, turn) := e.acts[act].phase;
      var earlier := e.turns[..turn];
      var ended := Next(e, step).turns[turn];
      assert Holder(e) == e.acts[act];
      assert e.turns == earlier + [Turn(own, Unfinished)];
      assert Next(e, step).turns == earlier + [ended];
      TallyAppend(earlier, Turn(own, Unfinished), c, outcome);
      TallyAppend(earlier, ended, c, outcome);
    case _ =>
      assert Next(e, step).turns == e.turns;
  }

  lemma {:induction false} RunTallies(e: Executor, steps: seq<Step>, c: Conn)
    requires Inv(e) && IsRun(e, steps)
    ensures var turns := After(e, steps).turns;
            && Tally(turns, c, Completed) == Tally(e.turns, c, Completed) + Ends(e, steps, c, true)
            && Tally(turns, c, NotCompleted) == Tally(e.turns, c, NotCompleted) + Ends(e, steps, c, false)
            && Tally(turns, c, Unfinished)
                 == Tally(e.turns, c, Unfinished) + Begins(e, steps, c)
                      - Ends(e, steps, c, true) - Ends(e, steps, c, false)
    decreases |steps|
  {
    if steps != [] {
      StepKeepsInv(e, steps[0]);
      StepTallies(e, steps[0], c, Completed);
      StepTallies(e, steps[0], c, NotCompleted);
      StepTallies(e, steps[0], c, Unfinished);
      RunTallies(Next(e, steps[0]), steps[1..], c);
    }
  }

  /** The connection is parked, or an activation is about to drive it. */
  predicate MayBeDriven(e: Executor, c: Conn) {
    e.slot == Warm(c) || (e.lock.HeldBy? && Holder(e).phase == Holding(c))
  }

  /** On every run, a parked connection, and one about to be driven, has had no turn that
      ended without completing, and every turn begun on it has ended. */
  lemma DrivableMeansAllCompleted(bamboo: bool, steps: seq<Step>, c: Conn)
    requires IsRun(Idle(bamboo), steps) && MayBeDriven(After(Idle(bamboo), steps), c)
    ensures Ends(Idle(bamboo), steps, c, false) == 0
    ensures Ends(Idle(bamboo), steps, c, true) == Begins(Idle(bamboo), steps, c)
  {
    RunKeepsInv(Idle(bamboo), steps);
    RunTallies(Idle(bamboo), steps, c);
    var e := After(Idle(bamboo), steps);
    TallyOfCompleted(e.turns, c, NotCompleted);
    TallyOfCompleted(e.turns, c, Unfinished);
  }

  predicate MayNotPark(e: Executor, a: Act) {
    && a in e.acts
    && (e.acts[a].phase.Drove? ==> e.acts[a].phase.outcome == NotCompleted)
    && (e.acts[a].phase.Drove? || e.acts[a].phase in {Unwinding, Cleared, Gone})
  }

  lemma {:induction false} NeverParks(e: Executor, steps: seq<Step>, a: Act)
    requires IsRun(e, steps) && MayNotPark(e, a)
    ensures Park(a) !in steps
    decreases |steps|
  {
    if steps != [] {
      assert MayNotPark(Next(e, steps[0]), a);
      NeverParks(Next(e, steps[0]), steps[1..], a);
      assert steps == [steps[0]] + steps[1..];
    }
  }

  /** A turn that ended without completing is followed by no park of its activation. */
  lemma {:induction false} FailedTurnIsNotParked(e: Executor, steps: seq<Step>, i: nat, a: Act)
    requires IsRun(e, steps) && i < |steps| && steps[i] == EndTurn(a, false)
    ensures Park(a) !in steps[i..]
    decreases |steps|
  {
    if i == 0 {
      assert MayNotPark(Next(e, steps[0]), a);
      NeverParks(Next(e, steps[0]), steps[1..], a);
      assert steps == [steps[0]] + steps[1..];
    } else {
      FailedTurnIsNotParked(Next(e, steps[0]), steps[1..], i - 1, a);
      assert steps[1..][i - 1..] == steps[i..];
    }
  }

  /** A turn that ended completed may be parked, and its connection is then in the slot. */
  lemma {:induction false} CompletedTurnMayPark(e: Executor, a: Act)
    requires Enabled(e, EndTurn(a, true))
    ensures var ended := Next(e, EndTurn(a, true));
            Enabled(ended, Park(a)) && Next(ended, Park(a)).slot == Warm(e.acts[a].phase.conn)
  {
  }

  /** A process that starts is a connection nobody had before; one that does not leaves
      the activation without any. */
  lemma {:induction false} StartByOutcome(e: Executor, a: Act, ok: bool)
    requires Inv(e) && Enabled(e, Start(a, ok))
    ensures var n := Next(e, Start(a, ok));
            && n.slot == Empty && n.turns == e.turns && n.file == e.file && n.lock == e.lock
            && if ok then n.acts[a].phase.Holding? && forall t :: t in e.turns ==> t.conn != n.acts[a].phase.conn
               else n.acts[a].phase == Unwinding
  {
    assert Holder(e) == e.acts[a];
  }

  /** Nothing but a park puts a connection into the slot. */
  lemma {:induction false} OnlyParkFillsTheSlot(e: Executor, step: Step)
    requires Enabled(e, step) && Next(e, step).slot.Warm? && Next(e, step).slot != e.slot
    ensures step.Park? && step.act in e.acts && e.acts[step.act].phase == Drove(Next(e, step).slot.conn, Completed)
  {
  }

  // ---------- The executor ----------

  class AppServerExecutor {
    const bamboo: bool
    var acts: map<Act, Activation>
    var lock: Lock
    var file: string
    var slot: Slot
    var nextConn: Conn
    ghost var turns: seq<Turn>

    constructor (bamboo: bool)
      ensures View() == Idle(bamboo)
    {
      this.bamboo := bamboo;
      acts, lock, file, slot, nextConn, turns := map[], Free, "", Empty, 0, [];
    }

    ghost function View(): Executor
      reads this
    {
      Executor(bamboo, acts, lock, file, slot, nextConn, turns)
    }

    method SetPhase(act: Act, phase: Phase)
      requires act in acts
      modifies this`acts
      ensures acts == old(acts)[act := old(acts)[act].(phase := phase)]
    {
      acts := acts[act := acts[act].(phase := phase)];
    }

    /** install_run_token: the guard exists from the open on, so a failed write is
        cleared when the error return drops it. */
    method InstallRunToken(act: Act, result: InstallResult) returns (ok: bool)
      requires Inv(View()) && Enabled(View(), Install(act, result))
      modifies this
      ensures View() == Next(old(View()), Install(act, result)) && Inv(View())
      ensures ok <==> acts[act].phase == Installed
      ensures ok <==> !bamboo || (old(acts)[act].token.Some? && result == WriteOk)
      ensures !ok ==> acts[act].phase == Unwinding
      ensures ok && bamboo ==> acts[act].token == Some(file) && acts[act].guard
    {
      StepKeepsInv(View(), Install(act, result));
      if !bamboo {
        SetPhase(act, Installed);
        return true;
      }
      if acts[act].token.None? {
        SetPhase(act, Unwinding);
        return false;
      }
      match result {
        case OpenFails(truncated) =>
          if truncated { file := ""; }
          SetPhase(act, Unwinding);
          return false;
        case WriteFails(written) =>
          acts := acts[act := acts[act].(guard := true)];
          file := written;
          SetPhase(act, Unwinding);
          return false;
        case WriteOk =>
          acts := acts[act := acts[act].(guard := true)];
          file := acts[act].token.value;
          SetPhase(act, Installed);
          return true;
      }
    }

    /** take_connection: empty the slot, keep what was there only if it is alive. */
    method TakeWarm(act: Act, alive: bool) returns (taken: Option<Conn>)
      requires Inv(View()) && Enabled(View(), TakeConnection(act, alive))
      modifies this
      ensures View() == Next(old(View()), TakeConnection(act, alive)) && Inv(View())
      ensures taken.Some? ==> OnlyCompleted(turns, taken.value) && acts[act].phase == Holding(taken.value)
      ensures taken.Some? <==> old(slot).Warm? && alive
      ensures taken.Some? ==> old(slot) == Warm(taken.value)
      ensures slot == Empty && (taken.None? ==> acts[act].phase == Starting)
    {
      StepKeepsInv(View(), TakeConnection(act, alive));
      var previous := slot;
      slot := Empty;
      if previous.Warm? && alive {
        SetPhase(act, Holding(previous.conn));
        return Some(previous.conn);
      }
      SetPhase(act, Starting);
      return None;
    }

    /** The end of run_inner: only a completed turn puts its connection back. */
    method ParkOrDrop(act: Act)
      requires Inv(View()) && act in acts && acts[act].phase.Drove?
      modifies this
      ensures var outcome := old(acts)[act].phase.outcome;
              View() == Next(old(View()), if outcome == Completed then Park(act) else Leave(act))
      ensures Inv(View())
      ensures acts[act].phase == Unwinding
      ensures slot == if old(acts)[act].phase.outcome == Completed then Warm(old(acts)[act].phase.conn) else Empty
    {
      var Drove(c, outcome) := acts[act].phase;
      StepKeepsInv(View(), if outcome == Completed then Park(act) else Leave(act));
      if outcome == Completed {
        slot := Warm(c);
      }
      SetPhase(act, Unwinding);
    }

    /** The two guards of `run`, dropped in reverse order of their making. */
    method DropGuards(act: Act)
      requires Inv(View()) && act in acts && acts[act].phase == Unwinding
      modifies this
      ensures Enabled(old(View()), ClearToken(act)) && Enabled(Next(old(View()), ClearToken(act)), Unlock(act))
      ensures View() == Next(Next(old(View()), ClearToken(act)), Unlock(act))
      ensures Inv(View()) && file == "" && lock == Free
    {
      StepKeepsInv(View(), ClearToken(act));
      if acts[act].guard { file := ""; }
      SetPhase(act, Cleared);
      StepKeepsInv(View(), Unlock(act));
      lock := Free;
      SetPhase(act, Gone);
    }
  }
}
