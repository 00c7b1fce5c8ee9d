/** The Codex process tree: the descendant walk over a process-table snapshot, and
    the owner that must finish the kill when its cleanup future is dropped. */
module ProcessTree {
  import opened Outcomes
  import opened Collections

  type Pid = int

  /** One refresh of the process table: each pid's parent, if it has one. Nothing
      rules out cycles; a table is read while processes come and go. */
  type Table = map<Pid, Option<Pid>>

  // ---------- What a descendant is ----------

  ghost predicate ChainTo(table: Table, pid: Pid, root: Pid, n: nat)
    decreases n
  {
    if n == 0 then pid == root
    else pid in table && table[pid].Some? && ChainTo(table, table[pid].value, root, n - 1)
  }

  /** pid is not the root and its parent chain reaches the root. */
  ghost predicate Descends(table: Table, root: Pid, pid: Pid) {
    pid != root && exists n: nat :: ChainTo(table, pid, root, n)
  }

  ghost predicate ParentsFirst(table: Table, root: Pid, pids: seq<Pid>) {
    forall i :: 0 <= i < |pids| ==>
      && pids[i] in table && table[pids[i]].Some?
      && (table[pids[i]].value == root || table[pids[i]].value in pids[..i])
  }

  /** What descendant_processes must return: every descendant, once, parents first. */
  ghost predicate IsDescendantWalk(table: Table, root: Pid, pids: seq<Pid>) {
    && (forall pid :: pid in pids <==> Descends(table, root, pid))
    && Distinct(pids)
    && ParentsFirst(table, root, pids)
  }

  lemma {:induction false} ChainStaysKnown(table: Table, root: Pid, known: set<Pid>, pid: Pid, n: nat)
    requires root in known && ChainTo(table, pid, root, n)
    requires forall p :: p in table && table[p].Some? && table[p].value in known ==> p in known
    ensures pid in known
    decreases n
  {
    if n > 0 { ChainStaysKnown(table, root, known, table[pid].value, n - 1); }
  }

  lemma ChildDescends(table: Table, root: Pid, pid: Pid)
    requires pid in table && table[pid].Some? && pid != root
    requires table[pid].value == root || Descends(table, root, table[pid].value)
    ensures Descends(table, root, pid)
  {
    assert ChainTo(table, root, root, 0);
    var n: nat :| ChainTo(table, table[pid].value, root, n);
    assert ChainTo(table, pid, root, n + 1);
  }

  lemma ParentsFirstGrows(table: Table, root: Pid, pids: seq<Pid>, pid: Pid)
    requires ParentsFirst(table, root, pids)
    requires pid in table && table[pid].Some? && (table[pid].value == root || table[pid].value in pids)
    ensures ParentsFirst(table, root, pids + [pid])
  {
    var longer := pids + [pid];
    forall i | 0 <= i < |longer|
      ensures longer[i] in table && table[longer[i]].Some?
      ensures table[longer[i]].value == root || table[longer[i]].value in longer[..i]
    {
      assert longer[..i] == pids[..i];
      if i == |pids| { assert pids[..i] == pids; }
    }
  }

  /** Repeated sweeps over the table, in whatever order the map iterates, until a
      sweep adds nothing. */
  method DescendantProcesses(table: Table, iteration: seq<Pid>, root: Pid) returns (descendants: seq<Pid>)
    requires forall pid :: pid in iteration <==> pid in table
    ensures IsDescendantWalk(table, root, descendants)
  {
    var known := {root};
    descendants := [];
    var added := true;
    while added
      invariant known == {root} + (set p | p in descendants)
      invariant root !in descendants && Distinct(descendants)
      invariant ParentsFirst(table, root, descendants)
      invariant forall pid :: pid in descendants ==> Descends(table, root, pid)
      invariant known - {root} <= table.Keys
      invariant !added ==> forall p :: p in table && table[p].Some? && table[p].value in known ==> p in known
      decreases table.Keys - known, added
    {
      added := false;
      ghost var before := known;
      for i := 0 to |iteration|
        invariant known == {root} + (set p | p in descendants)
        invariant root !in descendants && Distinct(descendants)
        invariant ParentsFirst(table, root, descendants)
        invariant forall pid :: pid in descendants ==> Descends(table, root, pid)
        invariant before <= known && known - {root} <= table.Keys
        invariant added ==> exists p :: p in known && p !in before
        invariant !added ==> known == before && forall k :: 0 <= k < i ==>
          (var p := iteration[k]; p in known || table[p].None? || table[p].value !in known)
      {
        var pid := iteration[i];
        var parent := table[pid];
        if pid !in known && parent.Some? && parent.value in known {
          ChildDescends(table, root, pid);
          ParentsFirstGrows(table, root, descendants, pid);
          known := known + {pid};
          descendants := descendants + [pid];
          added := true;
        }
      }
      if added {
        assert table.Keys - known < table.Keys - before;
      }
    }
    forall pid | Descends(table, root, pid) ensures pid in descendants {
      var n: nat :| ChainTo(table, pid, root, n);
      ChainStaysKnown(table, root, known, pid, n);
    }
  }

  // ---------- The termination protocol ----------

  datatype Signal = Term | Kill
  datatype Target = Process(pid: Pid) | Group(pgid: Pid)

  /** What the kernel saw: a signal, or a probe that found neither the leader's group
      nor any of the processes. */
  datatype Event = Sent(target: Target, signal: Signal) | SeenGone(group: Pid, pids: seq<Pid>)

  /** Signals to a list of processes: last entry first, as `iter().rev()` does. */
  function Reversed(pids: seq<Pid>, signal: Signal): seq<Event> {
    if pids == [] then []
    else [Sent(Process(pids[|pids| - 1]), signal)] + Reversed(pids[..|pids| - 1], signal)
  }

  lemma {:induction false} ReversedAt(pids: seq<Pid>, signal: Signal)
    ensures |Reversed(pids, signal)| == |pids|
    ensures forall k :: 0 <= k < |pids| ==> Reversed(pids, signal)[k] == Sent(Process(pids[|pids| - 1 - k]), signal)
  {
    if pids != [] {
      var rest := pids[..|pids| - 1];
      ReversedAt(rest, signal);
      forall k | 0 <= k < |pids| ensures Reversed(pids, signal)[k] == Sent(Process(pids[|pids| - 1 - k]), signal) {
        if k > 0 { assert Reversed(pids, signal)[k] == Reversed(rest, signal)[k - 1]; }
      }
    }
  }

  /** Walking backwards signals every child before its parent. */
  lemma ChildrenAreSignalledFirst(table: Table, root: Pid, pids: seq<Pid>, signal: Signal, i: nat, j: nat)
    requires IsDescendantWalk(table, root, pids) && i < |pids| && j < |pids|
    requires table[pids[i]] == Some(pids[j])
    ensures j < i
    ensures |Reversed(pids, signal)| == |pids|
    ensures Reversed(pids, signal)[|pids| - 1 - i] == Sent(Process(pids[i]), signal)
    ensures Reversed(pids, signal)[|pids| - 1 - j] == Sent(Process(pids[j]), signal)
    ensures |pids| - 1 - i < |pids| - 1 - j
  {
    assert pids[j] in pids;
    var k :| 0 <= k < i && pids[..i][k] == pids[j];
    assert pids[k] == pids[j];
    ReversedAt(pids, signal);
  }

  predicate SettlesTarget(event: Event, target: Target) {
    match event
    case Sent(t, signal) => t == target && signal == Kill
    case SeenGone(group, pids) => if target.Group? then target.pgid == group else target.pid in pids
  }

  /** The target was sent TERM, and has since neither been sent KILL nor been seen gone. */
  predicate Owed(events: seq<Event>, target: Target)
    decreases |events|
  {
    if events == [] then false
    else
      var last := events[|events| - 1];
      last == Sent(target, Term) || (!SettlesTarget(last, target) && Owed(events[..|events| - 1], target))
  }

  lemma {:induction false} OwedAppend(events: seq<Event>, event: Event, target: Target)
    ensures Owed(events + [event], target) <==>
              event == Sent(target, Term) || (!SettlesTarget(event, target) && Owed(events, target))
  {
    assert (events + [event])[..|events|] == events;
  }

  lemma {:induction false} OwedAfterSignals(events: seq<Event>, pids: seq<Pid>, signal: Signal, target: Target)
    ensures Owed(events + Reversed(pids, signal), target) <==>
              if target.Process? && target.pid in pids then signal == Term else Owed(events, target)
    decreases |pids|
  {
    if pids == [] {
      assert events + Reversed(pids, signal) == events;
    } else {
      var last := Sent(Process(pids[|pids| - 1]), signal);
      OwedAppend(events, last, target);
      OwedAfterSignals(events + [last], pids[..|pids| - 1], signal, target);
      assert events + Reversed(pids, signal) == (events + [last]) + Reversed(pids[..|pids| - 1], signal);
      assert forall pid :: pid in pids <==> pid in pids[..|pids| - 1] || pid == pids[|pids| - 1];
    }
  }

  /** The processes of a list, and then the group. */
  function Signals(pids: seq<Pid>, group: Pid, signal: Signal): seq<Event> {
    Reversed(pids, signal) + [Sent(Group(group), signal)]
  }

  lemma {:induction false} OwedAfterAll(events: seq<Event>, pids: seq<Pid>, group: Pid, signal: Signal, target: Target)
    ensures Owed(events + Signals(pids, group, signal), target) <==>
              if target == Group(group) || (target.Process? && target.pid in pids) then signal == Term
              else Owed(events, target)
  {
    OwedAfterSignals(events, pids, signal, target);
    OwedAppend(events + Reversed(pids, signal), Sent(Group(group), signal), target);
    assert events + Signals(pids, group, signal) == events + Reversed(pids, signal) + [Sent(Group(group), signal)];
  }

  /** Where the cleanup future stands. Each of Polling, Reaping and KillWait is an
      await point: the transport may drop the future, and the owner, there. */
  datatype Phase = Idle | Polling | Reaping | KillWait | Dropped

  /** The owner's fields, the future's local snapshot, and what the kernel saw. */
  datatype Owner = Owner(
    leader: Pid,
    reaped: bool,                 // `child.id()` is None from then on
    pgid: Option<Pid>,
    terminating: seq<Pid>,        // the `terminating_descendants` field
    phase: Phase,
    snapshot: seq<Pid>,           // the future's `descendants`
    events: seq<Event>)

  function Spawned(leader: Pid): Owner {
    Owner(leader, false, Some(leader), [], Idle, [], [])
  }

  /** What happens to an owner. Walks and probes carry what the kernel answered. */
  datatype Step =
    | LeaderReaped                       // a `try_wait` or `wait` elsewhere saw the exit
    | Begin(table: Table, walk: seq<Pid>)
    | Poll(reapedNow: bool, groupExists: bool, alive: set<Pid>, deadlinePassed: bool)
    | WaitDone
    | FutureDropped                      // the cleanup future alone is dropped
    | OwnerDropped(table: Table, walk: seq<Pid>)

  ghost predicate Enabled(o: Owner, step: Step) {
    match step
    case LeaderReaped => o.phase == Idle
    case Begin(table, walk) => o.phase == Idle && IsDescendantWalk(table, o.leader, walk)
    case Poll(_, _, _, _) => o.phase == Polling
    case WaitDone => o.phase == Reaping || o.phase == KillWait
    case FutureDropped => o.phase in {Polling, Reaping, KillWait}
    case OwnerDropped(table, walk) => o.phase != Dropped && IsDescendantWalk(table, o.leader, walk)
  }

  /** What the drop sends KILL to. */
  function DropList(o: Owner, walk: seq<Pid>): seq<Pid> {
    if o.reaped then o.terminating else o.terminating + walk
  }

  function Next(o: Owner, step: Step): Owner {
    match step
    case LeaderReaped => o.(reaped := true)
    case Begin(_, walk) =>
      if o.reaped then o
      else o.(terminating := walk, snapshot := walk, phase := Polling,
              events := o.events + Signals(walk, o.leader, Term))
    case Poll(reapedNow, groupExists, alive, deadlinePassed) =>
      var p := o.(reaped := o.reaped || reapedNow);
      if !groupExists && (forall pid :: pid in o.snapshot ==> pid !in alive) then
        p.(phase := Reaping, events := o.events + [SeenGone(o.leader, o.snapshot)])
      else if deadlinePassed then
        p.(phase := KillWait, events := o.events + Signals(o.snapshot, o.leader, Kill))
      else p
    case WaitDone =>
      if o.phase == Reaping then o.(reaped := true, pgid := None, terminating := [], phase := Idle)
      else o.(reaped := true, phase := Idle)
    case FutureDropped => o.(phase := Idle)
    case OwnerDropped(_, walk) =>
      if o.pgid.None? then o.(phase := Dropped)
      else
        var all := DropList(o, walk);
        o.(terminating := all, phase := Dropped, events := o.events + Signals(all, o.pgid.value, Kill))
  }

  ghost predicate IsRun(o: Owner, steps: seq<Step>)
    decreases |steps|
  {
    steps == [] || (Enabled(o, steps[0]) && IsRun(Next(o, steps[0]), steps[1..]))
  }

  ghost function After(o: Owner, steps: seq<Step>): Owner
    decreases |steps|
  {
    if steps == [] then o else After(Next(o, steps[0]), steps[1..])
  }

  /** Nothing the owner keeps on record is owed, nor is the group. */
  ghost predicate RecordIsSettled(o: Owner) {
    && !Owed(o.events, Group(o.leader))
    && forall pid :: pid in o.terminating ==> !Owed(o.events, Process(pid))
  }

  ghost predicate Inv(o: Owner) {
    && (o.pgid.Some? ==> o.pgid.value == o.leader)
    && (o.phase in {Polling, Reaping, KillWait} ==> o.pgid.Some? && o.terminating == o.snapshot)
    && (o.pgid.None? ==> o.reaped && o.terminating == [])
    && (o.pgid.None? || o.phase in {Reaping, Dropped} ==> RecordIsSettled(o))
  }

  lemma {:induction false} StepKeepsInv(o: Owner, step: Step)
    requires Inv(o) && Enabled(o, step)
    ensures Inv(Next(o, step))
  {
    var n := Next(o, step);
    if step.Poll? && n.phase == Reaping {
      forall target: Target
        ensures Owed(n.events, target) <==>
                  !SettlesTarget(SeenGone(o.leader, o.snapshot), target) && Owed(o.events, target)
      {
        OwedAppend(o.events, SeenGone(o.leader, o.snapshot), target);
      }
    } else if step.OwnerDropped? && o.pgid.Some? {
      DropSettlesRecord(o, n.terminating);
    }
  }

  lemma {:induction false} DropSettlesRecord(o: Owner, all: seq<Pid>)
    ensures !Owed(o.events + Signals(all, o.leader, Kill), Group(o.leader))
    ensures forall pid :: pid in all ==> !Owed(o.events + Signals(all, o.leader, Kill), Process(pid))
  {
    OwedAfterAll(o.events, all, o.leader, Kill, Group(o.leader));
    forall pid | pid in all ensures !Owed(o.events + Signals(all, o.leader, Kill), Process(pid)) {
      OwedAfterAll(o.events, all, o.leader, Kill, Process(pid));
    }
  }

  lemma {:induction false} RunKeepsInv(o: Owner, steps: seq<Step>)
    requires Inv(o) && IsRun(o, steps)
    ensures Inv(After(o, steps)) && After(o, steps).leader == o.leader
    decreases |steps|
  {
    if steps != [] {
      StepKeepsInv(o, steps[0]);
      RunKeepsInv(Next(o, steps[0]), steps[1..]);
    }
  }

  // ---------- Which processes the drop leaves owed ----------

  /** Owed, and not on the owner's record. */
  ghost predicate IsLost(o: Owner, pid: Pid) {
    Owed(o.events, Process(pid)) && pid !in o.terminating
  }

  /** A second termination replaces the record, although the process is owed. */
  ghost predicate Forgets(o: Owner, step: Step, pid: Pid) {
    step.Begin? && !o.reaped && Owed(o.events, Process(pid)) && pid !in step.walk
  }

  /** A later walk that reaches a signal shows the process again. */
  ghost predicate Catches(o: Owner, step: Step, pid: Pid) {
    && (step.Begin? || (step.OwnerDropped? && o.pgid.Some?)) && !o.reaped
    && pid in step.walk
  }

  ghost predicate NeverCaught(o: Owner, steps: seq<Step>, pid: Pid)
    decreases |steps|
  {
    steps == [] || (!Catches(o, steps[0], pid) && NeverCaught(Next(o, steps[0]), steps[1..], pid))
  }

  /** Some termination forgets the process, and no later walk shows it. */
  ghost predicate Forgotten(o: Owner, steps: seq<Step>, pid: Pid)
    decreases |steps|
  {
    && steps != []
    && var rest := Next(o, steps[0]);
       || (Forgets(o, steps[0], pid) && NeverCaught(rest, steps[1..], pid))
       || Forgotten(rest, steps[1..], pid)
  }

  lemma {:induction false} StepLoses(o: Owner, step: Step, pid: Pid)
    requires Inv(o) && Enabled(o, step)
    ensures IsLost(Next(o, step), pid) <==> Forgets(o, step, pid) || (IsLost(o, pid) && !Catches(o, step, pid))
  {
    var target := Process(pid);
    match step
    case Begin(_, walk) => OwedAfterAll(o.events, walk, o.leader, Term, target);
    case Poll(_, _, _, _) =>
      OwedAppend(o.events, SeenGone(o.leader, o.snapshot), target);
      OwedAfterAll(o.events, o.snapshot, o.leader, Kill, target);
    case OwnerDropped(_, walk) =>
      OwedAfterAll(o.events, DropList(o, walk), o.leader, Kill, target);
    case _ =>
  }

  lemma {:induction false} RunLoses(o: Owner, steps: seq<Step>, pid: Pid)
    requires Inv(o) && IsRun(o, steps)
    ensures IsLost(After(o, steps), pid) <==> Forgotten(o, steps, pid) || (IsLost(o, pid) && NeverCaught(o, steps, pid))
    decreases |steps|
  {
    if steps != [] {
      StepKeepsInv(o, steps[0]);
      StepLoses(o, steps[0], pid);
      RunLoses(Next(o, steps[0]), steps[1..], pid);
    }
  }

  /** At whichever await point the owner is dropped, on every run from spawn, with any
      number of terminations begun: the group is settled, and a process that was ever
      sent TERM is left without KILL, and not seen gone, exactly if a later termination
      forgot it. */
  lemma DroppedOwnerIsSettled(leader: Pid, steps: seq<Step>, target: Target)
    requires IsRun(Spawned(leader), steps) && After(Spawned(leader), steps).phase == Dropped
    requires target == Group(leader) || target.Process?
    ensures Owed(After(Spawned(leader), steps).events, target) <==>
              target.Process? && Forgotten(Spawned(leader), steps, target.pid)
  {
    RunKeepsInv(Spawned(leader), steps);
    if target.Process? { RunLoses(Spawned(leader), steps, target.pid); }
  }

  /** Each termination that sends TERM finds in its walk all that is still owed. */
  ghost predicate TerminationsCover(o: Owner, steps: seq<Step>)
    decreases |steps|
  {
    steps == [] || ((forall pid :: !Forgets(o, steps[0], pid)) && TerminationsCover(Next(o, steps[0]), steps[1..]))
  }

  lemma {:induction false} CoveringForgetsNothing(o: Owner, steps: seq<Step>, pid: Pid)
    requires TerminationsCover(o, steps)
    ensures !Forgotten(o, steps, pid)
    decreases |steps|
  {
    if steps != [] { CoveringForgetsNothing(Next(o, steps[0]), steps[1..], pid); }
  }

  /** Then everything TERM was ever sent to is settled by the drop. */
  lemma CoveredTerminationsSettle(leader: Pid, steps: seq<Step>, pid: Pid)
    requires IsRun(Spawned(leader), steps) && After(Spawned(leader), steps).phase == Dropped
    requires TerminationsCover(Spawned(leader), steps)
    ensures !Owed(After(Spawned(leader), steps).events, Process(pid))
  {
    CoveringForgetsNothing(Spawned(leader), steps, pid);
    DroppedOwnerIsSettled(leader, steps, Process(pid));
  }

  /** How many terminations send TERM; one of a reaped leader returns at once. */
  ghost function EffectiveTerminations(o: Owner, steps: seq<Step>): nat
    decreases |steps|
  {
    if steps == [] then 0
    else (if steps[0].Begin? && !o.reaped then 1 else 0) + EffectiveTerminations(Next(o, steps[0]), steps[1..])
  }

  ghost predicate OwesNothing(o: Owner) { forall pid :: !Owed(o.events, Process(pid)) }

  lemma {:induction false} OnlyTermOwes(o: Owner, step: Step)
    requires Inv(o) && Enabled(o, step) && OwesNothing(o) && !(step.Begin? && !o.reaped)
    ensures OwesNothing(Next(o, step))
  {
    forall pid ensures !Owed(Next(o, step).events, Process(pid)) {
      match step
      case Poll(_, _, _, _) =>
        OwedAppend(o.events, SeenGone(o.leader, o.snapshot), Process(pid));
        OwedAfterAll(o.events, o.snapshot, o.leader, Kill, Process(pid));
      case OwnerDropped(_, walk) => OwedAfterAll(o.events, DropList(o, walk), o.leader, Kill, Process(pid));
      case _ =>
    }
  }

  lemma {:induction false} SingleTerminationCovers(o: Owner, steps: seq<Step>)
    requires Inv(o) && IsRun(o, steps)
    requires EffectiveTerminations(o, steps) <= if OwesNothing(o) then 1 else 0
    ensures TerminationsCover(o, steps)
    decreases |steps|
  {
    if steps != [] {
      StepKeepsInv(o, steps[0]);
      if OwesNothing(o) && !(steps[0].Begin? && !o.reaped) { OnlyTermOwes(o, steps[0]); }
      SingleTerminationCovers(Next(o, steps[0]), steps[1..]);
    }
  }

  /** An owner whose leader is sent TERM by one termination at most, as each executor
      here does, leaves nothing owed. */
  lemma SingleTerminationSettles(leader: Pid, steps: seq<Step>, pid: Pid)
    requires IsRun(Spawned(leader), steps) && After(Spawned(leader), steps).phase == Dropped
    requires EffectiveTerminations(Spawned(leader), steps) <= 1
    ensures !Owed(After(Spawned(leader), steps).events, Process(pid))
  {
    SingleTerminationCovers(Spawned(leader), steps);
    CoveredTerminationsSettle(leader, steps, pid);
  }

  /** The failing input: child 7 of leader 1 is sent TERM, the cleanup is dropped, 7 is
      reparented, and a second termination begins before the owner is dropped. */
  function ForgettingSteps(): seq<Step> {
    [Begin(map[7 := Some(1)], [7]), FutureDropped, Begin(map[], []), OwnerDropped(map[], [])]
  }

  lemma {:induction false} OnlyChildIsTheWalk()
    ensures IsDescendantWalk(map[7 := Some(1)], 1, [7]) && IsDescendantWalk(map[], 1, [])
  {
    var table: Table := map[7 := Some(1)];
    ChildDescends(table, 1, 7);
    forall pid | Descends(table, 1, pid) ensures pid == 7 {
      var n: nat :| ChainTo(table, pid, 1, n);
    }
    forall pid ensures !Descends(map[], 1, pid) {
      assert forall n: nat :: ChainTo(map[], pid, 1, n) ==> n == 0;
    }
  }

  lemma {:induction false} SecondTerminationForgets()
    ensures IsRun(Spawned(1), ForgettingSteps())
    ensures var o := After(Spawned(1), ForgettingSteps()); o.phase == Dropped && Owed(o.events, Process(7))
  {
    OnlyChildIsTheWalk();
    var steps := ForgettingSteps();
    var o1 := Next(Spawned(1), steps[0]);
    var o2 := Next(o1, FutureDropped);
    var o3 := Next(o2, steps[2]);
    OwedAfterAll([], [7], 1, Term, Process(7));
    OwedAfterAll(o2.events, [], 1, Term, Process(7));
    OwedAfterAll(o3.events, [], 1, Kill, Process(7));
    assert steps[1..] == [FutureDropped, steps[2], steps[3]];
    assert steps[1..][1..] == [steps[2], steps[3]];
    assert steps[1..][1..][1..] == [steps[3]];
    assert [steps[3]][1..] == [];
  }

  // ---------- One poll ----------

  /** Some process of the snapshot, or the group, is still there. */
  ghost predicate StillThere(o: Owner, groupExists: bool, alive: set<Pid>) {
    groupExists || exists pid :: pid in o.snapshot && pid in alive
  }

  /** What a poll does, by what it finds: with nothing left the wait for the leader
      begins; at the deadline every snapshotted process and the group are sent KILL;
      before it nothing is sent and the polling goes on. A reaped leader stays reaped. */
  lemma {:induction false} PollByFindings(o: Owner, poll: Step)
    requires poll.Poll? && Enabled(o, poll)
    ensures var n := Next(o, poll);
            && n.reaped == (o.reaped || poll.reapedNow)
            && n.snapshot == o.snapshot && n.terminating == o.terminating && n.pgid == o.pgid
            && |n.events| >= |o.events| && n.events[..|o.events|] == o.events
            && var sent := n.events[|o.events|..];
               if !StillThere(o, poll.groupExists, poll.alive) then
                 n.phase == Reaping && sent == [SeenGone(o.leader, o.snapshot)]
               else if poll.deadlinePassed then
                 && n.phase == KillWait && Sent(Group(o.leader), Kill) in sent
                 && forall pid :: Sent(Process(pid), Kill) in sent <==> pid in o.snapshot
               else n == o.(reaped := o.reaped || poll.reapedNow)
  {
    var n := Next(o, poll);
    if n.phase == KillWait {
      KillReaches(o.snapshot, o.leader);
      assert n.events[|o.events|..] == Signals(o.snapshot, o.leader, Kill);
      forall pid | Sent(Process(pid), Kill) in Signals(o.snapshot, o.leader, Kill) ensures pid in o.snapshot {
        SignalsOnly(o.snapshot, o.leader, Kill, pid);
      }
    }
  }

  lemma {:induction false} SignalsOnly(pids: seq<Pid>, group: Pid, signal: Signal, pid: Pid)
    requires Sent(Process(pid), signal) in Signals(pids, group, signal)
    ensures pid in pids
  {
    ReversedAt(pids, signal);
    var k :| 0 <= k <= |pids| && Signals(pids, group, signal)[k] == Sent(Process(pid), signal);
    assert k < |pids|;
    assert Reversed(pids, signal)[k] == Sent(Process(pids[|pids| - 1 - k]), signal);
  }

  /** A leader that has been reaped is not terminated: its pid means nothing any more. */
  lemma {:induction false} ReapedLeaderIsLeftAlone(o: Owner, begin: Step)
    requires begin.Begin? && Enabled(o, LeaderReaped)
    ensures var gone := Next(o, LeaderReaped);
            gone.reaped && gone.events == o.events && gone.terminating == o.terminating && Next(gone, begin) == gone
  {
  }

  // ---------- One drop ----------

  lemma {:induction false} KillReaches(pids: seq<Pid>, group: Pid)
    ensures Sent(Group(group), Kill) in Signals(pids, group, Kill)
    ensures forall pid :: pid in pids ==> Sent(Process(pid), Kill) in Signals(pids, group, Kill)
  {
    var killed := Signals(pids, group, Kill);
    ReversedAt(pids, Kill);
    assert killed[|pids|] == Sent(Group(group), Kill);
    forall pid | pid in pids ensures Sent(Process(pid), Kill) in killed {
      var k :| 0 <= k < |pids| && pids[k] == pid;
      assert killed[|pids| - 1 - k] == Sent(Process(pid), Kill);
    }
  }

  /** A process of the latest TERM snapshot that is not settled is killed by the drop
      even if it has been reparented since: no table at the drop needs to show it. */
  lemma ReparentedProcessIsKilled(o: Owner, step: Step, pid: Pid)
    requires Inv(o) && Enabled(o, step) && step.OwnerDropped?
    requires o.phase in {Polling, KillWait} && pid in o.snapshot
    ensures |Next(o, step).events| > |o.events|
    ensures Sent(Process(pid), Kill) in Next(o, step).events[|o.events|..]
    ensures Sent(Group(o.leader), Kill) in Next(o, step).events[|o.events|..]
  {
    var all := DropList(o, step.walk);
    KillReaches(all, o.leader);
    assert Next(o, step).events[|o.events|..] == Signals(all, o.leader, Kill);
  }

  /** Once the leader has been reaped, its pid may be another process's: the drop then
      sends KILL to what is on record and to no process else. */
  lemma {:induction false} ReapedDropStaysOnRecord(o: Owner, step: Step, pid: Pid)
    requires Inv(o) && Enabled(o, step) && step.OwnerDropped? && o.reaped && o.pgid.Some?
    requires |Next(o, step).events| >= |o.events|
    requires Sent(Process(pid), Kill) in Next(o, step).events[|o.events|..]
    ensures pid in o.terminating
  {
    assert Next(o, step).events[|o.events|..] == Signals(o.terminating, o.leader, Kill);
    SignalsOnly(o.terminating, o.leader, Kill, pid);
  }

  /** While the leader has not been reaped, the drop also reaches the descendants of
      that moment, whether or not a termination was ever begun. */
  lemma DropKillsCurrentDescendants(o: Owner, table: Table, walk: seq<Pid>, pid: Pid)
    requires Inv(o) && Enabled(o, OwnerDropped(table, walk))
    requires !o.reaped && Descends(table, o.leader, pid)
    ensures Sent(Process(pid), Kill) in Next(o, OwnerDropped(table, walk)).events
    ensures Sent(Group(o.leader), Kill) in Next(o, OwnerDropped(table, walk)).events
  {
    KillReaches(o.terminating + walk, o.leader);
  }

  // ---------- The owning object ----------

  /** The owning object and its asynchronous cleanup, one method per stretch between
      await points. */
  class ProcessTreeChild {
    const leader: Pid
    var reaped: bool
    var pgid: Option<Pid>
    var terminating: seq<Pid>
    var phase: Phase
    var snapshot: seq<Pid>
    var events: seq<Event>

    constructor (leader: Pid)
      ensures View() == Spawned(leader) && Inv(View())
    {
      this.leader := leader;
      reaped, pgid, terminating, phase, snapshot, events := false, Some(leader), [], Idle, [], [];
    }

    ghost function View(): Owner
      reads this
    {
      Owner(leader, reaped, pgid, terminating, phase, snapshot, events)
    }

    method SignalAll(pids: seq<Pid>, group: Pid, signal: Signal)
      modifies this`events
      ensures events == old(events) + Signals(pids, group, signal)
    {
      ReversedAt(pids, signal);
      for k := 0 to |pids|
        invariant events == old(events) + Reversed(pids, signal)[..k]
      {
        events := events + [Sent(Process(pids[|pids| - 1 - k]), signal)];
      }
      events := events + [Sent(Group(group), signal)];
    }

    /** terminate_child up to its first await. */
    method BeginTermination(table: Table, iteration: seq<Pid>) returns (ghost walk: seq<Pid>)
      requires Inv(View()) && phase == Idle
      requires forall pid :: pid in iteration <==> pid in table
      modifies this
      ensures Enabled(old(View()), Begin(table, walk))
      ensures View() == Next(old(View()), Begin(table, walk)) && Inv(View())
      ensures reaped ==> View() == old(View())
      ensures !reaped ==>
        Owed(events, Group(leader))
        && forall pid :: Descends(table, leader, pid) ==> Owed(events, Process(pid)) && pid in terminating
    {
      var descendants := DescendantProcesses(table, iteration, leader);
      walk := descendants;
      StepKeepsInv(View(), Begin(table, walk));
      if reaped {
        return;
      }
      snapshot, terminating := descendants, descendants;
      SignalAll(descendants, leader, Term);
      phase := Polling;
      OwedAfterAll(old(events), walk, leader, Term, Group(leader));
      forall pid | Descends(table, leader, pid) ensures Owed(events, Process(pid)) {
        OwedAfterAll(old(events), walk, leader, Term, Process(pid));
      }
    }

    /** One turn of the polling loop: reap if possible, then probe. */
    method PollOnce(reapedNow: bool, groupExists: bool, alive: set<Pid>, deadlinePassed: bool)
      requires Inv(View()) && phase == Polling
      modifies this
      ensures View() == Next(old(View()), Poll(reapedNow, groupExists, alive, deadlinePassed)) && Inv(View())
      ensures phase != Polling ==> RecordIsSettled(View())
      ensures phase == Reaping <==> !StillThere(old(View()), groupExists, alive)
      ensures deadlinePassed ==> phase != Polling
      ensures |events| >= |old(events)| && events[..|old(events)|] == old(events)
      ensures deadlinePassed && StillThere(old(View()), groupExists, alive) ==>
                phase == KillWait && Sent(Group(leader), Kill) in events[|old(events)|..]
                && forall pid :: pid in old(snapshot) ==> Sent(Process(pid), Kill) in events[|old(events)|..]
      ensures !deadlinePassed && StillThere(old(View()), groupExists, alive) ==>
                phase == Polling && events == old(events)
      ensures reaped == (old(reaped) || reapedNow)
    {
      PollByFindings(View(), Poll(reapedNow, groupExists, alive, deadlinePassed));
      StepKeepsInv(View(), Poll(reapedNow, groupExists, alive, deadlinePassed));
      reaped := reaped || reapedNow;
      var anyAlive := exists pid :: pid in snapshot && pid in alive;
      if !groupExists && !anyAlive {
        events, phase := events + [SeenGone(leader, snapshot)], Reaping;
        return;
      }
      if deadlinePassed {
        DropSettlesRecord(View(), snapshot);
        SignalAll(snapshot, leader, Kill);
        phase := KillWait;
      }
    }

    /** The final `child.wait()` of either ending. */
    method FinishWait()
      requires Inv(View()) && (phase == Reaping || phase == KillWait)
      modifies this
      ensures View() == Next(old(View()), WaitDone) && Inv(View())
      ensures pgid.None? <==> old(phase) == Reaping
      ensures reaped && phase == Idle && events == old(events)
    {
      StepKeepsInv(View(), WaitDone);
      reaped := true;
      if phase == Reaping {
        pgid, terminating := None, [];
      }
      phase := Idle;
    }

    /** The Drop implementation. */
    method Drop(table: Table, iteration: seq<Pid>) returns (ghost walk: seq<Pid>)
      requires Inv(View()) && phase != Dropped
      requires forall pid :: pid in iteration <==> pid in table
      modifies this
      ensures Enabled(old(View()), OwnerDropped(table, walk))
      ensures View() == Next(old(View()), OwnerDropped(table, walk)) && Inv(View())
      ensures RecordIsSettled(View()) && forall pid :: pid in old(terminating) ==> !Owed(events, Process(pid))
    {
      var descendants := DescendantProcesses(table, iteration, leader);
      walk := descendants;
      StepKeepsInv(View(), OwnerDropped(table, walk));
      if pgid.Some? {
        if !reaped {
          terminating := terminating + descendants;
        }
        SignalAll(terminating, pgid.value, Kill);
      }
      phase := Dropped;
    }
  }
}
