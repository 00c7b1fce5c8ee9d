/** Project worktrees under lease: create, heartbeat, garbage collection and remove
    as steps of a timed machine over the managed directory, its ownership markers,
    the branches, and the heartbeat table of every process that uses the project. */
module Worktree {
  import opened Outcomes
  import opened Text

  type Name = string
  type Process = int

  const RETENTION: int := 7 * 24 * 60 * 60
  const BRANCH_PREFIX := "bamboo/"

  /** An entry of the managed directory. head is the branch HEAD points to, if any. */
  datatype Entry = Entry(isDir: bool, head: Option<string>, modified: int)

  datatype Marker = Marker(content: string, modified: int)

  datatype Beat = Live | Ended

  /** The heartbeat table is a static of one process: a handle is that process's own. */
  datatype Handle = Handle(process: Process, name: Name)

  datatype Project = Project(
    now: int,
    entries: map<Name, Entry>,
    markers: map<Name, Marker>,
    branches: set<string>,
    beats: map<Handle, Beat>,
    approved: multiset<Handle>)  // collection turns between their tests and their removal

  function BranchOf(name: Name): string { BRANCH_PREFIX + name }

  predicate IsNameChar(c: char) {
    'a' <= c <= 'z' || 'A' <= c <= 'Z' || '0' <= c <= '9' || c == '-' || c == '_'
  }

  /** validate_name, after its trim. */
  predicate IsValidName(name: Name) {
    0 < |name| <= 80 && forall i :: 0 <= i < |name| ==> IsNameChar(name[i])
  }

  datatype Failure =
    | InvalidName | PathExists | BranchExists | AddFailed | MarkerFailed
    | Unmanaged | UnexpectedBranch | RemoveFailed | PruneFailed | Interrupted

  /** How far a removal gets once git has taken the checkout: its future may be dropped
      at any await from there on. */
  datatype Progress = CheckoutGone | HandleStopped | MarkerTried | Finished

  /** What git and the file system answer to one operation. */
  datatype Environment = Environment(
    addOk: bool, markerOk: bool, removeOk: bool, unmarkOk: bool, pruneOk: bool, progress: Progress)

  // ---------- The operations ----------

  /** What git prints of HEAD is trimmed before it is compared. */
  predicate NamesBranch(head: Option<string>, name: Name) {
    head.Some? && Trim(head.value) == BranchOf(name)
  }

  predicate HasHead(p: Project, name: Name) {
    name in p.entries && NamesBranch(p.entries[name].head, name)
  }

  predicate IsOwned(p: Project, name: Name) {
    name in p.markers && p.markers[name].content == BranchOf(name)
  }

  predicate BeatsIn(p: Project, process: Process, name: Name) {
    Handle(process, name) in p.beats && p.beats[Handle(process, name)] == Live
  }

  /** The part of remove after the checks: checkout, handle, marker, prune. A marker
      that cannot be deleted is left behind silently. */
  function TakeDown(p: Project, process: Process, name: Name, env: Environment): (Project, Option<Failure>) {
    var unlinked := p.(entries := p.entries - {name});
    if env.progress == CheckoutGone then (unlinked, Some(Interrupted))
    else
      var stopped := unlinked.(beats := p.beats - {Handle(process, name)});
      if env.progress == HandleStopped then (stopped, Some(Interrupted))
      else
        var unmarked := if env.unmarkOk then stopped.(markers := p.markers - {name}) else stopped;
        if env.progress == MarkerTried then (unmarked, Some(Interrupted))
        else (unmarked, if env.pruneOk then None else Some(PruneFailed))
  }

  /** remove, on a name already trimmed and validated. */
  function RemoveNamed(p: Project, process: Process, name: Name, env: Environment): (Project, Option<Failure>) {
    if !IsOwned(p, name) then (p, Some(Unmanaged))
    else if name in p.entries && !HasHead(p, name) then (p, Some(UnexpectedBranch))
    else if !env.removeOk && name in p.entries then (p, Some(RemoveFailed))
    else TakeDown(p, process, name, env)
  }

  function Remove(p: Project, process: Process, raw: Name, env: Environment): (Project, Option<Failure>) {
    if IsValidName(Trim(raw)) then RemoveNamed(p, process, Trim(raw), env) else (p, Some(InvalidName))
  }

  /** create, from the point where its housekeeping pass is over. A failed marker write
      takes the checkout back but leaves the branch. */
  function Create(p: Project, process: Process, raw: Name, env: Environment): (Project, Option<Failure>) {
    var name := Trim(raw);
    if !IsValidName(name) then (p, Some(InvalidName))
    else if name in p.entries then (p, Some(PathExists))
    else if BranchOf(name) in p.branches then (p, Some(BranchExists))
    else if !env.addOk then (p, Some(AddFailed))
    else
      var added := p.(
        entries := p.entries[name := Entry(true, Some(BranchOf(name)), p.now)],
        branches := p.branches + {BranchOf(name)});
      if !env.markerOk then
        ((if env.removeOk then added.(entries := p.entries) else added), Some(MarkerFailed))
      else
        (added.(
           markers := p.markers[name := Marker(BranchOf(name), p.now)],
           beats := p.beats[Handle(process, name) := Live]),
         None)
  }

  /** What one tick's writing comes to: all of it, or an error, with so many characters
      of the branch written before it. A failed open writes none. */
  datatype Writing = Renewed | Broken(written: nat)

  function Overwritten(was: string, text: string): string {
    text + if |text| <= |was| then was[|text|..] else ""
  }

  /** One tick of a heartbeat: it opens an existing marker and rewrites it, or ends. */
  function Tick(p: Project, process: Process, name: Name, writing: Writing): Project {
    var ended := p.(beats := p.beats[Handle(process, name) := Ended]);
    if name !in p.markers then ended
    else match writing
      case Renewed => p.(markers := p.markers[name := Marker(BranchOf(name), p.now)])
      case Broken(written) =>
        var text := if written <= |BranchOf(name)| then BranchOf(name)[..written] else BranchOf(name);
        if text == [] then ended
        else ended.(markers := p.markers[name := Marker(Overwritten(p.markers[name].content, text), p.now)])
  }

  predicate OlderThan(modified: int, now: int, retention: int) { now - modified > retention }

  /** What gc_orphans, in one process, asks of an entry before it removes it; started is
      the time the pass read at its beginning. Only that process's table is asked. */
  predicate IsCollectable(p: Project, process: Process, name: Name, started: int, retention: int) {
    && name in p.entries && IsValidName(Trim(name)) && IsOwned(p, name)
    && !BeatsIn(p, process, name)
    && p.entries[name].isDir
    && OlderThan(p.entries[name].modified, started, retention)
    && OlderThan(p.markers[name].modified, started, retention)
    && HasHead(p, name)
  }

  /** A finished handle is dropped from the table on the way, if the turn gets there. */
  function Reaped(p: Project, process: Process, name: Name): Project {
    var handle := Handle(process, name);
    if && name in p.entries && IsValidName(Trim(name)) && IsOwned(p, name)
       && handle in p.beats && p.beats[handle] == Ended
    then p.(beats := p.beats - {handle}) else p
  }

  /** One turn of the collection loop, with whether it counted a removal. The tests use
      the name as listed; remove trims it. */
  function CollectEntry(p: Project, process: Process, name: Name, started: int, retention: int, env: Environment)
    : (Project, bool)
  {
    var q := Reaped(p, process, name);
    if IsCollectable(p, process, name, started, retention) then
      var (r, failure) := Remove(q, process, name, env);
      (r, failure.None?)
    else (q, false)
  }

  /** The tests of a turn, which let it go on to the removal. */
  function Examine(p: Project, process: Process, name: Name, started: int, retention: int): Project {
    var q := Reaped(p, process, name);
    if IsCollectable(p, process, name, started, retention)
    then q.(approved := q.approved + multiset{Handle(process, name)}) else q
  }

  /** The removal of a turn that passed its tests, whatever has happened since. */
  function TakeAway(p: Project, process: Process, name: Name, env: Environment): (Project, bool) {
    var (r, failure) := Remove(p.(approved := p.approved - multiset{Handle(process, name)}), process, name, env);
    (r, failure.None?)
  }

  /** A turn that nothing comes between is its tests and then its removal. */
  lemma {:induction false} TurnIsTestThenRemoval(
      p: Project, process: Process, name: Name, started: int, retention: int, env: Environment)
    ensures CollectEntry(p, process, name, started, retention, env) ==
              if IsCollectable(p, process, name, started, retention)
              then TakeAway(Examine(p, process, name, started, retention), process, name, env)
              else (Examine(p, process, name, started, retention), false)
  {
    assert p.approved + multiset{Handle(process, name)} - multiset{Handle(process, name)} == p.approved;
  }

  // ---------- The step system ----------

  datatype Step =
    | Wait(elapsed: int)
    | CreateStep(process: Process, raw: Name, env: Environment)
    | RemoveStep(process: Process, raw: Name, env: Environment)
    | ExamineStep(process: Process, name: Name, started: int, retention: int)
    | TakeAwayStep(process: Process, name: Name, env: Environment)
    | Beats(process: Process, name: Name, writing: Writing)
    | Work(name: Name, head: Option<string>)     // the checkout is used, or moved to another branch
    | DeleteBranch(branch: string)

  predicate Enabled(p: Project, step: Step) {
    match step
    case Wait(elapsed) => elapsed >= 0
    case ExamineStep(_, _, started, retention) => started <= p.now && retention >= 0
    case TakeAwayStep(process, name, _) => Handle(process, name) in p.approved
    case Beats(process, name, _) => BeatsIn(p, process, name)
    case Work(name, _) => name in p.entries
    case _ => true
  }

  function Next(p: Project, step: Step): Project {
    match step
    case Wait(elapsed) => p.(now := p.now + elapsed)
    case CreateStep(process, raw, env) => Create(p, process, raw, env).0
    case RemoveStep(process, raw, env) => Remove(p, process, raw, env).0
    case ExamineStep(process, name, started, retention) => Examine(p, process, name, started, retention)
    case TakeAwayStep(process, name, env) => TakeAway(p, process, name, env).0
    case Beats(process, name, writing) => Tick(p, process, name, writing)
    case Work(name, head) =>
      if name in p.entries
      then p.(entries := p.entries[name := p.entries[name].(head := head, modified := p.now)]) else p
    case DeleteBranch(branch) => p.(branches := p.branches - {branch})
  }

  ghost predicate IsRun(p: Project, steps: seq<Step>)
    decreases |steps|
  {
    steps == [] || (Enabled(p, steps[0]) && IsRun(Next(p, steps[0]), steps[1..]))
  }

  ghost function After(p: Project, steps: seq<Step>): Project
    decreases |steps|
  {
    if steps == [] then p else After(Next(p, steps[0]), steps[1..])
  }

  // ---------- Which entry a turn removes ----------

  /** The ideographic space, which trim strips and git allows in a branch name. */
  const IDEOGRAPHIC_SPACE := '\U{3000}'

  lemma {:induction false} ValidNameIsTrimmed(name: Name)
    requires IsValidName(name)
    ensures Trim(name) == name
  {
    TrimKeepsWords(name);
  }

  /** ASCII letters, digits, the hyphen and the underscore, by their codes. */
  predicate HasNameCode(c: char) {
    48 <= c as int <= 57 || 65 <= c as int <= 90 || 97 <= c as int <= 122 || c as int in {45, 95}
  }

  lemma {:induction false} ValidByCode(name: Name)
    ensures IsValidName(name) <==> 1 <= |name| <= 80 && forall c :: c in name ==> HasNameCode(c)
  {
    assert forall c :: IsNameChar(c) <==> HasNameCode(c);
    if IsValidName(name) {
      forall c | c in name ensures HasNameCode(c) {
        var i :| 0 <= i < |name| && name[i] == c;
      }
    } else if 1 <= |name| <= 80 {
      var i :| 0 <= i < |name| && !IsNameChar(name[i]);
      assert name[i] in name && !HasNameCode(name[i]);
    }
  }

  /** Markers are made by create alone, so their names are valid names. */
  ghost predicate MarkersAreNamed(p: Project) {
    forall n :: n in p.markers ==> IsValidName(n)
  }

  /** And only an owned entry is let through to its removal. */
  ghost predicate NamesAreValid(p: Project) {
    MarkersAreNamed(p) && forall h :: h in p.approved ==> IsValidName(h.name)
  }

  lemma {:induction false} RemoveKeepsNames(p: Project, process: Process, raw: Name, env: Environment)
    requires NamesAreValid(p)
    ensures NamesAreValid(Remove(p, process, raw, env).0)
  {
  }

  lemma {:induction false} CreateKeepsNames(p: Project, process: Process, raw: Name, env: Environment)
    requires NamesAreValid(p)
    ensures NamesAreValid(Create(p, process, raw, env).0)
  {
  }

  lemma {:induction false} ExamineKeepsNames(p: Project, process: Process, name: Name, started: int, retention: int)
    requires NamesAreValid(p)
    ensures NamesAreValid(Examine(p, process, name, started, retention))
  {
  }

  lemma {:induction false} TickKeepsNames(p: Project, process: Process, name: Name, writing: Writing)
    requires NamesAreValid(p)
    ensures NamesAreValid(Tick(p, process, name, writing))
  {
  }

  lemma {:induction false} StepKeepsNames(p: Project, step: Step)
    requires NamesAreValid(p)
    ensures NamesAreValid(Next(p, step))
  {
    match step
    case CreateStep(process, raw, env) => CreateKeepsNames(p, process, raw, env);
    case RemoveStep(process, raw, env) => RemoveKeepsNames(p, process, raw, env);
    case ExamineStep(process, name, started, retention) => ExamineKeepsNames(p, process, name, started, retention);
    case TakeAwayStep(process, name, env) =>
      RemoveKeepsNames(p.(approved := p.approved - multiset{Handle(process, name)}), process, name, env);
    case Beats(process, name, writing) => TickKeepsNames(p, process, name, writing);
    case _ =>
  }

  /** A valid name's branch has no white space at its ends. */
  lemma {:induction false} BranchIsTrimmed(name: Name)
    requires IsValidName(name)
    ensures HasCleanEnds(BranchOf(name)) && Trim(BranchOf(name)) == BranchOf(name)
  {
    TrimKeepsCleanEnds(BranchOf(name));
  }

  /** Removal, of an owned entry with a branch checked out, accepts a head exactly if
      its trim is the entry's branch; and the branch so accepted is the entry's own
      exactly if the head is its own trim. */
  lemma {:induction false} HeadAcceptedExactly(p: Project, process: Process, name: Name, env: Environment)
    requires IsValidName(name) && IsOwned(p, name) && env.removeOk
    requires name in p.entries && p.entries[name].head.Some?
    ensures var head := p.entries[name].head.value; var q := Remove(p, process, name, env).0;
            && (name !in q.entries <==> Trim(head) == BranchOf(name))
            && (name !in q.entries ==> (head == BranchOf(name) <==> Trim(head) == head))
  {
    ValidNameIsTrimmed(name);
    BranchIsTrimmed(name);
  }

  /** The failing input: the worktree was moved to another branch, whose name ends in an
      ideographic space. Remove and a collection turn both take it for its own. */
  lemma {:induction false} MovedHeadIsReaped(process: Process, env: Environment)
    requires env.removeOk
    ensures var moved := BranchOf("foo") + [IDEOGRAPHIC_SPACE];
            var p := Project(
              RETENTION + 1,
              map["foo" := Entry(true, Some(moved), 0)],
              map["foo" := Marker(BranchOf("foo"), 0)],
              {BranchOf("foo"), moved}, map[], multiset{});
            && moved != BranchOf("foo") && NamesAreValid(p)
            && "foo" !in Remove(p, process, "foo", env).0.entries
            && "foo" !in CollectEntry(p, process, "foo", p.now, RETENTION, env).0.entries
  {
    ValidNameIsTrimmed("foo");
    BranchIsTrimmed("foo");
    var moved := BranchOf("foo") + [IDEOGRAPHIC_SPACE];
    TrimDropsTrailing(BranchOf("foo"), IDEOGRAPHIC_SPACE);
    assert |moved| != |BranchOf("foo")|;
  }

  /** An entry whose listed name ends in white space is never collected: what the turn
      compares with its branch has been trimmed. */
  lemma {:induction false} SpacedTailIsNeverCollected(
      p: Project, process: Process, name: Name, started: int, retention: int)
    requires name != [] && IsWhitespace(name[|name| - 1])
    ensures !IsCollectable(p, process, name, started, retention)
  {
    if name in p.entries && p.entries[name].head.Some? {
      TrimHasCleanEnds(p.entries[name].head.value);
      assert BranchOf(name)[|BranchOf(name)| - 1] == name[|name| - 1];
    }
  }

  /** A collectable entry is removed under its trimmed name: the turn takes its own
      entry exactly when listing and trim agree. */
  lemma {:induction false} TurnRemovesItsOwnEntryExactly(
      p: Project, process: Process, name: Name, started: int, retention: int, env: Environment)
    requires IsCollectable(p, process, name, started, retention) && env.removeOk
    ensures var q := CollectEntry(p, process, name, started, retention, env).0;
            name !in q.entries <==> Trim(name) == name
  {
  }

  /** The failing input: an entry listed with a leading ideographic space, with its own
      marker and branch. Its turn removes the freshly leased entry without the space. */
  lemma SpacedEntryReapsItsNamesake(process: Process, env: Environment)
    requires env.removeOk && env.unmarkOk && env.progress == Finished
    ensures var spaced := [IDEOGRAPHIC_SPACE] + "foo";
            var p := Project(
              RETENTION + 1,
              map["foo" := Entry(true, Some(BranchOf("foo")), RETENTION + 1),
                   spaced := Entry(true, Some(BranchOf(spaced)), 0)],
              map["foo" := Marker(BranchOf("foo"), RETENTION + 1), spaced := Marker(BranchOf(spaced), 0)],
              {BranchOf("foo"), BranchOf(spaced)},
              map[Handle(process, "foo") := Live], multiset{});
            var q := CollectEntry(p, process, spaced, p.now, RETENTION, env).0;
            && "foo" !in q.entries && "foo" !in q.markers && Handle(process, "foo") !in q.beats
            && spaced in q.entries && !MarkersAreNamed(p)
  {
    var spaced := [IDEOGRAPHIC_SPACE] + "foo";
    TrimDropsLeading(spaced);
    assert spaced[1..] == "foo";
    ValidNameIsTrimmed("foo");
    assert !IsNameChar(spaced[0]);
    assert |spaced| != |"foo"|;
    BranchIsTrimmed("foo");
    TrimKeepsCleanEnds(BranchOf(spaced));
    var p := Project(
      RETENTION + 1,
      map["foo" := Entry(true, Some(BranchOf("foo")), RETENTION + 1), spaced := Entry(true, Some(BranchOf(spaced)), 0)],
      map["foo" := Marker(BranchOf("foo"), RETENTION + 1), spaced := Marker(BranchOf(spaced), 0)],
      {BranchOf("foo"), BranchOf(spaced)},
      map[Handle(process, "foo") := Live], multiset{});
    assert IsCollectable(p, process, spaced, p.now, RETENTION);
    assert IsOwned(p, "foo") && HasHead(p, "foo");
  }

  /** With markers that create made, one turn removes its own entry or none, only if it
      met every condition, and touches no other entry, marker or running heartbeat. */
  lemma {:induction false} CollectTouchesOnlyCollectable(
      p: Project, process: Process, name: Name, started: int, retention: int, env: Environment)
    requires MarkersAreNamed(p)
    ensures var (q, counted) := CollectEntry(p, process, name, started, retention, env);
            && q.branches == p.branches && q.now == p.now && q.approved == p.approved
            && (q.entries == p.entries || q.entries == p.entries - {name})
            && (q.markers == p.markers || q.markers == p.markers - {name})
            && (q.entries != p.entries || q.markers != p.markers || counted ==>
                  IsCollectable(p, process, name, started, retention) && name !in q.entries)
            && (forall h :: h in p.beats && p.beats[h] == Live ==> h in q.beats && q.beats[h] == Live)
            && (forall h :: h in q.beats ==> h in p.beats && q.beats[h] == p.beats[h])
  {
    if IsCollectable(p, process, name, started, retention) { ValidNameIsTrimmed(name); }
  }

  // ---------- Leases over whole runs ----------

  /** The time since the name's marker was last renewed, after one step. */
  function SinceAfter(step: Step, name: Name, sinceBeat: int): int {
    match step
    case Wait(elapsed) => sinceBeat + elapsed
    case Beats(_, beaten, writing) => if beaten == name && writing == Renewed then 0 else sinceBeat
    case _ => sinceBeat
  }

  /** The heartbeat's side, by the clock alone: no wait takes the time since the last
      renewal beyond the retention. */
  ghost predicate BeatsInTime(steps: seq<Step>, name: Name, sinceBeat: int, retention: int)
    decreases |steps|
  {
    steps == [] ||
    var since := SinceAfter(steps[0], name, sinceBeat);
    since <= retention && BeatsInTime(steps[1..], name, since, retention)
  }

  /** Nobody removes the worktree on purpose, and no pass uses a shorter retention. */
  ghost predicate LeavesAlone(steps: seq<Step>, name: Name, retention: int) {
    forall i :: 0 <= i < |steps| ==>
      && (steps[i].RemoveStep? ==> Trim(steps[i].raw) != name)
      && (steps[i].ExamineStep? ==> steps[i].retention >= retention)
  }

  /** The marker is no older than that, and no turn has passed its tests on the name. */
  ghost predicate IsLeased(p: Project, name: Name, sinceBeat: int) {
    && name in p.entries && name in p.markers && p.now - p.markers[name].modified <= sinceBeat
    && IsUnapproved(p, name)
  }

  ghost predicate IsUnapproved(p: Project, name: Name) {
    forall h :: h in p.approved ==> h.name != name
  }

  /** Remove leaves every other name's entry, marker and handles alone. */
  lemma {:induction false} RemoveTouchesOnlyItsName(
      p: Project, process: Process, raw: Name, env: Environment, other: Name)
    requires Trim(raw) != other
    ensures var q := Remove(p, process, raw, env).0;
            && q.now == p.now && q.approved == p.approved
            && (other in p.entries ==> other in q.entries)
            && (other in p.markers ==> other in q.markers && q.markers[other] == p.markers[other])
            && forall owner :: BeatsIn(p, owner, other) ==> BeatsIn(q, owner, other)
  {
  }

  /** A turn under way on another name takes that name's entry. */
  lemma {:induction false} OtherTurnSpares(p: Project, process: Process, other: Name, env: Environment, name: Name)
    requires NamesAreValid(p) && Handle(process, other) in p.approved && other != name
    ensures var q := TakeAway(p, process, other, env).0;
            && q.now == p.now && q.approved <= p.approved
            && (name in p.entries ==> name in q.entries)
            && (name in p.markers ==> name in q.markers && q.markers[name] == p.markers[name])
            && forall owner :: BeatsIn(p, owner, name) ==> BeatsIn(q, owner, name)
  {
    ValidNameIsTrimmed(other);
    var without := p.(approved := p.approved - multiset{Handle(process, other)});
    RemoveTouchesOnlyItsName(without, process, other, env, name);
    assert forall owner :: BeatsIn(p, owner, name) <==> BeatsIn(without, owner, name);
  }

  /** The tests let no entry through whose marker is young. */
  lemma {:induction false} ExamineSparesYoung(
      p: Project, process: Process, tested: Name, started: int, retention: int, name: Name, sinceBeat: int)
    requires started <= p.now && IsLeased(p, name, sinceBeat) && sinceBeat <= retention
    ensures IsLeased(Examine(p, process, tested, started, retention), name, sinceBeat)
  {
  }

  lemma {:induction false} MakingKeepsLease(p: Project, step: Step, name: Name, sinceBeat: int)
    requires step.CreateStep? || (step.RemoveStep? && Trim(step.raw) != name)
    requires IsLeased(p, name, sinceBeat)
    ensures IsLeased(Next(p, step), name, sinceBeat)
  {
  }

  lemma {:induction false} StepKeepsLease(p: Project, step: Step, name: Name, sinceBeat: int, retention: int)
    requires NamesAreValid(p) && Enabled(p, step) && IsLeased(p, name, sinceBeat)
    requires 0 <= sinceBeat <= retention
    requires step.RemoveStep? ==> Trim(step.raw) != name
    requires step.ExamineStep? ==> step.retention >= retention
    ensures IsLeased(Next(p, step), name, SinceAfter(step, name, sinceBeat))
  {
    match step
    case TakeAwayStep(process, other, env) => OtherTurnSpares(p, process, other, env, name);
    case ExamineStep(process, tested, started, allowed) =>
      ExamineSparesYoung(p, process, tested, started, allowed, name, sinceBeat);
    case CreateStep(_, _, _) => MakingKeepsLease(p, step, name, sinceBeat);
    case RemoveStep(_, _, _) => MakingKeepsLease(p, step, name, sinceBeat);
    case _ =>
  }

  /** A worktree whose heartbeats come at gaps no longer than the retention is never
      reaped: not by any pass, of the beating process or another, begun at any earlier
      time and interleaved anyhow, even between the tests of a turn and its removal. Its
      marker is as young as its last renewal throughout. */
  lemma {:induction false} LeasedWorktreeSurvives(p: Project, steps: seq<Step>, name: Name, sinceBeat: int,
                                                  retention: int)
    requires NamesAreValid(p) && IsRun(p, steps)
    requires 0 <= sinceBeat <= retention && IsLeased(p, name, sinceBeat)
    requires BeatsInTime(steps, name, sinceBeat, retention) && LeavesAlone(steps, name, retention)
    ensures IsLeased(After(p, steps), name, retention)
    decreases |steps|
  {
    if steps != [] {
      StepKeepsNames(p, steps[0]);
      StepKeepsLease(p, steps[0], name, sinceBeat, retention);
      LeasedWorktreeSurvives(Next(p, steps[0]), steps[1..], name, SinceAfter(steps[0], name, sinceBeat), retention);
    }
  }

  /** Against passes of the beating process itself no clock is needed: while its ticks
      do not fail the handle runs, and that is enough, however old the marker. */
  lemma {:induction false} LocalLeaseNeedsNoClock(p: Project, steps: seq<Step>, process: Process, name: Name)
    requires NamesAreValid(p) && IsRun(p, steps)
    requires HoldsLocally(p, process, name)
    requires forall i :: 0 <= i < |steps| ==> RespectsLocally(steps[i], process, name)
    ensures HoldsLocally(After(p, steps), process, name)
    decreases |steps|
  {
    if steps != [] {
      StepKeepsNames(p, steps[0]);
      LocalStepKeepsLease(p, steps[0], process, name);
      LocalLeaseNeedsNoClock(Next(p, steps[0]), steps[1..], process, name);
    }
  }

  ghost predicate HoldsLocally(p: Project, process: Process, name: Name) {
    name in p.entries && name in p.markers && BeatsIn(p, process, name) && IsUnapproved(p, name)
  }

  /** Nobody removes the worktree on purpose, other processes run no pass, and the
      process's own ticks on the name succeed. */
  predicate RespectsLocally(step: Step, process: Process, name: Name) {
    && (step.RemoveStep? ==> Trim(step.raw) != name)
    && (step.ExamineStep? ==> step.process == process)
    && (step.Beats? && step.process == process && step.name == name ==> step.writing == Renewed)
  }

  lemma {:induction false} LocalStepKeepsLease(p: Project, step: Step, process: Process, name: Name)
    requires NamesAreValid(p) && Enabled(p, step)
    requires HoldsLocally(p, process, name) && RespectsLocally(step, process, name)
    ensures HoldsLocally(Next(p, step), process, name)
  {
    match step
    case TakeAwayStep(_, other, env) => OtherTurnSpares(p, step.process, other, env, name);
    case CreateStep(_, _, _) => MakingHoldsLocally(p, step, process, name);
    case RemoveStep(_, _, _) => MakingHoldsLocally(p, step, process, name);
    case _ =>
  }

  lemma {:induction false} MakingHoldsLocally(p: Project, step: Step, process: Process, name: Name)
    requires step.CreateStep? || (step.RemoveStep? && Trim(step.raw) != name)
    requires HoldsLocally(p, process, name)
    ensures HoldsLocally(Next(p, step), process, name)
  {
  }

  /** The failing input: a tick whose open fails ends the heartbeat and leaves the old
      marker, and then the process's own pass, which spared the worktree, reaps it. */
  lemma FailedTickExposesLease(process: Process, env: Environment)
    requires env.removeOk
    ensures var p := Project(
              RETENTION + 1,
              map["foo" := Entry(true, Some(BranchOf("foo")), 0)],
              map["foo" := Marker(BranchOf("foo"), 0)],
              {BranchOf("foo")},
              map[Handle(process, "foo") := Live], multiset{});
            && NamesAreValid(p) && BeatsIn(p, process, "foo")
            && "foo" in CollectEntry(p, process, "foo", p.now, RETENTION, env).0.entries
            && "foo" !in CollectEntry(
                 Tick(p, process, "foo", Broken(0)), process, "foo", p.now, RETENTION, env).0.entries
  {
    ValidNameIsTrimmed("foo");
    BranchIsTrimmed("foo");
  }

  // ---------- Between the tests of a turn and its removal ----------

  /** The removal of a turn that passed its tests looks at ownership and head again, and
      at neither age nor heartbeat: it takes the entry exactly if both still hold. */
  lemma {:induction false} LateRemovalTakesExactly(p: Project, process: Process, name: Name, env: Environment)
    requires NamesAreValid(p) && Handle(process, name) in p.approved && name in p.entries && env.removeOk
    ensures name !in TakeAway(p, process, name, env).0.entries <==> IsOwned(p, name) && HasHead(p, name)
  {
    ValidNameIsTrimmed(name);
  }

  /** The steps that can make a marker of the name younger. */
  predicate Renews(step: Step, name: Name) {
    || (step.Beats? && step.name == name)
    || (step.CreateStep? && Trim(step.raw) == name)
  }

  lemma {:induction false} OnlyRenewalRejuvenates(p: Project, step: Step, name: Name)
    requires Enabled(p, step) && !Renews(step, name)
    ensures var q := Next(p, step);
            q.now >= p.now && (name in q.markers ==> name in p.markers && q.markers[name] == p.markers[name])
  {
  }

  lemma {:induction false} MarkersOnlyAge(p: Project, steps: seq<Step>, name: Name)
    requires IsRun(p, steps) && forall i :: 0 <= i < |steps| ==> !Renews(steps[i], name)
    ensures var q := After(p, steps);
            q.now >= p.now && (name in q.markers ==> name in p.markers && q.markers[name] == p.markers[name])
    decreases |steps|
  {
    if steps != [] {
      OnlyRenewalRejuvenates(p, steps[0], name);
      MarkersOnlyAge(Next(p, steps[0]), steps[1..], name);
    }
  }

  /** A worktree that is within its lease when a turn's removal comes, although the turn
      passed its tests, has been renewed or created again between the two. */
  lemma {:induction false} YoungAtRemovalWasRenewed(
      p: Project, process: Process, name: Name, started: int, retention: int, between: seq<Step>)
    requires IsCollectable(p, process, name, started, retention) && started <= p.now
    requires var tested := Examine(p, process, name, started, retention);
             && IsRun(tested, between) && name in After(tested, between).markers
             && After(tested, between).now - After(tested, between).markers[name].modified <= retention
    ensures exists i :: 0 <= i < |between| && Renews(between[i], name)
  {
    if forall i :: 0 <= i < |between| ==> !Renews(between[i], name) {
      MarkersOnlyAge(Examine(p, process, name, started, retention), between, name);
    }
  }

  /** An owned, stale worktree of one process, whose heartbeat has slept. */
  function SleepingLease(owner: Process): Project {
    Project(
      RETENTION + 1,
      map["foo" := Entry(true, Some(BranchOf("foo")), 0)],
      map["foo" := Marker(BranchOf("foo"), 0)],
      {BranchOf("foo")},
      map[Handle(owner, "foo") := Live], multiset{})
  }

  /** Both ways to lose a fresh lease to a turn that tested before: the heartbeat wakes
      and renews the marker, or the worktree is removed, its branch deleted, and the
      same name created again. */
  lemma {:induction false} RenewedBetweenIsReaped(owner: Process, other: Process, env: Environment)
    requires owner != other && env.removeOk
    ensures var p := Examine(SleepingLease(owner), other, "foo", RETENTION + 1, RETENTION);
            var q := Tick(p, owner, "foo", Renewed);
            && Enabled(p, Beats(owner, "foo", Renewed)) && Enabled(q, TakeAwayStep(other, "foo", env))
            && q.markers["foo"].modified == q.now
            && "foo" !in TakeAway(q, other, "foo", env).0.entries
  {
    ValidNameIsTrimmed("foo");
    BranchIsTrimmed("foo");
  }

  lemma {:induction false} RecreatedBetweenIsReaped(owner: Process, other: Process, env: Environment)
    requires owner != other && env == Environment(true, true, true, true, true, Finished)
    ensures var p := Examine(SleepingLease(owner), other, "foo", RETENTION + 1, RETENTION);
            var q := Recreated(p, owner, env);
            && Enabled(q, TakeAwayStep(other, "foo", env))
            && HasNewLease(q, owner)
            && "foo" !in TakeAway(q, other, "foo", env).0.entries
  {
    ValidNameIsTrimmed("foo");
    BranchIsTrimmed("foo");
    var p := Examine(SleepingLease(owner), other, "foo", RETENTION + 1, RETENTION);
    RecreationRenews(p, owner, env);
    assert p.approved == multiset{Handle(other, "foo")};
    LateRemovalTakesExactly(Recreated(p, owner, env), other, "foo", env);
  }

  /** Removed, its branch deleted, and created again. */
  function Recreated(p: Project, owner: Process, env: Environment): Project {
    var removed := Remove(p, owner, "foo", env).0;
    Create(Next(removed, DeleteBranch(BranchOf("foo"))), owner, "foo", env).0
  }

  predicate HasNewLease(q: Project, owner: Process) {
    && HasHead(q, "foo") && IsOwned(q, "foo") && q.markers["foo"].modified == q.now && BeatsIn(q, owner, "foo")
  }

  lemma {:induction false} RecreationRenews(p: Project, owner: Process, env: Environment)
    requires NamesAreValid(p) && IsOwned(p, "foo") && HasHead(p, "foo")
    requires env == Environment(true, true, true, true, true, Finished)
    ensures HasNewLease(Recreated(p, owner, env), owner)
    ensures NamesAreValid(Recreated(p, owner, env)) && Recreated(p, owner, env).approved == p.approved
  {
    ValidNameIsTrimmed("foo");
    BranchIsTrimmed("foo");
    var removed := Remove(p, owner, "foo", env).0;
    assert "foo" !in removed.entries && removed.approved == p.approved;
  }

  /** Another process's pass does not see that handle. It spares an owned worktree
      exactly when the directory or the marker is young at its start, the directory is
      none, or the head has moved. */
  lemma {:induction false} ForeignTurnSparesExactly(
      p: Project, process: Process, name: Name, started: int, retention: int, env: Environment)
    requires IsValidName(name) && IsOwned(p, name) && name in p.entries
    requires !BeatsIn(p, process, name) && env.removeOk
    ensures name in CollectEntry(p, process, name, started, retention, env).0.entries <==>
              || !OlderThan(p.entries[name].modified, started, retention)
              || !OlderThan(p.markers[name].modified, started, retention)
              || !p.entries[name].isDir || !HasHead(p, name)
  {
    ValidNameIsTrimmed(name);
  }

  /** The failing input for a clockless promise across processes: a process whose
      heartbeat slept past the retention loses its worktree to another's pass. */
  lemma ForeignPassReapsSleepingLease(owner: Process, other: Process, env: Environment)
    requires owner != other && env.removeOk
    ensures var p := Project(
              RETENTION + 1,
              map["foo" := Entry(true, Some(BranchOf("foo")), 0)],
              map["foo" := Marker(BranchOf("foo"), 0)],
              {BranchOf("foo")},
              map[Handle(owner, "foo") := Live], multiset{});
            && MarkersAreNamed(p) && BeatsIn(p, owner, "foo")
            && "foo" !in CollectEntry(p, other, "foo", p.now, RETENTION, env).0.entries
  {
    ValidNameIsTrimmed("foo");
    BranchIsTrimmed("foo");
  }

  // ---------- Create and remove ----------

  /** Creation, by what it meets: an invalid name, a checkout or a branch in the way, or
      a refusal by git change nothing; a failed marker write keeps the new branch but
      takes the checkout back when git agrees; otherwise checkout, branch, marker and
      heartbeat are there, as young as the clock, and nothing else has changed. */
  lemma {:induction false} CreateByFields(p: Project, process: Process, raw: Name, env: Environment)
    ensures var (q, failure) := Create(p, process, raw, env);
            var name, branch := Trim(raw), "bamboo/" + Trim(raw);
            if !IsValidName(name) then q == p && failure == Some(InvalidName)
            else if name in p.entries then q == p && failure == Some(PathExists)
            else if branch in p.branches then q == p && failure == Some(BranchExists)
            else if !env.addOk then q == p && failure == Some(AddFailed)
            else
              && q.branches == p.branches + {branch} && q.now == p.now && q.approved == p.approved
              && if env.markerOk then
                   && failure == None
                   && q.entries == p.entries[name := Entry(true, Some(branch), p.now)]
                   && q.markers == p.markers[name := Marker(branch, p.now)]
                   && q.beats == p.beats[Handle(process, name) := Live]
                 else
                   && failure == Some(MarkerFailed) && q.markers == p.markers && q.beats == p.beats
                   && (env.removeOk ==> q.entries == p.entries)
                   && (!env.removeOk ==> name in q.entries)
  {
  }

  /** Removal, by what it meets. */
  lemma {:induction false} RemoveByFields(p: Project, process: Process, raw: Name, env: Environment)
    ensures var (q, failure) := Remove(p, process, raw, env);
            var name, branch := Trim(raw), "bamboo/" + Trim(raw);
            if !IsValidName(name) then q == p && failure == Some(InvalidName)
            else if name !in p.markers || p.markers[name].content != branch then q == p && failure == Some(Unmanaged)
            else if name in p.entries && !(p.entries[name].head.Some? && Trim(p.entries[name].head.value) == branch)
            then q == p && failure == Some(UnexpectedBranch)
            else if name in p.entries && !env.removeOk then q == p && failure == Some(RemoveFailed)
            else
              && q.entries == p.entries - {name} && q.branches == p.branches
              && q.now == p.now && q.approved == p.approved
              && (failure == Some(Interrupted) <==> env.progress != Finished)
              && (env.progress == Finished ==>
                    && failure == (if env.pruneOk then None else Some(PruneFailed))
                    && q.beats == p.beats - {Handle(process, name)}
                    && q.markers == if env.unmarkOk then p.markers - {name} else p.markers)
  {
  }

  /** A turn is let through to its removal exactly if the entry is an owned directory on
      its branch, with no running heartbeat of this process, and entry and marker are
      older than the retention; a heartbeat that has ended leaves the table. */
  lemma {:induction false} ExamineByFields(p: Project, process: Process, name: Name, started: int, retention: int)
    requires name in p.entries && IsValidName(Trim(name))
    requires name in p.markers && p.markers[name].content == "bamboo/" + name
    ensures var q, handle := Examine(p, process, name, started, retention), Handle(process, name);
            var entry := p.entries[name];
            && q.entries == p.entries && q.markers == p.markers && q.branches == p.branches && q.now == p.now
            && q.beats == (if handle in p.beats && p.beats[handle] == Ended then p.beats - {handle} else p.beats)
            && q.approved[handle] == p.approved[handle] +
                 if && !(handle in p.beats && p.beats[handle] == Live) && entry.isDir
                    && started - entry.modified > retention && started - p.markers[name].modified > retention
                    && entry.head.Some? && Trim(entry.head.value) == "bamboo/" + name
                 then 1 else 0
  {
  }

  /** Anything else in the directory is passed over. */
  lemma {:induction false} ExamineSkipsForeign(p: Project, process: Process, name: Name, started: int, retention: int)
    requires || name !in p.entries || !IsValidName(Trim(name))
             || name !in p.markers || p.markers[name].content != "bamboo/" + name
    ensures Examine(p, process, name, started, retention) == p
  {
  }

  lemma {:induction false} StepKeepsRemoved(p: Project, step: Step, name: Name)
    requires name !in p.markers && BranchOf(name) in p.branches && step != DeleteBranch(BranchOf(name))
    ensures name !in Next(p, step).markers && BranchOf(name) in Next(p, step).branches
  {
  }

  /** A removed worktree stays removed: no heartbeat tick makes a marker, and since
      remove keeps the branch not even create brings it back until the branch goes. */
  lemma {:induction false} RemovedStaysRemoved(p: Project, steps: seq<Step>, name: Name)
    requires IsRun(p, steps)
    requires name !in p.markers && BranchOf(name) in p.branches
    requires forall i :: 0 <= i < |steps| ==> steps[i] != DeleteBranch(BranchOf(name))
    ensures name !in After(p, steps).markers && BranchOf(name) in After(p, steps).branches
    decreases |steps|
  {
    if steps != [] {
      StepKeepsRemoved(p, steps[0], name);
      RemovedStaysRemoved(Next(p, steps[0]), steps[1..], name);
    }
  }

  /** An interrupted removal, or one whose marker stayed, can be finished: until the
      marker goes the name stays owned, and a second remove then clears everything. */
  lemma RemoveCanBeFinished(p: Project, process: Process, raw: Name, first: Environment, second: Environment)
    requires var failure := Remove(p, process, raw, first).1; failure.None? || failure == Some(Interrupted)
    requires second.unmarkOk && second.pruneOk && second.progress == Finished
    ensures var name := Trim(raw);
            var half := Remove(p, process, raw, first).0;
            && name !in half.entries && half.branches == p.branches
            && (name in half.markers ==>
                  var done := Remove(half, process, raw, second);
                  && done.1.None? && name !in done.0.markers && name !in done.0.entries
                  && Handle(process, name) !in done.0.beats)
  {
  }

  /** The kept branch in one line: what was created and removed cannot be created again. */
  lemma NoCreateAfterRemove(
      p: Project, process: Process, raw: Name, made: Environment, removed: Environment, again: Environment)
    requires Create(p, process, raw, made).1.None?
    requires Remove(Create(p, process, raw, made).0, process, raw, removed).1.None?
    ensures Create(Remove(Create(p, process, raw, made).0, process, raw, removed).0, process, raw, again).1
              == Some(BranchExists)
  {
  }

  // ---------- One pass over the directory ----------

  function CollectAll(p: Project, process: Process, names: seq<Name>, started: int, retention: int,
                      envs: seq<Environment>)
    : (Project, int)
    requires |envs| == |names|
    decreases |names|
  {
    if names == [] then (p, 0)
    else
      var k := |names| - 1;
      var (q, count) := CollectAll(p, process, names[..k], started, retention, envs[..k]);
      var (r, counted) := CollectEntry(q, process, names[k], started, retention, envs[k]);
      (r, if counted then count + 1 else count)
  }

  /** Entries and markers of q are those of p but for collectable ones. */
  ghost predicate OnlyCollectableGone(p: Project, q: Project, process: Process, started: int, retention: int) {
    && (forall n :: n in q.entries ==> n in p.entries && q.entries[n] == p.entries[n])
    && (forall n :: n in q.markers ==> n in p.markers && q.markers[n] == p.markers[n])
    && (forall n :: n in p.entries && n !in q.entries ==> IsCollectable(p, process, n, started, retention))
    && (forall n :: n in p.markers && n !in q.markers ==>
          IsCollectable(p, process, n, started, retention) && n !in q.entries)
  }

  ghost predicate OnlyEndedHandlesGone(p: Project, q: Project) {
    && (forall h :: h in p.beats && p.beats[h] == Live ==> h in q.beats && q.beats[h] == Live)
    && (forall h :: h in q.beats ==> h in p.beats && q.beats[h] == p.beats[h])
  }

  /** q is p with some collectable entries gone and nothing else changed but ended
      handles. */
  ghost predicate IsCollected(p: Project, q: Project, process: Process, started: int, retention: int) {
    && q.now == p.now && q.branches == p.branches && q.approved == p.approved
    && OnlyCollectableGone(p, q, process, started, retention)
    && OnlyEndedHandlesGone(p, q)
  }

  lemma {:induction false} StillCollectable(p: Project, q: Project, process: Process, name: Name, started: int,
                                            retention: int)
    requires IsCollected(p, q, process, started, retention)
    ensures IsCollectable(q, process, name, started, retention) ==> IsCollectable(p, process, name, started, retention)
    ensures IsCollectable(p, process, name, started, retention) && name in q.entries ==>
              name in q.markers && IsCollectable(q, process, name, started, retention)
  {
  }

  lemma {:induction false} CollectedOneMore(
      p: Project, q: Project, process: Process, name: Name, started: int, retention: int, env: Environment)
    requires MarkersAreNamed(q) && IsCollected(p, q, process, started, retention)
    ensures IsCollected(p, CollectEntry(q, process, name, started, retention, env).0, process, started, retention)
  {
    CollectTouchesOnlyCollectable(q, process, name, started, retention, env);
    StillCollectable(p, q, process, name, started, retention);
  }

  lemma {:induction false} CollectCounts(
      q: Project, process: Process, name: Name, started: int, retention: int, env: Environment)
    requires MarkersAreNamed(q)
    ensures var (r, counted) := CollectEntry(q, process, name, started, retention, env);
            && (env.removeOk && IsCollectable(q, process, name, started, retention) ==> name !in r.entries)
            && (env.pruneOk && env.progress == Finished ==> |r.entries| + (if counted then 1 else 0) == |q.entries|)
  {
    if IsCollectable(q, process, name, started, retention) {
      ValidNameIsTrimmed(name);
      assert q.entries.Keys == (q.entries - {name}).Keys + {name};
    }
  }

  lemma {:induction false} CollectedMarkerNames(p: Project, q: Project, process: Process, started: int, retention: int)
    requires MarkersAreNamed(p) && IsCollected(p, q, process, started, retention)
    ensures MarkersAreNamed(q)
  {
  }

  /** A pass removes collectable entries only, and leaves every other entry as it was. */
  lemma {:induction false} PassTouchesOnlyCollectable(
      p: Project, process: Process, names: seq<Name>, started: int, retention: int, envs: seq<Environment>)
    requires MarkersAreNamed(p) && |envs| == |names|
    ensures var q := CollectAll(p, process, names, started, retention, envs).0;
            IsCollected(p, q, process, started, retention) && MarkersAreNamed(q)
    decreases |names|
  {
    if names != [] {
      var k := |names| - 1;
      PassTouchesOnlyCollectable(p, process, names[..k], started, retention, envs[..k]);
      var q := CollectAll(p, process, names[..k], started, retention, envs[..k]).0;
      CollectedOneMore(p, q, process, names[k], started, retention, envs[k]);
    }
    CollectedMarkerNames(p, CollectAll(p, process, names, started, retention, envs).0, process, started, retention);
  }

  lemma {:induction false} GoneStaysGone(
      q: Project, process: Process, name: Name, started: int, retention: int, env: Environment, gone: Name)
    requires MarkersAreNamed(q) && gone !in q.entries
    ensures gone !in CollectEntry(q, process, name, started, retention, env).0.entries
  {
    CollectTouchesOnlyCollectable(q, process, name, started, retention, env);
  }

  /** When git agrees, a pass removes every collectable entry it meets. */
  lemma {:induction false} PassIsComplete(
      p: Project, process: Process, names: seq<Name>, started: int, retention: int, envs: seq<Environment>, j: nat)
    requires MarkersAreNamed(p) && |envs| == |names| && j < |names|
    requires envs[j].removeOk && IsCollectable(p, process, names[j], started, retention)
    ensures names[j] !in CollectAll(p, process, names, started, retention, envs).0.entries
    decreases |names|
  {
    var k := |names| - 1;
    var q := CollectAll(p, process, names[..k], started, retention, envs[..k]).0;
    PassTouchesOnlyCollectable(p, process, names[..k], started, retention, envs[..k]);
    if j == k {
      StillCollectable(p, q, process, names[k], started, retention);
      CollectCounts(q, process, names[k], started, retention, envs[k]);
    } else {
      PassIsComplete(p, process, names[..k], started, retention, envs[..k], j);
      GoneStaysGone(q, process, names[k], started, retention, envs[k], names[j]);
    }
  }

  /** The counter is the number of entries gone, unless a prune failed. */
  lemma {:induction false} PassCounts(
      p: Project, process: Process, names: seq<Name>, started: int, retention: int, envs: seq<Environment>)
    requires MarkersAreNamed(p) && |envs| == |names|
    requires forall k :: 0 <= k < |envs| ==> envs[k].pruneOk && envs[k].progress == Finished
    ensures var (q, count) := CollectAll(p, process, names, started, retention, envs);
            |q.entries| + count == |p.entries|
    decreases |names|
  {
    if names != [] {
      var k := |names| - 1;
      PassCounts(p, process, names[..k], started, retention, envs[..k]);
      PassTouchesOnlyCollectable(p, process, names[..k], started, retention, envs[..k]);
      var q := CollectAll(p, process, names[..k], started, retention, envs[..k]).0;
      CollectCounts(q, process, names[k], started, retention, envs[k]);
    }
  }

  // ---------- The module's state, in one process ----------

  class WorktreeManager {
    const process: Process
    var now: int
    var entries: map<Name, Entry>
    var markers: map<Name, Marker>
    var branches: set<string>
    var beats: map<Handle, Beat>     // LEASE_HEARTBEATS; the others' handles are not looked at

    constructor (process: Process)
      ensures View() == Project(0, map[], map[], {}, map[], multiset{})
    {
      this.process := process;
      now, entries, markers, branches, beats := 0, map[], map[], {}, map[];
    }

    ghost function View(): Project
      reads this
    {
      Project(now, entries, markers, branches, beats, multiset{})
    }

    method StopHeartbeat(name: Name)
      modifies this`beats
      ensures beats == old(beats) - {Handle(process, name)}
    {
      if Handle(process, name) in beats { beats := beats - {Handle(process, name)}; }
    }

    method StartHeartbeat(name: Name)
      modifies this`beats
      ensures beats == old(beats)[Handle(process, name) := Live]
    {
      StopHeartbeat(name);
      beats := beats[Handle(process, name) := Live];
    }

    /** One iteration of the spawned heartbeat loop. */
    method Heartbeat(name: Name, writing: Writing)
      requires BeatsIn(View(), process, name)
      modifies this
      ensures View() == Tick(old(View()), process, name, writing)
      ensures markers.Keys == old(markers).Keys && entries == old(entries)
      ensures BeatsIn(View(), process, name) <==> name in markers && writing == Renewed
      ensures BeatsIn(View(), process, name) ==> markers[name] == Marker(BranchOf(name), now)
    {
      if name in markers {
        if writing == Renewed {
          markers := markers[name := Marker(BranchOf(name), now)];
          return;
        }
        var branch := BranchOf(name);
        var text := if writing.written <= |branch| then branch[..writing.written] else branch;
        if text != [] {
          markers := markers[name := Marker(Overwritten(markers[name].content, text), now)];
        }
      }
      beats := beats[Handle(process, name) := Ended];
    }

    /** create: validate, collect, then make branch, checkout, marker and heartbeat. */
    method CreateWorktree(raw: Name, listing: seq<Name>, envs: seq<Environment>, env: Environment)
      returns (failure: Option<Failure>)
      requires MarkersAreNamed(View()) && |envs| == |listing|
      modifies this
      ensures var before := if IsValidName(Trim(raw))
                            then CollectAll(old(View()), process, listing, now, RETENTION, envs).0 else old(View());
              (View(), failure) == Create(before, process, raw, env)
      ensures MarkersAreNamed(View())
      ensures failure.None? ==> IsLeased(View(), Trim(raw), 0) && BeatsIn(View(), process, Trim(raw))
      ensures failure == Some(MarkerFailed) ==>
                BranchOf(Trim(raw)) in branches && (env.removeOk ==> Trim(raw) !in entries)
      ensures failure.None? ==> BranchOf(Trim(raw)) !in old(branches) && BranchOf(Trim(raw)) in branches
    {
      var name := Trim(raw);
      if !IsValidName(name) { return Some(InvalidName); }
      var _ := GcOrphans(listing, RETENTION, envs);
      if name in entries { return Some(PathExists); }
      if BranchOf(name) in branches { return Some(BranchExists); }
      if !env.addOk { return Some(AddFailed); }
      branches := branches + {BranchOf(name)};
      var before := entries;
      entries := entries[name := Entry(true, Some(BranchOf(name)), now)];
      if !env.markerOk {
        if env.removeOk { entries := before; }
        return Some(MarkerFailed);
      }
      markers := markers[name := Marker(BranchOf(name), now)];
      StartHeartbeat(name);
      return None;
    }

    /** remove: refuses without touching anything, or takes the checkout and then, as far
        as it gets, handle and marker; never the branch. */
    method RemoveWorktree(raw: Name, env: Environment) returns (failure: Option<Failure>)
      modifies this
      ensures (View(), failure) == Remove(old(View()), process, raw, env)
      ensures branches == old(branches) && now == old(now)
      ensures failure.Some? && failure.value !in {PruneFailed, Interrupted} ==> View() == old(View())
      ensures IsValidName(Trim(raw)) && !IsOwned(old(View()), Trim(raw)) ==> failure == Some(Unmanaged)
      ensures failure.None? ==>
                && Trim(raw) !in entries && Handle(process, Trim(raw)) !in beats
                && (env.unmarkOk ==> Trim(raw) !in markers)
    {
      var name := Trim(raw);
      if !IsValidName(name) { return Some(InvalidName); }
      if !(name in markers && markers[name].content == BranchOf(name)) { return Some(Unmanaged); }
      if name in entries {
        if !NamesBranch(entries[name].head, name) { return Some(UnexpectedBranch); }
      }
      if !env.removeOk && name in entries { return Some(RemoveFailed); }
      entries := entries - {name};
      if env.progress == CheckoutGone { return Some(Interrupted); }
      StopHeartbeat(name);
      if env.progress == HandleStopped { return Some(Interrupted); }
      if env.unmarkOk { markers := markers - {name}; }
      if env.progress == MarkerTried { return Some(Interrupted); }
      if !env.pruneOk { return Some(PruneFailed); }
      return None;
    }

    /** gc_orphans: one pass over the directory in whatever order it is listed. */
    method GcOrphans(names: seq<Name>, retention: int, envs: seq<Environment>) returns (removed: int)
      requires MarkersAreNamed(View()) && |envs| == |names|
      modifies this
      ensures (View(), removed) == CollectAll(old(View()), process, names, now, retention, envs)
      ensures IsCollected(old(View()), View(), process, now, retention) && MarkersAreNamed(View())
    {
      removed := 0;
      ghost var before := View();
      for k := 0 to |names|
        invariant (View(), removed) == CollectAll(before, process, names[..k], before.now, retention, envs[..k])
        invariant now == before.now
      {
        assert names[..k + 1][..k] == names[..k] && envs[..k + 1][..k] == envs[..k];
        var counted := CollectOne(names[k], retention, envs[k]);
        if counted { removed := removed + 1; }
      }
      assert names[..|names|] == names && envs[..|envs|] == envs;
      PassTouchesOnlyCollectable(before, process, names, before.now, retention, envs);
    }

    method CollectOne(name: Name, retention: int, env: Environment) returns (counted: bool)
      modifies this
      ensures (View(), counted) == CollectEntry(old(View()), process, name, old(now), retention, env)
      ensures now == old(now)
    {
      if name !in entries || !IsValidName(Trim(name)) { return false; }
      if !(name in markers && markers[name].content == BranchOf(name)) { return false; }
      var handle := Handle(process, name);
      if handle in beats && beats[handle] == Ended {
        beats := beats - {handle};
      }
      if handle in beats { return false; }
      var entry, marker := entries[name], markers[name];
      var stale := && entry.isDir && OlderThan(entry.modified, now, retention)
                   && OlderThan(marker.modified, now, retention);
      if !stale { return false; }
      if !NamesBranch(entry.head, name) { return false; }
      var failure := RemoveWorktree(name, env);
      return failure == None;
    }
  }
}
