/** Session resume across activations: the state files in a child's directory, the
    decision to resume, and the single retry. The Codex and the Claude executor run
    the same machine with different rules for what is captured, when a record is
    usable, and which failed attempt may be retried. Each keeps a file of its own, so
    one that follows the other in the same directory never sees the other's session. */
module Resume {
  import opened Outcomes
  import opened Text

  datatype Engine = Codex | Claude

  /** A state file: the session last seen and what it was recorded for. The home
      mode is Codex's alone. */
  datatype Record = Record(id: string, workspace: Option<string>, homeMode: string)

  datatype Executor = Executor(engine: Engine, workspace: Option<string>, homeMode: string, hasStateDir: bool)

  /** What a child's output tells this machine; the rest is Other. */
  datatype Frame =
    | SessionSeen(id: string)      // Codex thread.started, Claude system
    | TurnStarted                  // Codex
    | TurnCompleted                // Codex
    | ResultFrame(id: string)      // Claude, terminal; a compaction result is Other
    | Other

  datatype Ending = Eof | Cancelled | ReadFailed

  /** One process: it never got its prompt, or it wrote frames until the end. */
  datatype Attempt = NotStarted | Ran(frames: seq<Frame>, ending: Ending)

  datatype Event =
    | Deleted(engine: Engine)
    | Captured(engine: Engine, record: Record)
    | Launched(executor: Executor, mayResume: bool, resume: Option<string>)

  /** codex-session.json and claude-code-session.json, where they exist. */
  datatype Dir = Dir(files: map<Engine, Record>, trace: seq<Event>) {
    function FileOf(engine: Engine): Option<Record> {
      if engine in files then Some(files[engine]) else None
    }
  }

  const EmptyDir := Dir(map[], [])

  // ---------- The machine ----------

  /** resolve_resume_id. */
  function Usable(ex: Executor, file: Option<Record>): Option<string> {
    if !ex.hasStateDir || file.None? || file.value.workspace != ex.workspace then None
    else if ex.engine == Codex && (file.value.homeMode != ex.homeMode || IsBlank(file.value.id)) then None
    else Some(file.value.id)
  }

  function Delete(ex: Executor, d: Dir): Dir {
    if ex.hasStateDir then Dir(d.files - {ex.engine}, d.trace + [Deleted(ex.engine)]) else d
  }

  function Capture(ex: Executor, d: Dir, id: string): Dir {
    if ex.hasStateDir && id != "" then
      var record := Record(id, ex.workspace, ex.homeMode);
      Dir(d.files[ex.engine := record], d.trace + [Captured(ex.engine, record)])
    else d
  }

  predicate IsProgress(engine: Engine, frame: Frame) {
    match engine
    case Codex => frame.TurnStarted? || frame.TurnCompleted?
    case Claude => frame.ResultFrame?
  }

  function IdOf(engine: Engine, frame: Frame): string {
    if frame.SessionSeen? || (engine == Claude && frame.ResultFrame?) then frame.id else ""
  }

  /** The read loop. Claude stops at its terminal result; Codex reads on to the end. */
  function ReadFrames(ex: Executor, d: Dir, frames: seq<Frame>): Dir
    decreases |frames|
  {
    if frames == [] then d
    else
      var next := Capture(ex, d, IdOf(ex.engine, frames[0]));
      if ex.engine == Claude && frames[0].ResultFrame? then next else ReadFrames(ex, next, frames[1..])
  }

  /** The second component of run_process and run_once. */
  predicate MayRetry(engine: Engine, attempt: Attempt) {
    && attempt.Ran?
    && (forall k :: 0 <= k < |attempt.frames| ==> !IsProgress(engine, attempt.frames[k]))
    && (if engine == Codex then attempt.ending != Cancelled else attempt.ending == Eof)
  }

  function Launch(ex: Executor, d: Dir, mayResume: bool, resume: Option<string>, attempt: Attempt): Dir {
    var launched := Dir(d.files, d.trace + [Launched(ex, mayResume, resume)]);
    if attempt.Ran? then ReadFrames(ex, launched, attempt.frames) else launched
  }

  datatype Activation = Activation(executor: Executor, isFresh: bool, first: Attempt, second: Attempt)

  function ResumeFor(d: Dir, a: Activation): Option<string> {
    if a.isFresh then None else Usable(a.executor, d.FileOf(a.executor.engine))
  }

  predicate Retries(d: Dir, a: Activation) {
    ResumeFor(d, a).Some? && MayRetry(a.executor.engine, a.first)
  }

  function Activate(d: Dir, a: Activation): Dir {
    var start := if a.isFresh then Delete(a.executor, d) else d;
    var once := Launch(a.executor, start, !a.isFresh, ResumeFor(d, a), a.first);
    if Retries(d, a) then Launch(a.executor, Delete(a.executor, once), false, None, a.second) else once
  }

  function History(d: Dir, activations: seq<Activation>): Dir
    decreases |activations|
  {
    if activations == [] then d else History(Activate(d, activations[0]), activations[1..])
  }

  // ---------- What the trace says ----------

  /** The session the engine captured last, unless its file was deleted since. */
  function LastCaptured(trace: seq<Event>, engine: Engine): Option<Record>
    decreases |trace|
  {
    if trace == [] then None
    else
      var last := trace[|trace| - 1];
      if last.Deleted? && last.engine == engine then None
      else if last.Captured? && last.engine == engine then Some(last.record)
      else LastCaptured(trace[..|trace| - 1], engine)
  }

  /** What a launch after this trace is entitled to resume. */
  function Entitled(trace: seq<Event>, ex: Executor, mayResume: bool): Option<string> {
    if mayResume then Usable(ex, LastCaptured(trace, ex.engine)) else None
  }

  /** Each launch resumes exactly the session its place in the history entitles it to. */
  ghost predicate LaunchesAreEntitled(trace: seq<Event>) {
    forall i :: 0 <= i < |trace| && trace[i].Launched? ==>
      trace[i].resume == Entitled(trace[..i], trace[i].executor, trace[i].mayResume)
  }

  ghost predicate Inv(d: Dir) {
    && (forall engine :: d.FileOf(engine) == LastCaptured(d.trace, engine))
    && LaunchesAreEntitled(d.trace)
  }

  /** What the event leaves in the engine's file. */
  function FileAfter(event: Event, engine: Engine, file: Option<Record>): Option<Record> {
    match event
    case Deleted(e) => if e == engine then None else file
    case Captured(e, record) => if e == engine then Some(record) else file
    case Launched(_, _, _) => file
  }

  lemma {:induction false} AppendKeepsInv(d: Dir, event: Event)
    requires Inv(d)
    requires event.Launched? ==> event.resume == Entitled(d.trace, event.executor, event.mayResume)
    ensures forall engine :: LastCaptured(d.trace + [event], engine) == FileAfter(event, engine, d.FileOf(engine))
    ensures LaunchesAreEntitled(d.trace + [event])
  {
    var longer := d.trace + [event];
    assert longer[..|d.trace|] == d.trace;
    forall i | 0 <= i < |longer| && longer[i].Launched?
      ensures longer[i].resume == Entitled(longer[..i], longer[i].executor, longer[i].mayResume)
    {
      assert longer[..i] == d.trace[..i];
      if i == |d.trace| { assert d.trace[..i] == d.trace; }
    }
  }

  lemma {:induction false} ReadKeepsInv(ex: Executor, d: Dir, frames: seq<Frame>)
    requires Inv(d)
    ensures Inv(ReadFrames(ex, d, frames))
    decreases |frames|
  {
    if frames != [] {
      var id := IdOf(ex.engine, frames[0]);
      AppendKeepsInv(d, Captured(ex.engine, Record(id, ex.workspace, ex.homeMode)));
      ReadKeepsInv(ex, Capture(ex, d, id), frames[1..]);
    }
  }

  lemma LaunchKeepsInv(ex: Executor, d: Dir, mayResume: bool, resume: Option<string>, attempt: Attempt)
    requires Inv(d) && resume == Entitled(d.trace, ex, mayResume)
    ensures Inv(Launch(ex, d, mayResume, resume, attempt))
  {
    AppendKeepsInv(d, Launched(ex, mayResume, resume));
    if attempt.Ran? {
      ReadKeepsInv(ex, Dir(d.files, d.trace + [Launched(ex, mayResume, resume)]), attempt.frames);
    }
  }

  lemma ActivationKeepsInv(d: Dir, a: Activation)
    requires Inv(d)
    ensures Inv(Activate(d, a))
  {
    var ex := a.executor;
    AppendKeepsInv(d, Deleted(ex.engine));
    var start := if a.isFresh then Delete(ex, d) else d;
    LaunchKeepsInv(ex, start, !a.isFresh, ResumeFor(d, a), a.first);
    var once := Launch(ex, start, !a.isFresh, ResumeFor(d, a), a.first);
    AppendKeepsInv(once, Deleted(ex.engine));
    LaunchKeepsInv(ex, Delete(ex, once), false, None, a.second);
  }

  /** Over any sequence of activations sharing a directory, with executors of either
      engine and any workspace and home mode: a launch that may resume is given the
      session its own engine captured last, if it is usable, and every other launch is
      given none. */
  lemma {:induction false} HistoryKeepsInv(d: Dir, activations: seq<Activation>)
    requires Inv(d)
    ensures Inv(History(d, activations))
    decreases |activations|
  {
    if activations != [] {
      ActivationKeepsInv(d, activations[0]);
      HistoryKeepsInv(Activate(d, activations[0]), activations[1..]);
    }
  }

  /** The record was made for the executor's workspace, and for Codex in its home mode
      with an id that is not blank. */
  ghost predicate Fits(ex: Executor, record: Record) {
    && ex.hasStateDir && record.workspace == ex.workspace
    && (ex.engine == Codex ==>
          record.homeMode == ex.homeMode && exists i :: 0 <= i < |record.id| && !IsWhitespace(record.id[i]))
  }

  /** The same, read at one launch: a launch that may resume resumes the session its
      engine captured last since its last deletion, exactly if the record fits. */
  lemma ResumedSessionIsCurrent(activations: seq<Activation>, i: int)
    requires 0 <= i < |History(EmptyDir, activations).trace|
    requires History(EmptyDir, activations).trace[i].Launched?
    ensures var trace := History(EmptyDir, activations).trace;
            var Launched(ex, mayResume, resume) := trace[i];
            var last := LastCaptured(trace[..i], ex.engine);
            && (resume.Some? <==> mayResume && last.Some? && Fits(ex, last.value))
            && (resume.Some? ==> resume.value == last.value.id)
  {
    HistoryKeepsInv(EmptyDir, activations);
  }

  // ---------- What is captured, frame by frame ----------

  /** The read loop gets to frame k: Claude stops at its first result. */
  ghost predicate IsRead(ex: Executor, frames: seq<Frame>, k: int) {
    0 <= k < |frames| && (ex.engine == Claude ==> forall j :: 0 <= j < k ==> !frames[j].ResultFrame?)
  }

  /** The frame names a session: Codex threads and Claude sessions as they are seen, and
      a Claude result. */
  predicate NamesSession(ex: Executor, frame: Frame) {
    (frame.SessionSeen? || (ex.engine == Claude && frame.ResultFrame?)) && frame.id != ""
  }

  ghost predicate NamesNone(ex: Executor, frames: seq<Frame>, from: int) {
    forall j :: from <= j && IsRead(ex, frames, j) ==> !NamesSession(ex, frames[j])
  }

  ghost predicate IsLastNamed(ex: Executor, frames: seq<Frame>, k: int) {
    IsRead(ex, frames, k) && NamesSession(ex, frames[k]) && NamesNone(ex, frames, k + 1)
  }

  lemma {:induction false} ReadOfRest(ex: Executor, frames: seq<Frame>, j: int)
    requires frames != [] && 0 <= j && !(ex.engine == Claude && frames[0].ResultFrame?)
    ensures IsRead(ex, frames[1..], j) <==> IsRead(ex, frames, j + 1)
  {
    if IsRead(ex, frames[1..], j) && ex.engine == Claude {
      forall i | 0 <= i < j + 1 ensures !frames[i].ResultFrame? { assert i > 0 ==> frames[i] == frames[1..][i - 1]; }
    }
    if IsRead(ex, frames, j + 1) && ex.engine == Claude {
      forall i | 0 <= i < j ensures !frames[1..][i].ResultFrame? { assert frames[1..][i] == frames[i + 1]; }
    }
  }

  /** Frames that name no session leave the file as it was. */
  lemma {:induction false} ReadingNamesNothing(ex: Executor, d: Dir, frames: seq<Frame>)
    requires NamesNone(ex, frames, 0) || !ex.hasStateDir
    ensures ReadFrames(ex, d, frames).files == d.files
    decreases |frames|
  {
    if frames != [] {
      assert IsRead(ex, frames, 0);
      assert Capture(ex, d, IdOf(ex.engine, frames[0])) == d;
      if !(ex.engine == Claude && frames[0].ResultFrame?) {
        forall j | ex.hasStateDir && 0 <= j && IsRead(ex, frames[1..], j) ensures !NamesSession(ex, frames[1..][j]) {
          ReadOfRest(ex, frames, j);
        }
        ReadingNamesNothing(ex, d, frames[1..]);
      }
    }
  }

  /** Otherwise it holds the last session named, recorded for this executor. */
  lemma {:induction false} ReadingCapturesLast(ex: Executor, d: Dir, frames: seq<Frame>, k: int)
    requires ex.hasStateDir && IsLastNamed(ex, frames, k)
    ensures ReadFrames(ex, d, frames).FileOf(ex.engine) == Some(Record(frames[k].id, ex.workspace, ex.homeMode))
    decreases |frames|
  {
    var next := Capture(ex, d, IdOf(ex.engine, frames[0]));
    if !(ex.engine == Claude && frames[0].ResultFrame?) {
      forall j | 0 <= j ensures IsRead(ex, frames[1..], j) <==> IsRead(ex, frames, j + 1) { ReadOfRest(ex, frames, j); }
      if k == 0 {
        ReadingNamesNothing(ex, next, frames[1..]);
      } else {
        ReadingCapturesLast(ex, next, frames[1..], k - 1);
      }
    }
  }

  /** Which attempt an activation ends with. */
  function LastAttempt(d: Dir, a: Activation): Attempt {
    if Retries(d, a) then a.second else a.first
  }

  lemma {:induction false} LaunchFiles(ex: Executor, d: Dir, mayResume: bool, resume: Option<string>,
                                       frames: seq<Frame>, ending: Ending)
    ensures Launch(ex, d, mayResume, resume, Ran(frames, ending))
              == ReadFrames(ex, Dir(d.files, d.trace + [Launched(ex, mayResume, resume)]), frames)
  {
  }

  /** From frames to the next launch: what the last process named is what the next
      activation of that executor resumes, unless it is to start fresh. */
  lemma {:induction false} SeenSessionIsResumed(d: Dir, a: Activation, k: int, next: Activation)
    requires LastAttempt(d, a).Ran? && IsLastNamed(a.executor, LastAttempt(d, a).frames, k)
    requires next.executor == a.executor && a.executor.hasStateDir && !next.isFresh
    requires var id := LastAttempt(d, a).frames[k].id; exists i :: 0 <= i < |id| && !IsWhitespace(id[i])
    ensures ResumeFor(Activate(d, a), next) == Some(LastAttempt(d, a).frames[k].id)
  {
    var ex := a.executor;
    var start := if a.isFresh then Delete(ex, d) else d;
    var once := Launch(ex, start, !a.isFresh, ResumeFor(d, a), a.first);
    var Ran(frames, ending) := LastAttempt(d, a);
    if Retries(d, a) {
      var deleted := Delete(ex, once);
      LaunchFiles(ex, deleted, false, None, frames, ending);
      ReadingCapturesLast(ex, Dir(deleted.files, deleted.trace + [Launched(ex, false, None)]), frames, k);
    } else {
      LaunchFiles(ex, start, !a.isFresh, ResumeFor(d, a), frames, ending);
      ReadingCapturesLast(ex, Dir(start.files, start.trace + [Launched(ex, !a.isFresh, ResumeFor(d, a))]), frames, k);
    }
  }

  /** A fresh or retried activation whose last process names no session leaves none to
      resume. */
  lemma {:induction false} ForgottenSessionIsNotResumed(d: Dir, a: Activation, next: Activation)
    requires a.isFresh || Retries(d, a)
    requires LastAttempt(d, a).Ran? ==> NamesNone(a.executor, LastAttempt(d, a).frames, 0)
    requires next.executor.engine == a.executor.engine && a.executor.hasStateDir
    ensures ResumeFor(Activate(d, a), next) == None
  {
    var ex := a.executor;
    var start := if a.isFresh then Delete(ex, d) else d;
    var once := Launch(ex, start, !a.isFresh, ResumeFor(d, a), a.first);
    var last := LastAttempt(d, a);
    if last.Ran? {
      var begun := if Retries(d, a) then Delete(ex, once) else start;
      var launched := if Retries(d, a) then Launched(ex, false, None) else Launched(ex, !a.isFresh, ResumeFor(d, a));
      ReadingNamesNothing(ex, Dir(begun.files, begun.trace + [launched]), last.frames);
    }
  }

  /** Which failed attempt may be retried: one that ran and showed no progress, to its
      end for Claude, and for Codex unless it was cancelled. */
  lemma RetryByFrames(engine: Engine, attempt: Attempt)
    ensures MayRetry(engine, attempt) <==>
              && attempt.Ran?
              && (if engine == Codex
                  then attempt.ending != Cancelled
                       && forall k :: 0 <= k < |attempt.frames| ==>
                            !attempt.frames[k].TurnStarted? && !attempt.frames[k].TurnCompleted?
                  else attempt.ending == Eof
                       && forall k :: 0 <= k < |attempt.frames| ==> !attempt.frames[k].ResultFrame?)
  {
  }

  lemma {:induction false} ReadingKeepsOtherFile(ex: Executor, d: Dir, frames: seq<Frame>, other: Engine)
    requires other != ex.engine
    ensures ReadFrames(ex, d, frames).FileOf(other) == d.FileOf(other)
    decreases |frames|
  {
    if frames != [] {
      ReadingKeepsOtherFile(ex, Capture(ex, d, IdOf(ex.engine, frames[0])), frames[1..], other);
    }
  }

  /** An activation of one engine, its retry and its deletions included, leaves the
      other engine's session as it was. */
  lemma {:induction false} EnginesDoNotInterfere(d: Dir, a: Activation, other: Engine)
    requires other != a.executor.engine
    ensures Activate(d, a).FileOf(other) == d.FileOf(other)
  {
    var ex := a.executor;
    var start := if a.isFresh then Delete(ex, d) else d;
    LaunchKeepsOtherFile(ex, start, !a.isFresh, ResumeFor(d, a), a.first, other);
    var once := Launch(ex, start, !a.isFresh, ResumeFor(d, a), a.first);
    LaunchKeepsOtherFile(ex, Delete(ex, once), false, None, a.second, other);
  }

  lemma {:induction false} LaunchKeepsOtherFile(ex: Executor, d: Dir, mayResume: bool, resume: Option<string>,
                                                attempt: Attempt, other: Engine)
    requires other != ex.engine
    ensures Launch(ex, d, mayResume, resume, attempt).FileOf(other) == d.FileOf(other)
  {
    if attempt.Ran? {
      var launched := Dir(d.files, d.trace + [Launched(ex, mayResume, resume)]);
      ReadingKeepsOtherFile(ex, launched, attempt.frames, other);
    }
  }

  /** The input that tells one shared file from two: a Codex thread is captured, and the
      Claude launch that follows in the same workspace resumes nothing. */
  lemma {:induction false} ClaudeIgnoresCodexThread(thread: string)
    requires !IsBlank(thread)
    ensures var codex, claude := Executor(Codex, None, "", true), Executor(Claude, None, "", true);
            var after := Activate(EmptyDir,
                Activation(codex, false, Ran([SessionSeen(thread)], Cancelled), NotStarted));
            && Usable(codex, after.FileOf(Codex)) == Some(thread)
            && Usable(claude, after.FileOf(Claude)) == None
  {
    var codex := Executor(Codex, None, "", true);
    var frames := [SessionSeen(thread)];
    var launched := Dir(map[], [Launched(codex, true, None)]);
    assert EmptyDir.trace + [Launched(codex, true, None)] == launched.trace;
    assert thread != "";
    assert frames[1..] == [];
    assert ReadFrames(codex, launched, frames) == Capture(codex, launched, thread);
  }

  // ---------- One activation ----------

  /** The launches recorded in a trace, in order. */
  function Launches(trace: seq<Event>): seq<Event>
    decreases |trace|
  {
    if trace == [] then []
    else Launches(trace[..|trace| - 1]) + if trace[|trace| - 1].Launched? then [trace[|trace| - 1]] else []
  }

  lemma {:induction false} LaunchesAppend(trace: seq<Event>, event: Event)
    ensures Launches(trace + [event]) == Launches(trace) + if event.Launched? then [event] else []
  {
    assert (trace + [event])[..|trace|] == trace;
  }

  lemma {:induction false} ReadingLaunchesNothing(ex: Executor, d: Dir, frames: seq<Frame>)
    ensures Launches(ReadFrames(ex, d, frames).trace) == Launches(d.trace)
    decreases |frames|
  {
    if frames != [] {
      var id := IdOf(ex.engine, frames[0]);
      LaunchesAppend(d.trace, Captured(ex.engine, Record(id, ex.workspace, ex.homeMode)));
      ReadingLaunchesNothing(ex, Capture(ex, d, id), frames[1..]);
    }
  }

  lemma LaunchLaunchesOnce(ex: Executor, d: Dir, mayResume: bool, resume: Option<string>, attempt: Attempt)
    ensures Launches(Launch(ex, d, mayResume, resume, attempt).trace)
              == Launches(d.trace) + [Launched(ex, mayResume, resume)]
  {
    LaunchesAppend(d.trace, Launched(ex, mayResume, resume));
    if attempt.Ran? {
      ReadingLaunchesNothing(ex, Dir(d.files, d.trace + [Launched(ex, mayResume, resume)]), attempt.frames);
    }
  }

  function LaunchesOf(d: Dir, a: Activation): seq<Event> {
    var first := Launched(a.executor, !a.isFresh, ResumeFor(d, a));
    if ResumeFor(d, a).Some? && MayRetry(a.executor.engine, a.first) then [first, Launched(a.executor, false, None)]
    else [first]
  }

  /** One launch, or two: the second exactly after a resume whose process showed no
      progress, and it never resumes. A fresh activation resumes nothing. */
  lemma ActivationLaunches(d: Dir, a: Activation)
    ensures Launches(Activate(d, a).trace) == Launches(d.trace) + LaunchesOf(d, a)
    ensures a.isFresh ==> LaunchesOf(d, a) == [Launched(a.executor, false, None)]
  {
    var ex, resume := a.executor, ResumeFor(d, a);
    LaunchesAppend(d.trace, Deleted(ex.engine));
    var start := if a.isFresh then Delete(ex, d) else d;
    assert Launches(start.trace) == Launches(d.trace);
    LaunchLaunchesOnce(ex, start, !a.isFresh, resume, a.first);
    var once := Launch(ex, start, !a.isFresh, resume, a.first);
    if Retries(d, a) {
      LaunchesAppend(once.trace, Deleted(ex.engine));
      LaunchLaunchesOnce(ex, Delete(ex, once), false, None, a.second);
    }
  }

  // ---------- The child's directory ----------

  class StateDirectory {
    var files: map<Engine, Record>
    ghost var trace: seq<Event>

    constructor ()
      ensures View() == EmptyDir
    {
      files, trace := map[], [];
    }

    ghost function View(): Dir
      reads this
    {
      Dir(files, trace)
    }

    method DeleteState(ex: Executor)
      modifies this
      ensures View() == Delete(ex, old(View()))
    {
      if !ex.hasStateDir { return; }
      files, trace := files - {ex.engine}, trace + [Deleted(ex.engine)];
    }

    method WriteState(ex: Executor, id: string)
      modifies this
      ensures View() == Capture(ex, old(View()), id)
    {
      if id == "" || !ex.hasStateDir { return; }
      var record := Record(id, ex.workspace, ex.homeMode);
      files, trace := files[ex.engine := record], trace + [Captured(ex.engine, record)];
    }

    /** run_process: every frame to the end, remembering whether a turn showed. */
    method RunCodexProcess(ex: Executor, mayResume: bool, resume: Option<string>, attempt: Attempt)
      returns (exitedWithoutTurn: bool)
      requires ex.engine == Codex
      modifies this
      ensures View() == Launch(ex, old(View()), mayResume, resume, attempt)
      ensures exitedWithoutTurn <==> MayRetry(Codex, attempt)
      ensures exitedWithoutTurn <==>
                attempt.Ran? && attempt.ending != Cancelled && forall frame :: frame in attempt.frames ==>
                  !frame.TurnStarted? && !frame.TurnCompleted?
    {
      RetryByFrames(Codex, attempt);
      trace := trace + [Launched(ex, mayResume, resume)];
      if attempt.NotStarted? { return false; }
      var frames := attempt.frames;
      ghost var launched := View();
      var turnStarted, completed := false, false;
      for i := 0 to |frames|
        invariant ReadFrames(ex, View(), frames[i..]) == ReadFrames(ex, launched, frames)
        invariant !(turnStarted || completed) <==> forall k :: 0 <= k < i ==> !IsProgress(Codex, frames[k])
      {
        assert frames[i..][1..] == frames[i + 1..];
        match frames[i] {
          case SessionSeen(id) => WriteState(ex, id);
          case TurnStarted => turnStarted := true;
          case TurnCompleted => completed := true;
          case _ =>
        }
      }
      if attempt.ending == Cancelled { return false; }
      return !turnStarted && !completed;
    }

    /** run_once: frames up to the terminal result. */
    method RunClaudeProcess(ex: Executor, mayResume: bool, resume: Option<string>, attempt: Attempt)
      returns (exitedWithoutResult: bool)
      requires ex.engine == Claude
      modifies this
      ensures View() == Launch(ex, old(View()), mayResume, resume, attempt)
      ensures exitedWithoutResult <==> MayRetry(Claude, attempt)
      ensures exitedWithoutResult <==>
                attempt.Ran? && attempt.ending == Eof && forall frame :: frame in attempt.frames ==> !frame.ResultFrame?
    {
      RetryByFrames(Claude, attempt);
      trace := trace + [Launched(ex, mayResume, resume)];
      if attempt.NotStarted? { return false; }
      var frames := attempt.frames;
      ghost var launched := View();
      for i := 0 to |frames|
        invariant ReadFrames(ex, View(), frames[i..]) == ReadFrames(ex, launched, frames)
        invariant forall k :: 0 <= k < i ==> !IsProgress(Claude, frames[k])
      {
        assert frames[i..][1..] == frames[i + 1..];
        match frames[i] {
          case SessionSeen(id) => WriteState(ex, id);
          case ResultFrame(id) =>
            WriteState(ex, id);
            assert IsProgress(Claude, frames[i]);
            return false;
          case _ =>
        }
      }
      return attempt.ending == Eof;
    }

    method RunProcess(ex: Executor, mayResume: bool, resume: Option<string>, attempt: Attempt) returns (retry: bool)
      modifies this
      ensures View() == Launch(ex, old(View()), mayResume, resume, attempt)
      ensures retry <==> MayRetry(ex.engine, attempt)
    {
      match ex.engine {
        case Codex => retry := RunCodexProcess(ex, mayResume, resume, attempt);
        case Claude => retry := RunClaudeProcess(ex, mayResume, resume, attempt);
      }
    }

    /** `run`, from the state file's point of view. */
    method Run(a: Activation)
      requires Inv(View())
      modifies this
      ensures View() == Activate(old(View()), a) && Inv(View())
    {
      ActivationKeepsInv(View(), a);
      if a.isFresh {
        DeleteState(a.executor);
      }
      var engine := a.executor.engine;
      var file := if engine in files then Some(files[engine]) else None;
      var resume := if a.isFresh then None else Usable(a.executor, file);
      var retry := RunProcess(a.executor, !a.isFresh, resume, a.first);
      if resume.Some? && retry {
        DeleteState(a.executor);
        var _ := RunProcess(a.executor, false, None, a.second);
      }
    }
  }
}
