/** Release admission: the bounded pagination of API rows, and the conservation proof
    over grouped test blocks, their jobs and their summaries. */
module Admission {
  import opened Outcomes
  import opened Collections

  // ---------- Pagination ----------

  datatype PageError = OversizedPage | PageLimitExceeded

  /** What the server answers for a row list: consecutive pages, the last ones short
      or empty. */
  function PagesOf<Row>(rows: seq<Row>, size: nat, limit: nat): seq<seq<Row>>
    decreases limit
  {
    if limit == 0 then []
    else if |rows| <= size then [rows] + PagesOf([], size, limit - 1)
    else [rows[..size]] + PagesOf(rows[size..], size, limit - 1)
  }

  /** The pages up to the first short one, joined. */
  function Assemble<Row>(answers: seq<seq<Row>>, size: nat): Result<seq<Row>, PageError> {
    if answers == [] then Err(PageLimitExceeded)
    else if |answers[0]| > size then Err(OversizedPage)
    else if |answers[0]| < size then Ok(answers[0])
    else Prepend(answers[0], Assemble(answers[1..], size))
  }

  function Prepend<Row>(rows: seq<Row>, r: Result<seq<Row>, PageError>): Result<seq<Row>, PageError> {
    match r
    case Ok(rest) => Ok(rows + rest)
    case Err(e) => Err(e)
  }

  lemma {:induction false} PrependTwice<Row>(a: seq<Row>, b: seq<Row>, r: Result<seq<Row>, PageError>)
    ensures Prepend(a, Prepend(b, r)) == Prepend(a + b, r)
    ensures Prepend([], r) == r
  {
    if r.Ok? {
      assert a + (b + r.value) == a + b + r.value;
      assert [] + r.value == r.value;
    }
  }

  /** `pages`, given what each of its page requests would answer. */
  method Pages<Row>(answers: seq<seq<Row>>, size: nat) returns (r: Result<seq<Row>, PageError>)
    ensures r == Assemble(answers, size)
  {
    var result: seq<Row> := [];
    PrependTwice([], [], Assemble(answers, size));
    assert answers[0..] == answers;
    for page := 0 to |answers|
      invariant Assemble(answers, size) == Prepend(result, Assemble(answers[page..], size))
    {
      assert answers[page..][1..] == answers[page + 1..];
      var rows := answers[page];
      if |rows| > size { return Err(OversizedPage); }
      PrependTwice(result, rows, Assemble(answers[page + 1..], size));
      result := result + rows;
      if |rows| < size { return Ok(result); }
    }
    return Err(PageLimitExceeded);
  }

  lemma {:induction false} PageProduct(size: nat, limit: nat)
    requires limit > 0
    ensures size * limit == size + size * (limit - 1)
  {
  }

  /** The rows come back whole exactly when they do not fill every allowed page. */
  lemma {:induction false} PagingIsExact<Row>(rows: seq<Row>, size: nat, limit: nat)
    requires size > 0
    ensures Assemble(PagesOf(rows, size, limit), size) ==
              if |rows| < size * limit then Ok(rows) else Err(PageLimitExceeded)
    decreases limit
  {
    if limit > 0 {
      PageProduct(size, limit);
      var pages := PagesOf(rows, size, limit);
      if |rows| <= size {
        assert pages[1..] == PagesOf([], size, limit - 1);
        PagingIsExact<Row>([], size, limit - 1);
        assert rows + [] == rows;
      } else {
        assert pages[1..] == PagesOf(rows[size..], size, limit - 1);
        PagingIsExact(rows[size..], size, limit - 1);
        assert rows[..size] + rows[size..] == rows;
      }
    }
  }

  // ---------- Plans, blocks and jobs ----------

  datatype Suite = TestSuite | E2ESuite | SshSuite
  datatype Kind = Libtest | Doctest | Ssh
  datatype Shard = PlainBlock | SecondBlock | OtherBlock(digits: string) | DoctestShard

  /** A job's name, split where the name pattern of a matrix job splits it: a suite, a
      shard, and everything after the opening parenthesis. */
  datatype JobName =
    | BuildJob(suite: Suite)
    | Matrix(suite: Suite, shard: Shard, tail: string)
    | SshJob
    | SummaryJob(suite: Suite)
    | OtherJob(raw: string)

  /** The `schema` of a record, and a status or conclusion, as far as they are tested. */
  datatype Schema = PlanSchema | ResultSchema | OtherSchema(raw: string)
  datatype Status = Completed | Passed | OtherStatus(raw: string)
  datatype Conclusion = Success | Skipped | OtherConclusion(raw: string)

  /** Which plan a record belongs to: its key, commit and source tree. */
  datatype Source = Source(planKey: string, sha: string, tree: string)

  datatype Counts = Counts(passed: int, failed: int, ignored: int)

  datatype Block =
    Block(id: string, package: string,
      kind: Kind, family: int, count: int, ignored: int, timeoutSeconds: int)

  /** A record's profile is given as the suite it belongs to, or None for any other. */
  datatype Plan = Plan(
    schema: Schema, profile: Option<Suite>, producerAttempt: int, source: Source, planId: int,
    packages: seq<string>, blocks: seq<Block>, inventory: int, doctests: int)

  datatype BlockResult = BlockResult(
    schema: Schema, source: Source, block: string, package: string, profile: Option<Suite>, attempt: int,
    status: Status, exitCode: int, hasError: bool, expected: int, timeoutSeconds: int, durationMs: real, counts: Counts)

  datatype Summary = Summary(
    profile: Option<Suite>, source: Source, status: Status, blocks: int, inventory: int, doctests: int, counts: Counts)

  /** A job with the records of its log, whichever of the three kinds it has. */
  datatype Job = Job(
    name: JobName, runId: int, attempt: int, headSha: string, headBranch: string,
    status: Status, conclusion: Conclusion, completedAt: int,
    plans: seq<Plan>, results: seq<BlockResult>, summaries: seq<Summary>)

  /** The CI run, the tree of the commit it is to prove, and the instant it must have
      finished before, if there is one. */
  datatype CiRun = CiRun(
    id: int, attempt: int, headSha: string, headBranch: string, tree: string, before: Option<int>, jobs: seq<Job>)

  const BLOCK_TIMEOUT_SECONDS := 1200
  const BLOCK_TIMEOUT_MS := 1200000.0

  const MATRIX_PLACEHOLDER := "${{ matrix.id }})"

  function Select(blocks: seq<Block>, doctests: bool): seq<Block> {
    if blocks == [] then []
    else
      var rest := Select(blocks[1..], doctests);
      if (blocks[0].kind == Doctest) == doctests then [blocks[0]] + rest else rest
  }

  function SumCount(blocks: seq<Block>): int {
    if blocks == [] then 0 else blocks[0].count + SumCount(blocks[1..])
  }

  function SumIgnored(blocks: seq<Block>): int {
    if blocks == [] then 0 else blocks[0].ignored + SumIgnored(blocks[1..])
  }

  function CountFamily(blocks: seq<Block>, family: int): int {
    if blocks == [] then 0 else (if blocks[0].family == family then 1 else 0) + CountFamily(blocks[1..], family)
  }

  /** The first half, rounded up, is family 1. */
  predicate FamiliesSplit(runtime: seq<Block>) {
    forall i :: 0 <= i < |runtime| ==> runtime[i].family == if i < (|runtime| + 1) / 2 then 1 else 2
  }

  predicate IsHex(s: string, length: nat) {
    |s| == length && forall i :: 0 <= i < |s| ==> '0' <= s[i] <= '9' || 'a' <= s[i] <= 'f'
  }

  /** The order of `sorted` on strings. */
  predicate IsBefore(a: string, b: string) {
    b != [] && (a == [] || a[0] < b[0] || (a[0] == b[0] && IsBefore(a[1..], b[1..])))
  }

  /** The sorted list, without repetitions, of the packages of the blocks. */
  predicate ListsPackages(packages: seq<string>, runtime: seq<Block>) {
    && (forall i, j :: 0 <= i < j < |packages| ==> IsBefore(packages[i], packages[j]))
    && (forall package :: package in packages ==> exists i :: 0 <= i < |runtime| && runtime[i].package == package)
    && (forall i :: 0 <= i < |runtime| ==> runtime[i].package in packages)
  }

  predicate IsPlanIdentity(plan: Plan, suite: Suite, tree: string) {
    && plan.schema == PlanSchema && plan.profile == Some(suite)
    && IsHex(plan.source.sha, 40) && plan.source.tree == tree && IsHex(plan.source.planKey, 64) && plan.planId > 0
  }

  predicate IsPlan(plan: Plan, suite: Suite, tree: string) {
    var runtime, docs := Select(plan.blocks, false), Select(plan.blocks, true);
    && IsPlanIdentity(plan, suite, tree)
    && ListsPackages(plan.packages, runtime)
    && 1 <= |runtime| <= 512 && |docs| <= 256 && plan.inventory > 0
    && FamiliesSplit(runtime) && (forall i :: 0 <= i < |docs| ==> docs[i].family == 1)
    && SumCount(runtime) == plan.inventory && SumCount(docs) == plan.doctests
    && (suite == TestSuite || plan.doctests == 0)
  }

  predicate IsIdChar(c: char) { 'a' <= c <= 'z' || 'A' <= c <= 'Z' || '0' <= c <= '9' || c == '-' }

  predicate IsPackageChar(c: char) { 'a' <= c <= 'z' || '0' <= c <= '9' || c == '-' }

  predicate IsPackage(package: string) {
    package != [] && package[0] != '-' && forall i :: 0 <= i < |package| ==> IsPackageChar(package[i])
  }

  predicate IsBlock(block: Block, suite: Suite) {
    && 1 <= |block.id| <= 128 && (forall i :: 0 <= i < |block.id| ==> IsIdChar(block.id[i]))
    && IsPackage(block.package) && block.timeoutSeconds == BLOCK_TIMEOUT_SECONDS
    && (if suite == SshSuite then block.kind == Ssh else block.kind != Ssh)
    && block.count > 0 && 0 <= block.ignored <= block.count
  }

  function BlockJobName(suite: Suite, block: Block): JobName {
    if suite == SshSuite then SshJob
    else Matrix(suite,
                if block.kind == Doctest then DoctestShard else if block.family == 2 then SecondBlock else PlainBlock,
                block.id + ")")
  }

  function EmptyFamilyName(suite: Suite): JobName { Matrix(suite, SecondBlock, MATRIX_PLACEHOLDER) }

  predicate HasEmptyFamily(suite: Suite, plan: Plan) {
    suite != SshSuite && CountFamily(Select(plan.blocks, false), 2) == 0
  }

  function Found(jobs: seq<Job>, name: JobName): seq<Job> {
    if jobs == [] then []
    else if jobs[0].name == name then [jobs[0]] + Found(jobs[1..], name) else Found(jobs[1..], name)
  }

  function ExpectedCounts(total: int, ignored: int): Counts { Counts(total - ignored, 0, ignored) }

  /** The record is of this plan, this block and the attempt that its job ran in, and
      reports a pass of every test that is not ignored. */
  predicate IsResult(r: BlockResult, plan: Plan, suite: Suite, block: Block) {
    && r.schema == ResultSchema && r.source == plan.source
    && r.block == block.id && r.package == block.package && r.profile == Some(suite)
    && r.status == Passed && r.exitCode == 0 && !r.hasError
    && r.expected == block.count && r.timeoutSeconds == BLOCK_TIMEOUT_SECONDS
    && 0.0 <= r.durationMs <= BLOCK_TIMEOUT_MS
    && r.counts == ExpectedCounts(block.count, block.ignored)
  }

  /** The one job of a block, with its one result record. The plan's producer attempt
      is the attempt of its build job. */
  predicate IsProven(ci: CiRun, suite: Suite, plan: Plan, block: Block) {
    var found := Found(ci.jobs, BlockJobName(suite, block));
    && IsBlock(block, suite) && |found| == 1 && |found[0].results| == 1
    && IsResult(found[0].results[0], plan, suite, block)
    && plan.producerAttempt <= found[0].results[0].attempt == found[0].attempt <= ci.attempt
  }

  predicate IsSkippedOnce(ci: CiRun, suite: Suite, plan: Plan) {
    var found := Found(ci.jobs, EmptyFamilyName(suite));
    && |found| == 1
    && var empty := found[0];
       && empty.status == Completed && empty.conclusion == Skipped
       && empty.runId == ci.id && empty.headSha == ci.headSha && empty.headBranch == ci.headBranch
       && plan.producerAttempt <= empty.attempt <= ci.attempt
       && (ci.before.Some? ==> empty.completedAt < ci.before.value)
  }

  /** Names the shard pattern matches; numbered shards other than 2 match as well. */
  predicate IsShardJob(name: JobName) {
    name == SshJob || (name.Matrix? && name.suite != SshSuite)
  }

  function BlockNames(suite: Suite, blocks: seq<Block>): seq<JobName> {
    seq(|blocks|, i requires 0 <= i < |blocks| => BlockJobName(suite, blocks[i]))
  }

  /** One accepted plan for each suite, in the order the suites are checked. */
  datatype Plans = Plans(test: Plan, e2e: Plan, ssh: Plan) {
    function Of(suite: Suite): Plan {
      match suite case TestSuite => test case E2ESuite => e2e case SshSuite => ssh
    }
  }

  function AllBlockNames(plans: Plans): seq<JobName> {
    BlockNames(TestSuite, plans.test.blocks) + BlockNames(E2ESuite, plans.e2e.blocks)
    + BlockNames(SshSuite, plans.ssh.blocks)
  }

  function EmptyNames(plans: Plans): seq<JobName> {
    (if HasEmptyFamily(TestSuite, plans.test) then [EmptyFamilyName(TestSuite)] else [])
    + (if HasEmptyFamily(E2ESuite, plans.e2e) then [EmptyFamilyName(E2ESuite)] else [])
  }

  function ShardNames(jobs: seq<Job>): seq<JobName> {
    if jobs == [] then []
    else if IsShardJob(jobs[0].name) then [jobs[0].name] + ShardNames(jobs[1..]) else ShardNames(jobs[1..])
  }

  function NameSet(s: seq<JobName>): (names: set<JobName>)
    ensures forall n :: n in names <==> n in s
  {
    set n | n in s
  }

  ghost predicate AllProven(ci: CiRun, suite: Suite, plan: Plan, blocks: seq<Block>) {
    forall b :: b in blocks ==> IsProven(ci, suite, plan, b)
  }

  /** What every suite's plan must satisfy, name clashes aside. */
  ghost predicate PlanIsProven(ci: CiRun, suite: Suite, plan: Plan) {
    && IsPlan(plan, suite, ci.tree)
    && AllProven(ci, suite, plan, plan.blocks)
    && (HasEmptyFamily(suite, plan) ==> IsSkippedOnce(ci, suite, plan))
  }

  predicate IsSummary(s: Summary, plan: Plan) {
    && s.source == plan.source && s.status == Passed
    && s.blocks == |plan.blocks| && s.inventory == plan.inventory && s.doctests == plan.doctests
    && s.counts == ExpectedCounts(plan.inventory + plan.doctests, SumIgnored(plan.blocks))
  }

  /** The plan of a suite: the one record of its one, successful build job, made in the
      attempt that the job ran in. */
  function PlanFor(ci: CiRun, suite: Suite): Option<Plan> {
    var builds := Found(ci.jobs, BuildJob(suite));
    if |builds| == 1 && builds[0].status == Completed && builds[0].conclusion == Success && |builds[0].plans| == 1
       && builds[0].plans[0].producerAttempt == builds[0].attempt
    then Some(builds[0].plans[0]) else None
  }

  function ProfilesOf(summaries: seq<Summary>): set<Option<Suite>> { set s | s in summaries :: s.profile }

  function Named(suites: set<Suite>): set<Option<Suite>> { set suite | suite in suites :: Some(suite) }

  /** The summary job of a suite reports exactly these suites, each consistently. */
  predicate SummaryAgrees(ci: CiRun, plans: Plans, suite: Suite, reported: set<Suite>) {
    var found := Found(ci.jobs, SummaryJob(suite));
    && |found| == 1
    && |found[0].summaries| == |reported|
    && ProfilesOf(found[0].summaries) == Named(reported)
    && forall s :: s in found[0].summaries ==> s.profile.Some? && IsSummary(s, plans.Of(s.profile.value))
  }

  ghost predicate IsAccepted(ci: CiRun, plans: Plans) {
    && PlanFor(ci, TestSuite) == Some(plans.test) && PlanIsProven(ci, TestSuite, plans.test)
    && PlanFor(ci, E2ESuite) == Some(plans.e2e) && PlanIsProven(ci, E2ESuite, plans.e2e)
    && PlanFor(ci, SshSuite) == Some(plans.ssh) && PlanIsProven(ci, SshSuite, plans.ssh)
    && Distinct(AllBlockNames(plans))
    && NameSet(ShardNames(ci.jobs)) == NameSet(AllBlockNames(plans) + EmptyNames(plans))
    && SummaryAgrees(ci, plans, TestSuite, {TestSuite, SshSuite})
    && SummaryAgrees(ci, plans, E2ESuite, {E2ESuite})
  }

  // ---------- The families ----------

  lemma {:induction false} FamilyCounts(runtime: seq<Block>, from: int, n: int)
    requires from + |runtime| == n && 0 <= from
    requires forall i :: 0 <= i < |runtime| ==> runtime[i].family == if from + i < (n + 1) / 2 then 1 else 2
    ensures CountFamily(runtime, 1) == if from < (n + 1) / 2 then (n + 1) / 2 - from else 0
    ensures CountFamily(runtime, 2) == |runtime| - CountFamily(runtime, 1)
    decreases |runtime|
  {
    if runtime != [] {
      FamilyCounts(runtime[1..], from + 1, n);
    }
  }

  /** The bound of 256 blocks a matrix family needs no check of its own: it follows
      from the split of at most 512. */
  lemma FamiliesFit(plan: Plan, suite: Suite, tree: string)
    requires IsPlan(plan, suite, tree)
    ensures var runtime := Select(plan.blocks, false);
            CountFamily(runtime, 1) <= 256 && CountFamily(runtime, 2) <= 256
            && CountFamily(runtime, 1) + CountFamily(runtime, 2) == |runtime|
            && (CountFamily(runtime, 2) == 0 <==> |runtime| == 1)
  {
    FamilyCounts(Select(plan.blocks, false), 0, |Select(plan.blocks, false)|);
  }

  // ---------- Conservation ----------

  /** The passed counts of a plan's blocks, each read from its own job's record. */
  ghost function SumPassed(ci: CiRun, suite: Suite, plan: Plan, blocks: seq<Block>): int
    requires AllProven(ci, suite, plan, blocks)
  {
    if blocks == [] then 0
    else
      assert IsProven(ci, suite, plan, blocks[0]);
      Found(ci.jobs, BlockJobName(suite, blocks[0]))[0].results[0].counts.passed
      + SumPassed(ci, suite, plan, blocks[1..])
  }

  lemma {:induction false} CountsSplit(blocks: seq<Block>)
    ensures SumCount(blocks) == SumCount(Select(blocks, false)) + SumCount(Select(blocks, true))
  {
    if blocks != [] {
      CountsSplit(blocks[1..]);
      var own := Select(blocks, blocks[0].kind == Doctest);
      assert own[1..] == Select(blocks[1..], blocks[0].kind == Doctest);
    }
  }

  lemma {:induction false} PassedIsCountLessIgnored(ci: CiRun, suite: Suite, plan: Plan, blocks: seq<Block>)
    requires AllProven(ci, suite, plan, blocks)
    ensures SumPassed(ci, suite, plan, blocks) == SumCount(blocks) - SumIgnored(blocks)
  {
    if blocks != [] {
      assert IsProven(ci, suite, plan, blocks[0]);
      PassedIsCountLessIgnored(ci, suite, plan, blocks[1..]);
    }
  }

  /** The passed counts of the block jobs add up to the summary's total. */
  lemma PassedAddsUp(ci: CiRun, suite: Suite, plan: Plan, summary: Summary)
    requires PlanIsProven(ci, suite, plan) && IsSummary(summary, plan)
    ensures SumPassed(ci, suite, plan, plan.blocks) == summary.counts.passed
    ensures SumPassed(ci, suite, plan, plan.blocks) + summary.counts.ignored == plan.inventory + plan.doctests
  {
    CountsSplit(plan.blocks);
    PassedIsCountLessIgnored(ci, suite, plan, plan.blocks);
  }

  // ---------- Jobs and blocks, one to one ----------

  lemma {:induction false} FoundInShards(jobs: seq<Job>, name: JobName)
    ensures multiset(ShardNames(jobs))[name] == if IsShardJob(name) then |Found(jobs, name)| else 0
  {
    if jobs != [] {
      FoundInShards(jobs[1..], name);
      var rest := ShardNames(jobs[1..]);
      if IsShardJob(jobs[0].name) {
        assert multiset([jobs[0].name] + rest) == multiset{jobs[0].name} + multiset(rest);
      }
    }
  }

  lemma {:induction false} DistinctOccursOnce<T>(s: seq<T>, x: T)
    requires Distinct(s)
    ensures multiset(s)[x] == if x in s then 1 else 0
  {
    if s != [] {
      assert s == [s[0]] + s[1..];
      DistinctOccursOnce(s[1..], x);
    }
  }

  /** Identifiers cannot spell the unexpanded placeholder of an empty family. */
  lemma BlockIsNotPlaceholder(ci: CiRun, suite: Suite, plan: Plan, block: Block, empty: Suite)
    requires IsProven(ci, suite, plan, block)
    ensures BlockJobName(suite, block) != EmptyFamilyName(empty)
    ensures IsShardJob(BlockJobName(suite, block)) && |Found(ci.jobs, BlockJobName(suite, block))| == 1
  {
    assert (block.id + ")")[0] == block.id[0];
    assert MATRIX_PLACEHOLDER[0] == '$';
  }

  lemma {:induction false} BlockNameIsExpected(ci: CiRun, plans: Plans, name: JobName)
    requires IsAccepted(ci, plans) && name in AllBlockNames(plans)
    ensures IsShardJob(name) && |Found(ci.jobs, name)| == 1
    ensures name != EmptyFamilyName(TestSuite) && name != EmptyFamilyName(E2ESuite)
  {
    var suite, block := BlockOfName(plans, name);
    BlockIsNotPlaceholder(ci, suite, plans.Of(suite), block, TestSuite);
    BlockIsNotPlaceholder(ci, suite, plans.Of(suite), block, E2ESuite);
  }

  lemma {:induction false} BlockOfName(plans: Plans, name: JobName) returns (suite: Suite, block: Block)
    requires name in AllBlockNames(plans)
    ensures block in plans.Of(suite).blocks && BlockJobName(suite, block) == name
  {
    if name in BlockNames(TestSuite, plans.test.blocks) {
      suite := TestSuite;
    } else if name in BlockNames(E2ESuite, plans.e2e.blocks) {
      suite := E2ESuite;
    } else {
      suite := SshSuite;
    }
    var i :| 0 <= i < |plans.Of(suite).blocks| && BlockNames(suite, plans.Of(suite).blocks)[i] == name;
    block := plans.Of(suite).blocks[i];
  }

  lemma ExpectedIsDistinct(ci: CiRun, plans: Plans)
    requires IsAccepted(ci, plans)
    ensures Distinct(AllBlockNames(plans) + EmptyNames(plans))
  {
    var blocks, empties := AllBlockNames(plans), EmptyNames(plans);
    forall n | n in blocks ensures n !in empties {
      BlockNameIsExpected(ci, plans, n);
    }
    forall i | 0 <= i < |blocks| ensures blocks[i] !in empties {
      assert blocks[i] in blocks;
    }
  }

  lemma {:induction false} NameOccursAlike(ci: CiRun, plans: Plans, name: JobName)
    requires IsAccepted(ci, plans) && Distinct(AllBlockNames(plans) + EmptyNames(plans))
    ensures multiset(ShardNames(ci.jobs))[name] == multiset(AllBlockNames(plans) + EmptyNames(plans))[name]
  {
    var expected := AllBlockNames(plans) + EmptyNames(plans);
    FoundInShards(ci.jobs, name);
    DistinctOccursOnce(expected, name);
    assert name in ShardNames(ci.jobs) <==> name in NameSet(expected);
    if name in AllBlockNames(plans) {
      BlockNameIsExpected(ci, plans, name);
    } else if name in EmptyNames(plans) {
      assert |Found(ci.jobs, name)| == 1 && IsShardJob(name);
    } else {
      assert name !in ShardNames(ci.jobs);
    }
  }

  /** An accepted proof puts the matching jobs in one-to-one correspondence with the
      planned blocks and the empty families: the names agree as multisets, and no
      name is there twice. */
  lemma {:induction false} JobsMatchBlocks(ci: CiRun, plans: Plans)
    requires IsAccepted(ci, plans)
    ensures multiset(ShardNames(ci.jobs)) == multiset(AllBlockNames(plans) + EmptyNames(plans))
    ensures Distinct(AllBlockNames(plans) + EmptyNames(plans))
  {
    ExpectedIsDistinct(ci, plans);
    forall name: JobName
      ensures multiset(ShardNames(ci.jobs))[name] == multiset(AllBlockNames(plans) + EmptyNames(plans))[name]
    {
      NameOccursAlike(ci, plans, name);
    }
  }

  /** For each suite, the passed counts of its block jobs sum to what the summary says. */
  lemma AcceptedConserves(ci: CiRun, plans: Plans, suite: Suite, reporter: Suite, summary: Summary)
    requires IsAccepted(ci, plans)
    requires reporter == if suite == E2ESuite then E2ESuite else TestSuite
    requires summary in Found(ci.jobs, SummaryJob(reporter))[0].summaries && summary.profile == Some(suite)
    ensures PlanIsProven(ci, suite, plans.Of(suite))
    ensures SumPassed(ci, suite, plans.Of(suite), plans.Of(suite).blocks) == summary.counts.passed
    ensures summary.status == Passed && summary.source == plans.Of(suite).source && summary.counts.failed == 0
    ensures summary.blocks == |plans.Of(suite).blocks| && summary.counts.ignored == SumIgnored(plans.Of(suite).blocks)
    ensures summary.counts.passed + summary.counts.ignored == plans.Of(suite).inventory + plans.Of(suite).doctests
  {
    PassedAddsUp(ci, suite, plans.Of(suite), summary);
  }

  lemma {:induction false} JobIsFound(jobs: seq<Job>, job: Job)
    requires job in jobs
    ensures job in Found(jobs, job.name)
    ensures IsShardJob(job.name) ==> job.name in ShardNames(jobs)
  {
    if jobs[0] != job { JobIsFound(jobs[1..], job); }
  }

  /** The job proves this block: its one record is of the suite's plan and the commit's
      tree, made no earlier than the plan's build and no later than the run. */
  ghost predicate ProvesBlock(ci: CiRun, plans: Plans, job: Job, suite: Suite, block: Block) {
    var plan := plans.Of(suite);
    && block in plan.blocks && job.name == BlockJobName(suite, block)
    && |job.results| == 1 && IsResult(job.results[0], plan, suite, block)
    && job.results[0].source.tree == ci.tree
    && plan.producerAttempt <= job.results[0].attempt == job.attempt <= ci.attempt
  }

  predicate IsEmptyFamilyJob(ci: CiRun, plans: Plans, job: Job, suite: Suite) {
    && HasEmptyFamily(suite, plans.Of(suite)) && job.name == EmptyFamilyName(suite)
    && job.conclusion == Skipped && job.runId == ci.id && job.headSha == ci.headSha && job.headBranch == ci.headBranch
    && (ci.before.Some? ==> job.completedAt < ci.before.value)
  }

  lemma {:induction false} BlockJobProves(ci: CiRun, plans: Plans, job: Job, suite: Suite, block: Block)
    requires job in Found(ci.jobs, job.name) && job.name == BlockJobName(suite, block)
    requires PlanIsProven(ci, suite, plans.Of(suite)) && block in plans.Of(suite).blocks
    ensures ProvesBlock(ci, plans, job, suite, block)
  {
    assert IsProven(ci, suite, plans.Of(suite), block);
  }

  lemma {:induction false} PlaceholderIsSkipped(ci: CiRun, plans: Plans, job: Job, suite: Suite)
    requires job in Found(ci.jobs, job.name) && job.name == EmptyFamilyName(suite)
    requires HasEmptyFamily(suite, plans.Of(suite)) && IsSkippedOnce(ci, suite, plans.Of(suite))
    ensures IsEmptyFamilyJob(ci, plans, job, suite)
  {
  }

  /** No job of an accepted run that looks like a shard is foreign to the proof: each one
      proves a planned block for the commit's tree, or is this run's own skipped
      placeholder of a family that is empty. */
  lemma {:induction false} EveryShardJobIsAccountedFor(ci: CiRun, plans: Plans, job: Job)
    requires IsAccepted(ci, plans) && job in ci.jobs && IsShardJob(job.name)
    ensures || (exists suite, block :: ProvesBlock(ci, plans, job, suite, block))
            || (exists suite :: IsEmptyFamilyJob(ci, plans, job, suite))
  {
    JobIsFound(ci.jobs, job);
    assert job.name in NameSet(AllBlockNames(plans) + EmptyNames(plans));
    if job.name in AllBlockNames(plans) {
      var suite, block := BlockOfName(plans, job.name);
      BlockJobProves(ci, plans, job, suite, block);
    } else {
      PlaceholderIsSkipped(ci, plans, job, if job.name == EmptyFamilyName(TestSuite) then TestSuite else E2ESuite);
    }
  }

  /** What stands in the records of an accepted block and its build, field by field. */
  ghost predicate IsSoundBuild(build: Job, suite: Suite, tree: string) {
    && build.status == Completed && build.conclusion == Success && |build.plans| == 1
    && var plan := build.plans[0];
       && plan.schema == PlanSchema && plan.profile == Some(suite) && plan.producerAttempt == build.attempt
       && plan.source.tree == tree && |plan.source.sha| == 40 && |plan.source.planKey| == 64 && plan.planId > 0
       && plan.inventory > 0 && (suite != TestSuite ==> plan.doctests == 0)
       && (forall b :: b in plan.blocks && b.kind == Doctest ==> b.family == 1)
       && forall package :: package in plan.packages <==>
            exists b :: b in plan.blocks && b.kind != Doctest && b.package == package
  }

  /** What a block must be: an id and a package of their alphabets, a kind its suite has,
      counts that fit, and the one timeout there is. */
  ghost predicate IsSoundBlock(block: Block, suite: Suite) {
    && 1 <= |block.id| <= 128 && (forall c :: c in block.id ==> c == '-' || IsAlphanumeric(c))
    && 1 <= |block.package| && block.package[0] != '-'
    && (forall c :: c in block.package ==> c == '-' || 'a' <= c <= 'z' || '0' <= c <= '9')
    && (block.kind == Ssh <==> suite == SshSuite)
    && block.count >= 1 && 0 <= block.ignored <= block.count && block.timeoutSeconds == 1200
  }

  predicate IsAlphanumeric(c: char) { 'a' <= c <= 'z' || 'A' <= c <= 'Z' || '0' <= c <= '9' }

  lemma {:induction false} SelectMembers(blocks: seq<Block>, doctests: bool)
    ensures forall b :: b in Select(blocks, doctests) <==> b in blocks && (b.kind == Doctest) == doctests
  {
    if blocks != [] { SelectMembers(blocks[1..], doctests); }
  }

  lemma {:induction false} PackagesAreTheBlocks(plan: Plan, suite: Suite, tree: string, package: string)
    requires IsPlan(plan, suite, tree)
    ensures package in plan.packages <==> exists b :: b in plan.blocks && b.kind != Doctest && b.package == package
  {
    var runtime := Select(plan.blocks, false);
    SelectMembers(plan.blocks, false);
    if package in plan.packages {
      var i :| 0 <= i < |runtime| && runtime[i].package == package;
      assert runtime[i] in runtime;
    }
    if exists b :: b in plan.blocks && b.kind != Doctest && b.package == package {
      var b :| b in plan.blocks && b.kind != Doctest && b.package == package;
      assert b in runtime;
    }
  }

  ghost predicate IsSoundResult(job: Job, plan: Plan, suite: Suite, block: Block) {
    && |job.results| == 1
    && var r := job.results[0];
       && r.schema == ResultSchema && r.source == plan.source && r.profile == Some(suite)
       && r.block == block.id && r.package == block.package && r.attempt == job.attempt
       && r.status == Passed && r.exitCode == 0 && !r.hasError
       && r.expected == block.count && r.timeoutSeconds == 1200 && 0.0 <= r.durationMs <= 1_200_000.0
       && r.counts.passed == block.count - block.ignored && r.counts.failed == 0 && r.counts.ignored == block.ignored
  }

  /** The name under which a block's job must be listed. */
  ghost predicate IsNameOf(name: JobName, suite: Suite, block: Block) {
    if suite == SshSuite then name == SshJob
    else
      && name.Matrix? && name.suite == suite && name.tail == block.id + ")"
      && (block.kind == Doctest ==> name.shard == DoctestShard)
      && (block.kind != Doctest ==> name.shard == if block.family == 2 then SecondBlock else PlainBlock)
  }

  /** Each suite's one build job of an accepted run succeeded with a plan of this tree,
      whose packages are those of its blocks. */
  lemma {:induction false} AcceptedBuildSucceeded(ci: CiRun, plans: Plans, suite: Suite)
    requires IsAccepted(ci, plans)
    ensures var builds := Found(ci.jobs, BuildJob(suite));
            |builds| == 1 && IsSoundBuild(builds[0], suite, ci.tree) && builds[0].plans[0] == plans.Of(suite)
  {
    var plan := plans.Of(suite);
    assert PlanFor(ci, suite) == Some(plan) && IsPlan(plan, suite, ci.tree);
    SelectMembers(plan.blocks, true);
    forall package
      ensures package in plan.packages <==> exists b :: b in plan.blocks && b.kind != Doctest && b.package == package
    {
      PackagesAreTheBlocks(plan, suite, ci.tree, package);
    }
  }

  /** Each planned block of an accepted run is well formed, and its one job, listed under
      its name, has one record, which passed, exited with 0 and reports no error. */
  lemma {:induction false} AcceptedBlockPassed(ci: CiRun, plans: Plans, suite: Suite, block: Block)
    requires IsAccepted(ci, plans) && block in plans.Of(suite).blocks
    ensures IsSoundBlock(block, suite)
    ensures exists job :: job in ci.jobs && IsNameOf(job.name, suite, block)
              && IsSoundResult(job, plans.Of(suite), suite, block)
  {
    ProvenBlockPassed(ci, plans.Of(suite), suite, block);
  }

  lemma {:induction false} ProvenBlockPassed(ci: CiRun, plan: Plan, suite: Suite, block: Block)
    requires IsProven(ci, suite, plan, block)
    ensures IsSoundBlock(block, suite)
    ensures exists job :: job in ci.jobs && IsNameOf(job.name, suite, block) && IsSoundResult(job, plan, suite, block)
  {
    var name := BlockJobName(suite, block);
    var job := Found(ci.jobs, name)[0];
    FoundIsListed(ci.jobs, name);
    assert job in Found(ci.jobs, name);
    assert IsNameOf(job.name, suite, block) && IsSoundResult(job, plan, suite, block);
  }

  ghost predicate ReportsSuite(job: Job, suite: Suite) {
    exists s :: s in job.summaries && s.profile == Some(suite)
  }

  lemma {:induction false} ReportedIsThere(ci: CiRun, plans: Plans, reporter: Suite, reported: set<Suite>, suite: Suite)
    requires SummaryAgrees(ci, plans, reporter, reported) && suite in reported
    ensures var found := Found(ci.jobs, SummaryJob(reporter)); |found| == 1 && ReportsSuite(found[0], suite)
  {
    var summaries := Found(ci.jobs, SummaryJob(reporter))[0].summaries;
    assert Some(suite) in Named(reported);
    assert Some(suite) in ProfilesOf(summaries);
  }

  /** The summary job of the test suites has two records, one for each of them, and that
      of the end-to-end suite has one. */
  lemma {:induction false} SummariesAreOnePerSuite(ci: CiRun, plans: Plans)
    requires IsAccepted(ci, plans)
    ensures var tests, e2e := Found(ci.jobs, SummaryJob(TestSuite)), Found(ci.jobs, SummaryJob(E2ESuite));
            && |tests| == 1 && |tests[0].summaries| == 2
            && ReportsSuite(tests[0], TestSuite) && ReportsSuite(tests[0], SshSuite)
            && |e2e| == 1 && |e2e[0].summaries| == 1 && ReportsSuite(e2e[0], E2ESuite)
  {
    ReportedIsThere(ci, plans, TestSuite, {TestSuite, SshSuite}, TestSuite);
    ReportedIsThere(ci, plans, TestSuite, {TestSuite, SshSuite}, SshSuite);
    ReportedIsThere(ci, plans, E2ESuite, {E2ESuite}, E2ESuite);
    assert |{TestSuite, SshSuite}| == 2 && |{E2ESuite}| == 1;
  }

  lemma {:induction false} FoundIsListed(jobs: seq<Job>, name: JobName)
    ensures forall job :: job in Found(jobs, name) ==> job in jobs && job.name == name
  {
    if jobs != [] { FoundIsListed(jobs[1..], name); }
  }

  // ---------- The check ----------

  datatype Rejection = BadPlan | BadBlocks | BadShards | BadSummary

  lemma {:induction false} OneMoreProven(ci: CiRun, suite: Suite, plan: Plan, blocks: seq<Block>, k: nat)
    requires k < |blocks| && AllProven(ci, suite, plan, blocks[..k])
    ensures IsProven(ci, suite, plan, blocks[k]) ==> AllProven(ci, suite, plan, blocks[..k + 1])
    ensures !IsProven(ci, suite, plan, blocks[k]) ==> !AllProven(ci, suite, plan, blocks)
  {
    assert blocks[..k + 1] == blocks[..k] + [blocks[k]] && blocks[k] in blocks;
  }

  lemma {:induction false} NamesGrow(all: seq<JobName>, n: nat)
    requires n < |all| && Distinct(all[..n])
    ensures NameSet(all[..n + 1]) == NameSet(all[..n]) + {all[n]}
    ensures if all[n] in NameSet(all[..n]) then !Distinct(all) else Distinct(all[..n + 1])
  {
    assert all[..n + 1] == all[..n] + [all[n]];
    if all[n] in NameSet(all[..n]) {
      var i :| 0 <= i < n && all[..n][i] == all[n];
      assert all[i] == all[n];
    }
  }

  /** The inner loop: every block proven, its name not seen before. */
  method CheckBlocks(ci: CiRun, suite: Suite, plan: Plan, blocks: seq<Block>, names: set<JobName>,
                     ghost before: seq<JobName>)
    returns (ok: bool, seen: set<JobName>)
    requires names == NameSet(before) && Distinct(before)
    ensures ok <==> AllProven(ci, suite, plan, blocks) && Distinct(before + BlockNames(suite, blocks))
    ensures ok ==> seen == NameSet(before + BlockNames(suite, blocks))
  {
    seen := names;
    ghost var all := before + BlockNames(suite, blocks);
    assert all[..|before|] == before;
    for k := 0 to |blocks|
      invariant seen == NameSet(all[..|before| + k])
      invariant AllProven(ci, suite, plan, blocks[..k])
      invariant Distinct(all[..|before| + k])
    {
      var block := blocks[k];
      var name := BlockJobName(suite, block);
      assert all[|before| + k] == name;
      NamesGrow(all, |before| + k);
      OneMoreProven(ci, suite, plan, blocks, k);
      if name in seen || !IsProven(ci, suite, plan, block) {
        return false, seen;
      }
      seen := seen + {name};
    }
    assert blocks[..|blocks|] == blocks && all[..|before| + |blocks|] == all;
    ok := true;
  }

  /** One suite of the outer loop. */
  method CheckSuite(ci: CiRun, suite: Suite, names: set<JobName>, ghost before: seq<JobName>)
    returns (plan: Option<Plan>, seen: set<JobName>)
    requires names == NameSet(before) && Distinct(before)
    ensures plan.Some? ==>
              && PlanFor(ci, suite) == plan && PlanIsProven(ci, suite, plan.value)
              && Distinct(before + BlockNames(suite, plan.value.blocks))
              && seen == NameSet(before + BlockNames(suite, plan.value.blocks))
    ensures plan.None? ==> SuiteFails(ci, suite, before)
  {
    plan, seen := PlanFor(ci, suite), names;
    if plan.None? { return; }
    if !IsPlan(plan.value, suite, ci.tree) {
      return None, names;
    }
    var ok;
    ok, seen := CheckBlocks(ci, suite, plan.value, plan.value.blocks, names, before);
    if !ok {
      return None, names;
    }
    if HasEmptyFamily(suite, plan.value) && !IsSkippedOnce(ci, suite, plan.value) {
      return None, names;
    }
  }

  /** A suite whose plan cannot follow the names before it rules out acceptance. */
  ghost predicate SuiteFails(ci: CiRun, suite: Suite, before: seq<JobName>) {
    forall p :: PlanFor(ci, suite) == Some(p) && PlanIsProven(ci, suite, p) ==>
      !Distinct(before + BlockNames(suite, p.blocks))
  }

  lemma PrefixIsDistinct<T>(a: seq<T>, b: seq<T>)
    requires Distinct(a + b)
    ensures Distinct(a)
  {
    assert forall i :: 0 <= i < |a| ==> (a + b)[i] == a[i];
  }

  lemma AcceptedNamesAreDistinct(ci: CiRun, plans: Plans)
    requires IsAccepted(ci, plans)
    ensures var first := BlockNames(TestSuite, plans.test.blocks);
            var second := first + BlockNames(E2ESuite, plans.e2e.blocks);
            Distinct([] + first) && Distinct(second) && Distinct(second + BlockNames(SshSuite, plans.ssh.blocks))
  {
    var first := BlockNames(TestSuite, plans.test.blocks);
    var second := first + BlockNames(E2ESuite, plans.e2e.blocks);
    PrefixIsDistinct(second, BlockNames(SshSuite, plans.ssh.blocks));
    PrefixIsDistinct(first, BlockNames(E2ESuite, plans.e2e.blocks));
    assert [] + first == first;
  }

  lemma FailedSuiteRejects(ci: CiRun, suite: Suite, before: seq<JobName>)
    requires SuiteFails(ci, suite, before)
    requires match suite
             case TestSuite => before == []
             case E2ESuite =>
               PlanFor(ci, TestSuite).Some? && before == BlockNames(TestSuite, PlanFor(ci, TestSuite).value.blocks)
             case SshSuite =>
               PlanFor(ci, TestSuite).Some? && PlanFor(ci, E2ESuite).Some?
               && before == BlockNames(TestSuite, PlanFor(ci, TestSuite).value.blocks)
                            + BlockNames(E2ESuite, PlanFor(ci, E2ESuite).value.blocks)
    ensures forall plans :: !IsAccepted(ci, plans)
  {
    forall plans ensures !IsAccepted(ci, plans) {
      if IsAccepted(ci, plans) { AcceptedNamesAreDistinct(ci, plans); }
    }
  }

  lemma AcceptedPlansAreUnique(ci: CiRun, plans: Plans, other: Plans)
    requires PlanFor(ci, TestSuite) == Some(plans.test) && PlanFor(ci, E2ESuite) == Some(plans.e2e)
             && PlanFor(ci, SshSuite) == Some(plans.ssh)
    requires IsAccepted(ci, other)
    ensures other == plans
  {
  }

  /** grouped_jobs: accepted exactly when every condition holds. */
  method GroupedJobs(ci: CiRun) returns (r: Result<Plans, Rejection>)
    ensures r.Ok? ==> IsAccepted(ci, r.value)
    ensures r.Err? ==> forall plans :: !IsAccepted(ci, plans)
  {
    var test, names := CheckSuite(ci, TestSuite, {}, []);
    if test.None? { FailedSuiteRejects(ci, TestSuite, []); return Err(BadPlan); }
    ghost var first := BlockNames(TestSuite, test.value.blocks);
    assert [] + first == first;
    var e2e;
    e2e, names := CheckSuite(ci, E2ESuite, names, first);
    if e2e.None? { FailedSuiteRejects(ci, E2ESuite, first); return Err(BadPlan); }
    ghost var second := first + BlockNames(E2ESuite, e2e.value.blocks);
    var ssh;
    ssh, names := CheckSuite(ci, SshSuite, names, second);
    if ssh.None? { FailedSuiteRejects(ci, SshSuite, second); return Err(BadPlan); }
    var plans := Plans(test.value, e2e.value, ssh.value);
    r := CheckShardsAndSummaries(ci, plans, names);
  }

  /** The two closing checks: no job without a block, and summaries that agree. */
  method CheckShardsAndSummaries(ci: CiRun, plans: Plans, names: set<JobName>) returns (r: Result<Plans, Rejection>)
    requires PlanFor(ci, TestSuite) == Some(plans.test) && PlanIsProven(ci, TestSuite, plans.test)
    requires PlanFor(ci, E2ESuite) == Some(plans.e2e) && PlanIsProven(ci, E2ESuite, plans.e2e)
    requires PlanFor(ci, SshSuite) == Some(plans.ssh) && PlanIsProven(ci, SshSuite, plans.ssh)
    requires names == NameSet(AllBlockNames(plans)) && Distinct(AllBlockNames(plans))
    ensures r.Ok? ==> r.value == plans && IsAccepted(ci, plans)
    ensures r.Err? ==> forall other :: !IsAccepted(ci, other)
  {
    forall other | IsAccepted(ci, other) ensures other == plans {
      AcceptedPlansAreUnique(ci, plans, other);
    }
    var expected := names + NameSet(EmptyNames(plans));
    assert expected == NameSet(AllBlockNames(plans) + EmptyNames(plans));
    if NameSet(ShardNames(ci.jobs)) != expected {
      return Err(BadShards);
    }
    if !SummaryAgrees(ci, plans, TestSuite, {TestSuite, SshSuite}) || !SummaryAgrees(ci, plans, E2ESuite, {E2ESuite}) {
      return Err(BadSummary);
    }
    return Ok(plans);
  }
}
