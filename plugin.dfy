/** The `PyTestRailPlugin` class of `pytest_testrail/plugin.py`: it buffers a result
    per case id while tests run, and at the end of the session publishes the buffer
    to a run, or to every open run of a plan, and closes what it published to. */
module Plugin {
  import opened Wrappers
  import opened Strings
  import opened Seqs
  import opened Vars
  import opened Remote
  import opened Functions
  import opened Payload

  // ---------------------------------------------------------------------------
  // What the hooks add to the buffer

  /** The results `add_result` appends: one per id, in id order, sharing the rest. */
  function Records(ids: seq<int>, status: int, comment: Option<string>, defects: Option<string>,
                   duration: real, params: Option<Params>): seq<TestResult>
  {
    seq(|ids|, i requires 0 <= i < |ids| => TestResult(ids[i], status, comment, duration, defects, params))
  }

  /** Whether a report is recorded at all: the item carries `testrail` ids, the
      report is of the call phase and the id list is non-empty. */
  predicate Recorded(it: Item, when: string)
  {
    it.caseTags.Some? && when == "call" && it.caseTags.value != []
  }

  /** The `defects` of a recorded report: the cleaned defect ids joined by `, `
      when the item's `testrail_defects` list is non-empty. */
  function ReportDefects(it: Item): Option<string>
  {
    if it.defectTags.Some? && it.defectTags.value != [] then Some(DefectsString(it.defectTags.value)) else None
  }

  /** What `pytest_runtest_makereport` appends for one report; `None` when the hook
      raises (a tag that does not clean, an outcome without a status code). */
  function Report(it: Item, when: string, outcome: string, longrepr: Option<string>, duration: real)
    : (r: Option<seq<TestResult>>)
    ensures !Recorded(it, when) ==> r == Some([])
    ensures r.None? <==> Recorded(it, when) && (CleanIds(it.caseTags.value).None? || GetTestOutcome(outcome).None?)
    ensures Recorded(it, when) && r.Some? ==>
              |r.value| == |it.caseTags.value| &&
              forall i :: 0 <= i < |r.value| ==>
                Some(r.value[i].caseId) == CleanId(it.caseTags.value[i]) &&
                Some(r.value[i].statusId) == GetTestOutcome(outcome) &&
                r.value[i].comment == longrepr && r.value[i].duration == duration &&
                r.value[i].defects == ReportDefects(it) && r.value[i].parametrize == it.params
  {
    if !Recorded(it, when) then Some([])
    else
      match (CleanIds(it.caseTags.value), GetTestOutcome(outcome))
      case (Some(ids), Some(status)) => Some(Records(ids, status, longrepr, ReportDefects(it), duration, it.params))
      case _ => None
  }

  /** The report of the plugin's own unit test: a passed call of an item marked
      `C1234, C12345` buffers one passed result per case. */
  lemma ReportExample(it: Item, longrepr: Option<string>, duration: real)
    requires it.caseTags == Some(["C1234", "C12345"])
    ensures var r := Report(it, "call", "passed", longrepr, duration);
            r.Some? && |r.value| == 2 &&
            r.value[0].caseId == 1234 && r.value[1].caseId == 12345 &&
            r.value[0].statusId == PYTEST_TO_TESTRAIL_STATUS["passed"] &&
            r.value[1].statusId == PYTEST_TO_TESTRAIL_STATUS["passed"]
  {
    CleanIdsExample();
    OutcomeCodes();
  }

  // ---------------------------------------------------------------------------
  // What the session publishes

  /** The open runs of a plan, in entry and run order; `[]` when the plan cannot
      be read. */
  function PlanRuns(s: Service, planId: int): seq<int>
  {
    match s.getPlan(GetPlanUrl(planId))
    case Failure(_) => []
    case Success(plan) => OpenRuns(plan.entries)
  }

  /** The tests `add_results` filters with: fetched only when blocked results
      are not published. */
  ghost function TestsFor(s: Service, cfg: Publishing, runId: int): Option<seq<TestRec>>
  {
    if cfg.publishBlocked then None else AllTests(s, runId)
  }

  /** One `add_results(runId)` of the plugin. */
  ghost function AddResultsStep(s: Service, results: seq<TestResult>, runId: int, cfg: Publishing): Step
  {
    AddResultsWith(results, runId, cfg, TestsFor(s, cfg, runId))
  }

  /** `add_results` for each run in turn, each starting from the buffer the
      previous one left; the first call that raises ends the loop. */
  ghost function PublishRuns(s: Service, results: seq<TestResult>, runs: seq<int>, cfg: Publishing): Step
    decreases |runs|
  {
    if runs == [] then Step(Done, results, [])
    else
      var prev := PublishRuns(s, results, runs[..|runs| - 1], cfg);
      if prev.outcome == Raised then prev
      else
        var st := AddResultsStep(s, prev.results, runs[|runs| - 1], cfg);
        Step(st.outcome, st.results, prev.posts + st.posts)
  }

  /** The publishing part of `pytest_sessionfinish`: a selected run takes
      precedence over a plan; with neither, nothing is sent. */
  ghost function Publish(s: Service, results: seq<TestResult>, runId: int, planId: int, cfg: Publishing): Step
  {
    if runId != 0 then AddResultsStep(s, results, runId, cfg)
    else if planId != 0 then PublishRuns(s, results, PlanRuns(s, planId), cfg)
    else Step(Done, results, [])
  }

  /** The closing request of `pytest_sessionfinish`: the run if one is selected,
      otherwise the plan, and only when closing on completion is asked for. */
  function ClosePosts(closeOnComplete: bool, runId: int, planId: int): seq<Post>
  {
    if closeOnComplete && runId != 0 then [Post(CloseRunUrl(runId), EmptyBody)]
    else if closeOnComplete && planId != 0 then [Post(ClosePlanUrl(planId), EmptyBody)]
    else []
  }

  /** What `pytest_sessionfinish` does: nothing with an empty buffer; otherwise
      it publishes, and when every call completed it sends the closing request. */
  ghost function SessionFinish(s: Service, results: seq<TestResult>, runId: int, planId: int, cfg: Publishing,
                               closeOnComplete: bool): Step
  {
    if results == [] then Step(Done, results, [])
    else
      var st := Publish(s, results, runId, planId, cfg);
      if st.outcome == Raised then st
      else Step(Done, st.results, st.posts + ClosePosts(closeOnComplete, runId, planId))
  }

  /** Publishing to one more run: nothing more once a call has raised, otherwise
      one more `add_results` on the buffer the previous calls left. */
  lemma PublishRunsStep(s: Service, results: seq<TestResult>, runs: seq<int>, n: nat, cfg: Publishing)
    requires n < |runs|
    ensures var prev := PublishRuns(s, results, runs[..n], cfg);
            var st := AddResultsStep(s, prev.results, runs[n], cfg);
            PublishRuns(s, results, runs[..n + 1], cfg) ==
              if prev.outcome == Raised then prev else Step(st.outcome, st.results, prev.posts + st.posts)
  {
    assert runs[..n + 1][..n] == runs[..n];
  }

  /** `PublishRuns` on its last run. */
  lemma PublishRunsLast(s: Service, results: seq<TestResult>, runs: seq<int>, cfg: Publishing)
    requires runs != []
    ensures var prev := PublishRuns(s, results, runs[..|runs| - 1], cfg);
            var st := AddResultsStep(s, prev.results, runs[|runs| - 1], cfg);
            PublishRuns(s, results, runs, cfg) ==
              if prev.outcome == Raised then prev else Step(st.outcome, st.results, prev.posts + st.posts)
  {
  }

  /** Once a call has raised, the runs after it change nothing. */
  lemma {:induction false} RaisedStays(s: Service, results: seq<TestResult>, runs: seq<int>, cfg: Publishing, n: nat)
    requires n <= |runs|
    requires PublishRuns(s, results, runs[..n], cfg).outcome == Raised
    ensures PublishRuns(s, results, runs, cfg) == PublishRuns(s, results, runs[..n], cfg)
    decreases |runs| - n
  {
    if n < |runs| {
      var init := runs[..|runs| - 1];
      assert init[..n] == runs[..n];
      RaisedStays(s, results, init, cfg, n);
    } else {
      assert runs[..n] == runs;
    }
  }

  /** The plan's runs are published to in order, one request per run, until a
      call raises; a loop that completes sends one request to every run. */
  lemma {:induction false} PublishRunsTargets(s: Service, results: seq<TestResult>, runs: seq<int>, cfg: Publishing)
    ensures var st := PublishRuns(s, results, runs, cfg);
            Targets(runs, st.posts, st.outcome == Done)
    decreases |runs|
  {
    if runs != [] {
      PublishRunsTargets(s, results, runs[..|runs| - 1], cfg);
      TargetsOneMore(s, results, runs, cfg);
    }
  }

  /** The requests go to the runs in order, at most one each, one each when the
      loop completed. */
  ghost predicate Targets(runs: seq<int>, posts: seq<Post>, done: bool)
  {
    |posts| <= |runs| && (done ==> |posts| == |runs|) &&
    forall i :: 0 <= i < |posts| ==> posts[i].url == AddResultsUrl(runs[i])
  }

  lemma TargetsOneMore(s: Service, results: seq<TestResult>, runs: seq<int>, cfg: Publishing)
    requires runs != []
    requires var prev := PublishRuns(s, results, runs[..|runs| - 1], cfg);
             Targets(runs[..|runs| - 1], prev.posts, prev.outcome == Done)
    ensures var st := PublishRuns(s, results, runs, cfg);
            Targets(runs, st.posts, st.outcome == Done)
  {
    var last := runs[|runs| - 1];
    PublishRunsLast(s, results, runs, cfg);
    var prev := PublishRuns(s, results, runs[..|runs| - 1], cfg);
    var st := AddResultsStep(s, prev.results, last, cfg);
    AddResultsWithShape(prev.results, last, cfg, TestsFor(s, cfg, last));
    var whole := PublishRuns(s, results, runs, cfg);
    TargetsSnoc(runs, prev.posts, prev.outcome == Done, st.posts, st.outcome == Done,
                whole.posts, whole.outcome == Done);
  }

  lemma TargetsSnoc(runs: seq<int>, prevPosts: seq<Post>, prevDone: bool, stPosts: seq<Post>, stDone: bool,
                    posts: seq<Post>, done: bool)
    requires runs != []
    requires Targets(runs[..|runs| - 1], prevPosts, prevDone)
    requires |stPosts| <= 1 && (stDone ==> |stPosts| == 1)
    requires forall p :: p in stPosts ==> p.url == AddResultsUrl(runs[|runs| - 1])
    requires !prevDone ==> posts == prevPosts && !done
    requires prevDone ==> posts == prevPosts + stPosts && done == stDone
    ensures Targets(runs, posts, done)
  {
    UrlsSnoc(AddResultsUrl, runs, prevPosts, prevDone, stPosts, stDone, posts, done);
  }

  /** The step of `TargetsSnoc` for any path function `url`. */
  lemma UrlsSnoc(url: int -> string, runs: seq<int>, prevPosts: seq<Post>, prevDone: bool, stPosts: seq<Post>,
                 stDone: bool, posts: seq<Post>, done: bool)
    requires runs != []
    requires |prevPosts| <= |runs| - 1 && (prevDone ==> |prevPosts| == |runs| - 1)
    requires forall i :: 0 <= i < |prevPosts| ==> prevPosts[i].url == url(runs[..|runs| - 1][i])
    requires |stPosts| <= 1 && (stDone ==> |stPosts| == 1)
    requires forall p :: p in stPosts ==> p.url == url(runs[|runs| - 1])
    requires !prevDone ==> posts == prevPosts && !done
    requires prevDone ==> posts == prevPosts + stPosts && done == stDone
    ensures |posts| <= |runs| && (done ==> |posts| == |runs|)
    ensures forall i :: 0 <= i < |posts| ==> posts[i].url == url(runs[i])
  {
    var init := runs[..|runs| - 1];
    forall i | 0 <= i < |posts|
      ensures posts[i].url == url(runs[i])
    {
      if i < |prevPosts| {
        assert posts[i] == prevPosts[i] && init[i] == runs[i];
      } else {
        assert posts[i] == stPosts[0] && stPosts[0] in stPosts;
      }
    }
  }

  /** Where the session's results go: only to the selected run when there is
      one, otherwise to the plan's open runs in order, and nowhere when neither
      is selected. */
  lemma PublishTargets(s: Service, results: seq<TestResult>, runId: int, planId: int, cfg: Publishing)
    ensures var st := Publish(s, results, runId, planId, cfg);
            (runId != 0 ==> |st.posts| <= 1 && forall p :: p in st.posts ==> p.url == AddResultsUrl(runId)) &&
            (runId == 0 && planId == 0 ==> st.posts == []) &&
            (runId == 0 && planId != 0 ==>
               |st.posts| <= |PlanRuns(s, planId)| &&
               forall i :: 0 <= i < |st.posts| ==> st.posts[i].url == AddResultsUrl(PlanRuns(s, planId)[i]))
  {
    if runId == 0 && planId != 0 {
      PublishRunsTargets(s, results, PlanRuns(s, planId), cfg);
    }
  }

  /** When blocked results are published, every open run of the plan receives
      the same sorted buffer. */
  lemma {:induction false} PublishBlockedRuns(s: Service, results: seq<TestResult>, runs: seq<int>, cfg: Publishing)
    requires cfg.publishBlocked
    ensures var st := PublishRuns(s, results, runs, cfg);
            st.outcome == Done &&
            st.results == (if runs == [] then results else SortByCase(results)) &&
            SamePosts(runs, SortByCase(results), cfg, st.posts)
    decreases |runs|
  {
    if runs != [] {
      PublishBlockedRuns(s, results, runs[..|runs| - 1], cfg);
      BlockedOneMore(s, results, runs, cfg);
      SamePostsSnoc(runs, SortByCase(results), cfg, PublishRuns(s, results, runs[..|runs| - 1], cfg).posts,
                    PublishRuns(s, results, runs, cfg).posts);
    }
  }

  /** Every run gets a request carrying the same buffer. */
  ghost predicate SamePosts(runs: seq<int>, buf: seq<TestResult>, cfg: Publishing, posts: seq<Post>)
  {
    |posts| == |runs| && forall i :: 0 <= i < |runs| ==> posts[i] == ResultsPost(runs[i], buf, cfg.version, cfg.custom)
  }

  /** The last run, when blocked results are published: one more request of the
      sorted buffer. */
  lemma BlockedOneMore(s: Service, results: seq<TestResult>, runs: seq<int>, cfg: Publishing)
    requires cfg.publishBlocked && runs != []
    requires var prev := PublishRuns(s, results, runs[..|runs| - 1], cfg);
             prev.outcome == Done && prev.results == (if |runs| == 1 then results else SortByCase(results))
    ensures var st := PublishRuns(s, results, runs, cfg);
            st.outcome == Done && st.results == SortByCase(results) &&
            st.posts == PublishRuns(s, results, runs[..|runs| - 1], cfg).posts +
                        [ResultsPost(runs[|runs| - 1], SortByCase(results), cfg.version, cfg.custom)]
  {
    var last := runs[|runs| - 1];
    PublishRunsLast(s, results, runs, cfg);
    var prev := PublishRuns(s, results, runs[..|runs| - 1], cfg);
    AddResultsWithShape(prev.results, last, cfg, TestsFor(s, cfg, last));
    SortByCaseIdempotent(results);
  }

  /** One more request of the same buffer, to one more run. */
  lemma SamePostsSnoc(runs: seq<int>, buf: seq<TestResult>, cfg: Publishing, a: seq<Post>, b: seq<Post>)
    requires runs != []
    requires SamePosts(runs[..|runs| - 1], buf, cfg, a)
    requires b == a + [ResultsPost(runs[|runs| - 1], buf, cfg.version, cfg.custom)]
    ensures SamePosts(runs, buf, cfg, b)
  {
    MapSnoc((r: int) => ResultsPost(r, buf, cfg.version, cfg.custom), runs, a, b);
  }

  /** The case ids blocked in the given runs, run after run. */
  ghost function Excluded(s: Service, runs: seq<int>): seq<int>
    decreases |runs|
  {
    if runs == [] then []
    else
      var last := AllTests(s, runs[|runs| - 1]);
      Excluded(s, runs[..|runs| - 1]) + (if last.Some? then BlockedCaseIds(last.value) else [])
  }

  /** The tests of every run fetch successfully. */
  ghost predicate AllFetched(s: Service, runs: seq<int>)
  {
    forall i :: 0 <= i < |runs| ==> AllTests(s, runs[i]).Some?
  }

  lemma AllFetchedPrefix(s: Service, runs: seq<int>, n: nat)
    requires AllFetched(s, runs) && n <= |runs|
    ensures AllFetched(s, runs[..n])
  {
    forall k | 0 <= k < n ensures AllTests(s, runs[..n][k]).Some? {
      assert runs[..n][k] == runs[k];
    }
  }

  /** When blocked results are not published, exclusions accumulate across a
      plan's runs: the buffer is filtered in place, so after the calls it holds the
      sorted results less every case blocked in any of the runs. */
  lemma {:induction false} PlanBufferAccumulates(s: Service, results: seq<TestResult>, runs: seq<int>, cfg: Publishing)
    requires !cfg.publishBlocked
    requires AllFetched(s, runs)
    ensures var st := PublishRuns(s, results, runs, cfg);
            st.outcome == Done && |st.posts| == |runs| &&
            st.results == (if runs == [] then results else DropCases(SortByCase(results), Excluded(s, runs)))
    decreases |runs|
  {
    if runs != [] {
      var init, last := runs[..|runs| - 1], runs[|runs| - 1];
      var sorted := SortByCase(results);
      var tests := AllTests(s, last);
      assert tests.Some?;
      var blocked := BlockedCaseIds(tests.value);
      AllFetchedPrefix(s, runs, |runs| - 1);
      PlanBufferAccumulates(s, results, init, cfg);
      var prev := PublishRuns(s, results, init, cfg);
      AddResultsWithShape(prev.results, last, cfg, tests);
      var st := AddResultsWith(prev.results, last, cfg, tests);
      assert Excluded(s, runs) == Excluded(s, init) + blocked;
      if init == [] {
        assert Excluded(s, init) + blocked == blocked;
      } else {
        SortByCaseSortedPermutation(results);
        DropCasesSorted(sorted, Excluded(s, init));
        SortedUnchanged(prev.results);
        DropCasesTwice(sorted, Excluded(s, init), blocked);
        assert st.results == DropCases(prev.results, blocked);
      }
    }
  }

  /** The request to the last run leaves out every case blocked in any run. */
  lemma LastRunPost(s: Service, results: seq<TestResult>, runs: seq<int>, cfg: Publishing)
    requires !cfg.publishBlocked
    requires AllFetched(s, runs)
    requires runs != []
    ensures var st := PublishRuns(s, results, runs, cfg);
            |st.posts| == |runs| &&
            st.posts[|runs| - 1] ==
              ResultsPost(runs[|runs| - 1], DropCases(SortByCase(results), Excluded(s, runs)), cfg.version, cfg.custom)
  {
    var init := runs[..|runs| - 1];
    PlanBufferAccumulates(s, results, runs, cfg);
    PublishRunsLast(s, results, runs, cfg);
    AllFetchedPrefix(s, runs, |runs| - 1);
    PlanBufferAccumulates(s, results, init, cfg);
    var last := runs[|runs| - 1];
    var prev := PublishRuns(s, results, init, cfg);
    var st := AddResultsStep(s, prev.results, last, cfg);
    AddResultsWithShape(prev.results, last, cfg, TestsFor(s, cfg, last));
    StepLastPost(prev, st, PublishRuns(s, results, runs, cfg), ResultsPost(last, st.results, cfg.version, cfg.custom));
  }

  /** A call that completes after calls that completed adds its one request last. */
  lemma StepLastPost(prev: Step, st: Step, whole: Step, p: Post)
    requires whole == if prev.outcome == Raised then prev else Step(st.outcome, st.results, prev.posts + st.posts)
    requires prev.outcome == Done && st.outcome == Done && st.posts == [p]
    ensures whole.results == st.results && |whole.posts| == |prev.posts| + 1 && whole.posts[|prev.posts|] == p
  {
  }

  /** The request to the i-th run of the plan leaves out every case blocked in
      that run or in any run before it. */
  lemma PlanExclusionsAccumulate(s: Service, results: seq<TestResult>, runs: seq<int>, cfg: Publishing, i: nat)
    requires !cfg.publishBlocked
    requires AllFetched(s, runs)
    requires i < |runs|
    ensures var st := PublishRuns(s, results, runs, cfg);
            |st.posts| == |runs| &&
            st.posts[i] == ResultsPost(runs[i], DropCases(SortByCase(results), Excluded(s, runs[..i + 1])), cfg.version, cfg.custom)
  {
    var pre := runs[..i + 1];
    AllFetchedPrefix(s, runs, i + 1);
    PlanBufferAccumulates(s, results, runs, cfg);
    PrefixPosts(s, results, runs, cfg, i + 1);
    LastRunPost(s, results, pre, cfg);
  }

  /** Publishing to a prefix of the runs sends a prefix of the requests, as long
      as no call raised. */
  lemma {:induction false} PrefixPosts(s: Service, results: seq<TestResult>, runs: seq<int>, cfg: Publishing, n: nat)
    requires n <= |runs|
    requires PublishRuns(s, results, runs, cfg).outcome == Done
    ensures PublishRuns(s, results, runs[..n], cfg).outcome == Done
    ensures PublishRuns(s, results, runs[..n], cfg).posts <= PublishRuns(s, results, runs, cfg).posts
    decreases |runs| - n
  {
    if n == |runs| {
      assert runs[..n] == runs;
    } else {
      var init := runs[..|runs| - 1];
      DoneGrows(s, results, runs, cfg);
      PrefixPosts(s, results, init, cfg, n);
      assert init[..n] == runs[..n];
    }
  }

  /** A publication that ended without raising extends the one to all runs but the last. */
  lemma DoneGrows(s: Service, results: seq<TestResult>, runs: seq<int>, cfg: Publishing)
    requires runs != []
    requires PublishRuns(s, results, runs, cfg).outcome == Done
    ensures PublishRuns(s, results, runs[..|runs| - 1], cfg).outcome == Done
    ensures PublishRuns(s, results, runs[..|runs| - 1], cfg).posts <= PublishRuns(s, results, runs, cfg).posts
  {
    PublishRunsLast(s, results, runs, cfg);
    var prev := PublishRuns(s, results, runs[..|runs| - 1], cfg);
    StepGrows(prev, PublishRuns(s, results, runs, cfg), AddResultsStep(s, prev.results, runs[|runs| - 1], cfg));
  }

  lemma StepGrows(prev: Step, whole: Step, st: Step)
    requires whole == if prev.outcome == Raised then prev else Step(st.outcome, st.results, prev.posts + st.posts)
    requires whole.outcome == Done
    ensures prev.outcome == Done && prev.posts <= whole.posts
  {
  }

  /** A plan whose entries carry runs 59 (open), 60 (completed) and 61 (open):
      with blocked results published, the sorted buffer goes to runs 59 and 61. */
  lemma SamplePlanPublish(s: Service, results: seq<TestResult>, planId: int, cfg: Publishing)
    requires planId != 0 && cfg.publishBlocked
    requires s.getPlan(GetPlanUrl(planId)) == Success(Plan(false, SAMPLE_PLAN_ENTRIES))
    ensures Publish(s, results, 0, planId, cfg).posts ==
              [ResultsPost(59, SortByCase(results), cfg.version, cfg.custom),
               ResultsPost(61, SortByCase(results), cfg.version, cfg.custom)]
  {
    var runs := PlanRuns(s, planId);
    SamplePlanOpenRuns();
    PublishBlockedRuns(s, results, runs, cfg);
    PairOfPosts(Publish(s, results, 0, planId, cfg).posts, runs, [59, 61], SortByCase(results), cfg);
  }

  /** Two requests of the same buffer to a plan with two open runs. */
  lemma PairOfPosts(posts: seq<Post>, runs: seq<int>, ids: seq<int>, buf: seq<TestResult>, cfg: Publishing)
    requires runs == ids && |ids| == 2 && |posts| == 2
    requires forall i :: 0 <= i < |runs| ==> posts[i] == ResultsPost(runs[i], buf, cfg.version, cfg.custom)
    ensures posts == [ResultsPost(ids[0], buf, cfg.version, cfg.custom), ResultsPost(ids[1], buf, cfg.version, cfg.custom)]
  {
  }

  /** `tr_keys`: the cleaned ids of every marked item, item after item. */
  function AllIds(keys: seq<(Item, seq<int>)>): (ids: seq<int>)
    ensures forall x :: x in ids <==> exists k :: 0 <= k < |keys| && x in keys[k].1
    decreases |keys|
  {
    if keys == [] then []
    else
      var init := keys[..|keys| - 1];
      var ids := AllIds(init) + keys[|keys| - 1].1;
      assert forall k :: 0 <= k < |init| ==> init[k] == keys[k];
      ids
  }

  /** The cleaned id lists of the marked items, item after item. */
  function IdLists(keys: seq<(Item, seq<int>)>): (ls: seq<seq<int>>)
    ensures |ls| == |keys| && forall k :: 0 <= k < |keys| ==> ls[k] == keys[k].1
  {
    seq(|keys|, k requires 0 <= k < |keys| => keys[k].1)
  }

  /** `tr_keys` is the marked items' id lists concatenated in item order, with
      duplicates kept. */
  lemma {:induction false} AllIdsInItemOrder(keys: seq<(Item, seq<int>)>)
    ensures AllIds(keys) == Flatten(IdLists(keys))
    decreases |keys|
  {
    if keys != [] {
      var init := keys[..|keys| - 1];
      AllIdsInItemOrder(init);
      assert IdLists(keys) == IdLists(init) + [keys[|keys| - 1].1];
      FlattenSnoc(IdLists(init), keys[|keys| - 1].1);
    }
  }

  /** An item the skip-missing option marks: it carries `testrail` ids that clean,
      and none of them is a case of the run. */
  predicate Missing(it: Item, caseList: seq<int>)
  {
    it.caseTags.Some? && CleanIds(it.caseTags.value).Some? &&
    forall x :: x in CleanIds(it.caseTags.value).value ==> x !in caseList
  }

  /** The invariant of the `get_tests` loop: while pages remain, what is still
      to be read, after what was read, is the whole chain; once no `next` cursor
      is left, what was read is the whole chain. */
  ghost predicate Round(s: Service, base: string, whole: Fetch, master: seq<TestRec>, params: Option<string>,
                        left: int, repeat: bool)
  {
    left >= 0 &&
    (repeat ==> whole == AfterPages(master, Paginate(s, base, Query(params), left))) &&
    (!repeat ==> whole == Fetched(master))
  }

  /** One round of the `get_tests` loop keeps its invariant: from the state
      `master`, `params`, `left` before a page was read to the state `master'`,
      `params'`, `left'`, `repeat'` after it. */
  lemma NextRound(s: Service, base: string, whole: Fetch, master: seq<TestRec>, params: Option<string>, left: nat,
                  page: TestsPage, master': seq<TestRec>, params': Option<string>, left': int, repeat': bool)
    requires Round(s, base, whole, master, params, left, true) && whole != Unfinished
    requires s.getTestsPage(base + Query(params)) == Success(page)
    requires repeat' == Truthy(page.next) && master' == master + page.tests && left' == left - 1
    requires params' == if repeat' then Some("&" + s.cursorParams(page.next.value)) else params
    ensures Round(s, base, whole, master', params', left', repeat')
  {
    if repeat' {
      PageThenRest(s, base, Query(params), left, master, page);
    }
  }

  /** The outcome, the buffer and the requests sent after `sent` are those of `st`. */
  ghost predicate Reached(st: Step, c: Completion, results: seq<TestResult>, posts: seq<Post>, sent: seq<Post>)
  {
    c == st.outcome && results == st.results && posts == sent + st.posts
  }

  /** A completed round followed by one more call reaches the combined step. */
  lemma ReachedNext(prev: Step, st: Step, whole: Step, c: Completion, results: seq<TestResult>,
                    posts: seq<Post>, sent: seq<Post>)
    requires whole == if prev.outcome == Raised then prev else Step(st.outcome, st.results, prev.posts + st.posts)
    requires prev.outcome == Done
    requires Reached(st, c, results, posts, sent + prev.posts)
    ensures Reached(whole, c, results, posts, sent)
  {
  }

  /** The query text a `get_tests` request appends to the run's path. */
  function Query(params: Option<string>): string
  {
    if params.Some? then params.value else ""
  }

  /** The `add_run` request of `create_test_run`. */
  function CreateRunPost(projectId: int, payload: RunPayload): Post
  {
    Post(AddRunUrl(projectId), RunBody(payload))
  }

  // ---------------------------------------------------------------------------
  // The plugin

  class PyTestRailPlugin {
    const service: Service
    const assignUserId: Option<int>
    const projectId: int
    const suiteId: Option<int>
    const includeAll: bool
    const testrunDescription: Option<string>
    const version: Option<string>
    const closeOnComplete: bool
    const publishBlocked: bool
    const skipMissing: bool
    const milestoneId: Option<int>
    const customComment: Option<string>

    /** The buffered results. */
    var results: seq<TestResult>
    var testrunName: Option<string>
    /** The selected run and plan (0 when none). */
    var testrunId: int
    var testplanId: int
    /** Every POST sent so far, in order. */
    ghost var posts: seq<Post>

    constructor(service: Service, assignUserId: Option<int>, projectId: int, suiteId: Option<int>,
                includeAll: bool, trName: Option<string>, trDescription: Option<string>, runId: int,
                planId: int, version: Option<string>, closeOnComplete: bool, publishBlocked: bool,
                skipMissing: bool, milestoneId: Option<int>, customComment: Option<string>)
      ensures this.service == service && this.assignUserId == assignUserId && this.projectId == projectId
      ensures this.suiteId == suiteId && this.includeAll == includeAll
      ensures this.testrunDescription == trDescription && this.version == version
      ensures this.closeOnComplete == closeOnComplete && this.publishBlocked == publishBlocked
      ensures this.skipMissing == skipMissing && this.milestoneId == milestoneId
      ensures this.customComment == customComment
      ensures results == [] && testrunName == trName && testrunId == runId && testplanId == planId
      ensures posts == []
    {
      this.service := service;
      this.assignUserId := assignUserId;
      this.projectId := projectId;
      this.suiteId := suiteId;
      this.includeAll := includeAll;
      this.testrunDescription := trDescription;
      this.version := version;
      this.closeOnComplete := closeOnComplete;
      this.publishBlocked := publishBlocked;
      this.skipMissing := skipMissing;
      this.milestoneId := milestoneId;
      this.customComment := customComment;
      results := [];
      testrunName := trName;
      testrunId := runId;
      testplanId := planId;
      posts := [];
    }

    function Config(): Publishing
    {
      Publishing(publishBlocked, version, customComment)
    }

    /** Appends one result per id to the buffer. */
    method AddResult(testIds: seq<int>, status: int, comment: Option<string>, defects: Option<string>,
                     duration: real, params: Option<Params>)
      modifies this`results
      ensures results == old(results) + Records(testIds, status, comment, defects, duration, params)
    {
      for i := 0 to |testIds|
        invariant results == old(results) + Records(testIds[..i], status, comment, defects, duration, params)
      {
        assert Records(testIds[..i + 1], status, comment, defects, duration, params) ==
               Records(testIds[..i], status, comment, defects, duration, params) +
               [TestResult(testIds[i], status, comment, duration, defects, params)];
        results := results + [TestResult(testIds[i], status, comment, duration, defects, params)];
      }
      assert testIds[..|testIds|] == testIds;
    }

    /** `is_testrun_available`: the selected run can be read and is not completed. */
    method IsTestrunAvailable() returns (b: bool)
      ensures b <==> RunAvailable(service, testrunId)
    {
      var response := service.getRun(GetRunUrl(testrunId));
      if response.Failure? {
        return false;
      }
      b := !response.body.isCompleted;
    }

    /** `is_testplan_available`: the selected plan can be read and is not completed. */
    method IsTestplanAvailable() returns (b: bool)
      ensures b <==> PlanAvailable(service, testplanId)
    {
      var response := service.getPlan(GetPlanUrl(testplanId));
      if response.Failure? {
        return false;
      }
      b := !response.body.isCompleted;
    }

    /** `get_available_testruns`: the ids of the plan's runs that are not
        completed, entry by entry; none when the plan cannot be read. */
    method GetAvailableTestruns(planId: int) returns (runs: seq<int>)
      ensures runs == PlanRuns(service, planId)
    {
      runs := [];
      var response := service.getPlan(GetPlanUrl(planId));
      if response.Failure? {
        return;
      }
      var entries := response.body.entries;
      for e := 0 to |entries|
        invariant runs == OpenRuns(entries[..e])
      {
        OpenRunsStep(entries, e);
        runs := AppendOpenRuns(runs, entries[e].runs);
      }
      assert entries[..|entries|] == entries;
    }

    /** The inner loop of `get_available_testruns`: the ids of an entry's runs
        that are not completed, appended in order. */
    static method AppendOpenRuns(runs: seq<int>, rs: seq<RunRec>) returns (out: seq<int>)
      ensures out == runs + OpenRunsOf(rs)
    {
      out := runs;
      for k := 0 to |rs|
        invariant out == runs + OpenRunsOf(rs[..k])
      {
        OpenRunsOfStep(rs, k);
        if !rs[k].isCompleted {
          out := out + [rs[k].id];
        }
      }
      assert rs[..|rs|] == rs;
    }

    /** `get_tests`: follows the run's page chain, appending each page's tests,
        until a page without a `next` link; `None` on the first error reply. */
    method GetTests(runId: int) returns (tests: Option<seq<TestRec>>)
      requires ChainEnds(service, runId)
      ensures tests == AllTests(service, runId)
    {
      ghost var fuel := Fuel(service, runId);
      AllTestsByFuel(service, runId, fuel);
      tests := ReadPages(service, runId, fuel);
    }

    /** The loop of `get_tests`, over a chain that ends within `fuel` pages. */
    static method ReadPages(service: Service, runId: int, ghost fuel: nat) returns (tests: Option<seq<TestRec>>)
      requires !Paginate(service, GetTestsUrl(runId), "", fuel).Unfinished?
      ensures tests == FetchResult(Paginate(service, GetTestsUrl(runId), "", fuel))
    {
      ghost var base := GetTestsUrl(runId);
      ghost var whole := Paginate(service, base, "", fuel);
      ghost var left: int := fuel;
      var master: seq<TestRec> := [];
      var repeat := true;
      var params: Option<string> := None;
      while repeat
        invariant Round(service, base, whole, master, params, left, repeat)
        decreases left, repeat
      {
        var response := ReadPage(service, runId, params);
        if response.Failure? {
          return None;
        }
        var page := response.body;
        ghost var master0, params0, left0 := master, params, left;
        master := master + page.tests;
        repeat := Truthy(page.next);
        if repeat {
          params := Some("&" + service.cursorParams(page.next.value));
        }
        left := left - 1;
        NextRound(service, base, whole, master0, params0, left0, page, master, params, left, repeat);
      }
      return Some(master);
    }

    /** The request of one round of `get_tests`: the run's path, followed by the
        cursor query when there is one. */
    static method ReadPage(service: Service, runId: int, params: Option<string>) returns (response: Response<TestsPage>)
      ensures response == service.getTestsPage(GetTestsUrl(runId) + Query(params))
    {
      var uri := GetTestsUrl(runId);
      if params.Some? {
        uri := uri + params.value;
      } else {
        assert uri == uri + "";
      }
      response := service.getTestsPage(uri);
    }

    /** `add_results`: sorts the buffer by case id; unless blocked results are
        published, drops from the buffer the cases blocked in the run (raising
        when the run's tests cannot be fetched); then posts the buffer. */
    method AddResults(runId: int) returns (c: Completion)
      requires PagesEnd(service)
      modifies this`results, this`posts
      ensures var st := AddResultsStep(service, old(results), runId, Config());
              c == st.outcome && results == st.results && posts == old(posts) + st.posts
    {
      results := SortByCase(results);
      if !publishBlocked {
        var tests := GetTests(runId);
        if tests.None? {
          return Raised;
        }
        var blocked := BlockedCaseIds(tests.value);
        results := DropCases(results, blocked);
      }
      var data := BuildResultsBody(results, version, customComment);
      posts := posts + [Post(AddResultsUrl(runId), ResultsBody(data))];
      c := Done;
    }

    /** `create_test_run`: posts the run and selects it when the service
        accepts it; on an error reply the selection is left as it was. */
    method CreateTestRun(assignUserId: Option<int>, projectId: int, suiteId: Option<int>, includeAll: bool,
                         name: Option<string>, trKeys: seq<int>, milestoneId: Option<int>,
                         description: Option<string>)
      modifies this`testrunId, this`posts
      ensures var p := CreateRunPost(projectId, RunPayload(suiteId, name, description, assignUserId,
                                                           includeAll, trKeys, milestoneId));
              posts == old(posts) + [p] &&
              testrunId == (if service.postCreated(p.url, p.body).Success?
                            then service.postCreated(p.url, p.body).body.id else old(testrunId))
    {
      var p := CreateRunPost(projectId, RunPayload(suiteId, name, description, assignUserId,
                                                   includeAll, trKeys, milestoneId));
      posts := posts + [p];
      var response := service.postCreated(p.url, p.body);
      if response.Success? {
        testrunId := response.body.id;
      }
    }

    method CloseTestRun(runId: int)
      modifies this`posts
      ensures posts == old(posts) + [Post(CloseRunUrl(runId), EmptyBody)]
    {
      posts := posts + [Post(CloseRunUrl(runId), EmptyBody)];
    }

    method CloseTestPlan(planId: int)
      modifies this`posts
      ensures posts == old(posts) + [Post(ClosePlanUrl(planId), EmptyBody)]
    {
      posts := posts + [Post(ClosePlanUrl(planId), EmptyBody)];
    }

    /** The skip-missing loop: marks every item whose ids are all absent from
        the run's cases. */
    method SkipMissing(items: seq<Item>, keys: seq<(Item, seq<int>)>, caseList: seq<int>)
      requires PairsMarked(keys, Marked(items, Testrail), Testrail)
      modifies items
      ensures forall it :: it in items ==> it.skipMarked == (old(it.skipMarked) || Missing(it, caseList))
    {
      var marked := Marked(items, Testrail);
      forall it | it in items && it.caseTags.Some?
        ensures exists k :: 0 <= k < |keys| && keys[k].0 == it
      {
        FilterMembership((it: Item) => Tags(it, Testrail).Some?, items, it);
        var k :| 0 <= k < |marked| && marked[k] == it;
        assert keys[k].0 == it;
      }
      var i := 0;
      while i < |keys|
        invariant 0 <= i <= |keys|
        invariant forall it :: it in items ==>
                    it.skipMarked == (old(it.skipMarked) || (Missing(it, caseList) && exists k :: 0 <= k < i && keys[k].0 == it))
      {
        var (item, ids) := keys[i];
        assert item == marked[i] && item in items;
        MarkIfMissing(item, ids, caseList);
        i := i + 1;
      }
    }

    /** One step of the skip-missing loop: `ids` are the item's cleaned ids. */
    static method MarkIfMissing(item: Item, ids: seq<int>, caseList: seq<int>)
      requires item.caseTags.Some? && CleanIds(item.caseTags.value) == Some(ids)
      modifies item
      ensures item.skipMarked == (old(item.skipMarked) || Missing(item, caseList))
    {
      if forall x :: x in ids ==> x !in caseList {
        item.skipMarked := true;
      }
    }

    /** The open-run branch of the collection hook: deselects the plan and, when
        asked to, marks the items whose cases are all missing from the run
        (raising when the run's tests cannot be fetched). */
    method KeepRun(items: seq<Item>, keys: seq<(Item, seq<int>)>) returns (c: Completion)
      requires PagesEnd(service)
      requires PairsMarked(keys, Marked(items, Testrail), Testrail)
      modifies this`testplanId, items
      ensures testplanId == 0
      ensures !skipMissing ==> c == Done && forall it :: it in items ==> it.skipMarked == old(it.skipMarked)
      ensures skipMissing && AllTests(service, old(testrunId)).None? ==>
                c == Raised && forall it :: it in items ==> it.skipMarked == old(it.skipMarked)
      ensures skipMissing && AllTests(service, old(testrunId)).Some? ==>
                c == Done &&
                forall it :: it in items ==>
                  it.skipMarked == (old(it.skipMarked) || Missing(it, CaseIds(AllTests(service, old(testrunId)).value)))
    {
      testplanId := 0;
      c := Done;
      if skipMissing {
        var tests := GetTests(testrunId);
        if tests.None? {
          return Raised;
        }
        var caseList := GetCaseList(tests);
        SkipMissing(items, keys, caseList);
      }
    }

    /** The branch of the collection hook that creates a run, named after `now`
        unless a name was given, with the cases of every marked item. */
    method StartRun(trKeys: seq<int>, now: DateTime)
      requires ValidDateTime(now)
      modifies this`testrunName, this`testrunId, this`posts
      ensures testrunName == (if old(testrunName).None? then Some(TestrunName(now)) else old(testrunName))
      ensures var p := CreateRunPost(projectId, RunPayload(suiteId, testrunName, testrunDescription,
                                                           assignUserId, includeAll, trKeys, milestoneId));
              posts == old(posts) + [p] &&
              testrunId == (if service.postCreated(p.url, p.body).Success?
                            then service.postCreated(p.url, p.body).body.id else old(testrunId))
    {
      if testrunName.None? {
        testrunName := Some(TestrunName(now));
      }
      CreateTestRun(assignUserId, projectId, suiteId, includeAll, testrunName, trKeys, milestoneId,
                    testrunDescription);
    }

    /** `pytest_collection_modifyitems`: collects the marked items (raising when a
        tag does not clean), then goes on as `Select` does. */
    method PytestCollectionModifyitems(items: seq<Item>, now: DateTime) returns (c: Completion)
      requires PagesEnd(service)
      requires ValidDateTime(now)
      modifies this`testrunId, this`testplanId, this`testrunName, this`posts, items
      ensures MarkedIds(items, Testrail).None? ==>
                c == Raised && testrunId == old(testrunId) && testplanId == old(testplanId) &&
                testrunName == old(testrunName) && posts == old(posts) &&
                forall it :: it in items ==> it.skipMarked == old(it.skipMarked)
      ensures MarkedIds(items, Testrail).Some? && old(testplanId) != 0 && PlanAvailable(service, old(testplanId)) ==>
                c == Done && testrunId == 0 && testplanId == old(testplanId) &&
                testrunName == old(testrunName) && posts == old(posts) &&
                forall it :: it in items ==> it.skipMarked == old(it.skipMarked)
      ensures MarkedIds(items, Testrail).Some? && !(old(testplanId) != 0 && PlanAvailable(service, old(testplanId))) &&
              old(testrunId) != 0 && RunAvailable(service, old(testrunId)) ==>
                testrunId == old(testrunId) && testplanId == 0 && testrunName == old(testrunName) && posts == old(posts) &&
                (!skipMissing ==> c == Done && forall it :: it in items ==> it.skipMarked == old(it.skipMarked)) &&
                (skipMissing && AllTests(service, old(testrunId)).None? ==>
                   c == Raised && forall it :: it in items ==> it.skipMarked == old(it.skipMarked)) &&
                (skipMissing && AllTests(service, old(testrunId)).Some? ==>
                   c == Done &&
                   forall it :: it in items ==>
                     it.skipMarked == (old(it.skipMarked) || Missing(it, CaseIds(AllTests(service, old(testrunId)).value))))
      ensures MarkedIds(items, Testrail).Some? && !(old(testplanId) != 0 && PlanAvailable(service, old(testplanId))) &&
              !(old(testrunId) != 0 && RunAvailable(service, old(testrunId))) ==>
                var name := if old(testrunName).None? then Some(TestrunName(now)) else old(testrunName);
                var p := CreateRunPost(projectId, RunPayload(suiteId, name, testrunDescription, assignUserId,
                                                             includeAll, AllIds(MarkedIds(items, Testrail).value), milestoneId));
                c == Done && testplanId == old(testplanId) && testrunName == name &&
                posts == old(posts) + [p] &&
                testrunId == (if service.postCreated(p.url, p.body).Success?
                              then service.postCreated(p.url, p.body).body.id else old(testrunId)) &&
                forall it :: it in items ==> it.skipMarked == old(it.skipMarked)
    {
      var keys := GetMarkedIds(items, Testrail);
      if keys.None? {
        return Raised;
      }
      c := Select(items, keys.value, now);
    }

    /** The collection hook once the marked items are known: an open selected
        plan deselects the run, an open selected run is kept (see `KeepRun`),
        and otherwise a run is created (see `StartRun`) with the cases of every
        marked item. */
    method Select(items: seq<Item>, keys: seq<(Item, seq<int>)>, now: DateTime) returns (c: Completion)
      requires PagesEnd(service)
      requires ValidDateTime(now)
      requires MarkedIds(items, Testrail) == Some(keys)
      modifies this`testrunId, this`testplanId, this`testrunName, this`posts, items
      ensures old(testplanId) != 0 && PlanAvailable(service, old(testplanId)) ==>
                c == Done && testrunId == 0 && testplanId == old(testplanId) &&
                testrunName == old(testrunName) && posts == old(posts) &&
                forall it :: it in items ==> it.skipMarked == old(it.skipMarked)
      ensures !(old(testplanId) != 0 && PlanAvailable(service, old(testplanId))) &&
              old(testrunId) != 0 && RunAvailable(service, old(testrunId)) ==>
                testrunId == old(testrunId) && testplanId == 0 && testrunName == old(testrunName) && posts == old(posts) &&
                (!skipMissing ==> c == Done && forall it :: it in items ==> it.skipMarked == old(it.skipMarked)) &&
                (skipMissing && AllTests(service, old(testrunId)).None? ==>
                   c == Raised && forall it :: it in items ==> it.skipMarked == old(it.skipMarked)) &&
                (skipMissing && AllTests(service, old(testrunId)).Some? ==>
                   c == Done &&
                   forall it :: it in items ==>
                     it.skipMarked == (old(it.skipMarked) || Missing(it, CaseIds(AllTests(service, old(testrunId)).value))))
      ensures !(old(testplanId) != 0 && PlanAvailable(service, old(testplanId))) &&
              !(old(testrunId) != 0 && RunAvailable(service, old(testrunId))) ==>
                var name := if old(testrunName).None? then Some(TestrunName(now)) else old(testrunName);
                var p := CreateRunPost(projectId, RunPayload(suiteId, name, testrunDescription, assignUserId,
                                                             includeAll, AllIds(keys), milestoneId));
                c == Done && testplanId == old(testplanId) && testrunName == name &&
                posts == old(posts) + [p] &&
                testrunId == (if service.postCreated(p.url, p.body).Success?
                              then service.postCreated(p.url, p.body).body.id else old(testrunId)) &&
                forall it :: it in items ==> it.skipMarked == old(it.skipMarked)
    {
      c := Done;
      var planOpen := false;
      if testplanId != 0 {
        planOpen := IsTestplanAvailable();
      }
      if planOpen {
        testrunId := 0;
      } else {
        c := SelectRun(items, keys, now);
      }
    }

    /** The collection hook when no open plan is selected. */
    method SelectRun(items: seq<Item>, keys: seq<(Item, seq<int>)>, now: DateTime) returns (c: Completion)
      requires PagesEnd(service)
      requires ValidDateTime(now)
      requires MarkedIds(items, Testrail) == Some(keys)
      modifies this`testrunId, this`testplanId, this`testrunName, this`posts, items
      ensures old(testrunId) != 0 && RunAvailable(service, old(testrunId)) ==>
                testrunId == old(testrunId) && testplanId == 0 && testrunName == old(testrunName) && posts == old(posts) &&
                (!skipMissing ==> c == Done && forall it :: it in items ==> it.skipMarked == old(it.skipMarked)) &&
                (skipMissing && AllTests(service, old(testrunId)).None? ==>
                   c == Raised && forall it :: it in items ==> it.skipMarked == old(it.skipMarked)) &&
                (skipMissing && AllTests(service, old(testrunId)).Some? ==>
                   c == Done &&
                   forall it :: it in items ==>
                     it.skipMarked == (old(it.skipMarked) || Missing(it, CaseIds(AllTests(service, old(testrunId)).value))))
      ensures !(old(testrunId) != 0 && RunAvailable(service, old(testrunId))) ==>
                var name := if old(testrunName).None? then Some(TestrunName(now)) else old(testrunName);
                var p := CreateRunPost(projectId, RunPayload(suiteId, name, testrunDescription, assignUserId,
                                                             includeAll, AllIds(keys), milestoneId));
                c == Done && testplanId == old(testplanId) && testrunName == name &&
                posts == old(posts) + [p] &&
                testrunId == (if service.postCreated(p.url, p.body).Success?
                              then service.postCreated(p.url, p.body).body.id else old(testrunId)) &&
                forall it :: it in items ==> it.skipMarked == old(it.skipMarked)
    {
      c := Done;
      var runOpen := false;
      if testrunId != 0 {
        runOpen := IsTestrunAvailable();
      }
      if runOpen {
        MarkedIdsPairs(items, Testrail);
        c := KeepRun(items, keys);
      } else {
        StartRun(AllIds(keys), now);
      }
    }

    /** `pytest_runtest_makereport`: buffers the results of a recorded report. */
    method PytestRuntestMakereport(item: Item, when: string, outcome: string, longrepr: Option<string>,
                                   duration: real)
      returns (c: Completion)
      modifies this`results
      ensures Report(item, when, outcome, longrepr, duration).None? ==> c == Raised && results == old(results)
      ensures Report(item, when, outcome, longrepr, duration).Some? ==>
                c == Done && results == old(results) + Report(item, when, outcome, longrepr, duration).value
    {
      c := Done;
      var defectIds := item.defectTags;
      if item.caseTags.Some? {
        var testcaseIds := item.caseTags.value;
        if when == "call" && testcaseIds != [] {
          var ids := CleanIds(testcaseIds);
          var status := GetTestOutcome(outcome);
          if ids.None? || status.None? {
            return Raised;
          }
          if defectIds.Some? && defectIds.value != [] {
            AddResult(ids.value, status.value, longrepr, Some(DefectsString(defectIds.value)), duration, item.params);
          } else {
            AddResult(ids.value, status.value, longrepr, None, duration, item.params);
          }
        }
      }
    }

    /** The plan branch of `pytest_sessionfinish`: `add_results` for each open
        run of the plan, stopping at the first call that raises. */
    method PublishToPlan(planId: int) returns (c: Completion)
      requires PagesEnd(service)
      modifies this`results, this`posts
      ensures var st := PublishRuns(service, old(results), PlanRuns(service, planId), Config());
              c == st.outcome && results == st.results && posts == old(posts) + st.posts
    {
      var runs := GetAvailableTestruns(planId);
      c := PublishAll(runs);
    }

    /** The loop of the plan branch: `add_results` for each run in turn,
        stopping at the first call that raises. */
    method PublishAll(runs: seq<int>) returns (c: Completion)
      requires PagesEnd(service)
      modifies this`results, this`posts
      ensures Reached(PublishRuns(service, old(results), runs, Config()), c, results, posts, old(posts))
    {
      ghost var start, sent := results, posts;
      c := Done;
      var i := 0;
      while i < |runs|
        invariant 0 <= i <= |runs| && c == Done
        invariant Reached(PublishRuns(service, start, runs[..i], Config()), c, results, posts, sent)
      {
        c := PublishToRun(runs, i, start, sent);
        if c == Raised {
          RaisedStays(service, start, runs, Config(), i + 1);
          return;
        }
        i := i + 1;
      }
      assert runs[..i] == runs;
    }

    /** One round of the plan loop: `add_results` on the next run, from the
        buffer the previous rounds left. */
    method PublishToRun(runs: seq<int>, i: nat, ghost start: seq<TestResult>, ghost sent: seq<Post>)
      returns (c: Completion)
      requires PagesEnd(service)
      requires i < |runs|
      requires Reached(PublishRuns(service, start, runs[..i], Config()), Done, results, posts, sent)
      modifies this`results, this`posts
      ensures Reached(PublishRuns(service, start, runs[..i + 1], Config()), c, results, posts, sent)
    {
      PublishRunsStep(service, start, runs, i, Config());
      ghost var prev := PublishRuns(service, start, runs[..i], Config());
      ghost var st := AddResultsStep(service, prev.results, runs[i], Config());
      c := AddResults(runs[i]);
      ReachedNext(prev, st, PublishRuns(service, start, runs[..i + 1], Config()), c, results, posts, sent);
    }

    /** The publishing part of `pytest_sessionfinish`: the selected run, else
        the selected plan's open runs, else nothing. */
    method PublishSession() returns (c: Completion)
      requires PagesEnd(service)
      modifies this`results, this`posts
      ensures var st := Publish(service, old(results), old(testrunId), old(testplanId), Config());
              c == st.outcome && results == st.results && posts == old(posts) + st.posts
    {
      c := Done;
      if testrunId != 0 {
        c := AddResults(testrunId);
      } else if testplanId != 0 {
        c := PublishToPlan(testplanId);
      }
    }

    /** The closing part of `pytest_sessionfinish`. */
    method CloseOnComplete()
      modifies this`posts
      ensures posts == old(posts) + ClosePosts(closeOnComplete, old(testrunId), old(testplanId))
    {
      if closeOnComplete && testrunId != 0 {
        CloseTestRun(testrunId);
      } else if closeOnComplete && testplanId != 0 {
        CloseTestPlan(testplanId);
      }
    }

    /** `pytest_sessionfinish`: see `SessionFinish`. */
    method PytestSessionfinish() returns (c: Completion)
      requires PagesEnd(service)
      modifies this`results, this`posts
      ensures var st := SessionFinish(service, old(results), old(testrunId), old(testplanId), Config(), closeOnComplete);
              c == st.outcome && results == st.results && posts == old(posts) + st.posts
    {
      c := Done;
      if results == [] {
        return;
      }
      ghost var st := Publish(service, results, testrunId, testplanId, Config());
      ghost var whole := SessionFinish(service, results, testrunId, testplanId, Config(), closeOnComplete);
      ghost var before := posts;
      c := PublishSession();
      if c == Raised {
        return;
      }
      CloseOnComplete();
      ThenClose(st, whole, ClosePosts(closeOnComplete, old(testrunId), old(testplanId)));
      assert posts == before + whole.posts;
    }
  }
}
