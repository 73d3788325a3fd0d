/** The `TestrailActions` class of `pytest_testrail/testrail_actions.py` and the
    `TestRailModel` record it works on: building results, publishing a result list
    to a run or to every open run of a plan, and creating, updating, looking up and
    closing runs, plans and plan entries. */
module Actions {
  import opened Wrappers
  import opened Strings
  import opened Seqs
  import opened Vars
  import opened Remote
  import opened Functions
  import opened Payload
  import opened Plugin

  // ---------------------------------------------------------------------------
  // What `_add_results` and `publish_results` send

  /** The reply of the actions' `get_tests`: one request, the run's tests, `None`
      on an error reply. */
  function ListTests(s: Service, runId: int): Option<seq<TestRec>>
  {
    match s.getTestList(GetTestsUrl(runId))
    case Failure(_) => None
    case Success(tests) => Some(tests)
  }

  /** The tests `_add_results` filters with: fetched only when blocked results are
      not published. */
  function BlockedSource(s: Service, cfg: Publishing, runId: int): Option<seq<TestRec>>
  {
    if cfg.publishBlocked then None else ListTests(s, runId)
  }

  /** One `_add_results(runId, results)`: the outcome, the results sent, the request. */
  function AddResultsCall(s: Service, results: seq<TestResult>, runId: int, cfg: Publishing): Step
  {
    AddResultsWith(results, runId, cfg, BlockedSource(s, cfg, runId))
  }

  /** The request a run of the plan receives when `_add_results` is given `results`
      (in any order: the call sorts them first). */
  function RunPost(s: Service, results: seq<TestResult>, runId: int, cfg: Publishing): Post
  {
    ResultsPost(runId, AddResultsCall(s, results, runId, cfg).results, cfg.version, cfg.custom)
  }

  /** `_add_results` on each run in turn with one and the same list object; the
      `results` of the step are the list's contents afterwards (each call sorts the
      shared list in place, and filters a copy). The first call that raises ends
      the loop. */
  function SendToRuns(s: Service, results: seq<TestResult>, runs: seq<int>, cfg: Publishing): Step
    decreases |runs|
  {
    if runs == [] then Step(Done, results, [])
    else
      var prev := SendToRuns(s, results, runs[..|runs| - 1], cfg);
      if prev.outcome == Raised then prev
      else
        var st := AddResultsCall(s, prev.results, runs[|runs| - 1], cfg);
        Step(st.outcome, SortByCase(prev.results), prev.posts + st.posts)
  }

  /** The open runs of a plan (`get_available_testruns`); `None` when the plan
      cannot be read, which raises KeyError on the reply's missing `entries`. */
  function PlanRunsOrFail(s: Service, planId: int): Option<seq<int>>
  {
    match s.getPlan(GetPlanUrl(planId))
    case Failure(_) => None
    case Success(plan) => Some(OpenRuns(plan.entries))
  }

  /** A readable plan lists exactly the runs of its entries that are not completed. */
  lemma PlanRunsOrFailOpen(s: Service, planId: int, id: int)
    requires s.getPlan(GetPlanUrl(planId)).Success?
    ensures var entries := s.getPlan(GetPlanUrl(planId)).body.entries;
            PlanRunsOrFail(s, planId).Some? &&
            (id in PlanRunsOrFail(s, planId).value <==>
               exists e, k :: 0 <= e < |entries| && 0 <= k < |entries[e].runs| &&
                              entries[e].runs[k].id == id && !entries[e].runs[k].isCompleted)
  {
    OpenRunsMembership(s.getPlan(GetPlanUrl(planId)).body.entries, id);
  }

  /** The publishing of `publish_results` once the list is filtered: the given
      model's run id decides between the run and the plan, but the posts go to the
      actions' own `runId` and `planId`. */
  function Dispatch(s: Service, kept: seq<TestResult>, givenRun: int, runId: int, planId: int,
                    cfg: Publishing): Step
  {
    if givenRun != 0 then AddResultsCall(s, kept, runId, cfg)
    else if planId != 0 then
      match PlanRunsOrFail(s, planId)
      case None => Step(Raised, kept, [])
      case Some(runs) => SendToRuns(s, kept, runs, cfg)
    else Step(Done, kept, [])
  }

  /** `publish_results`: nothing with no results; otherwise reading the ignore list
      raises when it was never assigned (`None`), and else the results whose cases
      are not ignored are published (raising when no model is given), and when that
      completes, the closing request follows. */
  function PublishResultsOf(s: Service, results: Option<seq<TestResult>>, ignore: Option<seq<int>>,
                            givenRun: Option<int>, runId: int, planId: int, cfg: Publishing,
                            closeOnComplete: bool): Step
  {
    if results.None? || results.value == [] then Step(Done, [], [])
    else if ignore.None? then Step(Raised, results.value, [])
    else
      var kept := Filter((r: TestResult) => r.caseId !in ignore.value, results.value);
      if givenRun.None? then Step(Raised, kept, [])
      else PublishKeptOf(s, kept, givenRun.value, runId, planId, cfg, closeOnComplete)
  }

  /** `publish_results` after the filtering: the list is published and, when that
      completes, the closing request follows. */
  function PublishKeptOf(s: Service, kept: seq<TestResult>, givenRun: int, runId: int, planId: int,
                         cfg: Publishing, closeOnComplete: bool): Step
  {
    var st := Dispatch(s, kept, givenRun, runId, planId, cfg);
    if st.outcome == Raised then st
    else Step(Done, st.results, st.posts + ClosePosts(closeOnComplete, runId, planId))
  }

  // ---------------------------------------------------------------------------
  // Properties of the plan loop

  /** One more run: nothing more once a call has raised, otherwise one more
      `_add_results` on the shared list. */
  lemma SendToRunsStep(s: Service, results: seq<TestResult>, runs: seq<int>, n: nat, cfg: Publishing)
    requires n < |runs|
    ensures var prev := SendToRuns(s, results, runs[..n], cfg);
            var st := AddResultsCall(s, prev.results, runs[n], cfg);
            SendToRuns(s, results, runs[..n + 1], cfg) ==
              if prev.outcome == Raised then prev
              else Step(st.outcome, SortByCase(prev.results), prev.posts + st.posts)
  {
    assert runs[..n + 1][..n] == runs[..n];
  }

  /** Once a call has raised, the runs after it change nothing. */
  lemma {:induction false} SendRaisedStays(s: Service, results: seq<TestResult>, runs: seq<int>, cfg: Publishing, n: nat)
    requires n <= |runs|
    requires SendToRuns(s, results, runs[..n], cfg).outcome == Raised
    ensures SendToRuns(s, results, runs, cfg) == SendToRuns(s, results, runs[..n], cfg)
    decreases |runs| - n
  {
    if n < |runs| {
      SendToRunsStep(s, results, runs, n, cfg);
      SendRaisedStays(s, results, runs, cfg, n + 1);
    } else {
      assert runs[..n] == runs;
    }
  }

  /** A call depends on its list only through the sorted list. */
  lemma SameSorted(s: Service, a: seq<TestResult>, b: seq<TestResult>, runId: int, cfg: Publishing)
    requires SortByCase(a) == SortByCase(b)
    ensures AddResultsCall(s, a, runId, cfg) == AddResultsCall(s, b, runId, cfg)
  {
  }

  /** The shared list ends sorted by case id, whether or not a call raised, and
      nothing is ever removed from it. */
  lemma {:induction false} SendToRunsSorts(s: Service, results: seq<TestResult>, runs: seq<int>, cfg: Publishing)
    ensures var st := SendToRuns(s, results, runs, cfg);
            st.results == if runs == [] then results else SortByCase(results)
    ensures runs != [] ==> multiset(SendToRuns(s, results, runs, cfg).results) == multiset(results)
    decreases |runs|
  {
    if runs != [] {
      var init := runs[..|runs| - 1];
      SendToRunsSorts(s, results, init, cfg);
      SortByCaseIdempotent(results);
      SortByCaseSortedPermutation(results);
    }
  }

  /** Every run gets the request of the matching index. */
  ghost predicate EachRunPost(s: Service, results: seq<TestResult>, runs: seq<int>, cfg: Publishing, posts: seq<Post>)
  {
    |posts| == |runs| && forall i :: 0 <= i < |runs| ==> posts[i] == RunPost(s, results, runs[i], cfg)
  }

  lemma EachRunPostSnoc(s: Service, results: seq<TestResult>, runs: seq<int>, cfg: Publishing,
                        a: seq<Post>, b: seq<Post>)
    requires runs != []
    requires EachRunPost(s, results, runs[..|runs| - 1], cfg, a)
    requires b == a + [RunPost(s, results, runs[|runs| - 1], cfg)]
    ensures EachRunPost(s, results, runs, cfg, b)
  {
    MapSnoc((r: int) => RunPost(s, results, r, cfg), runs, a, b);
  }

  /** No call raises when blocked results are published or every run's tests can
      be fetched. */
  predicate NoRaise(s: Service, runs: seq<int>, cfg: Publishing)
  {
    forall i :: 0 <= i < |runs| ==> cfg.publishBlocked || ListTests(s, runs[i]).Some?
  }

  lemma NoRaiseInit(s: Service, runs: seq<int>, cfg: Publishing)
    requires runs != [] && NoRaise(s, runs, cfg)
    ensures NoRaise(s, runs[..|runs| - 1], cfg)
    ensures cfg.publishBlocked || ListTests(s, runs[|runs| - 1]).Some?
  {
    var init := runs[..|runs| - 1];
    forall i | 0 <= i < |init| ensures cfg.publishBlocked || ListTests(s, init[i]).Some? {
      assert init[i] == runs[i];
    }
  }

  /** The last run, after calls that left the list in the order `results` sorts to
      and that did not raise: one more request, the one a single call would send. */
  lemma SendOneMore(s: Service, results: seq<TestResult>, runs: seq<int>, cfg: Publishing)
    requires runs != []
    requires SendToRuns(s, results, runs[..|runs| - 1], cfg).outcome == Done
    requires cfg.publishBlocked || ListTests(s, runs[|runs| - 1]).Some?
    ensures SendToRuns(s, results, runs, cfg).outcome == Done
    ensures SendToRuns(s, results, runs, cfg).posts ==
              SendToRuns(s, results, runs[..|runs| - 1], cfg).posts + [RunPost(s, results, runs[|runs| - 1], cfg)]
  {
    var last := runs[|runs| - 1];
    SendToRunsSorts(s, results, runs[..|runs| - 1], cfg);
    SortByCaseIdempotent(results);
    SameSorted(s, SendToRuns(s, results, runs[..|runs| - 1], cfg).results, results, last, cfg);
    AddResultsWithShape(results, last, cfg, BlockedSource(s, cfg, last));
  }

  /** When no call raises, every open run receives exactly what one call on the
      original list would send it: the list sorted by case id, less only the cases
      blocked in that run. Unlike the plugin's buffer, the exclusions of one run
      never reach the next. */
  lemma {:induction false} SendToRunsEach(s: Service, results: seq<TestResult>, runs: seq<int>, cfg: Publishing)
    requires NoRaise(s, runs, cfg)
    ensures var st := SendToRuns(s, results, runs, cfg);
            st.outcome == Done && EachRunPost(s, results, runs, cfg, st.posts)
    decreases |runs|
  {
    if runs != [] {
      NoRaiseInit(s, runs, cfg);
      SendToRunsEach(s, results, runs[..|runs| - 1], cfg);
      SendOneMore(s, results, runs, cfg);
      EachRunPostSnoc(s, results, runs, cfg, SendToRuns(s, results, runs[..|runs| - 1], cfg).posts,
                      SendToRuns(s, results, runs, cfg).posts);
    }
  }

  /** With blocked results filtered, run `i` of the plan receives a result exactly
      when it is one of the caller's results and its case is not blocked in that
      very run. */
  lemma RunReceives(s: Service, results: seq<TestResult>, runs: seq<int>, cfg: Publishing, i: nat, r: TestResult)
    requires !cfg.publishBlocked && NoRaise(s, runs, cfg)
    requires i < |runs|
    ensures var st := SendToRuns(s, results, runs, cfg);
            var blocked := BlockedCaseIds(ListTests(s, runs[i]).value);
            |st.posts| == |runs| && st.posts[i].url == AddResultsUrl(runs[i]) &&
            st.posts[i].body == ResultsBody(Entries(DropCases(SortByCase(results), blocked), cfg.version, cfg.custom)) &&
            (r in DropCases(SortByCase(results), blocked) <==> r in results && r.caseId !in blocked)
  {
    SendToRunsEach(s, results, runs, cfg);
    assert ListTests(s, runs[i]).Some?;
    AddResultsKeepsUnblocked(results, runs[i], cfg, ListTests(s, runs[i]).value, r);
  }

  /** With a non-empty list and a given model that names a run, the kept results
      go once to the actions' own run (whatever that is), then the closing request. */
  lemma PublishResultsToRun(s: Service, results: seq<TestResult>, ignore: seq<int>, givenRun: int,
                            runId: int, planId: int, cfg: Publishing, closeOnComplete: bool)
    requires results != [] && givenRun != 0
    requires cfg.publishBlocked || ListTests(s, runId).Some?
    ensures var kept := Filter((r: TestResult) => r.caseId !in ignore, results);
            var st := PublishResultsOf(s, Some(results), Some(ignore), Some(givenRun), runId, planId, cfg, closeOnComplete);
            st.outcome == Done &&
            st.posts == [RunPost(s, kept, runId, cfg)] + ClosePosts(closeOnComplete, runId, planId)
  {
    var kept := Filter((r: TestResult) => r.caseId !in ignore, results);
    AddResultsWithShape(kept, runId, cfg, BlockedSource(s, cfg, runId));
  }

  /** With a non-empty list, a given model without a run and a readable plan whose
      runs can all be served, each open run receives in entry order what a single
      call would send it, then the closing request follows. */
  lemma PublishResultsToPlan(s: Service, results: seq<TestResult>, ignore: seq<int>, runId: int,
                             planId: int, cfg: Publishing, closeOnComplete: bool)
    requires results != [] && planId != 0
    requires PlanRunsOrFail(s, planId).Some? && NoRaise(s, PlanRunsOrFail(s, planId).value, cfg)
    ensures var kept := Filter((r: TestResult) => r.caseId !in ignore, results);
            var runs := PlanRunsOrFail(s, planId).value;
            var st := PublishResultsOf(s, Some(results), Some(ignore), Some(0), runId, planId, cfg, closeOnComplete);
            st.outcome == Done && |st.posts| == |runs| + |ClosePosts(closeOnComplete, runId, planId)| &&
            (forall i :: 0 <= i < |runs| ==> st.posts[i] == RunPost(s, kept, runs[i], cfg)) &&
            st.posts[|runs|..] == ClosePosts(closeOnComplete, runId, planId)
  {
    var kept := Filter((r: TestResult) => r.caseId !in ignore, results);
    var runs := PlanRunsOrFail(s, planId).value;
    var sent := SendToRuns(s, kept, runs, cfg);
    SendToRunsEach(s, kept, runs, cfg);
    assert Dispatch(s, kept, 0, runId, planId, cfg) == sent;
    ThenClose(sent, PublishResultsOf(s, Some(results), Some(ignore), Some(0), runId, planId, cfg, closeOnComplete),
              ClosePosts(closeOnComplete, runId, planId));
  }


  /** An ignore list that was never assigned makes `publish_results` raise on any
      non-empty list of results, before anything is sent, whatever the model. */
  lemma PublishResultsUnassigned(s: Service, results: seq<TestResult>, givenRun: Option<int>, runId: int,
                                 planId: int, cfg: Publishing, closeOnComplete: bool)
    requires results != []
    ensures var st := PublishResultsOf(s, Some(results), None, givenRun, runId, planId, cfg, closeOnComplete);
            st.outcome == Raised && st.posts == []
  {
  }

  /** With no results, or an empty list, nothing is sent, even when the ignore list
      was never assigned, since it is read only after the `if results` test. */
  lemma PublishResultsNothing(s: Service, results: Option<seq<TestResult>>, ignore: Option<seq<int>>,
                              givenRun: Option<int>, runId: int, planId: int, cfg: Publishing,
                              closeOnComplete: bool)
    requires results.None? || results.value == []
    ensures var st := PublishResultsOf(s, results, ignore, givenRun, runId, planId, cfg, closeOnComplete);
            st.outcome == Done && st.posts == []
  {
  }

  /** A plan that cannot be read makes `publish_results` raise before anything is
      sent, when the given model names no run. */
  lemma PublishResultsUnreadablePlan(s: Service, results: seq<TestResult>, ignore: seq<int>, runId: int,
                                     planId: int, cfg: Publishing, closeOnComplete: bool)
    requires results != [] && planId != 0
    requires s.getPlan(GetPlanUrl(planId)).Failure?
    ensures var st := PublishResultsOf(s, Some(results), Some(ignore), Some(0), runId, planId, cfg, closeOnComplete);
            st.outcome == Raised && st.posts == []
  {
  }

  // ---------------------------------------------------------------------------
  // Updating the case selection of a run

  /** The cases a run holds now, read only when the previous selection is kept
      (`get_case_list` of `get_tests`; an error reply reads as no cases). */
  function CurrentCases(s: Service, runId: int, savePrevious: bool): seq<int>
  {
    if !savePrevious then []
    else match ListTests(s, runId)
      case None => []
      case Some(tests) => CaseIds(tests)
  }

  /** An update request: to `url`, with a duplicate-free `case_ids` holding exactly
      the ids of `ids`, in an unspecified order (`list(set(...))`). */
  ghost predicate CaseIdsUpdate(p: Post, url: string, ids: seq<int>)
  {
    p.url == url && p.body.CaseIdsBody? && NoDuplicates(p.body.caseIds) &&
    forall x :: x in p.body.caseIds <==> x in ids
  }

  /** The request of `create_plan_entry`. */
  function PlanEntryPost(planId: int, payload: EntryPayload): Post
  {
    Post(AddPlanEntryUrl(planId), EntryBody(payload))
  }

  /** The request of `create_plan`. */
  function PlanPost(projectId: int, name: Option<string>, description: Option<string>,
                    milestoneId: Option<int>): Post
  {
    Post(AddPlanUrl(projectId), PlanBody(name, description, milestoneId))
  }

  /** Whether some run of the entry has an id whose string form is `runId`. */
  predicate HasRun(entry: EntryRec, runId: string)
  {
    exists k :: 0 <= k < |entry.runs| && IntToString(entry.runs[k].id) == runId
  }

  // ---------------------------------------------------------------------------
  // The objects

  /** A Python list of results: the caller and `_add_results` share it, so a sort in
      place is seen by both. */
  class ResultList {
    var elems: seq<TestResult>

    constructor(elems: seq<TestResult>)
      ensures this.elems == elems
    {
      this.elems := elems;
    }
  }

  /** The `TestRailModel` record: the session's settings, the client (`service`),
      the selected run and plan, and the plan entry last found or created (`None`
      while the attribute does not exist). Every POST sent through the client is
      logged in `posts`. */
  class TestRailModel {
    const service: Service
    const assignUserId: Option<int>
    const projectId: int
    const suiteId: Option<int>
    const includeAll: bool
    const testrunName: Option<string>
    const testrunDescription: Option<string>
    const version: Option<string>
    const closeOnComplete: bool
    const publishBlocked: bool
    const skipMissing: bool
    const milestoneId: Option<int>
    const customComment: Option<string>

    var testrunId: int
    var testplanId: int
    var testplanEntryId: Option<string>
    ghost var posts: seq<Post>

    constructor(service: Service, assignUserId: Option<int>, projectId: int, suiteId: Option<int>,
                includeAll: bool, testrunName: Option<string>, testrunDescription: Option<string>,
                testrunId: int, testplanId: int, version: Option<string>, closeOnComplete: bool,
                publishBlocked: bool, skipMissing: bool, milestoneId: Option<int>,
                customComment: Option<string>)
      ensures this.service == service && this.assignUserId == assignUserId && this.projectId == projectId
      ensures this.suiteId == suiteId && this.includeAll == includeAll && this.testrunName == testrunName
      ensures this.testrunDescription == testrunDescription && this.version == version
      ensures this.closeOnComplete == closeOnComplete && this.publishBlocked == publishBlocked
      ensures this.skipMissing == skipMissing && this.milestoneId == milestoneId
      ensures this.customComment == customComment
      ensures this.testrunId == testrunId && this.testplanId == testplanId
      ensures testplanEntryId == None && posts == []
    {
      this.service := service;
      this.assignUserId := assignUserId;
      this.projectId := projectId;
      this.suiteId := suiteId;
      this.includeAll := includeAll;
      this.testrunName := testrunName;
      this.testrunDescription := testrunDescription;
      this.version := version;
      this.closeOnComplete := closeOnComplete;
      this.publishBlocked := publishBlocked;
      this.skipMissing := skipMissing;
      this.milestoneId := milestoneId;
      this.customComment := customComment;
      this.testrunId := testrunId;
      this.testplanId := testplanId;
      testplanEntryId := None;
      posts := [];
    }

    function Config(): Publishing
    {
      Publishing(publishBlocked, version, customComment)
    }
  }

  class TestrailActions {
    const data: TestRailModel
    /** The `diff_case_ids` attribute: `None` until a caller assigns it, since no
        code of the program does. */
    var diffCaseIds: Option<seq<int>>

    constructor(data: TestRailModel)
      ensures this.data == data && diffCaseIds.None?
    {
      this.data := data;
      diffCaseIds := None;
    }

    /** `add_result`: the record of one result, holding exactly the six given values. */
    static function AddResult(testId: int, status: int, comment: Option<string>, defects: Option<string>,
                              duration: real, params: Option<Params>): (r: TestResult)
      ensures r.caseId == testId && r.statusId == status && r.comment == comment
      ensures r.defects == defects && r.duration == duration && r.parametrize == params
    {
      TestResult(testId, status, comment, duration, defects, params)
    }

    /** `get_tests`: the run's tests, `None` on an error reply. */
    method GetTests(runId: int) returns (tests: Option<seq<TestRec>>)
      ensures tests.None? <==> data.service.getTestList(GetTestsUrl(runId)).Failure?
      ensures tests.Some? ==> tests.value == data.service.getTestList(GetTestsUrl(runId)).body
    {
      var response := data.service.getTestList(GetTestsUrl(runId));
      if response.Failure? {
        return None;
      }
      return Some(response.body);
    }

    /** `_add_results`: sorts the caller's list in place by case id; unless blocked
        results are published, filters a copy of it against the run's blocked cases
        (raising when the run's tests cannot be fetched); then posts the copy. */
    method AddResults(runId: int, results: ResultList) returns (c: Completion)
      modifies results, data`posts
      ensures results.elems == SortByCase(old(results.elems))
      ensures var st := AddResultsCall(data.service, old(results.elems), runId, data.Config());
              c == st.outcome && data.posts == old(data.posts) + st.posts
    {
      results.elems := SortByCase(results.elems);
      var kept := results.elems;
      if !data.publishBlocked {
        var tests := GetTests(runId);
        if tests.None? {
          return Raised;
        }
        kept := DropCases(kept, BlockedCaseIds(tests.value));
      }
      var body := BuildResultsBody(kept, data.version, data.customComment);
      data.posts := data.posts + [Post(AddResultsUrl(runId), ResultsBody(body))];
      c := Done;
    }

    /** `publish_results`: raises on reading an unassigned ignore list; otherwise
        drops the results whose cases are ignored, then publishes the rest to the
        actions' run when the given model names a run, else to every open run of
        the actions' plan, and then closes the run, else the plan, when closing on
        completion is asked for. */
    method PublishResults(given: TestRailModel?, results: Option<seq<TestResult>>)
      returns (c: Completion)
      modifies data`posts
      ensures var st := PublishResultsOf(data.service, results, diffCaseIds,
                                         if given == null then None else Some(old(given.testrunId)),
                                         old(data.testrunId), old(data.testplanId), data.Config(),
                                         data.closeOnComplete);
              c == st.outcome && data.posts == old(data.posts) + st.posts
    {
      c := Done;
      if results.None? || results.value == [] {
        return;
      }
      if diffCaseIds.None? {
        return Raised;
      }
      var kept, caseIds := FilterPublishResults(results.value, diffCaseIds.value);
      if given == null {
        return Raised;
      }
      c := PublishKept(given.testrunId, kept);
    }

    /** The part of `publish_results` after the filtering. */
    method PublishKept(givenRun: int, kept: seq<TestResult>) returns (c: Completion)
      modifies data`posts
      ensures var st := PublishKeptOf(data.service, kept, givenRun, old(data.testrunId), old(data.testplanId),
                                      data.Config(), data.closeOnComplete);
              c == st.outcome && data.posts == old(data.posts) + st.posts
    {
      ghost var st := Dispatch(data.service, kept, givenRun, data.testrunId, data.testplanId, data.Config());
      ghost var before := data.posts;
      c := DispatchResults(givenRun, kept);
      if c == Raised {
        return;
      }
      CloseOnComplete();
      assert data.posts == before + st.posts + ClosePosts(data.closeOnComplete, data.testrunId, data.testplanId);
    }

    /** The branch of `publish_results` that sends the filtered list. */
    method DispatchResults(givenRun: int, kept: seq<TestResult>) returns (c: Completion)
      modifies data`posts
      ensures var st := Dispatch(data.service, kept, givenRun, data.testrunId, data.testplanId, data.Config());
              c == st.outcome && data.posts == old(data.posts) + st.posts
    {
      c := Done;
      if givenRun != 0 {
        var list := new ResultList(kept);
        c := AddResults(data.testrunId, list);
      } else if data.testplanId != 0 {
        var runs := GetAvailableTestruns(data.testplanId);
        if runs.None? {
          return Raised;
        }
        var list := new ResultList(kept);
        c := SendToAll(runs.value, list);
      }
    }

    /** The plan loop of `publish_results`: `_add_results` on each run with the same
        list, stopping at the first call that raises. */
    method SendToAll(runs: seq<int>, list: ResultList) returns (c: Completion)
      modifies list, data`posts
      ensures Reached(SendToRuns(data.service, old(list.elems), runs, data.Config()), c, list.elems,
                      data.posts, old(data.posts))
    {
      ghost var start, sent := list.elems, data.posts;
      c := Done;
      var i := 0;
      while i < |runs|
        invariant 0 <= i <= |runs| && c == Done
        invariant Reached(SendToRuns(data.service, start, runs[..i], data.Config()), c, list.elems, data.posts, sent)
      {
        c := SendToRun(runs, i, list, start, sent);
        if c == Raised {
          SendRaisedStays(data.service, start, runs, data.Config(), i + 1);
          return;
        }
        i := i + 1;
      }
      assert runs[..i] == runs;
    }

    /** One round of the plan loop. */
    method SendToRun(runs: seq<int>, i: nat, list: ResultList, ghost start: seq<TestResult>, ghost sent: seq<Post>)
      returns (c: Completion)
      requires i < |runs|
      requires Reached(SendToRuns(data.service, start, runs[..i], data.Config()), Done, list.elems, data.posts, sent)
      modifies list, data`posts
      ensures Reached(SendToRuns(data.service, start, runs[..i + 1], data.Config()), c, list.elems, data.posts, sent)
    {
      SendToRunsStep(data.service, start, runs, i, data.Config());
      ghost var prev := SendToRuns(data.service, start, runs[..i], data.Config());
      c := AddResults(runs[i], list);
      assert data.posts == sent + prev.posts + AddResultsCall(data.service, prev.results, runs[i], data.Config()).posts;
    }

    /** The closing part of `publish_results`. */
    method CloseOnComplete()
      modifies data`posts
      ensures data.posts == old(data.posts) + ClosePosts(data.closeOnComplete, data.testrunId, data.testplanId)
    {
      if data.closeOnComplete && data.testrunId != 0 {
        CloseTestRun(data.testrunId);
      } else if data.closeOnComplete && data.testplanId != 0 {
        CloseTestPlan(data.testplanId);
      }
    }

    /** `create_test_run`: on an error reply returns 0 and leaves the run id; on
        success stores the new run's id and returns it. */
    method CreateTestRun(assignUserId: Option<int>, projectId: int, suiteId: Option<int>, includeAll: bool,
                         name: Option<string>, trKeys: seq<int>, milestoneId: Option<int>,
                         description: Option<string>)
      returns (id: int)
      modifies data`testrunId, data`posts
      ensures var p := CreateRunPost(projectId, RunPayload(suiteId, name, description, assignUserId,
                                                           includeAll, trKeys, milestoneId));
              var reply := data.service.postCreated(p.url, p.body);
              data.posts == old(data.posts) + [p] &&
              (reply.Failure? ==> id == 0 && data.testrunId == old(data.testrunId)) &&
              (reply.Success? ==> id == reply.body.id && data.testrunId == id)
    {
      var p := CreateRunPost(projectId, RunPayload(suiteId, name, description, assignUserId,
                                                   includeAll, trKeys, milestoneId));
      data.posts := data.posts + [p];
      var response := data.service.postCreated(p.url, p.body);
      if response.Failure? {
        return 0;
      }
      data.testrunId := response.body.id;
      return data.testrunId;
    }

    /** `create_plan_entry`: on an error reply returns 0 and leaves the ids; on
        success stores the entry id, then selects the entry's first run and returns
        its id, raising IndexError when the entry has no run. */
    method CreatePlanEntry(suiteId: Option<int>, name: Option<string>, assignUserId: Option<int>, planId: int,
                           includeAll: bool, trKeys: seq<int>, description: Option<string>)
      returns (c: Completion, id: int)
      modifies data`testrunId, data`testplanEntryId, data`posts
      ensures var p := PlanEntryPost(planId, EntryPayload(suiteId, name, description, assignUserId,
                                                          includeAll, trKeys));
              var reply := data.service.postEntry(p.url, p.body);
              data.posts == old(data.posts) + [p] &&
              (reply.Failure? ==> c == Done && id == 0 && data.testrunId == old(data.testrunId) &&
                                  data.testplanEntryId == old(data.testplanEntryId)) &&
              (reply.Success? ==> data.testplanEntryId == Some(reply.body.id)) &&
              (reply.Success? && reply.body.runs == [] ==> c == Raised && data.testrunId == old(data.testrunId)) &&
              (reply.Success? && reply.body.runs != [] ==>
                 c == Done && id == reply.body.runs[0].id && data.testrunId == id)
    {
      var p := PlanEntryPost(planId, EntryPayload(suiteId, name, description, assignUserId, includeAll, trKeys));
      data.posts := data.posts + [p];
      var response := data.service.postEntry(p.url, p.body);
      if response.Failure? {
        return Done, 0;
      }
      data.testplanEntryId := Some(response.body.id);
      if response.body.runs == [] {
        return Raised, 0;
      }
      data.testrunId := response.body.runs[0].id;
      return Done, data.testrunId;
    }

    /** `create_plan`: on an error reply returns 0 and leaves the plan id; on
        success stores the new plan's id and returns it. */
    method CreatePlan(projectId: int, name: Option<string>, milestoneId: Option<int>, description: Option<string>)
      returns (id: int)
      modifies data`testplanId, data`posts
      ensures var p := PlanPost(projectId, name, description, milestoneId);
              var reply := data.service.postCreated(p.url, p.body);
              data.posts == old(data.posts) + [p] &&
              (reply.Failure? ==> id == 0 && data.testplanId == old(data.testplanId)) &&
              (reply.Success? ==> id == reply.body.id && data.testplanId == id)
    {
      var p := PlanPost(projectId, name, description, milestoneId);
      data.posts := data.posts + [p];
      var response := data.service.postCreated(p.url, p.body);
      if response.Failure? {
        return 0;
      }
      data.testplanId := response.body.id;
      return data.testplanId;
    }

    /** The `case_ids` of an update: the collected ids and, when the previous
        selection is kept, the run's current cases, without repetitions. */
    method UpdatedCaseIds(runId: int, trKeys: seq<int>, savePrevious: bool) returns (ids: seq<int>)
      ensures NoDuplicates(ids)
      ensures forall x :: x in ids <==> x in trKeys || x in CurrentCases(data.service, runId, savePrevious)
    {
      var currentTests: seq<int> := [];
      if savePrevious {
        var tests := GetTests(runId);
        assert tests == ListTests(data.service, runId);
        currentTests := GetCaseList(tests);
      }
      var all := trKeys + currentTests;
      ids := Distinct(all);
      forall x ensures x in ids <==> x in all {
        if x in all {
          var i :| 0 <= i < |all| && all[i] == x;
        }
        if x in ids {
          var i :| 0 <= i < |ids| && ids[i] == x;
        }
      }
    }

    /** `update_testrun`: sends the run its new duplicate-free case selection. */
    method UpdateTestrun(testrunId: int, trKeys: seq<int>, savePrevious: bool)
      modifies data`posts
      ensures |data.posts| == |old(data.posts)| + 1 && data.posts[..|old(data.posts)|] == old(data.posts)
      ensures CaseIdsUpdate(data.posts[|old(data.posts)|], UpdateRunUrl(testrunId),
                            trKeys + CurrentCases(data.service, testrunId, savePrevious))
    {
      var ids := UpdatedCaseIds(testrunId, trKeys, savePrevious);
      data.posts := data.posts + [Post(UpdateRunUrl(testrunId), CaseIdsBody(ids))];
    }

    /** `update_testplan_entry`: sends the plan entry the new duplicate-free case
        selection of its run. */
    method UpdateTestplanEntry(planId: int, entryId: string, runId: int, trKeys: seq<int>, savePrevious: bool)
      modifies data`posts
      ensures |data.posts| == |old(data.posts)| + 1 && data.posts[..|old(data.posts)|] == old(data.posts)
      ensures CaseIdsUpdate(data.posts[|old(data.posts)|], UpdatePlanEntryUrl(planId, entryId),
                            trKeys + CurrentCases(data.service, runId, savePrevious))
    {
      var ids := UpdatedCaseIds(runId, trKeys, savePrevious);
      data.posts := data.posts + [Post(UpdatePlanEntryUrl(planId, entryId), CaseIdsBody(ids))];
    }

    /** `is_testrun_available`: the model's run can be read and is not completed. */
    method IsTestrunAvailable() returns (b: bool)
      ensures b <==> RunAvailable(data.service, data.testrunId)
    {
      var response := data.service.getRun(GetRunUrl(data.testrunId));
      if response.Failure? {
        return false;
      }
      b := !response.body.isCompleted;
    }

    /** `is_testplan_available`: the model's plan can be read and is not completed. */
    method IsTestplanAvailable() returns (b: bool)
      ensures b <==> PlanAvailable(data.service, data.testplanId)
    {
      var response := data.service.getPlan(GetPlanUrl(data.testplanId));
      if response.Failure? {
        return false;
      }
      b := !response.body.isCompleted;
    }

    method CloseTestRun(testrunId: int)
      modifies data`posts
      ensures data.posts == old(data.posts) + [Post(CloseRunUrl(testrunId), EmptyBody)]
    {
      data.posts := data.posts + [Post(CloseRunUrl(testrunId), EmptyBody)];
    }

    method CloseTestPlan(testplanId: int)
      modifies data`posts
      ensures data.posts == old(data.posts) + [Post(ClosePlanUrl(testplanId), EmptyBody)]
    {
      data.posts := data.posts + [Post(ClosePlanUrl(testplanId), EmptyBody)];
    }

    /** `get_available_testruns`: the ids of the plan's runs that are not completed,
        entry by entry; raises (`None`) when the plan cannot be read. */
    method GetAvailableTestruns(planId: int) returns (runs: Option<seq<int>>)
      ensures runs == PlanRunsOrFail(data.service, planId)
      ensures runs.None? <==> data.service.getPlan(GetPlanUrl(planId)).Failure?
    {
      var response := data.service.getPlan(GetPlanUrl(planId));
      if response.Failure? {
        return None;
      }
      var entries := response.body.entries;
      var list: seq<int> := [];
      for e := 0 to |entries|
        invariant list == OpenRuns(entries[..e])
      {
        OpenRunsStep(entries, e);
        list := PyTestRailPlugin.AppendOpenRuns(list, entries[e].runs);
      }
      assert entries[..|entries|] == entries;
      return Some(list);
    }

    /** `get_testplan_entry_id`: the id of the first entry of the plan holding a run
        whose id reads as `runId`, which is also stored; `None` when there is none.
        Raises when the plan cannot be read. */
    method GetTestplanEntryId(planId: int, runId: string) returns (c: Completion, entryId: Option<string>)
      modifies data`testplanEntryId
      ensures var reply := data.service.getPlan(GetPlanUrl(planId));
              (reply.Failure? ==> c == Raised && data.testplanEntryId == old(data.testplanEntryId)) &&
              (reply.Success? ==>
                 var entries := reply.body.entries;
                 c == Done &&
                 (entryId.None? ==> data.testplanEntryId == old(data.testplanEntryId) &&
                                    forall e :: 0 <= e < |entries| ==> !HasRun(entries[e], runId)) &&
                 (entryId.Some? ==> data.testplanEntryId == entryId &&
                                    exists e :: 0 <= e < |entries| && entries[e].id == entryId.value &&
                                                HasRun(entries[e], runId) &&
                                                forall j :: 0 <= j < e ==> !HasRun(entries[j], runId)))
    {
      var response := data.service.getPlan(GetPlanUrl(planId));
      if response.Failure? {
        return Raised, None;
      }
      var entries := response.body.entries;
      var e := FindEntry(entries, runId);
      c := Done;
      if e < |entries| {
        data.testplanEntryId := Some(entries[e].id);
        entryId := Some(entries[e].id);
      } else {
        entryId := None;
      }
    }

    /** The outer loop of `get_testplan_entry_id`: the index of the first entry
        holding the run, `|entries|` when none does. */
    static method FindEntry(entries: seq<EntryRec>, runId: string) returns (e: nat)
      ensures e <= |entries|
      ensures forall j :: 0 <= j < e ==> !HasRun(entries[j], runId)
      ensures e < |entries| ==> HasRun(entries[e], runId)
    {
      e := 0;
      while e < |entries|
        invariant e <= |entries|
        invariant forall j :: 0 <= j < e ==> !HasRun(entries[j], runId)
      {
        var found := FindRun(entries[e].runs, runId);
        if found {
          return;
        }
        e := e + 1;
      }
    }

    /** The inner loop of `get_testplan_entry_id`: whether a run's id reads as `runId`. */
    static method FindRun(runs: seq<RunRec>, runId: string) returns (found: bool)
      ensures found <==> exists k :: 0 <= k < |runs| && IntToString(runs[k].id) == runId
    {
      for k := 0 to |runs|
        invariant forall j :: 0 <= j < k ==> IntToString(runs[j].id) != runId
      {
        if IntToString(runs[k].id) == runId {
          return true;
        }
      }
      return false;
    }
  }

  // ---------------------------------------------------------------------------
  // The two `add_result`s agree

  /** The plugin's `add_result` appends, for each id, the record the actions'
      `add_result` builds for it. */
  lemma AddResultAgrees(ids: seq<int>, status: int, comment: Option<string>, defects: Option<string>,
                        duration: real, params: Option<Params>)
    ensures |Records(ids, status, comment, defects, duration, params)| == |ids|
    ensures forall i :: 0 <= i < |ids| ==>
              Records(ids, status, comment, defects, duration, params)[i] ==
              TestrailActions.AddResult(ids[i], status, comment, defects, duration, params)
  {
  }
}
