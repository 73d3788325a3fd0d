/** The TestRail REST service as the plugin sees it: decoded replies that either
    carry an `error` field or a record, the bodies of the POST requests, and an
    oracle that answers each request path. */
module Remote {
  import opened Wrappers
  import opened Vars

  /** A decoded reply: one with an `error` field, or a record of the expected shape. */
  datatype Response<T> = Failure(error: string) | Success(body: T)

  /** One test of a run (`get_tests`): its case and its current status. */
  datatype TestRec = TestRec(caseId: int, statusId: int)

  /** One page of `get_tests`: the tests and the `_links.next` cursor. */
  datatype TestsPage = TestsPage(tests: seq<TestRec>, next: Option<string>)

  /** A run inside a plan entry. */
  datatype RunRec = RunRec(id: int, isCompleted: bool)

  /** A plan entry: its identifier and its runs. */
  datatype EntryRec = EntryRec(id: string, runs: seq<RunRec>)

  /** The reply of `get_run`. */
  datatype RunStatus = RunStatus(isCompleted: bool)

  /** The reply of `get_plan`. */
  datatype Plan = Plan(isCompleted: bool, entries: seq<EntryRec>)

  /** The reply of `add_run` and `add_plan`: the new object's id. */
  datatype Created = Created(id: int)

  /** The reply of `add_plan_entry`: the entry id and the runs it holds. */
  datatype EntryCreated = EntryCreated(id: string, runs: seq<RunRec>)

  /** The `add_run` body. */
  datatype RunPayload = RunPayload(
    suiteId: Option<int>, name: Option<string>, description: Option<string>,
    assignedtoId: Option<int>, includeAll: bool, caseIds: seq<int>, milestoneId: Option<int>)

  /** The `add_plan_entry` body (no milestone). */
  datatype EntryPayload = EntryPayload(
    suiteId: Option<int>, name: Option<string>, description: Option<string>,
    assignedtoId: Option<int>, includeAll: bool, caseIds: seq<int>)

  /** One element of an `add_results_for_cases` body. `version` and `elapsed` are
      `None` when the key is absent; `defects` and `comment` are `None` when the
      key holds JSON null. */
  datatype Entry = Entry(
    statusId: int, caseId: int, defects: Option<string>, version: Option<string>,
    comment: Option<string>, elapsed: Option<string>)

  datatype Body =
    | ResultsBody(results: seq<Entry>)
    | RunBody(run: RunPayload)
    | EntryBody(entry: EntryPayload)
    | PlanBody(name: Option<string>, description: Option<string>, milestoneId: Option<int>)
    | CaseIdsBody(caseIds: seq<int>)
    | EmptyBody

  /** One POST request: its path and its body. */
  datatype Post = Post(url: string, body: Body)

  /** The service's answer to every request the core makes, keyed by the request
      path (and body, for POSTs). Replies to POSTs the core only logs are not modelled.
      `cursorParams` stands for `urlencode(parse_qsl(next))`, the rewriting of a
      `_links.next` cursor into the query text appended to the next page's path. */
  datatype Service = Service(
    getRun: string -> Response<RunStatus>,
    getPlan: string -> Response<Plan>,
    getTestsPage: string -> Response<TestsPage>,
    getTestList: string -> Response<seq<TestRec>>,
    postCreated: (string, Body) -> Response<Created>,
    postEntry: (string, Body) -> Response<EntryCreated>,
    cursorParams: string -> string)

  /** `is_testrun_available`: the run can be read and is not completed. */
  predicate RunAvailable(s: Service, runId: int)
  {
    s.getRun(GetRunUrl(runId)).Success? && !s.getRun(GetRunUrl(runId)).body.isCompleted
  }

  /** `is_testplan_available`: the plan can be read and is not completed. */
  predicate PlanAvailable(s: Service, planId: int)
  {
    s.getPlan(GetPlanUrl(planId)).Success? && !s.getPlan(GetPlanUrl(planId)).body.isCompleted
  }

  /** The open runs of a plan, entry by entry and run by run within an entry
      (defined on prefixes, the way the nested loops build the list). */
  function OpenRuns(entries: seq<EntryRec>): (ids: seq<int>)
  {
    if entries == [] then []
    else OpenRuns(entries[..|entries| - 1]) + OpenRunsOf(entries[|entries| - 1].runs)
  }

  function OpenRunsOf(runs: seq<RunRec>): (ids: seq<int>)
  {
    if runs == [] then []
    else
      var last := runs[|runs| - 1];
      OpenRunsOf(runs[..|runs| - 1]) + (if !last.isCompleted then [last.id] else [])
  }

  /** One more entry adds its open runs at the end. */
  lemma OpenRunsStep(entries: seq<EntryRec>, e: nat)
    requires e < |entries|
    ensures OpenRuns(entries[..e + 1]) == OpenRuns(entries[..e]) + OpenRunsOf(entries[e].runs)
  {
    assert entries[..e + 1][..e] == entries[..e];
  }

  /** One more run adds its id at the end when it is open. */
  lemma OpenRunsOfStep(runs: seq<RunRec>, k: nat)
    requires k < |runs|
    ensures OpenRunsOf(runs[..k + 1]) == OpenRunsOf(runs[..k]) + (if !runs[k].isCompleted then [runs[k].id] else [])
  {
    assert runs[..k + 1][..k] == runs[..k];
  }

  /** Some run of the list has the id and is not completed. */
  predicate OpenAmong(runs: seq<RunRec>, id: int)
  {
    exists k :: 0 <= k < |runs| && runs[k].id == id && !runs[k].isCompleted
  }

  /** Some entry holds a run with the id that is not completed. */
  predicate OpenInPlan(entries: seq<EntryRec>, id: int)
  {
    exists e :: 0 <= e < |entries| && OpenAmong(entries[e].runs, id)
  }

  lemma OpenAmongSnoc(runs: seq<RunRec>, id: int)
    requires runs != []
    ensures OpenAmong(runs, id) <==>
              OpenAmong(runs[..|runs| - 1], id) || (runs[|runs| - 1].id == id && !runs[|runs| - 1].isCompleted)
  {
    var init := runs[..|runs| - 1];
    if OpenAmong(init, id) {
      var k :| 0 <= k < |init| && init[k].id == id && !init[k].isCompleted;
      assert runs[k] == init[k];
    }
    if OpenAmong(runs, id) {
      var k :| 0 <= k < |runs| && runs[k].id == id && !runs[k].isCompleted;
      if k < |init| {
        assert init[k] == runs[k];
      }
    }
  }

  lemma OpenInPlanSnoc(entries: seq<EntryRec>, id: int)
    requires entries != []
    ensures OpenInPlan(entries, id) <==>
              OpenInPlan(entries[..|entries| - 1], id) || OpenAmong(entries[|entries| - 1].runs, id)
  {
    var init := entries[..|entries| - 1];
    if OpenInPlan(init, id) {
      var e :| 0 <= e < |init| && OpenAmong(init[e].runs, id);
      assert entries[e] == init[e];
    }
    if OpenInPlan(entries, id) {
      var e :| 0 <= e < |entries| && OpenAmong(entries[e].runs, id);
      if e < |init| {
        assert init[e] == entries[e];
      }
    }
  }

  lemma {:induction false} OpenRunsOfMembership(runs: seq<RunRec>, id: int)
    ensures id in OpenRunsOf(runs) <==> OpenAmong(runs, id)
  {
    if runs != [] {
      OpenRunsOfMembership(runs[..|runs| - 1], id);
      OpenAmongSnoc(runs, id);
    }
  }

  /** A run id is listed exactly when some entry holds that run and it is not completed. */
  lemma {:induction false} OpenRunsMembership(entries: seq<EntryRec>, id: int)
    ensures id in OpenRuns(entries) <==>
            exists e, k :: 0 <= e < |entries| && 0 <= k < |entries[e].runs| &&
                           entries[e].runs[k].id == id && !entries[e].runs[k].isCompleted
  {
    OpenRunsInPlan(entries, id);
    if OpenInPlan(entries, id) {
      var e :| 0 <= e < |entries| && OpenAmong(entries[e].runs, id);
      var k :| 0 <= k < |entries[e].runs| && entries[e].runs[k].id == id && !entries[e].runs[k].isCompleted;
    }
  }

  lemma {:induction false} OpenRunsInPlan(entries: seq<EntryRec>, id: int)
    ensures id in OpenRuns(entries) <==> OpenInPlan(entries, id)
  {
    if entries != [] {
      OpenRunsOfMembership(entries[|entries| - 1].runs, id);
      OpenRunsInPlan(entries[..|entries| - 1], id);
      OpenInPlanSnoc(entries, id);
    }
  }

  /** The plan of the repository's unit tests: three entries, the middle run completed. */
  const SAMPLE_PLAN_ENTRIES: seq<EntryRec> := [
    EntryRec("ce2f3c8f-9899-47b9-a6da-db59a66fb794", [RunRec(59, false)]),
    EntryRec("084f680c-f87a-402e-92be-d9cc2359b9a7", [RunRec(60, true)]),
    EntryRec("775740ff-1ba3-4313-a9df-3acd9d5ef967", [RunRec(61, false)])]

  /** Two runs open, one completed: exactly the open ones, in entry order. */
  lemma SamplePlanOpenRuns()
    ensures OpenRuns(SAMPLE_PLAN_ENTRIES) == [59, 61]
  {
    var e := SAMPLE_PLAN_ENTRIES;
    assert e[..2][..1][..0] == [];
    assert OpenRunsOf(e[0].runs) == [59] by {
      assert e[0].runs[..0] == [];
    }
    assert OpenRunsOf(e[1].runs) == [] by {
      assert e[1].runs[..0] == [];
    }
    assert OpenRunsOf(e[2].runs) == [61] by {
      assert e[2].runs[..0] == [];
    }
    assert OpenRuns(e[..2][..1]) == [59];
    assert OpenRuns(e[..2]) == [59];
  }

  /** The outcome of following the `get_tests` page chain with at most `fuel` requests. */
  datatype Fetch = Fetched(tests: seq<TestRec>) | FetchFailed | Unfinished

  /** `acc` prepended to the tests of a finished fetch. */
  function AfterPages(acc: seq<TestRec>, f: Fetch): Fetch
  {
    if f.Fetched? then Fetched(acc + f.tests) else f
  }

  /** The page chain starting at `base` + `params`, where `base` is the run's
      `get_tests/<id>` path: every page's tests, in page order, until a page whose
      `next` is falsy; any error reply makes the whole fetch fail. */
  function Paginate(s: Service, base: string, params: string, fuel: nat): Fetch
    decreases fuel
  {
    if fuel == 0 then Unfinished
    else
      match s.getTestsPage(base + params)
      case Failure(_) => FetchFailed
      case Success(page) =>
        if Truthy(page.next) then
          AfterPages(page.tests, Paginate(s, base, "&" + s.cursorParams(page.next.value), fuel - 1))
        else Fetched(page.tests)
  }

  /** A page with a `next` cursor: its tests come first, then those of the rest
      of the chain. */
  lemma PageThenRest(s: Service, base: string, params: string, fuel: nat, acc: seq<TestRec>, page: TestsPage)
    requires fuel > 0 && s.getTestsPage(base + params) == Success(page) && Truthy(page.next)
    ensures AfterPages(acc, Paginate(s, base, params, fuel)) ==
            AfterPages(acc + page.tests, Paginate(s, base, "&" + s.cursorParams(page.next.value), fuel - 1))
  {
    var rest := Paginate(s, base, "&" + s.cursorParams(page.next.value), fuel - 1);
    if rest.Fetched? {
      assert acc + (page.tests + rest.tests) == acc + page.tests + rest.tests;
    }
  }

  /** A finished fetch does not depend on how much more fuel it is given. */
  lemma {:induction false} PaginateFuel(s: Service, base: string, params: string, f1: nat, f2: nat)
    requires f1 <= f2
    requires !Paginate(s, base, params, f1).Unfinished?
    ensures Paginate(s, base, params, f2) == Paginate(s, base, params, f1)
    decreases f1
  {
    var reply := s.getTestsPage(base + params);
    if reply.Success? && Truthy(reply.body.next) {
      PaginateFuel(s, base, "&" + s.cursorParams(reply.body.next.value), f1 - 1, f2 - 1);
    }
  }

  /** The page chain of a run ends after finitely many pages. */
  ghost predicate ChainEnds(s: Service, runId: int)
  {
    exists fuel: nat :: !Paginate(s, GetTestsUrl(runId), "", fuel).Unfinished?
  }

  /** Every run's page chain ends. */
  ghost predicate PagesEnd(s: Service)
  {
    forall runId: int :: ChainEnds(s, runId)
  }

  /** An amount of fuel that finishes the run's page chain. */
  ghost function Fuel(s: Service, runId: int): (fuel: nat)
    requires ChainEnds(s, runId)
    ensures !Paginate(s, GetTestsUrl(runId), "", fuel).Unfinished?
  {
    var fuel: nat :| !Paginate(s, GetTestsUrl(runId), "", fuel).Unfinished?;
    fuel
  }

  /** What `get_tests` returns for a run: the concatenated tests of its pages, or
      `None` when some page was an error reply. A chain that never ends is outside
      the model (and given `None` here). */
  ghost function AllTests(s: Service, runId: int): Option<seq<TestRec>>
  {
    if ChainEnds(s, runId) then FetchResult(Paginate(s, GetTestsUrl(runId), "", Fuel(s, runId))) else None
  }

  /** Any fuel that finishes the chain gives the run's tests. */
  lemma AllTestsByFuel(s: Service, runId: int, fuel: nat)
    requires !Paginate(s, GetTestsUrl(runId), "", fuel).Unfinished?
    ensures ChainEnds(s, runId)
    ensures AllTests(s, runId) == FetchResult(Paginate(s, GetTestsUrl(runId), "", fuel))
  {
    var base, f := GetTestsUrl(runId), Fuel(s, runId);
    if fuel <= f {
      PaginateFuel(s, base, "", fuel, f);
    } else {
      PaginateFuel(s, base, "", f, fuel);
    }
  }

  /** `None` for a failed fetch, the tests otherwise. */
  function FetchResult(f: Fetch): Option<seq<TestRec>>
  {
    if f.Fetched? then Some(f.tests) else None
  }

  /** A run served as one page without a `next` link yields exactly that page's tests;
      an error reply on the first page yields `None`. */
  lemma SinglePage(s: Service, runId: int)
    requires s.getTestsPage(GetTestsUrl(runId)).Success? ==> !Truthy(s.getTestsPage(GetTestsUrl(runId)).body.next)
    ensures ChainEnds(s, runId)
    ensures s.getTestsPage(GetTestsUrl(runId)).Failure? ==> AllTests(s, runId).None?
    ensures s.getTestsPage(GetTestsUrl(runId)).Success? ==>
              AllTests(s, runId) == Some(s.getTestsPage(GetTestsUrl(runId)).body.tests)
  {
    var base := GetTestsUrl(runId);
    assert base + "" == base;
    AllTestsByFuel(s, runId, 1);
  }

  /** Two pages: the tests of the first page followed by those of the page its cursor names. */
  lemma TwoPages(s: Service, runId: int, first: TestsPage, second: TestsPage)
    requires s.getTestsPage(GetTestsUrl(runId)) == Success(first)
    requires Truthy(first.next)
    requires s.getTestsPage(GetTestsUrl(runId) + ("&" + s.cursorParams(first.next.value))) == Success(second)
    requires !Truthy(second.next)
    ensures ChainEnds(s, runId)
    ensures AllTests(s, runId) == Some(first.tests + second.tests)
  {
    var base := GetTestsUrl(runId);
    var next := "&" + s.cursorParams(first.next.value);
    assert base + "" == base;
    assert Paginate(s, base, next, 1) == Fetched(second.tests);
    assert Paginate(s, base, "", 2) == AfterPages(first.tests, Paginate(s, base, next, 1));
    AllTestsByFuel(s, runId, 2);
  }
}
