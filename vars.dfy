/** The constant tables of the plugin: TestRail status codes, the pytest outcome
    mapping, the REST path templates with Python's `str.format` on them, the
    comment size limit and the run-name timestamp. */
module Vars {
  import opened Wrappers
  import opened Strings

  // ---------------------------------------------------------------------------
  // Status tables
  // ---------------------------------------------------------------------------

  const TESTRAIL_TEST_STATUS: map<string, int> :=
    map["passed" := 1, "blocked" := 2, "untested" := 3, "retest" := 4, "failed" := 5]

  const PYTEST_TO_TESTRAIL_STATUS: map<string, int> :=
    map["passed" := TESTRAIL_TEST_STATUS["passed"],
        "failed" := TESTRAIL_TEST_STATUS["failed"],
        "skipped" := TESTRAIL_TEST_STATUS["blocked"]]

  const BLOCKED: int := TESTRAIL_TEST_STATUS["blocked"]

  /** The five statuses are the codes 1 to 5, one per name. */
  lemma StatusCodes()
    ensures TESTRAIL_TEST_STATUS.Keys == {"passed", "blocked", "untested", "retest", "failed"}
    ensures TESTRAIL_TEST_STATUS.Values == {1, 2, 3, 4, 5}
    ensures forall a, b :: a in TESTRAIL_TEST_STATUS && b in TESTRAIL_TEST_STATUS && a != b ==>
              TESTRAIL_TEST_STATUS[a] != TESTRAIL_TEST_STATUS[b]
    ensures TESTRAIL_TEST_STATUS["passed"] == 1 && TESTRAIL_TEST_STATUS["blocked"] == 2
    ensures TESTRAIL_TEST_STATUS["untested"] == 3 && TESTRAIL_TEST_STATUS["retest"] == 4
    ensures TESTRAIL_TEST_STATUS["failed"] == 5
  {
    assert TESTRAIL_TEST_STATUS["passed"] == 1;
    assert TESTRAIL_TEST_STATUS["blocked"] == 2;
    assert TESTRAIL_TEST_STATUS["untested"] == 3;
    assert TESTRAIL_TEST_STATUS["retest"] == 4;
    assert TESTRAIL_TEST_STATUS["failed"] == 5;
  }

  /** pytest's three outcomes map to passed, failed and blocked. */
  lemma OutcomeCodes()
    ensures PYTEST_TO_TESTRAIL_STATUS.Keys == {"passed", "failed", "skipped"}
    ensures PYTEST_TO_TESTRAIL_STATUS["passed"] == 1
    ensures PYTEST_TO_TESTRAIL_STATUS["failed"] == 5
    ensures PYTEST_TO_TESTRAIL_STATUS["skipped"] == 2
    ensures PYTEST_TO_TESTRAIL_STATUS.Values <= TESTRAIL_TEST_STATUS.Values
  {
    StatusCodes();
    assert PYTEST_TO_TESTRAIL_STATUS["passed"] == 1;
    assert PYTEST_TO_TESTRAIL_STATUS["failed"] == 5;
    assert PYTEST_TO_TESTRAIL_STATUS["skipped"] == 2;
  }

  const COMMENT_SIZE_LIMIT: nat := 4000

  // ---------------------------------------------------------------------------
  // Path templates and `str.format`
  // ---------------------------------------------------------------------------

  const ADD_RESULTS_URL := "add_results_for_cases/{}"
  const ADD_TESTRUN_URL := "add_run/{}"
  const ADD_TESTPLAN_ENTRY_URL := "add_plan_entry/{}"
  const ADD_TESTPLAN_URL := "add_plan/{}"
  const CLOSE_TESTRUN_URL := "close_run/{}"
  const CLOSE_TESTPLAN_URL := "close_plan/{}"
  const GET_TESTRUN_URL := "get_run/{}"
  const GET_TESTPLAN_URL := "get_plan/{}"
  const GET_TESTS_URL := "get_tests/{}"
  const GET_TESTCASES_URL := "get_cases/{}&suite_id={}&limit=99999"
  const GET_SUITES_URL := "get_suites/{}"
  const UPDATE_RUN_URL := "update_run/{}"
  const UPDATE_TESTPLAN_ENTRY := "/update_plan_entry/{}/{}"

  /** Every template, in the order of the constants above. */
  const TEMPLATES: seq<string> :=
    [ADD_RESULTS_URL, ADD_TESTRUN_URL, ADD_TESTPLAN_ENTRY_URL, ADD_TESTPLAN_URL,
     CLOSE_TESTRUN_URL, CLOSE_TESTPLAN_URL, GET_TESTRUN_URL, GET_TESTPLAN_URL,
     GET_TESTS_URL, GET_TESTCASES_URL, GET_SUITES_URL, UPDATE_RUN_URL, UPDATE_TESTPLAN_ENTRY]

  /** `template.format(*args)` for templates whose only replacement fields are `{}`:
      each `{}` takes the next argument, surplus arguments are ignored, and too few
      arguments raise IndexError (`None`). */
  function Format(template: string, args: seq<string>): Option<string>
    decreases |template|
  {
    if template == [] then Some("")
    else if |template| >= 2 && template[0] == '{' && template[1] == '}' then
      if args == [] then None else Prepend(args[0], Format(template[2..], args[1..]))
    else Prepend([template[0]], Format(template[1..], args))
  }

  function Prepend(p: string, o: Option<string>): Option<string>
  {
    match o
    case None => None
    case Some(r) => Some(p + r)
  }

  /** Literal text without braces is copied through. */
  lemma {:induction false} FormatLiteral(p: string, rest: string, args: seq<string>)
    requires '{' !in p
    ensures Format(p + rest, args) == Prepend(p, Format(rest, args))
    decreases |p|
  {
    if p == [] {
      assert p + rest == rest;
      match Format(rest, args)
      case None =>
      case Some(r) => assert p + r == r;
    } else {
      var t := p + rest;
      assert t[1..] == p[1..] + rest;
      assert p[0] in p;
      assert t[0] == p[0] && p[0] != '{';
      FormatLiteral(p[1..], rest, args);
      assert Format(t, args) == Prepend([p[0]], Format(t[1..], args));
      match Format(rest, args)
      case None =>
      case Some(r) => assert [p[0]] + (p[1..] + r) == p + r;
    }
  }

  /** A `{}` field consumes the next argument. */
  lemma FormatField(rest: string, a: string, args: seq<string>)
    ensures Format("{}" + rest, [a] + args) == Prepend(a, Format(rest, args))
  {
    assert ("{}" + rest)[2..] == rest;
    assert ([a] + args)[1..] == args;
  }

  /** A template `p{}` formats a single argument as `p` followed by it. */
  lemma FormatOne(p: string, a: string)
    requires '{' !in p
    ensures Format(p + "{}", [a]) == Some(p + a)
  {
    FormatLiteral(p, "{}", [a]);
    FormatField("", a, []);
    assert "{}" + "" == "{}";
    assert [a] + [] == [a];
    assert a + "" == a;
  }

  /** Literal text, then a field: the text is copied and the field takes the next argument. */
  lemma FormatLiteralField(p: string, rest: string, a: string, args: seq<string>)
    requires '{' !in p
    ensures Format(p + "{}" + rest, [a] + args) == Prepend(p + a, Format(rest, args))
  {
    assert p + "{}" + rest == p + ("{}" + rest);
    FormatLiteral(p, "{}" + rest, [a] + args);
    FormatField(rest, a, args);
    match Format(rest, args)
    case None =>
    case Some(r) => assert p + (a + r) == (p + a) + r;
  }

  /** A template `p2{}p3` formats one argument. */
  lemma FormatLastField(p2: string, p3: string, b: string)
    requires '{' !in p2 && '{' !in p3
    ensures Format(p2 + "{}" + p3, [b]) == Some(p2 + b + p3)
  {
    assert [b] == [b] + [];
    FormatLiteralField(p2, p3, b, []);
    FormatLiteral(p3, "", []);
    assert p3 + "" == p3;
  }

  /** A template `p1{}p2{}p3` formats two arguments in order. */
  lemma FormatTwo(p1: string, p2: string, p3: string, a: string, b: string)
    requires '{' !in p1 && '{' !in p2 && '{' !in p3
    ensures Format(p1 + "{}" + p2 + "{}" + p3, [a, b]) == Some(p1 + a + p2 + b + p3)
  {
    var tail := p2 + "{}" + p3;
    assert p1 + "{}" + p2 + "{}" + p3 == p1 + "{}" + tail;
    assert [a, b] == [a] + [b];
    FormatLiteralField(p1, tail, a, [b]);
    FormatLastField(p2, p3, b);
    assert (p1 + a) + (p2 + b + p3) == p1 + a + p2 + b + p3;
  }

  /** A template `p1{}p2{}` formats two arguments in order. */
  lemma FormatTwoFields(p1: string, p2: string, a: string, b: string)
    requires '{' !in p1 && '{' !in p2
    ensures Format(p1 + "{}" + p2 + "{}", [a, b]) == Some(p1 + a + p2 + b)
  {
    assert p1 + "{}" + p2 + "{}" == p1 + "{}" + (p2 + "{}");
    assert [a, b] == [a] + [b];
    FormatLiteralField(p1, p2 + "{}", a, [b]);
    FormatOne(p2, b);
    assert (p1 + a) + (p2 + b) == p1 + a + p2 + b;
  }

  /** The cases query takes the project id, then the suite id, and always ends with
      the fixed page limit. */
  lemma GetCasesTemplate(project: string, suite: string)
    ensures Format(GET_TESTCASES_URL, [project, suite])
         == Some("get_cases/" + project + "&suite_id=" + suite + "&limit=99999")
  {
    assert GET_TESTCASES_URL == "get_cases/" + "{}" + "&suite_id=" + "{}" + "&limit=99999";
    FormatTwo("get_cases/", "&suite_id=", "&limit=99999", project, suite);
  }

  /** The plan-entry update takes the plan id, then the entry id. */
  lemma UpdatePlanEntryTemplate(plan: string, entry: string)
    ensures Format(UPDATE_TESTPLAN_ENTRY, [plan, entry])
         == Some("/update_plan_entry/" + plan + "/" + entry)
  {
    assert UPDATE_TESTPLAN_ENTRY == "/update_plan_entry/" + "{}" + "/" + "{}";
    FormatTwoFields("/update_plan_entry/", "/", plan, entry);
  }

  /** Only the plan-entry update path is written with a leading slash. */
  lemma OnlyUpdatePlanEntryIsAbsolute()
    ensures forall i :: 0 <= i < |TEMPLATES| ==> (TEMPLATES[i][0] == '/' <==> i == 12)
  {
  }

  // ---------------------------------------------------------------------------
  // Paths as the plugin sends them
  // ---------------------------------------------------------------------------

  function AddResultsUrl(runId: int): string
  {
    var arg := IntToString(runId);
    assert ADD_RESULTS_URL == "add_results_for_cases/" + "{}";
    FormatOne("add_results_for_cases/", arg);
    Format(ADD_RESULTS_URL, [arg]).value
  }

  function AddRunUrl(projectId: int): string
  {
    var arg := IntToString(projectId);
    assert ADD_TESTRUN_URL == "add_run/" + "{}";
    FormatOne("add_run/", arg);
    Format(ADD_TESTRUN_URL, [arg]).value
  }

  function AddPlanEntryUrl(planId: int): string
  {
    var arg := IntToString(planId);
    assert ADD_TESTPLAN_ENTRY_URL == "add_plan_entry/" + "{}";
    FormatOne("add_plan_entry/", arg);
    Format(ADD_TESTPLAN_ENTRY_URL, [arg]).value
  }

  function AddPlanUrl(projectId: int): string
  {
    var arg := IntToString(projectId);
    assert ADD_TESTPLAN_URL == "add_plan/" + "{}";
    FormatOne("add_plan/", arg);
    Format(ADD_TESTPLAN_URL, [arg]).value
  }

  function CloseRunUrl(runId: int): string
  {
    var arg := IntToString(runId);
    assert CLOSE_TESTRUN_URL == "close_run/" + "{}";
    FormatOne("close_run/", arg);
    Format(CLOSE_TESTRUN_URL, [arg]).value
  }

  function ClosePlanUrl(planId: int): string
  {
    var arg := IntToString(planId);
    assert CLOSE_TESTPLAN_URL == "close_plan/" + "{}";
    FormatOne("close_plan/", arg);
    Format(CLOSE_TESTPLAN_URL, [arg]).value
  }

  function GetRunUrl(runId: int): string
  {
    var arg := IntToString(runId);
    assert GET_TESTRUN_URL == "get_run/" + "{}";
    FormatOne("get_run/", arg);
    Format(GET_TESTRUN_URL, [arg]).value
  }

  function GetPlanUrl(planId: int): string
  {
    var arg := IntToString(planId);
    assert GET_TESTPLAN_URL == "get_plan/" + "{}";
    FormatOne("get_plan/", arg);
    Format(GET_TESTPLAN_URL, [arg]).value
  }

  function GetTestsUrl(runId: int): string
  {
    var arg := IntToString(runId);
    assert GET_TESTS_URL == "get_tests/" + "{}";
    FormatOne("get_tests/", arg);
    Format(GET_TESTS_URL, [arg]).value
  }

  function GetSuitesUrl(projectId: int): string
  {
    var arg := IntToString(projectId);
    assert GET_SUITES_URL == "get_suites/" + "{}";
    FormatOne("get_suites/", arg);
    Format(GET_SUITES_URL, [arg]).value
  }

  function UpdateRunUrl(runId: int): string
  {
    var arg := IntToString(runId);
    assert UPDATE_RUN_URL == "update_run/" + "{}";
    FormatOne("update_run/", arg);
    Format(UPDATE_RUN_URL, [arg]).value
  }

  function UpdatePlanEntryUrl(planId: int, entryId: string): string
  {
    UpdatePlanEntryTemplate(IntToString(planId), entryId);
    Format(UPDATE_TESTPLAN_ENTRY, [IntToString(planId), entryId]).value
  }

  /** Each path the plugin sends: the endpoint's name, then the ids. */
  lemma AddResultsPath(id: int)
    ensures AddResultsUrl(id) == "add_results_for_cases/" + IntToString(id)
  {
    assert ADD_RESULTS_URL == "add_results_for_cases/" + "{}";
    FormatOne("add_results_for_cases/", IntToString(id));
  }

  lemma CloseRunPath(id: int)
    ensures CloseRunUrl(id) == "close_run/" + IntToString(id)
  {
    assert CLOSE_TESTRUN_URL == "close_run/" + "{}";
    FormatOne("close_run/", IntToString(id));
  }

  lemma GetRunPath(id: int)
    ensures GetRunUrl(id) == "get_run/" + IntToString(id)
  {
    assert GET_TESTRUN_URL == "get_run/" + "{}";
    FormatOne("get_run/", IntToString(id));
  }

  lemma GetTestsPath(id: int)
    ensures GetTestsUrl(id) == "get_tests/" + IntToString(id)
  {
    assert GET_TESTS_URL == "get_tests/" + "{}";
    FormatOne("get_tests/", IntToString(id));
  }

  lemma UpdateRunPath(id: int)
    ensures UpdateRunUrl(id) == "update_run/" + IntToString(id)
  {
    assert UPDATE_RUN_URL == "update_run/" + "{}";
    FormatOne("update_run/", IntToString(id));
  }

  lemma AddPlanEntryPath(id: int)
    ensures AddPlanEntryUrl(id) == "add_plan_entry/" + IntToString(id)
  {
    assert ADD_TESTPLAN_ENTRY_URL == "add_plan_entry/" + "{}";
    FormatOne("add_plan_entry/", IntToString(id));
  }

  lemma ClosePlanPath(id: int)
    ensures ClosePlanUrl(id) == "close_plan/" + IntToString(id)
  {
    assert CLOSE_TESTPLAN_URL == "close_plan/" + "{}";
    FormatOne("close_plan/", IntToString(id));
  }

  lemma GetPlanPath(id: int)
    ensures GetPlanUrl(id) == "get_plan/" + IntToString(id)
  {
    assert GET_TESTPLAN_URL == "get_plan/" + "{}";
    FormatOne("get_plan/", IntToString(id));
  }

  lemma UpdatePlanEntryPath(id: int, entryId: string)
    ensures UpdatePlanEntryUrl(id, entryId) == "/update_plan_entry/" + IntToString(id) + "/" + entryId
  {
    UpdatePlanEntryTemplate(IntToString(id), entryId);
  }

  lemma AddRunPath(id: int)
    ensures AddRunUrl(id) == "add_run/" + IntToString(id)
  {
    assert ADD_TESTRUN_URL == "add_run/" + "{}";
    FormatOne("add_run/", IntToString(id));
  }

  lemma AddPlanPath(id: int)
    ensures AddPlanUrl(id) == "add_plan/" + IntToString(id)
  {
    assert ADD_TESTPLAN_URL == "add_plan/" + "{}";
    FormatOne("add_plan/", IntToString(id));
  }

  lemma GetSuitesPath(id: int)
    ensures GetSuitesUrl(id) == "get_suites/" + IntToString(id)
  {
    assert GET_SUITES_URL == "get_suites/" + "{}";
    FormatOne("get_suites/", IntToString(id));
  }

  /** Different run ids are sent to different result paths. */
  lemma AddResultsUrlInjective(a: int, b: int)
    requires AddResultsUrl(a) == AddResultsUrl(b)
    ensures a == b
  {
    var p := "add_results_for_cases/";
    AddResultsPath(a);
    AddResultsPath(b);
    assert IntToString(a) == AddResultsUrl(a)[|p|..];
    assert IntToString(b) == AddResultsUrl(b)[|p|..];
    IntToStringInjective(a, b);
  }

  // ---------------------------------------------------------------------------
  // Run names with a UTC timestamp (DT_FORMAT = '%d-%m-%Y %H:%M:%S')
  // ---------------------------------------------------------------------------

  /** A `datetime` value; the clock reading itself is an input of the model. */
  datatype DateTime = DateTime(year: nat, month: nat, day: nat, hour: nat, minute: nat, second: nat)

  /** The ranges a Python `datetime` guarantees. */
  predicate ValidDateTime(t: DateTime)
  {
    1 <= t.year <= 9999 && 1 <= t.month <= 12 && 1 <= t.day <= 31 &&
    t.hour < 24 && t.minute < 60 && t.second < 60
  }

  /** A two-digit, zero-padded field (`%d`, `%m`, `%H`, `%M`, `%S`). */
  function Pad2(n: nat): (s: string)
    requires n < 100
    ensures |s| == 2 && AllDigits(s) && DigitsValue(s) == n
  {
    var s := [DigitChar(n / 10), DigitChar(n % 10)];
    assert s[..1] == [DigitChar(n / 10)] && [DigitChar(n / 10)][..0] == [];
    assert DigitValue(DigitChar(n / 10)) == n / 10 && DigitValue(DigitChar(n % 10)) == n % 10;
    assert DigitsValue(s[..1]) == n / 10;
    s
  }

  /** `t.strftime(DT_FORMAT)`; `%Y` is the plain decimal year. For a four-digit
      year: day, month and year separated by `-`, a space, then hour, minute and
      second separated by `:`, each field digits that read back to its value. */
  function FormatDateTime(t: DateTime): (s: string)
    requires ValidDateTime(t)
    ensures t.year >= 1000 ==>
              |s| == 19 && s[2] == '-' && s[5] == '-' && s[10] == ' ' && s[13] == ':' && s[16] == ':' &&
              DigitField(s, 0, 2, t.day) && DigitField(s, 3, 5, t.month) && DigitField(s, 6, 10, t.year) &&
              DigitField(s, 11, 13, t.hour) && DigitField(s, 14, 16, t.minute) && DigitField(s, 17, 19, t.second)
  {
    var y := NatToString(t.year);
    var d, mo, h, mi, se := Pad2(t.day), Pad2(t.month), Pad2(t.hour), Pad2(t.minute), Pad2(t.second);
    var s := d + "-" + mo + "-" + y + " " + h + ":" + mi + ":" + se;
    assert t.year >= 1000 ==> |y| == 4 && s[6..10] == y by {
      if t.year >= 1000 { FourDigitYear(t.year); assert s[6..10] == y; }
    }
    assert DigitsValue(y) == t.year by { DigitsValueOfNatToString(t.year); }
    assert s[0..2] == d && s[3..5] == mo;
    assert t.year >= 1000 ==> s[11..13] == h && s[14..16] == mi && s[17..19] == se;
    s
  }

  /** `s[i..j]` is a run of digits whose value is `v`. */
  predicate DigitField(s: string, i: nat, j: nat, v: nat)
  {
    i <= j <= |s| && AllDigits(s[i..j]) && DigitsValue(s[i..j]) == v
  }

  /** A year from 1000 on is written with four digits. */
  lemma FourDigitYear(y: nat)
    requires 1000 <= y <= 9999
    ensures |NatToString(y)| == 4
  {
    assert NatToString(y) == NatToString(y / 10) + [DigitChar(y % 10)];
    assert NatToString(y / 10) == NatToString(y / 100) + [DigitChar((y / 10) % 10)];
    assert NatToString(y / 100) == NatToString(y / 1000) + [DigitChar((y / 100) % 10)];
  }

  /** `testrun_name()` at clock reading `now`. */
  function TestrunName(now: DateTime): (name: string)
    requires ValidDateTime(now)
    ensures 14 <= |name| && name[..14] == "Automated Run " && name[14..] == FormatDateTime(now)
    ensures now.year >= 1000 ==> |name| == 33
  {
    "Automated Run " + FormatDateTime(now)
  }

  /** The unit tests' frozen clock, 2015-01-31 19:05:42, names the run
      `Automated Run 31-01-2015 19:05:42`. */
  lemma TestrunNameExample()
    ensures TestrunName(DateTime(2015, 1, 31, 19, 5, 42)) == "Automated Run 31-01-2015 19:05:42"
  {
    FormatDateTimeExample();
  }

  /** `strftime(DT_FORMAT)` of the unit tests' frozen clock. */
  lemma FormatDateTimeExample()
    ensures FormatDateTime(DateTime(2015, 1, 31, 19, 5, 42)) == "31-01-2015 19:05:42"
  {
    YearText();
    PadExamples();
    var t := DateTime(2015, 1, 31, 19, 5, 42);
    assert FormatDateTime(t) == "31" + "-" + "01" + "-" + "2015" + " " + "19" + ":" + "05" + ":" + "42";
  }

  lemma YearText()
    ensures NatToString(2015) == "2015"
  {
    assert NatToString(2) == "2";
    assert NatToString(20) == "20";
    assert NatToString(201) == "201";
  }

  lemma PadExamples()
    ensures Pad2(31) == "31" && Pad2(1) == "01" && Pad2(19) == "19" && Pad2(5) == "05" && Pad2(42) == "42"
  {
  }

  /** `testplan_name()` at clock reading `now`. */
  function TestplanName(now: DateTime): (name: string)
    requires ValidDateTime(now)
    ensures 21 <= |name| && name[..21] == "Automated Plan Entry " && name[21..] == FormatDateTime(now)
    ensures now.year >= 1000 ==> |name| == 40
  {
    "Automated Plan Entry " + FormatDateTime(now)
  }
}
