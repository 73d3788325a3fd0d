/** The marker and list helpers of `pytest_testrail/functions.py` (the copies in
    `plugin.py` behave the same): turning `C1234`-style tags into case ids,
    collecting the marked items, and filtering the buffered results. */
module Functions {
  import opened Wrappers
  import opened Strings
  import opened Seqs
  import opened Vars
  import opened Remote

  /** A test's `callspec.params`: each parameter name with the `repr` of its value,
      in insertion order. */
  type Params = seq<(string, string)>

  /** One buffered result, the dict built by `add_result`. `comment` is the string
      form of the report's `longrepr` (`None` for Python's None). */
  datatype TestResult = TestResult(
    caseId: int, statusId: int, comment: Option<string>, duration: real,
    defects: Option<string>, parametrize: Option<Params>)

  /** A collected pytest item: the `ids` of its `testrail` and `testrail_suites`
      markers and the `defect_ids` of its `testrail_defects` marker (`None` when the
      item does not carry that marker), its parametrize values (`None` when it has
      no `callspec`), and whether a skip mark has been added to it. */
  class Item {
    const caseTags: Option<seq<string>>
    const suiteTags: Option<seq<string>>
    const defectTags: Option<seq<string>>
    const params: Option<Params>
    var skipMarked: bool

    constructor(caseTags: Option<seq<string>>, suiteTags: Option<seq<string>>,
                defectTags: Option<seq<string>>, params: Option<Params>)
      ensures this.caseTags == caseTags && this.suiteTags == suiteTags
      ensures this.defectTags == defectTags && this.params == params
      ensures !skipMarked
    {
      this.caseTags := caseTags;
      this.suiteTags := suiteTags;
      this.defectTags := defectTags;
      this.params := params;
      skipMarked := false;
    }
  }

  /** The two id-carrying markers. */
  datatype Marker = Testrail | TestrailSuites

  function Tags(it: Item, m: Marker): Option<seq<string>>
  {
    if m == Testrail then it.caseTags else it.suiteTags
  }

  /** The text that `$` anchors against: a single final newline does not count. */
  function StripFinalNewline(s: string): string
  {
    if |s| > 0 && s[|s| - 1] == '\n' then s[..|s| - 1] else s
  }

  /** Whether `[0-9]+$` finds a match in the tag. */
  predicate EndsInDigit(tag: string)
  {
    var t := StripFinalNewline(tag);
    t != [] && IsDigit(t[|t| - 1])
  }

  /** `int(re.search('[0-9]+$', tag).group())`: the value of the longest run of
      digits that ends the tag. `None` when the search finds no match, where the
      source's `.groupdict()` on None raises. */
  function CleanId(tag: string): (r: Option<int>)
    ensures r.Some? <==> EndsInDigit(tag)
    ensures r.Some? ==> r.value >= 0
  {
    var d := TrailingDigits(StripFinalNewline(tag));
    if d == [] then None else Some(DigitsValue(d))
  }

  /** A tag made of a non-digit prefix and a digit run (leading zeros allowed)
      cleans to the value of the whole run, with or without a final newline. */
  lemma CleanIdOfTag(prefix: string, digits: string)
    requires digits != [] && AllDigits(digits)
    requires prefix == [] || !IsDigit(prefix[|prefix| - 1])
    ensures CleanId(prefix + digits) == Some(DigitsValue(digits))
    ensures CleanId(prefix + digits + "\n") == Some(DigitsValue(digits))
  {
    TrailingDigitsAfter(prefix, digits);
    var s := prefix + digits;
    assert s[|s| - 1] == digits[|digits| - 1];
    assert StripFinalNewline(s) == s;
    var s' := s + "\n";
    assert s'[..|s'| - 1] == s;
    assert StripFinalNewline(s') == s;
  }

  /** `clean_test_ids(['C' + str(n)]) == [n]` for every case number. */
  lemma CleanIdRoundTrip(n: nat)
    ensures CleanId("C" + NatToString(n)) == Some(n)
  {
    CleanIdOfTag("C", NatToString(n));
    DigitsValueOfNatToString(n);
  }

  /** `clean_test_ids` and `clean_suite_ids`: every tag cleaned, in order; `None`
      when some tag has no trailing digits (the comprehension raises). */
  function CleanIds(tags: seq<string>): (r: Option<seq<int>>)
    ensures r.Some? <==> forall i :: 0 <= i < |tags| ==> CleanId(tags[i]).Some?
    ensures r.Some? ==> |r.value| == |tags| &&
                        forall i :: 0 <= i < |tags| ==> CleanId(tags[i]) == Some(r.value[i])
  {
    if forall i :: 0 <= i < |tags| ==> CleanId(tags[i]).Some? then
      Some(seq(|tags|, i requires 0 <= i < |tags| => CleanId(tags[i]).value))
    else None
  }

  lemma CleanIdsOfTwo(a: string, b: string, x: int, y: int)
    requires CleanId(a) == Some(x) && CleanId(b) == Some(y)
    ensures CleanIds([a, b]) == Some([x, y])
  {
    var tags := [a, b];
    assert CleanId(tags[0]).Some? && CleanId(tags[1]).Some?;
    var r := CleanIds(tags);
    assert r.Some? && |r.value| == 2;
    assert r.value[0] == x && r.value[1] == y;
    assert r.value == [x, y];
  }

  /** The example of the plugin's unit tests. */
  lemma CleanIdsExample()
    ensures CleanIds(["C1234", "C12345"]) == Some([1234, 12345])
  {
    assert NatToString(12) == "12";
    assert NatToString(123) == NatToString(12) + "3";
    assert NatToString(1234) == NatToString(123) + "4";
    assert NatToString(12345) == NatToString(1234) + "5";
    CleanIdRoundTrip(1234);
    CleanIdRoundTrip(12345);
    var n4, n5 := NatToString(1234), NatToString(12345);
    assert "C" + n4 == "C1234";
    assert "C" + n5 == "C12345";
    CleanIdsOfTwo("C1234", "C12345", 1234, 12345);
  }

  /** A tag that does not end in a digit makes the whole list fail. */
  lemma CleanIdsRejectsTag(tags: seq<string>, i: int)
    requires 0 <= i < |tags|
    requires !EndsInDigit(tags[i])
    ensures CleanIds(tags).None?
  {
    assert CleanId(tags[i]).None?;
  }

  /** `clean_test_defects`: each defect id up to its first newline (`.*` never
      matches a newline but always matches, possibly the empty text). */
  function CleanTestDefects(ids: seq<string>): (r: seq<string>)
    ensures |r| == |ids|
    ensures forall i :: 0 <= i < |ids| ==>
              r[i] <= ids[i] && '\n' !in r[i] && (|r[i]| < |ids[i]| ==> ids[i][|r[i]|] == '\n')
  {
    seq(|ids|, i requires 0 <= i < |ids| => FirstLine(ids[i]))
  }

  lemma {:induction false} FirstLineOfLine(s: string)
    requires '\n' !in s
    ensures FirstLine(s) == s
  {
    if s != [] {
      assert s[1..] == s[|[s[0]]|..];
      assert '\n' !in s[1..] by {
        forall c | c in s[1..] ensures c in s { }
      }
      FirstLineOfLine(s[1..]);
    }
  }

  /** Defect ids without newlines pass through unchanged. */
  lemma CleanTestDefectsIdentity(ids: seq<string>)
    requires forall i :: 0 <= i < |ids| ==> '\n' !in ids[i]
    ensures CleanTestDefects(ids) == ids
  {
    forall i | 0 <= i < |ids| ensures CleanTestDefects(ids)[i] == ids[i] {
      FirstLineOfLine(ids[i]);
    }
  }

  /** `get_test_outcome`: the TestRail status of a pytest outcome; the lookup
      raises KeyError for any outcome but the three the table names. */
  function GetTestOutcome(outcome: string): (r: Option<int>)
    ensures r.Some? <==> outcome in {"passed", "failed", "skipped"}
    ensures r.Some? ==> r.value in TESTRAIL_TEST_STATUS.Values
    ensures outcome == "skipped" ==> r == Some(BLOCKED)
  {
    OutcomeCodes();
    StatusCodes();
    if outcome in PYTEST_TO_TESTRAIL_STATUS then Some(PYTEST_TO_TESTRAIL_STATUS[outcome]) else None
  }

  /** The `case_id` of each test, in order. */
  function CaseIds(tests: seq<TestRec>): seq<int>
  {
    seq(|tests|, i requires 0 <= i < |tests| => tests[i].caseId)
  }

  /** `get_case_list`: the case ids of the tests (`None` iterates as the empty list). */
  method GetCaseList(tests: Option<seq<TestRec>>) returns (ids: seq<int>)
    ensures tests.None? ==> ids == []
    ensures tests.Some? ==> |ids| == |tests.value| &&
                            forall i :: 0 <= i < |ids| ==> ids[i] == tests.value[i].caseId
    ensures ids == CaseIds(if tests.Some? then tests.value else [])
  {
    var list := if tests.Some? then tests.value else [];
    ids := [];
    var i := 0;
    while i < |list|
      invariant 0 <= i <= |list|
      invariant ids == CaseIds(list[..i])
    {
      ids := ids + [list[i].caseId];
      i := i + 1;
    }
    assert list[..i] == list;
  }

  /** The items that carry marker `m`, in item order. */
  function Marked(items: seq<Item>, m: Marker): seq<Item>
  {
    Filter((it: Item) => Tags(it, m).Some?, items)
  }

  /** What `get_testrail_keys` (marker `Testrail`) and `get_testrail_suite_ids`
      (marker `TestrailSuites`) build, item by item: a pair of the item and its
      cleaned ids for each marked item. `None` once a tag fails to clean. */
  function MarkedIds(items: seq<Item>, m: Marker): Option<seq<(Item, seq<int>)>>
    decreases |items|
  {
    if items == [] then Some([])
    else
      var last := items[|items| - 1];
      match MarkedIds(items[..|items| - 1], m)
      case None => None
      case Some(keys) =>
        if Tags(last, m).None? then Some(keys)
        else
          match CleanIds(Tags(last, m).value)
          case None => None
          case Some(ids) => Some(keys + [(last, ids)])
  }

  /** Whether every item carrying marker `m` has tags that clean. */
  predicate AllClean(items: seq<Item>, m: Marker)
  {
    forall i :: 0 <= i < |items| && Tags(items[i], m).Some? ==> CleanIds(Tags(items[i], m).value).Some?
  }

  /** The pairs hold the marked items, in item order, each with its cleaned ids. */
  predicate PairsMarked(keys: seq<(Item, seq<int>)>, marked: seq<Item>, m: Marker)
  {
    |keys| == |marked| &&
    forall k :: 0 <= k < |keys| ==>
      keys[k].0 == marked[k] && Tags(marked[k], m).Some? && CleanIds(Tags(marked[k], m).value) == Some(keys[k].1)
  }

  /** The collection succeeds iff every marked item's tags clean. */
  lemma {:induction false} MarkedIdsSucceeds(items: seq<Item>, m: Marker)
    ensures MarkedIds(items, m).Some? <==> AllClean(items, m)
    decreases |items|
  {
    if items != [] {
      var init := items[..|items| - 1];
      MarkedIdsSucceeds(init, m);
      assert forall i :: 0 <= i < |init| ==> init[i] == items[i];
    }
  }

  /** A successful collection holds one pair per marked item, in item order, each
      with that item's cleaned ids; unmarked items are left out. */
  lemma {:induction false} MarkedIdsPairs(items: seq<Item>, m: Marker)
    requires MarkedIds(items, m).Some?
    ensures PairsMarked(MarkedIds(items, m).value, Marked(items, m), m)
    decreases |items|
  {
    if items != [] {
      var init, last := items[..|items| - 1], items[|items| - 1];
      var keys := MarkedIds(init, m).value;
      MarkedIdsPairs(init, m);
      assert items == init + [last];
      FilterAppend((it: Item) => Tags(it, m).Some?, init, [last]);
      assert Marked(items, m) == Marked(init, m) + Marked([last], m);
      if Tags(last, m).Some? {
        assert Marked([last], m) == [last];
        PairsSnoc(keys, Marked(init, m), last, CleanIds(Tags(last, m).value).value, m);
      } else {
        assert Marked([last], m) == [];
        assert Marked(init, m) + [] == Marked(init, m);
      }
    }
  }

  lemma PairsSnoc(keys: seq<(Item, seq<int>)>, marked: seq<Item>, last: Item, ids: seq<int>, m: Marker)
    requires PairsMarked(keys, marked, m)
    requires Tags(last, m).Some? && CleanIds(Tags(last, m).value) == Some(ids)
    ensures PairsMarked(keys + [(last, ids)], marked + [last], m)
  {
    var k2, m2 := keys + [(last, ids)], marked + [last];
    forall k | 0 <= k < |k2|
      ensures k2[k].0 == m2[k] && Tags(m2[k], m).Some? && CleanIds(Tags(m2[k], m).value) == Some(k2[k].1)
    {
      if k < |keys| {
        assert k2[k] == keys[k] && m2[k] == marked[k];
      }
    }
  }

  /** `get_testrail_keys` / `get_testrail_suite_ids` with the loop of the source. */
  method GetMarkedIds(items: seq<Item>, m: Marker) returns (r: Option<seq<(Item, seq<int>)>>)
    ensures r == MarkedIds(items, m)
  {
    var keys: seq<(Item, seq<int>)> := [];
    var i := 0;
    while i < |items|
      invariant 0 <= i <= |items|
      invariant MarkedIds(items[..i], m) == Some(keys)
    {
      assert items[..i + 1][..i] == items[..i];
      var tags := Tags(items[i], m);
      if tags.Some? {
        var ids := CleanIds(tags.value);
        if ids.None? {
          PrefixFailure(items, m, i + 1);
          return None;
        }
        keys := keys + [(items[i], ids.value)];
      }
      i := i + 1;
    }
    assert items[..i] == items;
    r := Some(keys);
  }

  /** Once a prefix fails to collect, so does the whole list. */
  lemma {:induction false} PrefixFailure(items: seq<Item>, m: Marker, n: nat)
    requires n <= |items|
    requires MarkedIds(items[..n], m).None?
    ensures MarkedIds(items, m).None?
    decreases |items| - n
  {
    if n < |items| {
      assert items[..n + 1][..n] == items[..n];
      PrefixFailure(items, m, n + 1);
    } else {
      assert items[..n] == items;
    }
  }

  /** `filter_publish_results`: the results whose case id is not ignored, in order,
      and the string form of each kept case id. */
  method FilterPublishResults(results: seq<TestResult>, ignoreCases: seq<int>)
    returns (kept: seq<TestResult>, caseIds: seq<string>)
    ensures kept == Filter((r: TestResult) => r.caseId !in ignoreCases, results)
    ensures forall r :: r in kept <==> r in results && r.caseId !in ignoreCases
    ensures |caseIds| == |kept| && forall k :: 0 <= k < |kept| ==> caseIds[k] == IntToString(kept[k].caseId)
  {
    ghost var keep := (r: TestResult) => r.caseId !in ignoreCases;
    kept, caseIds := [], [];
    var i := 0;
    while i < |results|
      invariant 0 <= i <= |results|
      invariant kept == Filter(keep, results[..i])
      invariant |caseIds| == |kept| && forall k :: 0 <= k < |kept| ==> caseIds[k] == IntToString(kept[k].caseId)
    {
      FilterAppend(keep, results[..i], [results[i]]);
      assert results[..i + 1] == results[..i] + [results[i]];
      if results[i].caseId !in ignoreCases {
        kept := kept + [results[i]];
        caseIds := caseIds + [IntToString(results[i].caseId)];
      }
      i := i + 1;
    }
    assert results[..i] == results;
    forall r ensures r in kept <==> r in results && r.caseId !in ignoreCases {
      FilterMembership(keep, results, r);
    }
  }

  /** `get_suite_by_case`: the first suite, in mapping order, whose cases contain
      the case; 0 when none does. */
  method GetSuiteByCase(caseId: int, suites: seq<(int, seq<int>)>) returns (suite: int)
    ensures (forall k :: 0 <= k < |suites| ==> caseId !in suites[k].1) ==> suite == 0
    ensures forall k :: 0 <= k < |suites| && caseId in suites[k].1 &&
                          (forall j :: 0 <= j < k ==> caseId !in suites[j].1) ==>
                          suite == suites[k].0
  {
    var i := 0;
    while i < |suites|
      invariant 0 <= i <= |suites|
      invariant forall j :: 0 <= j < i ==> caseId !in suites[j].1
    {
      if caseId in suites[i].1 {
        return suites[i].0;
      }
      i := i + 1;
    }
    return 0;
  }
}
