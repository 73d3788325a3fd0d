/** How buffered results become the body of an `add_results_for_cases` request:
    the stable sort by case id, the optional removal of cases the run has blocked,
    and the construction of each entry with its comment and elapsed time. The
    rules are the same in `plugin.py` and `testrail_actions.py`. */
module Payload {
  import opened Wrappers
  import opened Strings
  import opened Seqs
  import opened Vars
  import opened Remote
  import opened Functions

  const PARAMS_HEADER := "# Test parametrize: #\n"
  const RESULT_HEADER := "# Pytest result: #\n"
  const TRUNCATED := "Log truncated\n...\n"
  const INDENT := "    "

  // ---------------------------------------------------------------------------
  // The log part of a comment

  /** `s.replace('\n', '\n    ')`: every line after the first indented by four spaces. */
  function Indent(s: string): string
  {
    ReplaceChar(s, '\n', "\n" + INDENT)
  }

  /** The inverse of `Indent`: four spaces are dropped after every newline. */
  function Unindent(t: string): string
  {
    if t == [] then []
    else if t[0] == '\n' && 5 <= |t| && t[1..5] == INDENT then "\n" + Unindent(t[5..])
    else [t[0]] + Unindent(t[1..])
  }

  /** Indenting loses nothing: the log text can be read back from the comment. */
  lemma {:induction false} UnindentIndent(s: string)
    ensures Unindent(Indent(s)) == s
  {
    if s != [] {
      var t := Indent(s);
      UnindentIndent(s[1..]);
      if s[0] == '\n' {
        assert t == "\n" + INDENT + Indent(s[1..]);
        assert t[1..5] == INDENT;
        assert t[5..] == Indent(s[1..]);
      } else {
        assert t == [s[0]] + Indent(s[1..]);
        assert t[1..] == Indent(s[1..]);
      }
      assert s == [s[0]] + s[1..];
    }
  }

  /** Indenting only adds the four spaces: one line per line of the log. */
  lemma {:induction false} IndentLength(s: string)
    ensures |Indent(s)| == |s| + 4 * multiset(s)['\n']
  {
    if s != [] {
      IndentLength(s[1..]);
      assert s == [s[0]] + s[1..];
      assert multiset(s) == multiset([s[0]]) + multiset(s[1..]);
    }
  }

  /** `str(comment)[-COMMENT_SIZE_LIMIT:]`: the last `n` characters (all when shorter). */
  function Tail(s: string, n: nat): (t: string)
    ensures |t| == if |s| <= n then |s| else n
    ensures t == s[|s| - |t|..]
  {
    if |s| <= n then s else s[|s| - n..]
  }

  /** The truncation marker (when the log is longer than the limit) followed by the
      indented last `COMMENT_SIZE_LIMIT` characters of the log. */
  function LogBlock(log: string): string
  {
    (if |log| > COMMENT_SIZE_LIMIT then TRUNCATED else "") + INDENT + Indent(Tail(log, COMMENT_SIZE_LIMIT))
  }

  /** Reads a log block back: drops the marker if present, then the first indent. */
  function ReadLogBlock(b: string): (log: string)
  {
    var body := if TRUNCATED <= b then b[|TRUNCATED|..] else b;
    if 4 <= |body| then Unindent(body[4..]) else []
  }

  /** The block starts with the marker exactly when the log exceeds the limit, and
      reading it back gives the last `COMMENT_SIZE_LIMIT` characters of the log. */
  lemma LogBlockRoundTrip(log: string)
    ensures TRUNCATED <= LogBlock(log) <==> |log| > COMMENT_SIZE_LIMIT
    ensures ReadLogBlock(LogBlock(log)) == Tail(log, COMMENT_SIZE_LIMIT)
  {
    var tail := Tail(log, COMMENT_SIZE_LIMIT);
    var rest := INDENT + Indent(tail);
    UnindentIndent(tail);
    assert rest[4..] == Indent(tail);
    if |log| > COMMENT_SIZE_LIMIT {
      assert LogBlock(log) == TRUNCATED + rest;
      assert (TRUNCATED + rest)[|TRUNCATED|..] == rest;
    } else {
      assert LogBlock(log) == rest;
      assert rest[0] == ' ' && TRUNCATED[0] == 'L';
    }
  }

  // ---------------------------------------------------------------------------
  // The comment of an entry

  /** `str(test_parametrize)` for a dict of string keys: `{'k': v, ...}`. */
  function ParamsRepr(p: Params): string
  {
    "{" + Join(", ", seq(|p|, i requires 0 <= i < |p| => "'" + p[i].0 + "': " + p[i].1)) + "}"
  }

  /** The parametrize block, present when the test has a non-empty `callspec.params`. */
  function ParamsBlock(params: Option<Params>): string
  {
    if params.Some? && params.value != [] then PARAMS_HEADER + ParamsRepr(params.value) + "\n\n" else ""
  }

  /** The custom comment line, present when the custom comment is non-empty. */
  function CustomLine(custom: Option<string>): string
  {
    if Truthy(custom) then custom.value + "\n" else ""
  }

  /** The `comment` of an entry (`None` is JSON null). A non-empty comment gives the
      parametrize block, the custom line, the result header and the log block, in
      that order; the empty comment gives the custom comment alone (dropping the
      parametrize block); a None comment gives the parametrize block alone. */
  function BuildComment(comment: Option<string>, params: Option<Params>, custom: Option<string>): (r: Option<string>)
    ensures comment == Some("") ==> r == custom
    ensures comment.None? ==> r == Some(ParamsBlock(params))
    ensures Truthy(comment) ==> r.Some? && ParamsBlock(params) + CustomLine(custom) + RESULT_HEADER <= r.value
  {
    var head := ParamsBlock(params);
    if Truthy(comment) then
      var prefix := head + CustomLine(custom) + RESULT_HEADER;
      assert (prefix + LogBlock(comment.value))[..|prefix|] == prefix;
      Some(prefix + LogBlock(comment.value))
    else if comment == Some("") then custom
    else Some(head)
  }

  /** The layout of the comment of a non-empty log: after the fixed prefix comes
      the log block, from which the (possibly truncated) log reads back exactly. */
  lemma CommentLayout(log: string, params: Option<Params>, custom: Option<string>)
    requires log != ""
    ensures var prefix := ParamsBlock(params) + CustomLine(custom) + RESULT_HEADER;
            var r := BuildComment(Some(log), params, custom);
            r.Some? && |prefix| <= |r.value| &&
            ReadLogBlock(r.value[|prefix|..]) == Tail(log, COMMENT_SIZE_LIMIT) &&
            (TRUNCATED <= r.value[|prefix|..] <==> |log| > COMMENT_SIZE_LIMIT)
  {
    var prefix := ParamsBlock(params) + CustomLine(custom) + RESULT_HEADER;
    var r := BuildComment(Some(log), params, custom);
    assert r.value == prefix + LogBlock(log);
    assert r.value[|prefix|..] == LogBlock(log);
    LogBlockRoundTrip(log);
  }

  /** A one-line log within the limit, without parametrize or custom comment, is
      the header followed by the indented log. */
  lemma ShortComment(log: string)
    requires log != "" && '\n' !in log && |log| <= COMMENT_SIZE_LIMIT
    ensures BuildComment(Some(log), None, None) == Some(RESULT_HEADER + INDENT + log)
  {
    assert Indent(log) == log;
    assert Tail(log, COMMENT_SIZE_LIMIT) == log;
    assert LogBlock(log) == INDENT + log;
    assert ParamsBlock(None) + CustomLine(None) + RESULT_HEADER == RESULT_HEADER;
    assert BuildComment(Some(log), None, None).value == RESULT_HEADER + (INDENT + log);
    assert RESULT_HEADER + (INDENT + log) == RESULT_HEADER + INDENT + log;
  }

  // ---------------------------------------------------------------------------
  // Elapsed time

  /** `int(round(d))` for `d >= 1`, rounding halves up (Python rounds an exact half
      to even; both stay within half a second of `d`). */
  function WholeSeconds(d: real): (n: nat)
    requires d >= 1.0
    ensures n >= 1
    ensures d - 0.5 < n as real <= d + 0.5
  {
    (d + 0.5).Floor
  }

  /** The `elapsed` field: absent for a zero duration, `1s` for any other duration
      below a second, otherwise the rounded whole seconds. */
  function Elapsed(duration: real): (r: Option<string>)
    ensures r.None? <==> duration == 0.0
    ensures duration != 0.0 && duration < 1.0 ==> r == Some("1s")
    ensures duration >= 1.0 ==> r == Some(NatToString(WholeSeconds(duration)) + "s")
  {
    if duration == 0.0 then None
    else if duration < 1.0 then Some("1s")
    else Some(IntToString(WholeSeconds(duration)) + "s")
  }

  /** The durations of the plugin's unit tests: 2.6 s is sent as `3s`, 0.1 s as `1s`. */
  lemma ElapsedExamples()
    ensures Elapsed(2.6) == Some("3s")
    ensures Elapsed(0.1) == Some("1s")
  {
    assert WholeSeconds(2.6) == 3;
    assert NatToString(3) == "3";
    assert NatToString(3) + "s" == "3s";
    assert Elapsed(2.6) == Some(NatToString(3) + "s");
  }

  // ---------------------------------------------------------------------------
  // Entries

  /** One element of the results body: status, case and defects copied; the
      version only when non-empty; the comment and elapsed time as above. */
  function BuildEntry(r: TestResult, version: Option<string>, custom: Option<string>): (e: Entry)
    ensures e.statusId == r.statusId && e.caseId == r.caseId && e.defects == r.defects
    ensures e.version.Some? <==> Truthy(version)
    ensures e.version.Some? ==> e.version == version
    ensures e.comment == BuildComment(r.comment, r.parametrize, custom)
    ensures e.elapsed.Some? <==> r.duration != 0.0
  {
    Entry(r.statusId, r.caseId, r.defects,
          if Truthy(version) then version else None,
          BuildComment(r.comment, r.parametrize, custom),
          Elapsed(r.duration))
  }

  /** The entries of a list of results, one per result, in order. */
  function Entries(results: seq<TestResult>, version: Option<string>, custom: Option<string>): (es: seq<Entry>)
    ensures |es| == |results|
    ensures forall i :: 0 <= i < |results| ==> es[i] == BuildEntry(results[i], version, custom)
  {
    seq(|results|, i requires 0 <= i < |results| => BuildEntry(results[i], version, custom))
  }

  /** The entries of `results + [r]` extend those of `results` by one. */
  lemma EntriesSnoc(results: seq<TestResult>, r: TestResult, version: Option<string>, custom: Option<string>)
    ensures Entries(results + [r], version, custom) == Entries(results, version, custom) + [BuildEntry(r, version, custom)]
  {
  }

  /** The loop that fills `data['results']`: one entry per result, in order. */
  method BuildResultsBody(results: seq<TestResult>, version: Option<string>, custom: Option<string>)
    returns (data: seq<Entry>)
    ensures data == Entries(results, version, custom)
  {
    data := [];
    var i := 0;
    while i < |results|
      invariant 0 <= i <= |results|
      invariant data == Entries(results[..i], version, custom)
    {
      var entry := BuildEntry(results[i], version, custom);
      EntriesSnoc(results[..i], results[i], version, custom);
      assert results[..i + 1] == results[..i] + [results[i]];
      data := data + [entry];
      i := i + 1;
    }
    assert results[..i] == results;
  }

  /** The request `add_results` sends for a run. */
  function ResultsPost(runId: int, results: seq<TestResult>, version: Option<string>, custom: Option<string>): Post
  {
    Post(AddResultsUrl(runId), ResultsBody(Entries(results, version, custom)))
  }

  /** The options that shape a results body. */
  datatype Publishing = Publishing(publishBlocked: bool, version: Option<string>, custom: Option<string>)

  /** What one `add_results` call ends with: how it ends, the result list it leaves
      behind, and the requests it sends. */
  datatype Step = Step(outcome: Completion, results: seq<TestResult>, posts: seq<Post>)

  /** One `add_results` call: the results sorted by case id; unless blocked results
      are published, the run's tests are fetched (`tests`; `None` when that fails,
      which raises TypeError) and the blocked cases dropped; then one POST. */
  function AddResultsWith(results: seq<TestResult>, runId: int, cfg: Publishing, tests: Option<seq<TestRec>>): Step
  {
    var sorted := SortByCase(results);
    if cfg.publishBlocked then Step(Done, sorted, [ResultsPost(runId, sorted, cfg.version, cfg.custom)])
    else if tests.None? then Step(Raised, sorted, [])
    else
      var kept := DropCases(sorted, BlockedCaseIds(tests.value));
      Step(Done, kept, [ResultsPost(runId, kept, cfg.version, cfg.custom)])
  }

  /** A publication that completed is followed by the closing requests. */
  lemma ThenClose(sent: Step, whole: Step, close: seq<Post>)
    requires whole == if sent.outcome == Raised then sent else Step(Done, sent.results, sent.posts + close)
    requires sent.outcome == Done
    ensures whole.outcome == Done && whole.results == sent.results && whole.posts == sent.posts + close
    ensures |whole.posts| == |sent.posts| + |close|
    ensures forall i :: 0 <= i < |sent.posts| ==> whole.posts[i] == sent.posts[i]
    ensures whole.posts[|sent.posts|..] == close
  {
    assert whole.posts == sent.posts + close;
  }

  /** How one `add_results` ends: it raises exactly when the tests were needed and
      could not be fetched, leaving the sorted buffer and sending nothing;
      otherwise it sends one request to the run carrying the buffer it leaves,
      which is the sorted buffer, less the blocked cases when those are not
      published. */
  lemma AddResultsWithShape(results: seq<TestResult>, runId: int, cfg: Publishing, tests: Option<seq<TestRec>>)
    ensures var st := AddResultsWith(results, runId, cfg, tests);
            (st.outcome == Raised <==> !cfg.publishBlocked && tests.None?) &&
            (st.outcome == Done ==> st.posts == [ResultsPost(runId, st.results, cfg.version, cfg.custom)]) &&
            (st.outcome == Raised ==> st.posts == [] && st.results == SortByCase(results)) &&
            (cfg.publishBlocked ==> st.results == SortByCase(results)) &&
            (!cfg.publishBlocked && tests.Some? ==>
               st.results == DropCases(SortByCase(results), BlockedCaseIds(tests.value)))
  {
  }

  /** The results sent are exactly the buffered ones whose case is not blocked:
      every kept result was buffered, and every buffered result of an unblocked
      case is kept. */
  lemma AddResultsKeepsUnblocked(results: seq<TestResult>, runId: int, cfg: Publishing, tests: seq<TestRec>, r: TestResult)
    requires !cfg.publishBlocked
    ensures var st := AddResultsWith(results, runId, cfg, Some(tests));
            r in st.results <==> r in results && r.caseId !in BlockedCaseIds(tests)
  {
    var sorted := SortByCase(results);
    SortByCaseSortedPermutation(results);
    assert r in sorted <==> r in multiset(sorted);
    assert r in results <==> r in multiset(results);
    DropCasesMembership(sorted, BlockedCaseIds(tests), r);
  }

  // ---------------------------------------------------------------------------
  // Sorting by case id

  predicate SortedByCase(s: seq<TestResult>)
  {
    forall i, j :: 0 <= i < j < |s| ==> s[i].caseId <= s[j].caseId
  }

  /** Places `x` after the results of smaller case id and before all others. */
  function Insert(x: TestResult, s: seq<TestResult>): seq<TestResult>
  {
    if s == [] || x.caseId <= s[0].caseId then [x] + s else [s[0]] + Insert(x, s[1..])
  }

  /** `results.sort(key=itemgetter('case_id'))`: a stable sort on the case id. */
  function SortByCase(s: seq<TestResult>): seq<TestResult>
  {
    if s == [] then [] else Insert(s[0], SortByCase(s[1..]))
  }

  /** The results with case id `k`, in order. */
  function WithCase(k: int, s: seq<TestResult>): seq<TestResult>
  {
    Filter((r: TestResult) => r.caseId == k, s)
  }

  lemma SortedCons(h: TestResult, t: seq<TestResult>)
    requires SortedByCase(t)
    requires forall i :: 0 <= i < |t| ==> h.caseId <= t[i].caseId
    ensures SortedByCase([h] + t)
  {
    var s := [h] + t;
    forall i, j | 0 <= i < j < |s| ensures s[i].caseId <= s[j].caseId {
      if i > 0 {
        assert s[i] == t[i - 1] && s[j] == t[j - 1];
      } else {
        assert s[j] == t[j - 1];
      }
    }
  }

  lemma {:induction false} InsertSorted(x: TestResult, s: seq<TestResult>)
    requires SortedByCase(s)
    ensures SortedByCase(Insert(x, s))
    ensures multiset(Insert(x, s)) == multiset([x] + s)
  {
    if s == [] || x.caseId <= s[0].caseId {
      if s != [] {
        forall i | 0 <= i < |s| ensures x.caseId <= s[i].caseId {
          assert s[0].caseId <= s[i].caseId || i == 0;
        }
      }
      SortedCons(x, s);
    } else {
      var rest := s[1..];
      assert SortedByCase(rest) by {
        forall i, j | 0 <= i < j < |rest| ensures rest[i].caseId <= rest[j].caseId {
          assert rest[i] == s[i + 1] && rest[j] == s[j + 1];
        }
      }
      InsertSorted(x, rest);
      var t := Insert(x, rest);
      assert Insert(x, s) == [s[0]] + t;
      assert s == [s[0]] + rest;
      forall k | 0 <= k < |rest| ensures s[0].caseId <= rest[k].caseId {
        assert rest[k] == s[k + 1];
      }
      AllAbove(s[0], x, rest, t);
      SortedCons(s[0], t);
    }
  }

  /** A permutation of `[x] + rest` stays at or above `h` when `x` and `rest` do. */
  lemma AllAbove(h: TestResult, x: TestResult, rest: seq<TestResult>, t: seq<TestResult>)
    requires multiset(t) == multiset([x] + rest)
    requires h.caseId <= x.caseId
    requires forall k :: 0 <= k < |rest| ==> h.caseId <= rest[k].caseId
    ensures forall i :: 0 <= i < |t| ==> h.caseId <= t[i].caseId
  {
    forall i | 0 <= i < |t| ensures h.caseId <= t[i].caseId {
      assert t[i] in multiset(t);
      assert t[i] in multiset([x] + rest);
      if t[i] != x {
        assert t[i] in rest;
        var k :| 0 <= k < |rest| && rest[k] == t[i];
      }
    }
  }

  /** The sort orders by case id and keeps every result, duplicates included. */
  lemma {:induction false} SortByCaseSortedPermutation(s: seq<TestResult>)
    ensures SortedByCase(SortByCase(s))
    ensures multiset(SortByCase(s)) == multiset(s)
  {
    if s != [] {
      SortByCaseSortedPermutation(s[1..]);
      InsertSorted(s[0], SortByCase(s[1..]));
      assert s == [s[0]] + s[1..];
    }
  }

  lemma {:induction false} InsertStable(x: TestResult, s: seq<TestResult>, k: int)
    ensures WithCase(k, Insert(x, s)) == WithCase(k, [x] + s)
  {
    var p := (r: TestResult) => r.caseId == k;
    if s != [] && x.caseId > s[0].caseId {
      var a, t := s[0], s[1..];
      InsertStable(x, t, k);
      assert Insert(x, s) == [a] + Insert(x, t);
      FilterAppend(p, [a], Insert(x, t));
      assert s == [a] + t;
      FilterAppend(p, [x], s);
      FilterSwap(p, a, x, t);
    }
  }

  /** Stability without merging: for every case id, the results carrying it come
      out of the sort exactly as they went in, in insertion order. */
  lemma {:induction false} SortByCaseStable(s: seq<TestResult>, k: int)
    ensures WithCase(k, SortByCase(s)) == WithCase(k, s)
  {
    if s != [] {
      var p := (r: TestResult) => r.caseId == k;
      SortByCaseStable(s[1..], k);
      InsertStable(s[0], SortByCase(s[1..]), k);
      FilterAppend(p, [s[0]], SortByCase(s[1..]));
      FilterAppend(p, [s[0]], s[1..]);
      assert s == [s[0]] + s[1..];
    }
  }

  /** Dropping results keeps a sorted list sorted. */
  lemma {:induction false} DropCasesSorted(s: seq<TestResult>, blocked: seq<int>)
    requires SortedByCase(s)
    ensures SortedByCase(DropCases(s, blocked))
  {
    if s != [] {
      var rest := s[1..];
      assert SortedByCase(rest) by {
        forall i, j | 0 <= i < j < |rest| ensures rest[i].caseId <= rest[j].caseId {
          assert rest[i] == s[i + 1] && rest[j] == s[j + 1];
        }
      }
      DropCasesSorted(rest, blocked);
      var t := DropCases(rest, blocked);
      forall i | 0 <= i < |t| ensures s[0].caseId <= t[i].caseId {
        assert t[i] in rest;
        var k :| 0 <= k < |rest| && rest[k] == t[i];
        assert rest[k] == s[k + 1];
      }
      if s[0].caseId !in blocked {
        SortedCons(s[0], t);
      }
    }
  }

  /** Sorting twice is sorting once (each run of a plan sees the same order). */
  lemma SortByCaseIdempotent(s: seq<TestResult>)
    ensures SortByCase(SortByCase(s)) == SortByCase(s)
  {
    SortByCaseSortedPermutation(s);
    SortedUnchanged(SortByCase(s));
  }

  lemma {:induction false} SortedUnchanged(s: seq<TestResult>)
    requires SortedByCase(s)
    ensures SortByCase(s) == s
  {
    if s != [] {
      SortedUnchanged(s[1..]);
      assert SortByCase(s) == Insert(s[0], s[1..]);
    }
  }

  // ---------------------------------------------------------------------------
  // Blocked cases

  /** The case ids of the run's tests whose status is blocked, in order. */
  function BlockedCaseIds(tests: seq<TestRec>): (ids: seq<int>)
    ensures forall c :: c in ids <==> exists i :: 0 <= i < |tests| && tests[i].caseId == c && tests[i].statusId == BLOCKED
  {
    if tests == [] then []
    else
      var rest := BlockedCaseIds(tests[1..]);
      assert forall i :: 1 <= i < |tests| ==> tests[i] == tests[1..][i - 1];
      (if tests[0].statusId == BLOCKED then [tests[0].caseId] else []) + rest
  }

  /** The results whose case id is not blocked, in order. */
  function DropCases(results: seq<TestResult>, blocked: seq<int>): (kept: seq<TestResult>)
  {
    Filter((r: TestResult) => r.caseId !in blocked, results)
  }

  /** A dropped result is exactly one whose case is blocked; the rest keep their order. */
  lemma DropCasesMembership(results: seq<TestResult>, blocked: seq<int>, r: TestResult)
    ensures r in DropCases(results, blocked) <==> r in results && r.caseId !in blocked
  {
    FilterMembership((r: TestResult) => r.caseId !in blocked, results, r);
  }

  /** Dropping two lists in turn drops their union: exclusions accumulate. */
  lemma {:induction false} DropCasesTwice(results: seq<TestResult>, a: seq<int>, b: seq<int>)
    ensures DropCases(DropCases(results, a), b) == DropCases(results, a + b)
  {
    if results != [] {
      var x, rest := results[0], results[1..];
      DropCasesTwice(rest, a, b);
      assert (x.caseId !in a + b) <==> x.caseId !in a && x.caseId !in b;
      var once := DropCases(results, a);
      if x.caseId !in a {
        assert once == [x] + DropCases(rest, a);
        assert once[0] == x && once[1..] == DropCases(rest, a);
      } else {
        assert once == DropCases(rest, a);
      }
    }
  }

  /** With nothing blocked, nothing is dropped. */
  lemma DropNothing(results: seq<TestResult>)
    ensures DropCases(results, []) == results
  {
    FilterAll((r: TestResult) => r.caseId !in [], results);
  }

  // ---------------------------------------------------------------------------
  // The defects string of `pytest_runtest_makereport`

  /** `repr` of a defect id, for ids without quotes or backslashes. */
  function Quoted(s: string): string
  {
    "'" + s + "'"
  }

  /** Each id as the list repr writes it. */
  function QuotedAll(ds: seq<string>): (qs: seq<string>)
    ensures |qs| == |ds| && forall i :: 0 <= i < |ds| ==> qs[i] == Quoted(ds[i])
  {
    seq(|ds|, i requires 0 <= i < |ds| => Quoted(ds[i]))
  }

  /** `str(clean_test_defects(ids))` with every `[`, `]` and `'` removed. */
  function DefectsString(ids: seq<string>): string
  {
    var cleaned := CleanTestDefects(ids);
    RemoveChars("[" + Join(", ", QuotedAll(cleaned)) + "]",
                {'[', ']', '\''})
  }

  /** A defect id the list repr keeps verbatim and the bracket/quote removal leaves intact. */
  predicate PlainDefect(d: string)
  {
    forall i :: 0 <= i < |d| ==> d[i] !in {'[', ']', '\'', '\n'}
  }

  lemma {:induction false} RemoveCharsAppend(a: string, b: string, cs: set<char>)
    ensures RemoveChars(a + b, cs) == RemoveChars(a, cs) + RemoveChars(b, cs)
  {
    if a != [] {
      RemoveCharsAppend(a[1..], b, cs);
      assert (a + b)[1..] == a[1..] + b;
    } else {
      assert a + b == b;
    }
  }

  lemma {:induction false} RemoveCharsNone(s: string, cs: set<char>)
    requires forall i :: 0 <= i < |s| ==> s[i] !in cs
    ensures RemoveChars(s, cs) == s
  {
    if s != [] {
      RemoveCharsNone(s[1..], cs);
    }
  }

  lemma {:induction false} JoinQuoted(ds: seq<string>)
    requires forall k :: 0 <= k < |ds| ==> PlainDefect(ds[k])
    ensures RemoveChars(Join(", ", QuotedAll(ds)), {'[', ']', '\''}) == Join(", ", ds)
    decreases |ds|
  {
    var cs := {'[', ']', '\''};
    var qs := QuotedAll(ds);
    if ds != [] {
      var d := ds[0];
      RemoveCharsAppend("'" + d, "'", cs);
      RemoveCharsAppend("'", d, cs);
      RemoveCharsNone(d, cs);
      assert RemoveChars(Quoted(d), cs) == d;
      if |ds| > 1 {
        var rest := ds[1..];
        assert qs[1..] == QuotedAll(rest);
        JoinQuoted(rest);
        RemoveCharsAppend(Quoted(d) + ", ", Join(", ", qs[1..]), cs);
        RemoveCharsAppend(Quoted(d), ", ", cs);
        RemoveCharsNone(", ", cs);
      }
    }
  }

  /** For ids without brackets, quotes or newlines the defects string is the ids
      joined by `", "`. */
  lemma DefectsStringPlain(ids: seq<string>)
    requires forall k :: 0 <= k < |ids| ==> PlainDefect(ids[k])
    ensures DefectsString(ids) == Join(", ", ids)
  {
    var cs := {'[', ']', '\''};
    forall k | 0 <= k < |ids| ensures '\n' !in ids[k] {
      assert PlainDefect(ids[k]);
    }
    CleanTestDefectsIdentity(ids);
    var j := Join(", ", QuotedAll(ids));
    assert DefectsString(ids) == RemoveChars("[" + j + "]", cs);
    JoinQuoted(ids);
    RemoveBrackets(j, cs);
  }

  lemma RemoveBrackets(j: string, cs: set<char>)
    requires '[' in cs && ']' in cs
    ensures RemoveChars("[" + j + "]", cs) == RemoveChars(j, cs)
  {
    RemoveCharsAppend("[" + j, "]", cs);
    RemoveCharsAppend("[", j, cs);
    assert RemoveChars("[", cs) == [] && RemoveChars("]", cs) == [];
  }
}
