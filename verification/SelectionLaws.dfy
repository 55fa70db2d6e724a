/** What a selection guarantees to its caller. */
module SelectionLaws {
  import opened Text
  import opened Candidates
  import opened Sorting
  import opened Selection

  // ---- conservation ----

  lemma {:induction false} InsertKeepsIds(x: Scored, s: seq<Scored>)
    ensures multiset(Ids(Insert(x, s))) == multiset(Ids(s)) + multiset{ItemId(x.item)}
  {
    if s == [] || x.score >= s[0].score {
      assert Ids([x] + s) == [ItemId(x.item)] + Ids(s);
    } else {
      var r := Insert(x, s[1..]);
      InsertKeepsIds(x, s[1..]);
      assert Ids([s[0]] + r) == [ItemId(s[0].item)] + Ids(r);
      assert Ids(s) == [ItemId(s[0].item)] + Ids(s[1..]);
    }
  }

  lemma {:induction false} SortKeepsIds(s: seq<Scored>)
    ensures multiset(Ids(StableSort(s))) == multiset(Ids(s))
  {
    if s != [] {
      SortKeepsIds(s[1..]);
      InsertKeepsIds(s[0], StableSort(s[1..]));
      assert Ids(s) == [ItemId(s[0].item)] + Ids(s[1..]);
    }
  }

  function DecidedIds(ds: seq<Decision>): seq<string> {
    seq(|ds|, i requires 0 <= i < |ds| => ds[i].itemId)
  }

  lemma SplitsConserve(s: seq<string>, t: seq<string>, u: seq<string>, i: nat, j: nat, k: nat)
    requires i <= |s| && j <= |t| && k <= |u|
    ensures multiset(s[..i]) + multiset(t[..j]) + multiset(u[..k])
            + multiset(s[i..]) + multiset(t[j..]) + multiset(u[k..])
            == multiset(s) + multiset(t) + multiset(u)
  {
    assert s[..i] + s[i..] == s && t[..j] + t[j..] == t && u[..k] + u[k..] == u;
  }

  /** Filling selects or drops every candidate, once, and decides them in order. */
  lemma FillConserves(files: seq<Scored>, failures: seq<Scored>, docs: seq<Scored>, caps: Caps)
    ensures var r := Filled(files, failures, docs, caps);
            && multiset(r.files) + multiset(r.failures) + multiset(r.docs) + multiset(r.dropped) ==
               multiset(Ids(files)) + multiset(Ids(failures)) + multiset(Ids(docs))
            && DecidedIds(r.decisions) == Ids(files) + Ids(failures) + Ids(docs)
  {
    hide CountsFor, Ids, Decisions, DecidedIds;
    var k := CountsFor(|files|, |failures|, |docs|, caps);
    var a, b, c := Ids(files), Ids(failures), Ids(docs);
    SplitsConserve(a, b, c, k.files, k.failures, k.docs);
    DecidedInOrder(files, failures, docs, k);
  }

  lemma DecidedInOrder(files: seq<Scored>, failures: seq<Scored>, docs: seq<Scored>, k: Counts)
    ensures DecidedIds(Decisions(files, k.files) + Decisions(failures, k.failures) + Decisions(docs, k.docs))
            == Ids(files) + Ids(failures) + Ids(docs)
  {
  }

  /** Every gathered candidate is selected or dropped, once, and decided once. */
  lemma Conservation(lower: string -> string, input: Input, caps: Caps)
    ensures var r := Selected(lower, input, caps);
            var all := multiset(Ids(GatheredFiles(lower, input))) + multiset(Ids(GatheredFailures(lower, input)));
            && multiset(r.files) + multiset(r.failures) + multiset(r.docs) + multiset(r.dropped) == all
            && multiset(DecidedIds(r.decisions)) == all
  {
    hide Filled;
    var a, b := StableSort(GatheredFiles(lower, input)), StableSort(GatheredFailures(lower, input));
    SortKeepsIds(GatheredFiles(lower, input));
    SortKeepsIds(GatheredFailures(lower, input));
    FillConserves(a, b, [], caps);
  }

  // ---- dominance ----

  predicate OfKind(s: seq<Scored>, kind: Kind) {
    forall i :: 0 <= i < |s| ==> KindOf(s[i].item) == kind
  }

  /** Within a kind, whatever is selected scores at least as high as whatever is dropped. */
  ghost predicate Dominates(ds: seq<Decision>) {
    forall d, e :: d in ds && e in ds && d.kind == e.kind && !d.dropped && e.dropped ==> d.score >= e.score
  }

  lemma DominanceWithin(s: seq<Scored>, taken: nat, d: Decision, e: Decision)
    requires Descending(s) && d in Decisions(s, taken) && e in Decisions(s, taken) && !d.dropped && e.dropped
    ensures d.score >= e.score
  {
  }

  /** Filling sorted lists prefers higher scores, and so it does for documents too. */
  lemma Dominance(files: seq<Scored>, failures: seq<Scored>, docs: seq<Scored>, caps: Caps)
    requires Descending(files) && Descending(failures) && Descending(docs)
    requires OfKind(files, FileKind) && OfKind(failures, FailureKind) && OfKind(docs, DocKind)
    ensures Dominates(Filled(files, failures, docs, caps).decisions)
  {
    var k := CountsFor(|files|, |failures|, |docs|, caps);
    var ds := Filled(files, failures, docs, caps).decisions;
    forall d, e | d in ds && e in ds && d.kind == e.kind && !d.dropped && e.dropped ensures d.score >= e.score {
      match d.kind
      case FileKind => DominanceWithin(files, k.files, d, e);
      case FailureKind => DominanceWithin(failures, k.failures, d, e);
      case DocKind => DominanceWithin(docs, k.docs, d, e);
    }
  }

  lemma SortKeepsMembers(s: seq<Scored>)
    ensures forall x :: x in StableSort(s) <==> x in s
  {
    SortSorts(s);
    forall x ensures x in StableSort(s) <==> x in s {
      assert x in multiset(StableSort(s)) <==> x in multiset(s);
    }
  }

  lemma KindsOfSorted(s: seq<Scored>, kind: Kind)
    requires OfKind(s, kind)
    ensures OfKind(StableSort(s), kind) && Descending(StableSort(s))
  {
    SortSorts(s);
    SortKeepsMembers(s);
    var t := StableSort(s);
    forall i | 0 <= i < |t| ensures KindOf(t[i].item) == kind {
      assert t[i] in t;
    }
  }

  lemma SelectionDominates(lower: string -> string, input: Input, caps: Caps)
    ensures Dominates(Selected(lower, input, caps).decisions)
  {
    hide Filled;
    KindsOfSorted(GatheredFiles(lower, input), FileKind);
    KindsOfSorted(GatheredFailures(lower, input), FailureKind);
    Dominance(StableSort(GatheredFiles(lower, input)), StableSort(GatheredFailures(lower, input)), [], caps);
  }

  // ---- failing tests come before runtime errors ----

  predicate OfReason(s: seq<Scored>, reason: Reason) {
    forall i :: 0 <= i < |s| ==> s[i].item.reason == reason
  }

  lemma SortKeepsReason(s: seq<Scored>, reason: Reason)
    requires OfReason(s, reason)
    ensures OfReason(StableSort(s), reason)
  {
    SortKeepsMembers(s);
    var t := StableSort(s);
    forall i | 0 <= i < |t| ensures t[i].item.reason == reason {
      assert t[i] in t;
    }
  }

  lemma ScoredFailuresConcat(lower: string -> string, input: Input, a: seq<Candidate>, b: seq<Candidate>)
    requires (forall c :: c in a ==> c.Failure?) && (forall c :: c in b ==> c.Failure?)
    ensures ScoredFailures(lower, input, a + b) == ScoredFailures(lower, input, a) + ScoredFailures(lower, input, b)
  {
  }

  /** The failures are sorted as two blocks: the failing tests, then the runtime errors. */
  lemma TestsSortFirst(lower: string -> string, input: Input)
    ensures var tests := StableSort(ScoredFailures(lower, input, TestCandidates(input.tests)));
            var errors := StableSort(ScoredFailures(lower, input, ErrorCandidates(input.logs)));
            && StableSort(GatheredFailures(lower, input)) == tests + errors
            && OfReason(tests, FailingTest) && OfReason(errors, ErrorLog)
  {
    var tests := ScoredFailures(lower, input, TestCandidates(input.tests));
    var errors := ScoredFailures(lower, input, ErrorCandidates(input.logs));
    ScoredFailuresConcat(lower, input, TestCandidates(input.tests), ErrorCandidates(input.logs));
    assert forall y :: y in errors ==> y.score == 0;
    SortConcat(tests, errors);
    SortKeepsReason(tests, FailingTest);
    SortKeepsReason(errors, ErrorLog);
  }

  lemma BlocksFillInOrder(a: seq<Scored>, b: seq<Scored>, taken: nat, first: Reason, second: Reason,
                          d: Decision, e: Decision)
    requires OfReason(a, first) && OfReason(b, second) && first != second
    requires d in Decisions(a + b, taken) && e in Decisions(a + b, taken)
    requires d.reason == second && !d.dropped && e.reason == first
    ensures !e.dropped
  {
    var s: seq<Scored> := a + b;
    var i :| 0 <= i < |s| && Decisions(s, taken)[i] == d;
    var j :| 0 <= j < |s| && Decisions(s, taken)[j] == e;
    assert j < |a| <= i;
  }

  /** A runtime error is selected only if every failing test is. */
  ghost predicate TestsComeFirst(ds: seq<Decision>) {
    forall d, e :: d in ds && e in ds && d.reason == ErrorLog && !d.dropped && e.reason == FailingTest ==> !e.dropped
  }

  lemma FailingTestsFirst(lower: string -> string, input: Input, caps: Caps)
    ensures TestsComeFirst(Selected(lower, input, caps).decisions)
  {
    var files := StableSort(GatheredFiles(lower, input));
    TestsSortFirst(lower, input);
    var tests := StableSort(ScoredFailures(lower, input, TestCandidates(input.tests)));
    var errors := StableSort(ScoredFailures(lower, input, ErrorCandidates(input.logs)));
    var k := CountsFor(|files|, |tests + errors|, 0, caps);
    FilesHaveFileReasons(lower, input, k.files);
    var ds := Selected(lower, input, caps).decisions;
    hide StableSort, ScoredFailures, TestCandidates, ErrorCandidates, CountsFor, Decisions;
    assert ds == Decisions(files, k.files) + Decisions(tests + errors, k.failures) + Decisions([], k.docs);
    forall d, e | d in ds && e in ds && d.reason == ErrorLog && !d.dropped && e.reason == FailingTest
      ensures !e.dropped
    {
      BlocksFillInOrder(tests, errors, k.failures, FailingTest, ErrorLog, d, e);
    }
  }

  lemma FilesHaveFileReasons(lower: string -> string, input: Input, taken: nat)
    ensures forall d :: d in Decisions(StableSort(GatheredFiles(lower, input)), taken) ==>
              d.reason == ExplicitlyReferenced || d.reason == TopLevelEntry
  {
    var s := StableSort(GatheredFiles(lower, input));
    SortKeepsMembers(GatheredFiles(lower, input));
    forall d | d in Decisions(s, taken) ensures d.reason == ExplicitlyReferenced || d.reason == TopLevelEntry {
      var i :| 0 <= i < |s| && d == Decide(s[i], i >= taken);
      assert s[i] in s;
    }
  }

  // ---- explicitly named files come before top-level entries ----

  /** The collected paths are those collected from the relevant files, then paths that are not relevant. */
  lemma {:induction false} CollectSplit(relevant: seq<string>, top: seq<string>)
    ensures Collect(relevant) <= Collect(relevant + top)
    ensures forall p :: p in Collect(relevant + top)[|Collect(relevant)|..] ==> p !in relevant
    decreases |top|
  {
    if top == [] {
      assert relevant + top == relevant;
    } else {
      var init, last := top[..|top| - 1], top[|top| - 1];
      CollectSplit(relevant, init);
      SplitGrows(relevant, relevant + init, last);
      assert relevant + init + [last] == relevant + top;
    }
  }

  lemma SplitGrows(relevant: seq<string>, paths: seq<string>, last: string)
    requires relevant <= paths && Collect(relevant) <= Collect(paths)
    requires forall p :: p in Collect(paths)[|Collect(relevant)|..] ==> p !in relevant
    ensures Collect(relevant) <= Collect(paths + [last])
    ensures forall p :: p in Collect(paths + [last])[|Collect(relevant)|..] ==> p !in relevant
  {
    hide Collect, IsExcluded;
    CollectAppend(paths, last);
    CollectsFirstOccurrences(paths);
    var a, g := Collect(relevant), Collect(paths);
    assert last in relevant ==> last in paths;
    assert (g + [last])[|a|..] == g[|a|..] + [last];
  }

  /** A path not named explicitly is selected only if every gathered one that is named explicitly is. */
  ghost predicate ExplicitFirst(input: Input, r: SelectionResult) {
    forall p, q :: "file:" + p in r.files && p !in input.relevant && q in input.relevant && !IsExcluded(q)
      ==> "file:" + q in r.files
  }

  /** No gathered path outside the relevant ones scores above a gathered relevant one. */
  ghost predicate ExplicitScoresHigher(lower: string -> string, input: Input) {
    forall p, q :: p in input.top && p !in input.relevant && !IsExcluded(p) && q in input.relevant && !IsExcluded(q)
      ==> PathScore(lower, input, q) >= PathScore(lower, input, p)
  }

  function ScoredPath(lower: string -> string, input: Input, path: string): Scored {
    Scored(PathScore(lower, input, path), FileFor(input.relevant, path))
  }

  function ScoredPaths(lower: string -> string, input: Input, paths: seq<string>): seq<Scored> {
    seq(|paths|, i requires 0 <= i < |paths| => ScoredPath(lower, input, paths[i]))
  }

  lemma GatheredPaths(lower: string -> string, input: Input)
    ensures GatheredFiles(lower, input) == ScoredPaths(lower, input, Collect(input.relevant + input.top))
  {
  }

  lemma FileIds(p: string, q: string)
    ensures "file:" + p == "file:" + q <==> p == q
  {
    assert ("file:" + p)[5..] == p && ("file:" + q)[5..] == q;
  }

  /** `s` holds the scored forms of `paths`, in some order. */
  ghost predicate ScoresOf(lower: string -> string, input: Input, s: seq<Scored>, paths: seq<string>) {
    && (forall i :: 0 <= i < |s| ==>
          s[i].item.File? && s[i].item.path in paths && s[i] == ScoredPath(lower, input, s[i].item.path))
    && (forall p :: p in paths ==> ScoredPath(lower, input, p) in s)
  }

  lemma SortedPaths(lower: string -> string, input: Input, paths: seq<string>)
    ensures ScoresOf(lower, input, StableSort(ScoredPaths(lower, input, paths)), paths)
  {
    var s := ScoredPaths(lower, input, paths);
    var t := StableSort(s);
    SortKeepsMembers(s);
    forall i | 0 <= i < |t|
      ensures t[i].item.File? && t[i].item.path in paths && t[i] == ScoredPath(lower, input, t[i].item.path)
    {
      assert t[i] in s;
    }
    forall p | p in paths ensures ScoredPath(lower, input, p) in t {
      var i :| 0 <= i < |paths| && paths[i] == p;
      assert s[i] in s;
    }
  }

  /** The path at a selected position, and the other way around. */
  lemma SelectedPath(lower: string -> string, input: Input, s: seq<Scored>, paths: seq<string>, taken: nat,
                     path: string)
    requires ScoresOf(lower, input, s, paths) && taken <= |s|
    ensures "file:" + path in Ids(s)[..taken] <==> exists i :: 0 <= i < taken && s[i] == ScoredPath(lower, input, path)
  {
    if "file:" + path in Ids(s)[..taken] {
      var i :| 0 <= i < taken && Ids(s)[i] == "file:" + path;
      FileIds(s[i].item.path, path);
    }
    if i :| 0 <= i < taken && s[i] == ScoredPath(lower, input, path) {
      assert Ids(s)[..taken][i] == "file:" + path;
    }
  }

  lemma ScoredPathsConcat(lower: string -> string, input: Input, a: seq<string>, b: seq<string>)
    ensures ScoredPaths(lower, input, a + b) == ScoredPaths(lower, input, a) + ScoredPaths(lower, input, b)
  {
  }

  lemma BlocksSideBySide(lower: string -> string, input: Input, a: seq<string>, b: seq<string>)
    requires forall p, q :: p in b && q in a ==> PathScore(lower, input, q) >= PathScore(lower, input, p)
    ensures StableSort(ScoredPaths(lower, input, a + b)) ==
            StableSort(ScoredPaths(lower, input, a)) + StableSort(ScoredPaths(lower, input, b))
  {
    ScoredPathsConcat(lower, input, a, b);
    SortConcat(ScoredPaths(lower, input, a), ScoredPaths(lower, input, b));
  }

  lemma EarlierBlockFillsFirst(
    lower: string -> string, input: Input, s: seq<Scored>, t: seq<Scored>, a: seq<string>, b: seq<string>,
    taken: nat, p: string, q: string)
    requires ScoresOf(lower, input, s, a) && ScoresOf(lower, input, t, b) && ScoresOf(lower, input, s + t, a + b)
    requires taken <= |s + t| && p !in a && q in a && "file:" + p in Ids(s + t)[..taken]
    ensures "file:" + q in Ids(s + t)[..taken]
  {
    var joined: seq<Scored> := s + t;
    SelectedPath(lower, input, joined, a + b, taken, p);
    var i :| 0 <= i < taken && joined[i] == ScoredPath(lower, input, p);
    var j :| 0 <= j < |s| && s[j] == ScoredPath(lower, input, q);
    assert joined[j] == s[j];
    SelectedPath(lower, input, joined, a + b, taken, q);
  }

  lemma ExplicitFirstHolds(lower: string -> string, input: Input, caps: Caps)
    requires ExplicitScoresHigher(lower, input)
    ensures ExplicitFirst(input, Selected(lower, input, caps))
  {
    hide PathScore, StableSort, Collect, ScoredPaths, ScoresOf, Decisions, IsExcluded, GatheredFailures, GatheredFiles;
    var g, a := Collect(input.relevant + input.top), Collect(input.relevant);
    CollectSplit(input.relevant, input.top);
    CollectsFirstOccurrences(input.relevant);
    CollectsFirstOccurrences(input.relevant + input.top);
    var b := g[|a|..];
    assert g == a + b;
    assert forall p :: p in b ==> p in g;
    BlocksSideBySide(lower, input, a, b);
    SortedPaths(lower, input, a);
    SortedPaths(lower, input, b);
    SortedPaths(lower, input, g);
    GatheredPaths(lower, input);
    var s, t := StableSort(ScoredPaths(lower, input, a)), StableSort(ScoredPaths(lower, input, b));
    var k := CountsFor(|s + t|, |StableSort(GatheredFailures(lower, input))|, 0, caps).files;
    forall p, q | "file:" + p in Ids(s + t)[..k] && p !in input.relevant && q in input.relevant && !IsExcluded(q)
      ensures "file:" + q in Ids(s + t)[..k]
    {
      EarlierBlockFillsFirst(lower, input, s, t, a, b, k, p, q);
    }
  }

  lemma FillsUpTo(lower: string -> string, input: Input, s: seq<Scored>, paths: seq<string>, j: nat,
                  p: string, q: string)
    requires ScoresOf(lower, input, s, paths) && Descending(s)
    requires j < |s| && s[j] == ScoredPath(lower, input, p) && PathScore(lower, input, q) < PathScore(lower, input, p)
    ensures "file:" + p in Ids(s)[..j + 1] && "file:" + q !in Ids(s)[..j + 1]
  {
    hide PathScore, ItemId;
    SelectedPath(lower, input, s, paths, j + 1, p);
    SelectedPath(lower, input, s, paths, j + 1, q);
  }

  /** With both caps set just high enough to select it, a path shuts out every path that scores lower. */
  lemma OutscoredIsDropped(lower: string -> string, input: Input, p: string, q: string) returns (caps: Caps)
    requires p in Collect(input.relevant + input.top) && PathScore(lower, input, q) < PathScore(lower, input, p)
    ensures "file:" + p in Selected(lower, input, caps).files && "file:" + q !in Selected(lower, input, caps).files
  {
    hide PathScore, StableSort, Collect, ScoredPaths, Decisions, IsExcluded, GatheredFailures, GatheredFiles;
    var g := Collect(input.relevant + input.top);
    GatheredPaths(lower, input);
    SortedPaths(lower, input, g);
    SortSorts(ScoredPaths(lower, input, g));
    var s := StableSort(ScoredPaths(lower, input, g));
    var j :| 0 <= j < |s| && s[j] == ScoredPath(lower, input, p);
    caps := Caps(j + 1, 0, 0, j + 1);
    assert Selected(lower, input, caps).files == Ids(s)[..j + 1];
    FillsUpTo(lower, input, s, g, j, p, q);
  }

  /** Explicitly named files come first under every choice of caps exactly when none of them is outscored. */
  lemma ExplicitFirstIff(lower: string -> string, input: Input)
    ensures (forall caps :: ExplicitFirst(input, Selected(lower, input, caps))) <==> ExplicitScoresHigher(lower, input)
  {
    hide PathScore, Selected, IsExcluded;
    if ExplicitScoresHigher(lower, input) {
      forall caps ensures ExplicitFirst(input, Selected(lower, input, caps)) {
        ExplicitFirstHolds(lower, input, caps);
      }
    } else {
      var p, q :| p in input.top && p !in input.relevant && !IsExcluded(p) && q in input.relevant && !IsExcluded(q)
        && PathScore(lower, input, q) < PathScore(lower, input, p);
      CollectsFirstOccurrences(input.relevant + input.top);
      var caps := OutscoredIsDropped(lower, input, p, q);
      assert !ExplicitFirst(input, Selected(lower, input, caps));
    }
  }

  /** Only the import boost can lift a path above an explicitly named one. */
  lemma ExplicitFirstWithoutImports(lower: string -> string, input: Input, caps: Caps)
    requires input.importedBy.Some? ==>
               forall p :: p in input.importedBy.value && p in input.top ==> p in input.relevant || IsExcluded(p)
    ensures ExplicitFirst(input, Selected(lower, input, caps))
  {
    ExplicitFirstHolds(lower, input, caps);
  }

  lemma ExtensionsHaveADot(e: string)
    requires e in EXCLUDED_EXTENSIONS
    ensures '.' in e
  {
  }

  lemma PlainNameIsKept(p: string)
    requires '.' !in p && '/' !in p && '\\' !in p && p !in EXCLUDED_DIRS && p !in EXCLUDED_FILES
    ensures !IsExcluded(p)
  {
    assert Replace(p, '\\', '/') == p;
    SplitOne(p, '/');
    forall e | e in EXCLUDED_EXTENSIONS ensures !EndsWith(p, e) {
      ExtensionsHaveADot(e);
    }
  }

  lemma OutrankingScores(lower: string -> string, input: Input)
    requires lower("a") == "a" && lower("srctest") == "srctest" && lower("src") == "src" && lower("") == ""
    requires input == Input(["a"], [], [], "", ["src"], ["srctest"], Some({"srctest"}), None)
    ensures PathScore(lower, input, "a") == 100 && PathScore(lower, input, "srctest") == 105
  {
    assert OccursAt("srctest", "src", 0) && OccursAt("srctest", "test", 3);
    assert KeywordSet(lower, input.keywords) == {"src"} by {
      assert !IsSpace("src"[0]);
    }
  }

  /** The import boost can: a file that is imported outscores an explicitly named one. */
  lemma ImportsCanOutrankExplicit(lower: string -> string, input: Input)
    requires lower("a") == "a" && lower("srctest") == "srctest" && lower("src") == "src" && lower("") == ""
    requires input == Input(["a"], [], [], "", ["src"], ["srctest"], Some({"srctest"}), None)
    ensures exists caps :: !ExplicitFirst(input, Selected(lower, input, caps))
  {
    hide Selected, PathScore, IsExcluded;
    PlainNameIsKept("a");
    PlainNameIsKept("srctest");
    OutrankingScores(lower, input);
    ExplicitFirstIff(lower, input);
  }
}
