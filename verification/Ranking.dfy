/** What each fact about a candidate adds to its score, and the order that results. */
module Ranking {
  import opened Text
  import opened Candidates
  import opened Scoring
  import opened Sorting
  import opened Selection
  import opened SelectionLaws

  // ---- what a fact adds ----

  /** What a path and a title alone are worth. */
  lemma PlainFileScore(lower: string -> string, path: string, title: string)
    ensures var p := lower(path);
            FileScore(lower, path, {}, title, {}) ==
            (if Contains(p, "test") then 40 else 0)
            + (if Contains(p, "src") || Contains(p, "lib") || Contains(p, "app") then 15 else 0)
  {
    NoKeywordIn(lower(path));
    NoKeywordIn(lower(title));
  }

  lemma NoKeywordIn(text: string)
    ensures !AnyIn({}, text)
  {
  }

  lemma RelevantFileAdds(lower: string -> string, path: string, relevant: set<string>, title: string,
                         keywords: set<string>)
    ensures FileScore(lower, path, relevant, title, keywords) ==
            FileScore(lower, path, {}, title, keywords) + if path in relevant then 100 else 0
  {
  }

  /** A keyword counts once for the path and once for the title, and only the first that occurs. */
  lemma FileKeywordAdds(lower: string -> string, path: string, relevant: set<string>, title: string,
                        keywords: set<string>, k: string)
    ensures var p, t := lower(path), lower(title);
            FileScore(lower, path, relevant, title, keywords + {k}) ==
            FileScore(lower, path, relevant, title, keywords)
            + (if Contains(p, k) && !AnyIn(keywords, p) then 10 else 0)
            + (if Contains(t, k) && !AnyIn(keywords, t) then 5 else 0)
  {
    hide Contains;
    OneMoreKeyword(keywords, k, lower(path));
    OneMoreKeyword(keywords, k, lower(title));
  }

  lemma OneMoreKeyword(keywords: set<string>, k: string, text: string)
    ensures AnyIn(keywords + {k}, text) <==> AnyIn(keywords, text) || Contains(text, k)
  {
    hide Contains;
    if Contains(text, k) {
      assert k in keywords + {k};
    }
    if q :| q in keywords && Contains(text, q) {
      assert q in keywords + {k};
    }
  }

  /** A failure without a file is worth nothing, one with a file nothing by itself. */
  lemma PlainFailureScore(lower: string -> string, file: Option<string>, relevant: set<string>, keywords: set<string>)
    ensures file.None? || file == Some("") ==> FailureScore(lower, file, relevant, keywords) == 0
    ensures FailureScore(lower, file, {}, {}) == 0
  {
    if file.Some? {
      NoKeywordIn(lower(file.value));
    }
  }

  lemma RelevantFailureAdds(lower: string -> string, file: string, relevant: set<string>, keywords: set<string>)
    requires file != ""
    ensures FailureScore(lower, Some(file), relevant, keywords) ==
            FailureScore(lower, Some(file), {}, keywords) + if file in relevant then 90 else 0
  {
  }

  lemma FailureKeywordAdds(lower: string -> string, file: string, relevant: set<string>, keywords: set<string>,
                           k: string)
    requires file != ""
    ensures FailureScore(lower, Some(file), relevant, keywords + {k}) ==
            FailureScore(lower, Some(file), relevant, keywords)
            + if Contains(lower(file), k) && !AnyIn(keywords, lower(file)) then 20 else 0
  {
    hide Contains;
    OneMoreKeyword(keywords, k, lower(file));
  }

  lemma DocKeywordAdds(lower: string -> string, title: string, source: string, keywords: set<string>, k: string)
    ensures DocScore(lower, title, source, {}) == 0
    ensures var t, r := lower(title), lower(source);
            DocScore(lower, title, source, keywords + {k}) ==
            DocScore(lower, title, source, keywords)
            + (if Contains(t, k) && !AnyIn(keywords, t) then 30 else 0)
            + (if Contains(r, k) && !AnyIn(keywords, r) then 15 else 0)
  {
    hide Contains;
    NoKeywordIn(lower(title));
    NoKeywordIn(lower(source));
    OneMoreKeyword(keywords, k, lower(title));
    OneMoreKeyword(keywords, k, lower(source));
  }

  // ---- the directory of a path ----

  predicate IsSlash(c: char) {
    c == '/' || c == '\\'
  }

  predicate PlainName(s: string) {
    forall i :: 0 <= i < |s| ==> !IsSlash(s[i])
  }

  /** The path lies directly in `dir`: what precedes its last slash is `dir`, its slashes turned forward. */
  ghost predicate DirectlyIn(path: string, dir: string) {
    exists k :: 0 <= k < |path| && IsSlash(path[k]) && PlainName(path[k + 1..]) && Replace(path[..k], '\\', '/') == dir
  }

  lemma NameHasOnePart(name: string)
    requires PlainName(name)
    ensures Parts(name) == [name]
  {
    assert Replace(name, '\\', '/') == name;
    SplitOne(name, '/');
  }

  lemma {:induction false} LastSlash(s: string) returns (k: nat)
    requires !PlainName(s)
    ensures k < |s| && IsSlash(s[k]) && PlainName(s[k + 1..])
  {
    if PlainName(s[1..]) {
      k := 0;
    } else {
      k := LastSlash(s[1..]);
      assert s[1..][k + 1..] == s[k + 2..];
      k := k + 1;
    }
  }

  /** The directory is what precedes the last slash. */
  lemma DirOfSlashed(path: string, k: nat)
    requires k < |path| && IsSlash(path[k]) && PlainName(path[k + 1..])
    ensures DirOf(path) == Replace(path[..k], '\\', '/')
  {
    var d, name := path[..k], path[k + 1..];
    var r := Replace(path, '\\', '/');
    var rd := Replace(d, '\\', '/');
    assert r == rd + "/" + name;
    SplitConcat(rd, name, '/');
    SplitOne(name, '/');
    assert Parts(path) == Split(rd, '/') + [name];
    var ps := Parts(path);
    assert ps[..|ps| - 1] == Split(rd, '/');
  }

  /** A file is in the directory it is written under, whichever way its slashes lean, and a bare name in none. */
  lemma DirOfJoined(d: string, name: string)
    requires PlainName(name)
    ensures DirOf(d + "/" + name) == DirOf(d + "\\" + name) == Replace(d, '\\', '/')
    ensures DirOf(name) == ""
  {
    var p, q := d + "/" + name, d + "\\" + name;
    assert p[..|d|] == d && p[|d| + 1..] == name && q[..|d|] == d && q[|d| + 1..] == name;
    DirOfSlashed(p, |d|);
    DirOfSlashed(q, |d|);
    NameHasOnePart(name);
  }

  lemma LaterSlash(path: string, j: nat, k: nat)
    requires j < k < |path| && IsSlash(path[k])
    ensures !PlainName(path[j + 1..])
  {
    assert path[j + 1..][k - j - 1] == path[k];
  }

  lemma DirOfIff(path: string, dir: string)
    requires dir != ""
    ensures DirOf(path) == dir <==> DirectlyIn(path, dir)
  {
    if PlainName(path) {
      NameHasOnePart(path);
    } else {
      var k := LastSlash(path);
      DirOfSlashed(path, k);
      forall j | 0 <= j < |path| && IsSlash(path[j]) && PlainName(path[j + 1..]) ensures j == k {
        if k < j { LaterSlash(path, k, j); }
        if j < k { LaterSlash(path, j, k); }
      }
    }
  }

  // ---- boosts ----

  /** The selected directory, if one is given, is worth 20 points to exactly the files directly in it. */
  lemma DirectoryAdds(lower: string -> string, input: Input, path: string, dir: string)
    ensures PathScore(lower, input.(selectedDir := Some(dir)), path) ==
            PathScore(lower, input.(selectedDir := None), path) + if dir != "" && DirectlyIn(path, dir) then 20 else 0
  {
    hide FileScore, DirOf, DirectlyIn;
    if dir != "" {
      DirOfIff(path, dir);
    }
  }

  /** Being imported is worth 40 points. */
  lemma ImportAdds(lower: string -> string, input: Input, path: string, importedBy: set<string>)
    ensures PathScore(lower, input.(importedBy := Some(importedBy)), path) ==
            PathScore(lower, input.(importedBy := None), path) + if path in importedBy then 40 else 0
  {
    hide FileScore, DirOf;
  }

  // ---- keywords ----

  lemma KeywordSetGrows(lower: string -> string, ks: seq<string>, k: string)
    ensures KeywordSet(lower, ks + [k]) ==
            if Blank(k) then KeywordSet(lower, ks) else KeywordSet(lower, ks) + {lower(k)}
  {
    hide Blank;
    forall x ensures x in KeywordSet(lower, ks + [k]) <==>
                     x in if Blank(k) then KeywordSet(lower, ks) else KeywordSet(lower, ks) + {lower(k)} {
      if q :| q in ks && !Blank(q) && lower(q) == x {
        assert q in ks + [k];
      }
      if !Blank(k) && x == lower(k) {
        assert k in ks + [k];
      }
    }
  }

  /** A keyword is matched in lower case against the path and the title in lower case; a blank one is ignored. */
  lemma KeywordAdds(lower: string -> string, input: Input, path: string, k: string)
    ensures var had, p, t := KeywordSet(lower, input.keywords), lower(path), lower(input.title);
            PathScore(lower, input.(keywords := input.keywords + [k]), path) ==
            PathScore(lower, input, path)
            + (if !Blank(k) && Contains(p, lower(k)) && !AnyIn(had, p) then 10 else 0)
            + (if !Blank(k) && Contains(t, lower(k)) && !AnyIn(had, t) then 5 else 0)
  {
    hide FileScore, DirOf, Contains, AnyIn, Blank, KeywordSet;
    KeywordSetGrows(lower, input.keywords, k);
    FileKeywordAdds(lower, path, Relevant(input), input.title, KeywordSet(lower, input.keywords), lower(k));
  }

  // ---- the order of files ----

  predicate NamesCode(p: string) {
    Contains(p, "src") || Contains(p, "lib") || Contains(p, "app")
  }

  /** Relevant before not, then tests before others, then code before others, then a keyword before none. */
  predicate Outranks(lower: string -> string, input: Input, p: string, q: string) {
    var keywords := KeywordSet(lower, input.keywords);
    var lp, lq := lower(p), lower(q);
    if (p in input.relevant) != (q in input.relevant) then p in input.relevant
    else if Contains(lp, "test") != Contains(lq, "test") then Contains(lp, "test")
    else if NamesCode(lp) != NamesCode(lq) then NamesCode(lp)
    else AnyIn(keywords, lp) && !AnyIn(keywords, lq)
  }

  /** Without boosts, scores compare as these four facts do, one after the other. */
  lemma RankingIsLexicographic(lower: string -> string, input: Input, p: string, q: string)
    requires input.importedBy.None? || input.importedBy == Some({})
    requires input.selectedDir.None? || input.selectedDir == Some("")
    ensures PathScore(lower, input, p) > PathScore(lower, input, q) <==> Outranks(lower, input, p, q)
  {
    hide Contains, AnyIn, KeywordSet;
  }

  /** A failure in a relevant file comes before one that is not, and a keyword decides only after that. */
  lemma FailuresRankByFile(lower: string -> string, f: string, g: string, relevant: set<string>, keywords: set<string>)
    requires f != "" && g != ""
    ensures FailureScore(lower, Some(f), relevant, keywords) > FailureScore(lower, Some(g), relevant, keywords) <==>
            if (f in relevant) != (g in relevant) then f in relevant
            else AnyIn(keywords, lower(f)) && !AnyIn(keywords, lower(g))
  {
    hide Contains, AnyIn;
  }

  // ---- what the decisions say ----

  /** A decision is about a gathered candidate and says of it what was scored. */
  lemma DecisionOrigin(lower: string -> string, input: Input, caps: Caps, d: Decision)
    requires d in Selected(lower, input, caps).decisions
    ensures exists x :: (x in GatheredFiles(lower, input) || x in GatheredFailures(lower, input))
                        && d == Decide(x, d.dropped)
  {
    var a, b := StableSort(GatheredFiles(lower, input)), StableSort(GatheredFailures(lower, input));
    SortKeepsMembers(GatheredFiles(lower, input));
    SortKeepsMembers(GatheredFailures(lower, input));
    hide StableSort, Decide, GatheredFiles, GatheredFailures;
    var k := CountsFor(|a|, |b|, 0, caps);
    if d in Decisions(a, k.files) {
      DecisionIn(a, k.files, d);
    } else {
      assert d in Decisions(b, k.failures);
      DecisionIn(b, k.failures, d);
    }
  }

  lemma DecisionIn(s: seq<Scored>, taken: nat, d: Decision)
    requires d in Decisions(s, taken)
    ensures exists x :: x in s && d == Decide(x, d.dropped)
  {
    var i :| 0 <= i < |s| && d == Decide(s[i], i >= taken);
    assert s[i] in s;
  }

  /** Of a file, a decision tells the path, the score and whether it was named explicitly. */
  ghost predicate TellsOfFile(lower: string -> string, input: Input, d: Decision) {
    exists p :: (p in input.relevant || p in input.top) && !IsExcluded(p)
                && d.itemId == "file:" + p && d.kind == FileKind && d.score == PathScore(lower, input, p)
                && d.reason == (if p in input.relevant then ExplicitlyReferenced else TopLevelEntry)
  }

  /** Of a failing test, its name and a score that depends on its file; a runtime error always says the same. */
  ghost predicate TellsOfFailure(lower: string -> string, input: Input, d: Decision) {
    && d.kind == FailureKind
    && match d.reason
       case FailingTest =>
         exists t :: t in input.tests && d.itemId == "failure:" + t && d.score == TestScore(lower, input, t)
       case ErrorLog => d.itemId == "failure:runtime error" && d.score == 0
       case _ => false
  }

  function TestScore(lower: string -> string, input: Input, t: string): int {
    FailureScore(lower, FileOf(t), Relevant(input), KeywordSet(lower, input.keywords))
  }

  lemma DecisionsTell(lower: string -> string, input: Input, caps: Caps, d: Decision)
    requires d in Selected(lower, input, caps).decisions
    ensures TellsOfFile(lower, input, d) || TellsOfFailure(lower, input, d)
  {
    DecisionOrigin(lower, input, caps, d);
    var x :| (x in GatheredFiles(lower, input) || x in GatheredFailures(lower, input)) && d == Decide(x, d.dropped);
    if x in GatheredFiles(lower, input) {
      FileTells(lower, input, x, d);
    } else {
      FailureTells(lower, input, x, d);
    }
  }

  lemma FileTells(lower: string -> string, input: Input, x: Scored, d: Decision)
    requires x in GatheredFiles(lower, input) && d == Decide(x, d.dropped)
    ensures TellsOfFile(lower, input, d)
  {
    hide PathScore, Collect, IsExcluded;
    GatheredPaths(lower, input);
    CollectsFirstOccurrences(input.relevant + input.top);
    var g := Collect(input.relevant + input.top);
    var i :| 0 <= i < |g| && x == ScoredPath(lower, input, g[i]);
    assert g[i] in g && g[i] in input.relevant + input.top;
  }

  lemma FailureTells(lower: string -> string, input: Input, x: Scored, d: Decision)
    requires x in GatheredFailures(lower, input) && d == Decide(x, d.dropped)
    ensures TellsOfFailure(lower, input, d)
  {
    hide FailureScore, KeywordSet, Errors, FileOf;
    var cs := TestCandidates(input.tests) + ErrorCandidates(input.logs);
    var i :| 0 <= i < |cs| && x == ScoredFailure(lower, input, cs[i]);
    if i < |input.tests| {
      assert input.tests[i] in input.tests;
    } else {
      PlainFailureScore(lower, None, Relevant(input), KeywordSet(lower, input.keywords));
    }
  }

  // ---- failing tests of relevant files ----

  predicate InRelevantFile(input: Input, t: string) {
    FileOf(t).Some? && FileOf(t).value != "" && FileOf(t).value in input.relevant
  }

  /** A test whose file is not relevant is selected only if every failing test of a relevant file is. */
  ghost predicate RelevantTestsFirst(input: Input, ds: seq<Decision>) {
    forall d, e, t, u ::
      d in ds && d.reason == FailingTest && d.itemId == "failure:" + t && !InRelevantFile(input, t) && !d.dropped
      && e in ds && e.reason == FailingTest && e.itemId == "failure:" + u && InRelevantFile(input, u)
      ==> !e.dropped
  }

  lemma FailureIds(t: string, u: string)
    ensures "failure:" + t == "failure:" + u <==> t == u
  {
    assert ("failure:" + t)[8..] == t && ("failure:" + u)[8..] == u;
  }

  lemma TestDecision(lower: string -> string, input: Input, caps: Caps, d: Decision, t: string)
    requires d in Selected(lower, input, caps).decisions && d.reason == FailingTest && d.itemId == "failure:" + t
    ensures d.kind == FailureKind && d.score == TestScore(lower, input, t)
  {
    hide Selected, TestScore, PathScore, IsExcluded;
    DecisionsTell(lower, input, caps, d);
    var u :| u in input.tests && d.itemId == "failure:" + u && d.score == TestScore(lower, input, u);
    FailureIds(t, u);
  }

  lemma RelevantScoresHigher(lower: string -> string, input: Input, t: string, u: string)
    requires !InRelevantFile(input, t) && InRelevantFile(input, u)
    ensures TestScore(lower, input, t) < TestScore(lower, input, u)
  {
    hide AnyIn, KeywordSet, FileOf;
  }

  lemma RelevantTestsComeFirst(lower: string -> string, input: Input, caps: Caps)
    ensures RelevantTestsFirst(input, Selected(lower, input, caps).decisions)
  {
    hide TestScore, InRelevantFile, Selected;
    var ds := Selected(lower, input, caps).decisions;
    SelectionDominates(lower, input, caps);
    forall d, e, t, u |
      d in ds && d.reason == FailingTest && d.itemId == "failure:" + t && !InRelevantFile(input, t) && !d.dropped
      && e in ds && e.reason == FailingTest && e.itemId == "failure:" + u && InRelevantFile(input, u)
      ensures !e.dropped
    {
      TestDecision(lower, input, caps, d, t);
      TestDecision(lower, input, caps, e, u);
      RelevantScoresHigher(lower, input, t, u);
    }
  }

  // ---- the lists and the decisions ----

  /** The ids of the decisions that drop, or of those that do not, in order. */
  function IdsOf(ds: seq<Decision>, dropped: bool): seq<string> {
    if ds == [] then []
    else (if ds[0].dropped == dropped then [ds[0].itemId] else []) + IdsOf(ds[1..], dropped)
  }

  lemma {:induction false} IdsOfConcat(a: seq<Decision>, b: seq<Decision>, dropped: bool)
    ensures IdsOf(a + b, dropped) == IdsOf(a, dropped) + IdsOf(b, dropped)
  {
    if a == [] {
      assert a + b == b;
    } else {
      assert (a + b)[1..] == a[1..] + b;
      IdsOfConcat(a[1..], b, dropped);
    }
  }

  lemma {:induction false} IdsOfTaken(s: seq<Scored>, taken: nat)
    requires taken <= |s|
    ensures IdsOf(Decisions(s, taken), false) == Ids(s)[..taken]
    ensures IdsOf(Decisions(s, taken), true) == Ids(s)[taken..]
  {
    var ds := Decisions(s, taken);
    if s == [] {
      assert ds == [];
    } else {
      var less := if taken == 0 then 0 else taken - 1;
      IdsOfTaken(s[1..], less);
      assert ds[1..] == Decisions(s[1..], less);
      assert Ids(s) == [ItemId(s[0].item)] + Ids(s[1..]);
    }
  }

  /** The lists of a selection are the decisions, read in order: the selected kind by kind, then the dropped. */
  lemma ListsAreDecisions(files: seq<Scored>, failures: seq<Scored>, docs: seq<Scored>, caps: Caps)
    ensures var r := Filled(files, failures, docs, caps);
            r.files + r.failures + r.docs == IdsOf(r.decisions, false) && r.dropped == IdsOf(r.decisions, true)
  {
    hide CountsFor, Decisions, Ids, IdsOf;
    var k := CountsFor(|files|, |failures|, |docs|, caps);
    IdsOfTaken(files, k.files);
    IdsOfTaken(failures, k.failures);
    IdsOfTaken(docs, k.docs);
    forall b ensures IdsOf(Decisions(files, k.files) + Decisions(failures, k.failures) + Decisions(docs, k.docs), b) ==
                     IdsOf(Decisions(files, k.files), b) + IdsOf(Decisions(failures, k.failures), b)
                     + IdsOf(Decisions(docs, k.docs), b) {
      IdsOfConcat(Decisions(files, k.files) + Decisions(failures, k.failures), Decisions(docs, k.docs), b);
      IdsOfConcat(Decisions(files, k.files), Decisions(failures, k.failures), b);
    }
  }

  /** The ids of what is gathered, by name. */
  lemma GatheredIds(lower: string -> string, input: Input)
    ensures var g, ids := Collect(input.relevant + input.top), Ids(GatheredFiles(lower, input));
            |ids| == |g| && forall i :: 0 <= i < |g| ==> ids[i] == "file:" + g[i]
    ensures var tests, ids := input.tests, Ids(GatheredFailures(lower, input));
            && |ids| == |tests| + |ErrorCandidates(input.logs)|
            && (forall i :: 0 <= i < |tests| ==> ids[i] == "failure:" + tests[i])
            && (forall i :: |tests| <= i < |ids| ==> ids[i] == "failure:runtime error")
  {
    hide PathScore, FailureScore, Collect, Errors, FileOf;
    GatheredPaths(lower, input);
  }

  lemma DocumentIds(docs: seq<Scored>)
    ensures forall i :: 0 <= i < |docs| && docs[i].item.Doc? ==> Ids(docs)[i] == "doc:" + docs[i].item.title
  {
  }

  /** With the default caps the shared cap never matters: five files, three failures, two documents. */
  lemma DefaultCaps(files: nat, failures: nat, docs: nat)
    ensures CountsFor(files, failures, docs, Caps()) == Counts(Min(files, 5), Min(failures, 3), Min(docs, 2))
  {
  }
}
