/** Gathering candidates for the context: deduplication, exclusion, first occurrences. */
module Candidates {
  import opened Text

  const EXCLUDED_DIRS := {
    "node_modules", "__pycache__", ".git", ".venv", "venv", "dist", "build", ".next", ".nox", ".tox", ".eggs",
    "site-packages", ".pytest_cache", "coverage", ".coverage"
  }

  const EXCLUDED_FILES := {"package-lock.json", "yarn.lock", "pnpm-lock.yaml", "poetry.lock", "Gemfile.lock"}

  const EXCLUDED_EXTENSIONS := {
    ".pyc", ".pyo", ".so", ".dll", ".dylib", ".png", ".jpg", ".jpeg", ".gif", ".ico", ".svg",
    ".ttf", ".woff", ".woff2", ".eot", ".zip", ".tar", ".gz", ".bz2"
  }

  datatype Reason = ExplicitlyReferenced | TopLevelEntry | FailingTest | ErrorLog | FromDocs

  datatype Candidate =
    | File(path: string, reason: Reason)
    | Failure(testName: string, filePath: Option<string>, reason: Reason)
    | Doc(title: string, source: string, reason: Reason)

  // ---- exclusion ----

  function Parts(path: string): seq<string> {
    Split(Replace(path, '\\', '/'), '/')
  }

  predicate HasExcludedPart(path: string) {
    exists i :: 0 <= i < |Parts(path)| && (Parts(path)[i] in EXCLUDED_DIRS || Parts(path)[i] in EXCLUDED_FILES)
  }

  predicate HasExcludedExtension(path: string) {
    exists e :: e in EXCLUDED_EXTENSIONS && EndsWith(path, e)
  }

  predicate IsExcluded(path: string) {
    || (exists p | p in Parts(path) :: p in EXCLUDED_DIRS)
    || (exists p | p in Parts(path) :: p in EXCLUDED_FILES)
    || (exists e | e in EXCLUDED_EXTENSIONS :: EndsWith(path, e))
  }

  lemma ExcludedBy(path: string)
    ensures IsExcluded(path) <==> HasExcludedPart(path) || HasExcludedExtension(path)
  {
  }

  lemma PlainExtension(e: string)
    requires e in EXCLUDED_EXTENSIONS
    ensures '/' !in e && '\\' !in e
  {
  }

  lemma ReplaceJoined(p: string, q: string)
    ensures Replace(p + "/" + q, '\\', '/') == Replace(p, '\\', '/') + "/" + Replace(q, '\\', '/')
  {
  }

  lemma PartsOfJoined(p: string, q: string)
    ensures Parts(p + "/" + q) == Parts(p) + Parts(q)
  {
    ReplaceJoined(p, q);
    SplitConcat(Replace(p, '\\', '/'), Replace(q, '\\', '/'), '/');
  }

  lemma ExtensionOfJoined(p: string, q: string, e: string)
    requires '/' !in e
    ensures EndsWith(p + "/" + q, e) <==> EndsWith(q, e)
  {
    var s := p + "/" + q;
    if |e| <= |q| {
      assert s[|s| - |e|..] == q[|q| - |e|..];
    } else if |e| <= |s| {
      assert s[|p|] == '/' && s[|s| - |e|..][|e| - |q| - 1] == '/';
    }
  }

  lemma PartOfJoined(p: string, q: string)
    ensures HasExcludedPart(p + "/" + q) <==> HasExcludedPart(p) || HasExcludedPart(q)
  {
    hide Parts;
    PartsOfJoined(p, q);
    var a, b := Parts(p), Parts(q);
    assert forall i :: 0 <= i < |a| ==> (a + b)[i] == a[i];
    assert forall i :: 0 <= i < |b| ==> (a + b)[|a| + i] == b[i];
  }

  lemma JoinedExtension(p: string, q: string)
    ensures HasExcludedExtension(p + "/" + q) <==> HasExcludedExtension(q)
  {
    hide EndsWith;
    forall e | e in EXCLUDED_EXTENSIONS ensures EndsWith(p + "/" + q, e) <==> EndsWith(q, e) {
      PlainExtension(e);
      ExtensionOfJoined(p, q, e);
    }
  }

  /** A joined path is excluded exactly when its head has an excluded part or its tail is excluded. */
  lemma ExclusionOfJoined(p: string, q: string)
    ensures IsExcluded(p + "/" + q) <==> HasExcludedPart(p) || IsExcluded(q)
  {
    hide IsExcluded, HasExcludedPart, HasExcludedExtension;
    ExcludedBy(p + "/" + q);
    ExcludedBy(q);
    PartOfJoined(p, q);
    JoinedExtension(p, q);
  }

  /** Some exclusions of each kind, by name: directories and files anywhere in a path, extensions at its end. */
  lemma KnownExclusions(p: string, q: string, name: string, extension: string)
    requires name in ["node_modules", ".git", "build", "yarn.lock", "package-lock.json"]
    requires extension in [".pyc", ".png", ".zip"]
    ensures IsExcluded(p + "/" + name) && IsExcluded(p + "/" + name + "/" + q) && IsExcluded(p + extension)
  {
    hide IsExcluded, EndsWith;
    KnownComponent(name);
    ComponentExcludes(p, name, q);
    KnownExtension(p, extension);
    ExcludedBy(p + extension);
  }

  lemma KnownComponent(name: string)
    requires name in ["node_modules", ".git", "build", "yarn.lock", "package-lock.json"]
    ensures name in EXCLUDED_DIRS || name in EXCLUDED_FILES
    ensures forall i :: 0 <= i < |name| ==> name[i] != '/' && name[i] != '\\'
  {
  }

  lemma KnownExtension(p: string, extension: string)
    requires extension in [".pyc", ".png", ".zip"]
    ensures HasExcludedExtension(p + extension)
  {
    assert extension in EXCLUDED_EXTENSIONS && EndsWith(p + extension, extension);
  }

  lemma ComponentExcludes(p: string, name: string, q: string)
    requires name in EXCLUDED_DIRS || name in EXCLUDED_FILES
    requires forall i :: 0 <= i < |name| ==> name[i] != '/' && name[i] != '\\'
    ensures IsExcluded(p + "/" + name) && IsExcluded(p + "/" + name + "/" + q)
  {
    hide IsExcluded;
    assert Replace(name, '\\', '/') == name;
    SplitOne(name, '/');
    assert Parts(name)[0] == name;
    PartOfJoined(p, name);
    ExcludedBy(p + "/" + name);
    ExclusionOfJoined(p + "/" + name, q);
  }

  lemma {:induction false} SplitOne(s: string, sep: char)
    requires sep !in s
    ensures Split(s, sep) == [s]
  {
    if s != "" {
      SplitOne(s[1..], sep);
    }
  }

  lemma ExtensionOfReplaced(p: string, e: string)
    requires '/' !in e && '\\' !in e
    ensures EndsWith(Replace(p, '\\', '/'), e) <==> EndsWith(p, e)
  {
    var r := Replace(p, '\\', '/');
    if |e| <= |p| {
      var x, y := p[|p| - |e|..], r[|r| - |e|..];
      assert forall i :: 0 <= i < |e| ==> y[i] == if x[i] == '\\' then '/' else x[i];
    }
  }

  /** It does not matter which way the slashes of a path lean. */
  lemma ExclusionIgnoresSlashes(p: string)
    ensures IsExcluded(Replace(p, '\\', '/')) <==> IsExcluded(p)
  {
    var r := Replace(p, '\\', '/');
    assert Replace(r, '\\', '/') == r;
    ExcludedBy(p);
    ExcludedBy(r);
    forall e | e in EXCLUDED_EXTENSIONS ensures EndsWith(r, e) <==> EndsWith(p, e) {
      PlainExtension(e);
      ExtensionOfReplaced(p, e);
    }
  }

  // ---- files ----

  /** What the gathering loops collect from a list of paths, given what they have already collected. */
  function Collect(paths: seq<string>): seq<string> {
    if paths == [] then []
    else
      var before, last := Collect(paths[..|paths| - 1]), paths[|paths| - 1];
      if last in before || IsExcluded(last) then before else before + [last]
  }

  function FirstIndex(s: seq<string>, x: string): nat {
    if s == [] || s[0] == x then 0 else 1 + FirstIndex(s[1..], x)
  }

  /** The distinct paths that are not excluded, in the order of their first occurrences. */
  ghost predicate FirstOccurrences(g: seq<string>, paths: seq<string>) {
    && (forall p :: p in g <==> p in paths && !IsExcluded(p))
    && (forall i, j :: 0 <= i < j < |g| ==> FirstIndex(paths, g[i]) < FirstIndex(paths, g[j]))
  }

  lemma {:induction false} FirstIndexAppend(s: seq<string>, last: string, x: string)
    ensures FirstIndex(s + [last], x) == if x in s then FirstIndex(s, x) else |s| + if last == x then 0 else 1
    ensures x in s ==> FirstIndex(s, x) < |s|
  {
    if s != [] && s[0] != x {
      assert (s + [last])[1..] == s[1..] + [last];
      FirstIndexAppend(s[1..], last, x);
    }
  }

  lemma {:induction false} CollectsFirstOccurrences(paths: seq<string>)
    ensures FirstOccurrences(Collect(paths), paths)
  {
    if paths != [] {
      var init, last := paths[..|paths| - 1], paths[|paths| - 1];
      CollectsFirstOccurrences(init);
      assert paths == init + [last];
      var g := Collect(paths);
      forall i, j | 0 <= i < j < |g| ensures FirstIndex(paths, g[i]) < FirstIndex(paths, g[j]) {
        FirstIndexAppend(init, last, g[i]);
        FirstIndexAppend(init, last, g[j]);
      }
    }
  }

  /** There is only one such list, and the loops collect it. */
  lemma {:induction false} CollectIff(g: seq<string>, paths: seq<string>)
    ensures FirstOccurrences(g, paths) <==> g == Collect(paths)
  {
    CollectsFirstOccurrences(paths);
    if FirstOccurrences(g, paths) {
      OnlyCollect(g, paths);
    }
  }

  lemma {:induction false} OnlyCollect(g: seq<string>, paths: seq<string>)
    requires FirstOccurrences(g, paths)
    ensures g == Collect(paths)
  {
    if paths == [] {
      FirstPathIsMember(g);
    } else {
      var init, last := paths[..|paths| - 1], paths[|paths| - 1];
      assert paths == init + [last];
      CollectsFirstOccurrences(init);
      if last in init || IsExcluded(last) {
        NothingNew(g, init, last);
        OnlyCollect(g, init);
      } else {
        OneNew(g, init, last);
        OnlyCollect(g[..|g| - 1], init);
      }
    }
  }

  lemma NothingNew(g: seq<string>, init: seq<string>, last: string)
    requires FirstOccurrences(g, init + [last]) && (last in init || IsExcluded(last))
    ensures FirstOccurrences(g, init)
  {
    forall i | 0 <= i < |g| ensures FirstIndex(init + [last], g[i]) == FirstIndex(init, g[i]) {
      assert g[i] in g && g[i] in init + [last];
      FirstIndexAppend(init, last, g[i]);
    }
  }

  /** Each collected path keeps its first index, except the new one, which comes last. */
  lemma IndexesWithNew(g: seq<string>, init: seq<string>, last: string, i: nat)
    requires FirstOccurrences(g, init + [last]) && last !in init && i < |g|
    ensures FirstIndex(init + [last], g[i]) == (if g[i] == last then |init| else FirstIndex(init, g[i])) <= |init|
  {
    hide IsExcluded, FirstIndex;
    var x := g[i];
    assert x in g;
    assert x in init + [last];
    FirstIndexAppend(init, last, x);
  }

  lemma NewComesLast(g: seq<string>, init: seq<string>, last: string)
    requires FirstOccurrences(g, init + [last]) && last !in init && !IsExcluded(last)
    ensures g != [] && g[|g| - 1] == last && last !in g[..|g| - 1]
  {
    hide IsExcluded, FirstIndex;
    var paths, n := init + [last], |g| - 1;
    assert last in paths && last in g;
    var k :| 0 <= k < |g| && g[k] == last;
    IndexesWithNew(g, init, last, k);
    IndexesWithNew(g, init, last, n);
    assert k == n;
    forall i | 0 <= i < n ensures g[i] != last {
      assert FirstIndex(paths, g[i]) < FirstIndex(paths, g[n]);
    }
  }

  lemma OneNew(g: seq<string>, init: seq<string>, last: string)
    requires FirstOccurrences(g, init + [last]) && last !in init && !IsExcluded(last)
    ensures g != [] && g == g[..|g| - 1] + [last] && FirstOccurrences(g[..|g| - 1], init)
  {
    hide IsExcluded, FirstIndex;
    NewComesLast(g, init, last);
    var shorter := g[..|g| - 1];
    assert g == shorter + [last];
    forall i | 0 <= i < |shorter| ensures FirstIndex(init + [last], shorter[i]) == FirstIndex(init, shorter[i]) {
      IndexesWithNew(g, init, last, i);
    }
    assert forall p :: p in g <==> p == last || p in shorter;
    assert forall p :: p in init + [last] <==> p == last || p in init;
  }

  lemma FirstPathIsMember(g: seq<string>)
    ensures g != [] ==> g[0] in g
  {
  }

  function FileFor(relevant: seq<string>, path: string): Candidate {
    File(path, if path in relevant then ExplicitlyReferenced else TopLevelEntry)
  }

  /** The file candidates: first the relevant files, then the top-level paths that are not among them. */
  function FileCandidates(relevant: seq<string>, top: seq<string>): seq<Candidate> {
    var g := Collect(relevant + top);
    seq(|g|, i requires 0 <= i < |g| => FileFor(relevant, g[i]))
  }

  /** The loops' bookkeeping: the candidates so far, and the paths seen among them. */
  ghost predicate Gathered(candidates: seq<Candidate>, seen: set<string>, relevant: seq<string>, paths: seq<string>) {
    var g := Collect(paths);
    && |candidates| == |g|
    && (forall i :: 0 <= i < |g| ==> candidates[i] == FileFor(relevant, g[i]))
    && (forall p :: p in seen <==> p in g)
  }

  lemma CollectAppend(paths: seq<string>, path: string)
    ensures Collect(paths + [path]) ==
            if path in Collect(paths) || IsExcluded(path) then Collect(paths) else Collect(paths) + [path]
  {
    assert (paths + [path])[..|paths|] == paths;
  }

  lemma GatherOne(candidates: seq<Candidate>, seen: set<string>, relevant: seq<string>, paths: seq<string>,
                  path: string)
    requires Gathered(candidates, seen, relevant, paths)
    ensures if path in seen || IsExcluded(path) then Gathered(candidates, seen, relevant, paths + [path])
            else Gathered(candidates + [FileFor(relevant, path)], seen + {path}, relevant, paths + [path])
                 && path !in paths
  {
    hide IsExcluded, Collect, FileFor;
    CollectAppend(paths, path);
    CollectsFirstOccurrences(paths);
  }

  lemma GatheredNothing(relevant: seq<string>)
    ensures Gathered([], {}, relevant, [])
  {
  }

  lemma GatheredAll(candidates: seq<Candidate>, seen: set<string>, relevant: seq<string>, top: seq<string>)
    requires Gathered(candidates, seen, relevant, relevant + top)
    ensures candidates == FileCandidates(relevant, top)
  {
    hide Collect, FileFor;
  }

  method GatherFiles(relevant: seq<string>, top: seq<string>) returns (candidates: seq<Candidate>)
    ensures candidates == FileCandidates(relevant, top)
    ensures forall c :: c in candidates ==>
              c.File? && c.reason == if c.path in relevant then ExplicitlyReferenced else TopLevelEntry
  {
    hide Gathered, IsExcluded, Collect, FileCandidates;
    var seen: set<string> := {};
    candidates := [];
    ghost var paths: seq<string> := [];
    GatheredNothing(relevant);
    for k := 0 to |relevant|
      invariant paths == relevant[..k] && Gathered(candidates, seen, relevant, paths)
    {
      var path := relevant[k];
      GatherOne(candidates, seen, relevant, paths, path);
      paths := paths + [path];
      if path in seen || IsExcluded(path) {
        continue;
      }
      seen := seen + {path};
      candidates := candidates + [File(path, ExplicitlyReferenced)];
    }
    for k := 0 to |top|
      invariant paths == relevant + top[..k] && Gathered(candidates, seen, relevant, paths)
    {
      var path := top[k];
      GatherOne(candidates, seen, relevant, paths, path);
      paths := paths + [path];
      if path in seen || IsExcluded(path) {
        continue;
      }
      seen := seen + {path};
      candidates := candidates + [File(path, TopLevelEntry)];
    }
    assert paths == relevant + top;
    GatheredAll(candidates, seen, relevant, top);
    ReasonsOfFiles(relevant, top);
  }

  lemma ReasonsOfFiles(relevant: seq<string>, top: seq<string>)
    ensures forall c :: c in FileCandidates(relevant, top) ==>
              c.File? && c.reason == if c.path in relevant then ExplicitlyReferenced else TopLevelEntry
  {
  }

  // ---- failures ----

  /** The part of a test reference before its first "::", if it has one. */
  function FileOf(testRef: string): (r: Option<string>)
    ensures r.None? <==> !Contains(testRef, "::")
    ensures r.Some? ==> r.value + "::" <= testRef && forall j :: 0 <= j < |r.value| ==> !OccursAt(testRef, "::", j)
  {
    match Find(testRef, "::")
    case None => None
    case Some(i) => Some(testRef[..i])
  }

  predicate LooksLikeError(log: string) {
    Contains(log, "Traceback") || Contains(log, "Error") || Contains(log, "Exception")
  }

  function TestCandidates(tests: seq<string>): seq<Candidate> {
    seq(|tests|, i requires 0 <= i < |tests| => Failure(tests[i], FileOf(tests[i]), FailingTest))
  }

  const RUNTIME_ERROR := Failure("runtime error", None, ErrorLog)

  function Errors(logs: seq<string>): set<string> {
    set l | l in logs && LooksLikeError(l)
  }

  /** One candidate for each distinct log that looks like an error. */
  function ErrorCandidates(logs: seq<string>): seq<Candidate> {
    seq(|Errors(logs)|, _ => RUNTIME_ERROR)
  }

  lemma ErrorsAppend(logs: seq<string>, log: string)
    ensures ErrorCandidates(logs + [log]) ==
            if log in logs || !LooksLikeError(log) then ErrorCandidates(logs)
            else ErrorCandidates(logs) + [RUNTIME_ERROR]
  {
    hide LooksLikeError;
    assert Errors(logs + [log]) == if LooksLikeError(log) then Errors(logs) + {log} else Errors(logs);
    assert log in logs && LooksLikeError(log) ==> Errors(logs) + {log} == Errors(logs);
  }

  method GatherFailures(tests: seq<string>, logs: seq<string>) returns (candidates: seq<Candidate>)
    ensures candidates == TestCandidates(tests) + ErrorCandidates(logs)
    ensures |candidates| == |tests| + |set l | l in logs && (Contains(l, "Traceback") || Contains(l, "Error")
                                                             || Contains(l, "Exception"))|
    ensures forall i :: 0 <= i < |tests| ==> candidates[i] == Failure(tests[i], FileOf(tests[i]), FailingTest)
    ensures forall i :: |tests| <= i < |candidates| ==> candidates[i] == Failure("runtime error", None, ErrorLog)
  {
    ErrorsByName(logs);
    hide ErrorCandidates, LooksLikeError;
    candidates := [];
    for k := 0 to |tests|
      invariant candidates == TestCandidates(tests)[..k]
    {
      candidates := candidates + [Failure(tests[k], FileOf(tests[k]), FailingTest)];
    }
    var seen: set<string> := {};
    ghost var errors: seq<Candidate> := [];
    NoErrors();
    for k := 0 to |logs|
      invariant seen == set l | l in logs[..k]
      invariant candidates == TestCandidates(tests) + errors && errors == ErrorCandidates(logs[..k])
    {
      var log := logs[k];
      ErrorsAppend(logs[..k], log);
      assert logs[..k + 1] == logs[..k] + [log];
      if log in seen {
        continue;
      }
      seen := seen + {log};
      if LooksLikeError(log) {
        candidates := candidates + [RUNTIME_ERROR];
        errors := errors + [RUNTIME_ERROR];
      }
    }
    assert logs[..|logs|] == logs;
  }

  lemma ErrorsByName(logs: seq<string>)
    ensures |ErrorCandidates(logs)| == |set l | l in logs && (Contains(l, "Traceback") || Contains(l, "Error")
                                                              || Contains(l, "Exception"))|
    ensures forall i :: 0 <= i < |ErrorCandidates(logs)| ==>
              ErrorCandidates(logs)[i] == Failure("runtime error", None, ErrorLog)
  {
    hide Contains;
    assert Errors(logs) == set l | l in logs && (Contains(l, "Traceback") || Contains(l, "Error")
                                                 || Contains(l, "Exception"));
  }

  lemma NoErrors()
    ensures ErrorCandidates([]) == []
  {
    assert Errors([]) == {};
  }
}
