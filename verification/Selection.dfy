/** The selection policy: score, sort, then fill greedily under three caps of a kind and one shared cap. */
module Selection {
  import opened Text
  import opened Candidates
  import opened Scoring
  import opened Sorting

  datatype Caps = Caps(files: int := 5, failures: int := 3, docs: int := 2, total: int := 10)

  datatype Kind = FileKind | FailureKind | DocKind

  /** `dropped` stands for the extra reason "dropped by cap". */
  datatype Decision = Decision(itemId: string, kind: Kind, score: int, reason: Reason, dropped: bool)

  datatype SelectionResult = SelectionResult(
    files: seq<string>, failures: seq<string>, docs: seq<string>, dropped: seq<string>, decisions: seq<Decision>)

  function ItemId(c: Candidate): string {
    match c
    case File(path, _) => "file:" + path
    case Failure(testName, _, _) => "failure:" + testName
    case Doc(title, _, _) => "doc:" + title
  }

  function KindOf(c: Candidate): Kind {
    match c
    case File(_, _) => FileKind
    case Failure(_, _, _) => FailureKind
    case Doc(_, _, _) => DocKind
  }

  function Ids(s: seq<Scored>): (ids: seq<string>)
    ensures |ids| == |s|
  {
    seq(|s|, i requires 0 <= i < |s| => ItemId(s[i].item))
  }

  function Decide(s: Scored, dropped: bool): Decision {
    Decision(ItemId(s.item), KindOf(s.item), s.score, s.item.reason, dropped)
  }

  function Decisions(s: seq<Scored>, taken: nat): seq<Decision> {
    seq(|s|, i requires 0 <= i < |s| => Decide(s[i], i >= taken))
  }

  // ---- the greedy fill ----

  function Clamp(n: int): nat {
    if n < 0 then 0 else n
  }

  function Min(a: int, b: int): int {
    if a < b then a else b
  }

  /** How many of `n` candidates fit under their cap and what is left of the shared cap. */
  function Taken(n: nat, cap: int, left: int): (k: nat)
    ensures k <= n
  {
    Clamp(Min(n, Min(cap, left)))
  }

  datatype Counts = Counts(files: nat, failures: nat, docs: nat)

  function CountsFor(files: nat, failures: nat, docs: nat, caps: Caps): (k: Counts)
    ensures k.files <= files && k.failures <= failures && k.docs <= docs
  {
    var f := Taken(files, caps.files, caps.total);
    var g := Taken(failures, caps.failures, caps.total - f);
    Counts(f, g, Taken(docs, caps.docs, caps.total - f - g))
  }

  /** Of each sorted list a prefix is taken and the rest is dropped. */
  function Filled(files: seq<Scored>, failures: seq<Scored>, docs: seq<Scored>, caps: Caps): SelectionResult {
    var k := CountsFor(|files|, |failures|, |docs|, caps);
    SelectionResult(
      Ids(files)[..k.files], Ids(failures)[..k.failures], Ids(docs)[..k.docs],
      Ids(files)[k.files..] + Ids(failures)[k.failures..] + Ids(docs)[k.docs..],
      Decisions(files, k.files) + Decisions(failures, k.failures) + Decisions(docs, k.docs))
  }

  /** One of the three loops: takes while the kind's cap and the shared cap allow, and drops otherwise. */
  method Fill(sorted: seq<Scored>, cap: int, maxTotal: int, total0: nat)
    returns (selected: seq<string>, dropped: seq<string>, decisions: seq<Decision>, total: nat)
    ensures var k := Taken(|sorted|, cap, maxTotal - total0);
            && selected == Ids(sorted)[..k] && dropped == Ids(sorted)[k..]
            && decisions == Decisions(sorted, k) && total == total0 + k
  {
    selected, dropped, decisions, total := [], [], [], total0;
    ghost var k := Taken(|sorted|, cap, maxTotal - total0);
    for i := 0 to |sorted|
      invariant selected == Ids(sorted)[..Min(i, k)]
      invariant dropped == if i <= k then [] else Ids(sorted)[k..i]
      invariant decisions == Decisions(sorted, k)[..i]
      invariant total == total0 + Min(i, k)
    {
      var id := ItemId(sorted[i].item);
      if |selected| < cap && total < maxTotal {
        selected := selected + [id];
        total := total + 1;
        decisions := decisions + [Decide(sorted[i], false)];
      } else {
        dropped := dropped + [id];
        decisions := decisions + [Decide(sorted[i], true)];
      }
    }
  }

  method FillAll(files: seq<Scored>, failures: seq<Scored>, docs: seq<Scored>, caps: Caps) returns (r: SelectionResult)
    ensures r == Filled(files, failures, docs, caps)
  {
    var s1, d1, e1, t1 := Fill(files, caps.files, caps.total, 0);
    var s2, d2, e2, t2 := Fill(failures, caps.failures, caps.total, t1);
    var s3, d3, e3, t3 := Fill(docs, caps.docs, caps.total, t2);
    r := SelectionResult(s1, s2, s3, d1 + d2 + d3, e1 + e2 + e3);
  }

  /** No shared budget is wasted: the total taken is the shared cap, or everything the other caps let through. */
  lemma NothingWasted(files: nat, failures: nat, docs: nat, caps: Caps)
    ensures var k := CountsFor(files, failures, docs, caps);
            k.files + k.failures + k.docs ==
            Min(Clamp(caps.total),
                Min(files, Clamp(caps.files)) + Min(failures, Clamp(caps.failures)) + Min(docs, Clamp(caps.docs)))
  {
  }

  /** Raising the shared cap only extends the three selections. */
  lemma SharedCapIsMonotone(files: seq<Scored>, failures: seq<Scored>, docs: seq<Scored>, caps: Caps, total: int)
    requires caps.total <= total
    ensures var r, r' := Filled(files, failures, docs, caps), Filled(files, failures, docs, caps.(total := total));
            r.files <= r'.files && r.failures <= r'.failures && r.docs <= r'.docs
  {
    hide CountsFor, Decisions;
    CountsAreMonotone(|files|, |failures|, |docs|, caps, total);
  }

  lemma CountsAreMonotone(files: nat, failures: nat, docs: nat, caps: Caps, total: int)
    requires caps.total <= total
    ensures var k := CountsFor(files, failures, docs, caps);
            var k' := CountsFor(files, failures, docs, caps.(total := total));
            k.files <= k'.files && k.failures <= k'.failures && k.docs <= k'.docs
  {
  }

  /**
   * Raising the cap on files is not monotone: it can push selected failures out. It does so exactly when
   * the cap lets more files through than before, and the shared cap, which had room for more than the
   * files of before, has none for the files of now and all the failures that their own cap lets through.
   */
  lemma FileCapEvictsIff(files: nat, failures: nat, docs: nat, caps: Caps, cap: int)
    requires caps.files <= cap
    ensures var k := CountsFor(files, failures, docs, caps);
            var k' := CountsFor(files, failures, docs, caps.(files := cap));
            var f, f' := Min(files, Clamp(caps.files)), Min(files, Clamp(cap));
            var g := Min(failures, Clamp(caps.failures));
            k'.failures < k.failures <==> g > 0 && f < f' && f < caps.total < f' + g
  {
  }

  /** With two files, one failure and room for two, a second file takes the failure's place. */
  lemma FileCapEvicts(files: seq<Scored>, failures: seq<Scored>, caps: Caps)
    requires |files| == 2 && |failures| == 1 && caps == Caps(1, 1, 0, 2)
    ensures Filled(files, failures, [], caps).failures == Ids(failures)
    ensures Filled(files, failures, [], caps.(files := 2)).failures == []
    ensures Filled(files, failures, [], caps.(files := 2)).dropped == Ids(failures)
  {
  }

  // ---- the whole selection ----

  datatype Input = Input(
    relevant: seq<string>, tests: seq<string>, logs: seq<string>, title: string, keywords: seq<string>,
    top: seq<string>, importedBy: Option<set<string>>, selectedDir: Option<string>)

  function KeywordSet(lower: string -> string, keywords: seq<string>): set<string> {
    set k | k in keywords && !Blank(k) :: lower(k)
  }

  function Relevant(input: Input): set<string> {
    set p | p in input.relevant
  }

  function PathScore(lower: string -> string, input: Input, path: string): nat {
    FileScore(lower, path, Relevant(input), input.title, KeywordSet(lower, input.keywords))
    + (if input.importedBy.Some? && input.importedBy.value != {} then ImportBoost(path, input.importedBy.value) else 0)
    + (if input.selectedDir.Some? && input.selectedDir.value != "" then SameDirBoost(path, input.selectedDir.value)
       else 0)
  }

  function ScoredFile(lower: string -> string, input: Input, c: Candidate): Scored
    requires c.File?
  {
    Scored(PathScore(lower, input, c.path), c)
  }

  function ScoredFailure(lower: string -> string, input: Input, c: Candidate): Scored
    requires c.Failure?
  {
    Scored(FailureScore(lower, c.filePath, Relevant(input), KeywordSet(lower, input.keywords)), c)
  }

  function ScoredFiles(lower: string -> string, input: Input, cs: seq<Candidate>): seq<Scored>
    requires forall c :: c in cs ==> c.File?
  {
    seq(|cs|, i requires 0 <= i < |cs| => ScoredFile(lower, input, cs[i]))
  }

  function ScoredFailures(lower: string -> string, input: Input, cs: seq<Candidate>): seq<Scored>
    requires forall c :: c in cs ==> c.Failure?
  {
    seq(|cs|, i requires 0 <= i < |cs| => ScoredFailure(lower, input, cs[i]))
  }

  function GatheredFiles(lower: string -> string, input: Input): seq<Scored> {
    ScoredFiles(lower, input, FileCandidates(input.relevant, input.top))
  }

  function GatheredFailures(lower: string -> string, input: Input): seq<Scored> {
    ScoredFailures(lower, input, TestCandidates(input.tests) + ErrorCandidates(input.logs))
  }

  /** What `select` returns; no documents are gathered. */
  function Selected(lower: string -> string, input: Input, caps: Caps): SelectionResult {
    Filled(StableSort(GatheredFiles(lower, input)), StableSort(GatheredFailures(lower, input)), [], caps)
  }

  method ScoreFiles(lower: string -> string, input: Input, cs: seq<Candidate>) returns (files: seq<Scored>)
    requires forall c :: c in cs ==> c.File?
    ensures files == ScoredFiles(lower, input, cs)
  {
    var keywords, relevant := KeywordSet(lower, input.keywords), Relevant(input);
    files := [];
    for k := 0 to |cs|
      invariant files == ScoredFiles(lower, input, cs)[..k]
    {
      var path := cs[k].path;
      var s := ScoreFile(lower, path, relevant, input.title, keywords);
      if input.importedBy.Some? && input.importedBy.value != {} {
        s := s + ImportBoost(path, input.importedBy.value);
      }
      if input.selectedDir.Some? && input.selectedDir.value != "" {
        s := s + SameDirBoost(path, input.selectedDir.value);
      }
      files := files + [Scored(s, cs[k])];
    }
  }

  method ScoreFailures(lower: string -> string, input: Input, cs: seq<Candidate>) returns (failures: seq<Scored>)
    requires forall c :: c in cs ==> c.Failure?
    ensures failures == ScoredFailures(lower, input, cs)
  {
    var keywords, relevant := KeywordSet(lower, input.keywords), Relevant(input);
    failures := [];
    for k := 0 to |cs|
      invariant failures == ScoredFailures(lower, input, cs)[..k]
    {
      var s := ScoreFailure(lower, cs[k].filePath, relevant, keywords);
      failures := failures + [Scored(s, cs[k])];
    }
  }

  /**
   * The result is a function of the input lists, and of the keywords as a set: it is the same for every
   * order in which the keyword set is enumerated. The order of the relevant files and of the other lists
   * does matter, for it decides between equal scores.
   */
  method Select(lower: string -> string, input: Input, caps: Caps) returns (r: SelectionResult)
    ensures r == Selected(lower, input, caps)
  {
    var fileCandidates := GatherFiles(input.relevant, input.top);
    var failureCandidates := GatherFailures(input.tests, input.logs);
    var files := ScoreFiles(lower, input, fileCandidates);
    var failures := ScoreFailures(lower, input, failureCandidates);
    r := FillAll(StableSort(files), StableSort(failures), [], caps);
  }
}
