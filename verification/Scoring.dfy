/** Relevance scores. Every keyword loop stops at its first hit, in whatever order the set is enumerated. */
module Scoring {
  import opened Text
  import opened Candidates

  function Bonus(earned: bool, points: nat): nat {
    if earned then points else 0
  }

  predicate AnyIn(keywords: set<string>, text: string) {
    exists k | k in keywords :: Contains(text, k)
  }

  function FileScore(lower: string -> string, path: string, relevant: set<string>, title: string,
                     keywords: set<string>): nat
  {
    var p := lower(path);
    Bonus(path in relevant, 100)
    + Bonus(Contains(p, "test"), 40)
    + Bonus(Contains(p, "src") || Contains(p, "lib") || Contains(p, "app"), 15)
    + Bonus(AnyIn(keywords, p), 10)
    + Bonus(AnyIn(keywords, lower(title)), 5)
  }

  function FailureScore(lower: string -> string, file: Option<string>, relevant: set<string>,
                        keywords: set<string>): nat
  {
    if file.None? || file.value == "" then 0
    else Bonus(file.value in relevant, 90) + Bonus(AnyIn(keywords, lower(file.value)), 20)
  }

  function DocScore(lower: string -> string, title: string, source: string, keywords: set<string>): nat {
    Bonus(AnyIn(keywords, lower(title)), 30) + Bonus(AnyIn(keywords, lower(source)), 15)
  }

  function ImportBoost(path: string, importedBy: set<string>): nat {
    Bonus(path in importedBy, 40)
  }

  /** The path without its last component, its slashes turned forward. */
  function DirOf(path: string): string {
    var ps := Parts(path);
    if |ps| == 1 then "" else Join(ps[..|ps| - 1], '/')
  }

  function SameDirBoost(path: string, dir: string): nat {
    Bonus(DirOf(path) == dir, 20)
  }

  /** Tries the keywords in any order, and stops at the first that occurs in the text. */
  method FirstHit(keywords: set<string>, text: string, points: nat) returns (score: nat)
    ensures score == Bonus(AnyIn(keywords, text), points)
  {
    score := 0;
    var rest := keywords;
    while rest != {}
      invariant rest <= keywords && score == 0
      invariant forall k :: k in keywords - rest ==> !Contains(text, k)
    {
      var k :| k in rest;
      rest := rest - {k};
      if Contains(text, k) {
        score := points;
        break;
      }
    }
  }

  method ScoreFile(lower: string -> string, path: string, relevant: set<string>, title: string, keywords: set<string>)
    returns (score: nat)
    ensures score == FileScore(lower, path, relevant, title, keywords)
  {
    score := 0;
    var p := lower(path);
    if path in relevant {
      score := score + 100;
    }
    if Contains(p, "test") {
      score := score + 40;
    }
    if Contains(p, "src") || Contains(p, "lib") || Contains(p, "app") {
      score := score + 15;
    }
    var inPath := FirstHit(keywords, p, 10);
    var inTitle := FirstHit(keywords, lower(title), 5);
    score := score + inPath + inTitle;
  }

  method ScoreFailure(lower: string -> string, file: Option<string>, relevant: set<string>, keywords: set<string>)
    returns (score: nat)
    ensures score == FailureScore(lower, file, relevant, keywords)
  {
    score := 0;
    if file.Some? && file.value != "" && file.value in relevant {
      score := score + 90;
    }
    if file.Some? && file.value != "" {
      var inPath := FirstHit(keywords, lower(file.value), 20);
      score := score + inPath;
    }
  }

  method ScoreDoc(lower: string -> string, title: string, source: string, keywords: set<string>) returns (score: nat)
    ensures score == DocScore(lower, title, source, keywords)
  {
    score := FirstHit(keywords, lower(title), 30);
    var inSource := FirstHit(keywords, lower(source), 15);
    score := score + inSource;
  }
}
