/** Sorting scored candidates from the highest score down, keeping the order of equal scores. */
module Sorting {
  import opened Candidates

  datatype Scored = Scored(score: int, item: Candidate)

  predicate Descending(s: seq<Scored>) {
    forall i, j :: 0 <= i < j < |s| ==> s[i].score >= s[j].score
  }

  /** The elements with a given score, in order. */
  function At(s: seq<Scored>, score: int): seq<Scored> {
    if s == [] then [] else (if s[0].score == score then [s[0]] else []) + At(s[1..], score)
  }

  /** `t` holds the elements of `s`, those of equal score in the same order. */
  ghost predicate StablyRearranges(t: seq<Scored>, s: seq<Scored>) {
    forall v :: At(t, v) == At(s, v)
  }

  function Insert(x: Scored, s: seq<Scored>): seq<Scored> {
    if s == [] || x.score >= s[0].score then [x] + s else [s[0]] + Insert(x, s[1..])
  }

  function StableSort(s: seq<Scored>): seq<Scored> {
    if s == [] then [] else Insert(s[0], StableSort(s[1..]))
  }

  lemma {:induction false} InsertKeepsAll(x: Scored, s: seq<Scored>)
    ensures multiset(Insert(x, s)) == multiset(s) + multiset{x}
  {
    if s != [] && x.score < s[0].score {
      InsertKeepsAll(x, s[1..]);
      assert s == [s[0]] + s[1..];
    }
  }

  lemma {:induction false} InsertSorts(x: Scored, s: seq<Scored>)
    requires Descending(s)
    ensures Descending(Insert(x, s))
  {
    if s != [] && x.score < s[0].score {
      var r := Insert(x, s[1..]);
      InsertSorts(x, s[1..]);
      InsertKeepsAll(x, s[1..]);
      forall i | 0 <= i < |r| ensures s[0].score >= r[i].score {
        assert r[i] in multiset(r);
      }
    }
  }

  lemma AtCons(x: Scored, s: seq<Scored>, v: int)
    ensures At([x] + s, v) == (if x.score == v then [x] else []) + At(s, v)
  {
    assert ([x] + s)[1..] == s;
  }

  /** Equal scores keep their order: the inserted element came first, and stays first. */
  lemma {:induction false} InsertKeepsOrder(x: Scored, s: seq<Scored>, v: int)
    requires Descending(s)
    ensures At(Insert(x, s), v) == (if x.score == v then [x] else []) + At(s, v)
  {
    AtCons(x, s, v);
    if s != [] && x.score < s[0].score {
      var r := Insert(x, s[1..]);
      InsertKeepsOrder(x, s[1..], v);
      AtCons(s[0], r, v);
    }
  }

  lemma {:induction false} SortSorts(s: seq<Scored>)
    ensures Descending(StableSort(s)) && StablyRearranges(StableSort(s), s)
    ensures multiset(StableSort(s)) == multiset(s) && |StableSort(s)| == |s|
  {
    if s != [] {
      SortSorts(s[1..]);
      InsertSorts(s[0], StableSort(s[1..]));
      InsertKeepsAll(s[0], StableSort(s[1..]));
      forall v ensures At(StableSort(s), v) == At(s, v) {
        InsertKeepsOrder(s[0], StableSort(s[1..]), v);
      }
      assert s == [s[0]] + s[1..];
      assert |multiset(StableSort(s))| == |multiset(s)|;
    }
  }

  lemma {:induction false} AtMember(s: seq<Scored>, v: int)
    ensures At(s, v) != [] <==> exists i :: 0 <= i < |s| && s[i].score == v
    ensures forall x :: x in At(s, v) ==> x.score == v && x in s
  {
    if s != [] {
      AtMember(s[1..], v);
      assert forall i :: 1 <= i < |s| ==> s[i] == s[1..][i - 1];
    }
  }

  /** Only one list is descending and rearranges `s` stably, so it does not matter which stable sort is used. */
  lemma {:induction false} StableSortUnique(t: seq<Scored>, u: seq<Scored>)
    requires Descending(t) && Descending(u) && StablyRearranges(t, u)
    ensures t == u
  {
    if t == [] || u == [] {
      if t != [] { AtMember(t, t[0].score); AtMember(u, t[0].score); }
      if u != [] { AtMember(u, u[0].score); AtMember(t, u[0].score); }
    } else {
      var a, b := t[0].score, u[0].score;
      AtMember(t, a);
      AtMember(u, a);
      AtMember(t, b);
      AtMember(u, b);
      assert a == b;
      assert At(t, a)[0] == t[0] && At(u, a)[0] == u[0];
      forall v ensures At(t[1..], v) == At(u[1..], v) {
        assert At(t, v) == At(u, v);
        assert At(t[1..], v) == At(t, v)[if a == v then 1 else 0..];
        assert At(u[1..], v) == At(u, v)[if a == v then 1 else 0..];
      }
      StableSortUnique(t[1..], u[1..]);
    }
  }

  lemma {:induction false} AtConcat(a: seq<Scored>, b: seq<Scored>, v: int)
    ensures At(a + b, v) == At(a, v) + At(b, v)
  {
    if a == [] {
      assert a + b == b;
    } else {
      assert a + b == [a[0]] + (a[1..] + b);
      AtCons(a[0], a[1..] + b, v);
      AtConcat(a[1..], b, v);
    }
  }

  /** Two lists of which the first scores no lower than the second sort side by side. */
  lemma SortConcat(a: seq<Scored>, b: seq<Scored>)
    requires forall x, y :: x in a && y in b ==> x.score >= y.score
    ensures StableSort(a + b) == StableSort(a) + StableSort(b)
  {
    var sa, sb := StableSort(a), StableSort(b);
    var joined: seq<Scored> := sa + sb;
    SortSorts(a);
    SortSorts(b);
    SortSorts(a + b);
    assert Descending(joined) by {
      forall i, j | 0 <= i < j < |joined| ensures joined[i].score >= joined[j].score {
        if i < |sa| <= j {
          assert sa[i] in multiset(sa) && sb[j - |sa|] in multiset(sb);
        }
      }
    }
    forall v ensures At(StableSort(a + b), v) == At(joined, v) {
      AtConcat(a, b, v);
      AtConcat(sa, sb, v);
    }
    StableSortUnique(StableSort(a + b), joined);
  }
}
