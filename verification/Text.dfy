/** The string operations of the host language that the modelled code relies on. */
module Text {
  datatype Option<+T> = None | Some(value: T)

  /** Whitespace as the host language's `strip` sees it. */
  predicate IsSpace(c: char) {
    var n := c as int;
    || 0x09 <= n <= 0x0D || 0x1C <= n <= 0x20 || n == 0x85 || n == 0xA0
    || n == 0x1680 || 0x2000 <= n <= 0x200A || n == 0x2028 || n == 0x2029
    || n == 0x202F || n == 0x205F || n == 0x3000
  }

  lemma Whitespace()
    ensures IsSpace(' ') && IsSpace('\t') && IsSpace('\n') && IsSpace('\r') && IsSpace(0xA0 as char)
    ensures forall c :: '!' <= c <= '~' ==> !IsSpace(c)
  {
  }

  /** `not s.strip()` */
  predicate Blank(s: string) {
    forall i :: 0 <= i < |s| ==> IsSpace(s[i])
  }

  /** Neither empty nor padded with whitespace. */
  predicate Trimmed(s: string) {
    s != "" && !IsSpace(s[0]) && !IsSpace(s[|s| - 1])
  }

  function Strip(s: string): (t: string)
    ensures Blank(s) <==> t == ""
    ensures !Blank(s) ==> Trimmed(t)
    ensures Trimmed(s) ==> t == s
    decreases |s|
  {
    if s == "" then ""
    else if IsSpace(s[0]) then
      assert s == [s[0]] + s[1..];
      Strip(s[1..])
    else if IsSpace(s[|s| - 1]) then Strip(s[..|s| - 1])
    else s
  }

  /** Stripping takes whitespace off both ends and nothing else. */
  lemma {:induction false} StripSplits(s: string) returns (a: string, b: string)
    ensures s == a + Strip(s) + b && Blank(a) && Blank(b)
    decreases |s|
  {
    hide Blank, Trimmed;
    BlankSpace();
    var t := Strip(s);
    if s == "" || (!IsSpace(s[0]) && !IsSpace(s[|s| - 1])) {
      a, b := "", "";
      assert s == a + t + b;
    } else if IsSpace(s[0]) {
      a, b := StripSplits(s[1..]);
      BlankJoined([s[0]], a);
      assert s == [s[0]] + s[1..] == [s[0]] + a + t + b;
      a := [s[0]] + a;
    } else {
      a, b := StripSplits(s[..|s| - 1]);
      BlankJoined(b, [s[|s| - 1]]);
      assert s == s[..|s| - 1] + [s[|s| - 1]] == a + t + (b + [s[|s| - 1]]);
      b := b + [s[|s| - 1]];
    }
  }

  lemma BlankSpace()
    ensures Blank("") && forall c :: IsSpace(c) ==> Blank([c])
  {
  }

  lemma BlankJoined(a: string, b: string)
    requires Blank(a) && Blank(b)
    ensures Blank(a + b)
  {
  }

  /** Stripping changes exactly the padded strings. */
  lemma StripKeepsIff(s: string)
    ensures Strip(s) == s <==> s == "" || Trimmed(s)
  {
  }

  /** `needle in hay` */
  predicate Contains(hay: string, needle: string) {
    exists i :: 0 <= i <= |hay| - |needle| && OccursAt(hay, needle, i)
  }

  predicate OccursAt(hay: string, needle: string, i: nat) {
    i + |needle| <= |hay| && hay[i..i + |needle|] == needle
  }

  predicate EndsWith(s: string, suffix: string) {
    |suffix| <= |s| && s[|s| - |suffix|..] == suffix
  }

  /** `s.replace(old, new)` for single characters. */
  function Replace(s: string, what: char, with: char): (t: string)
    ensures |t| == |s|
    ensures forall i :: 0 <= i < |s| ==> t[i] == if s[i] == what then with else s[i]
  {
    seq(|s|, i requires 0 <= i < |s| => if s[i] == what then with else s[i])
  }

  /** The first position of `sep` at or after `from`. */
  function Find(s: string, sep: string, from: nat := 0): (r: Option<nat>)
    requires from <= |s|
    ensures r.Some? ==> from <= r.value && OccursAt(s, sep, r.value)
    ensures r.Some? ==> forall j :: from <= j < r.value ==> !OccursAt(s, sep, j)
    ensures r.None? ==> forall j :: from <= j ==> !OccursAt(s, sep, j)
    decreases |s| - from
  {
    if OccursAt(s, sep, from) then Some(from)
    else if from == |s| then None
    else Find(s, sep, from + 1)
  }

  /** `s.split(sep)` for a one-character separator. */
  function Split(s: string, sep: char): (parts: seq<string>)
    ensures parts != []
    ensures forall i :: 0 <= i < |parts| ==> sep !in parts[i]
    ensures Join(parts, sep) == s
  {
    if s == "" then [""]
    else
      var rest := Split(s[1..], sep);
      if s[0] == sep then [""] + rest
      else [[s[0]] + rest[0]] + rest[1..]
  }

  /** `sep.join(parts)` */
  function Join(parts: seq<string>, sep: char): string
    requires parts != []
  {
    if |parts| == 1 then parts[0] else parts[0] + [sep] + Join(parts[1..], sep)
  }

  /** Splitting distributes over joining two paths. */
  lemma {:induction false} SplitConcat(p: string, q: string, sep: char)
    ensures Split(p + [sep] + q, sep) == Split(p, sep) + Split(q, sep)
  {
    var s := p + [sep] + q;
    if p == "" {
      assert s[1..] == q;
    } else {
      assert s[1..] == p[1..] + [sep] + q;
      SplitConcat(p[1..], q, sep);
    }
  }
}
