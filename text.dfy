/** Python string operations the pipeline relies on, stated over `string` (= seq<char>).
    `lower()` is modelled on ASCII letters; the whitespace set is Python 3's `str.isspace()`
    set, which is also what `\s`, `strip()` and `split()` use. */
module Text {

  // ---------------------------------------------------------------- characters

  predicate IsUpper(c: char) { 'A' <= c <= 'Z' }

  /** The code points Python 3 treats as whitespace (`str.isspace()`, `strip()`, `split()`,
      regex `\s`): tab to carriage return, the four information separators, space, next
      line, no-break space, ogham space, the en quad to hair space block, the line and
      paragraph separators, the narrow no-break, medium mathematical and ideographic spaces. */
  predicate IsSpace(c: char) {
    var n := c as int;
    9 <= n <= 13 || 28 <= n <= 32 || n == 0x85 || n == 0xA0 || n == 0x1680 ||
    0x2000 <= n <= 0x200A || n == 0x2028 || n == 0x2029 || n == 0x202F || n == 0x205F || n == 0x3000
  }

  predicate IsDigit(c: char) { '0' <= c <= '9' }

  predicate IsLetter(c: char) { 'a' <= c <= 'z' || 'A' <= c <= 'Z' }

  function LowerChar(c: char): (d: char)
    ensures !IsUpper(d)
    ensures IsSpace(d) <==> IsSpace(c)
  {
    if IsUpper(c) then (c as int + 32) as char else c
  }

  function UpperChar(c: char): char {
    if 'a' <= c <= 'z' then (c as int - 32) as char else c
  }

  /** `s.lower()` */
  function Lower(s: string): (r: string)
    ensures |r| == |s|
    ensures forall i :: 0 <= i < |s| ==> r[i] == LowerChar(s[i])
  {
    seq(|s|, i requires 0 <= i < |s| => LowerChar(s[i]))
  }

  /** Lower-casing twice is lower-casing once. */
  lemma LowerIdempotent(s: string)
    ensures Lower(Lower(s)) == Lower(s)
  {
  }

  /** Lower-casing works character by character, so it distributes over concatenation. */
  lemma LowerAppend(a: string, b: string)
    ensures Lower(a + b) == Lower(a) + Lower(b)
  {
  }

  predicate HasUpper(s: string) {
    exists i :: 0 <= i < |s| && IsUpper(s[i])
  }

  // ---------------------------------------------------------------- containment

  predicate StartsWith(s: string, p: string) {
    |p| <= |s| && s[..|p|] == p
  }

  predicate EndsWith(s: string, p: string) {
    |p| <= |s| && s[|s| - |p|..] == p
  }

  /** `p in s` for strings */
  predicate Contains(s: string, p: string)
    decreases |s|
  {
    StartsWith(s, p) || (|s| > 0 && Contains(s[1..], p))
  }

  lemma {:induction false} ContainsAt(s: string, p: string, i: nat)
    requires i + |p| <= |s| && s[i..i + |p|] == p
    ensures Contains(s, p)
    decreases i
  {
    if i == 0 {
      assert s[..|p|] == p;
    } else {
      assert s[1..][i - 1..i - 1 + |p|] == s[i..i + |p|];
      ContainsAt(s[1..], p, i - 1);
    }
  }

  lemma {:induction false} ContainsWitness(s: string, p: string) returns (i: nat)
    requires Contains(s, p)
    ensures i + |p| <= |s| && s[i..i + |p|] == p
    decreases |s|
  {
    if StartsWith(s, p) {
      i := 0;
    } else {
      var j := ContainsWitness(s[1..], p);
      i := j + 1;
      assert s[1..][j..j + |p|] == s[i..i + |p|];
    }
  }

  /** An occurrence inside the middle part is an occurrence in the whole. */
  lemma ContainsInside(a: string, b: string, c: string, p: string)
    requires Contains(b, p)
    ensures Contains(a + b + c, p)
  {
    var i := ContainsWitness(b, p);
    assert (a + b + c)[|a| + i..|a| + i + |p|] == b[i..i + |p|];
    ContainsAt(a + b + c, p, |a| + i);
  }

  /** A text shorter than the pattern cannot contain it. */
  lemma ShorterNeverContains(s: string, p: string)
    requires |s| < |p|
    ensures !Contains(s, p)
  {
    if Contains(s, p) {
      var i := ContainsWitness(s, p);
    }
  }

  /** Every character inside an occurrence of `p` is a character of `p`. */
  lemma InOccurrence(s: string, p: string, i: nat, k: nat)
    requires i + |p| <= |s| && s[i..i + |p|] == p && i <= k < i + |p|
    ensures s[k] in p
  {
    assert s[k] == p[k - i];
  }

  /** A pattern without a space occurs in two texts joined by a space exactly when it
      occurs in one of them: no occurrence can straddle the space. */
  lemma ContainsAcrossSpace(a: string, b: string, p: string)
    requires ' ' !in p
    ensures Contains(a + " " + b, p) <==> Contains(a, p) || Contains(b, p)
  {
    var s := a + " " + b;
    if Contains(s, p) {
      var i := ContainsWitness(s, p);
      if i + |p| <= |a| {
        assert s[i..i + |p|] == a[i..i + |p|];
        ContainsAt(a, p, i);
      } else if i > |a| {
        assert s[i..i + |p|] == b[i - |a| - 1..i - |a| - 1 + |p|];
        ContainsAt(b, p, i - |a| - 1);
      } else {
        InOccurrence(s, p, i, |a|);
        assert false;
      }
    }
    if Contains(a, p) {
      ContainsInside([], a, " " + b, p);
      assert [] + a + (" " + b) == s;
    } else if Contains(b, p) {
      ContainsInside(a + " ", b, [], p);
      assert a + " " + b + [] == s;
    }
  }

  /** A non-empty pattern without a space occurs in the lower-cased, space-joined parts
      exactly when it occurs in some lower-cased part. */
  lemma {:induction false} JoinContains(parts: seq<string>, p: string)
    requires ' ' !in p && |p| > 0
    ensures Contains(Lower(Join(" ", parts)), p) <==>
            exists j :: 0 <= j < |parts| && Contains(Lower(parts[j]), p)
    decreases |parts|
  {
    if parts == [] {
      ShorterNeverContains(Lower([]), p);
    } else if |parts| == 1 {
    } else {
      var rest := parts[1..];
      JoinContains(rest, p);
      LowerAppend(parts[0] + " ", Join(" ", rest));
      LowerAppend(parts[0], " ");
      assert Lower(Join(" ", parts)) == Lower(parts[0]) + " " + Lower(Join(" ", rest));
      ContainsAcrossSpace(Lower(parts[0]), Lower(Join(" ", rest)), p);
      if exists j :: 0 <= j < |rest| && Contains(Lower(rest[j]), p) {
        var j :| 0 <= j < |rest| && Contains(Lower(rest[j]), p);
        assert parts[j + 1] == rest[j];
      }
      if exists j :: 0 <= j < |parts| && Contains(Lower(parts[j]), p) {
        var j :| 0 <= j < |parts| && Contains(Lower(parts[j]), p);
        if j > 0 {
          assert rest[j - 1] == parts[j];
        }
      }
    }
  }

  /** A lower-cased text never contains a pattern holding an upper-case letter: a lookup
      table entry such as "MLOps" can never match `text.lower()`. */
  lemma {:induction false} UpperNeverInLowered(text: string, p: string)
    requires HasUpper(p)
    ensures !Contains(Lower(text), p)
  {
    if Contains(Lower(text), p) {
      var i := ContainsWitness(Lower(text), p);
    }
  }

  /** Index of the first occurrence of `p` in `s`, or -1 (`s.find(p)`). */
  function IndexOf(s: string, p: string): (r: int)
    ensures -1 <= r <= |s|
    ensures r == -1 <==> !Contains(s, p)
    ensures r >= 0 ==> r + |p| <= |s| && s[r..r + |p|] == p
    decreases |s|
  {
    if StartsWith(s, p) then 0
    else if |s| == 0 then -1
    else
      var k := IndexOf(s[1..], p);
      if k < 0 then -1
      else
        assert s[1..][k..k + |p|] == s[k + 1..k + 1 + |p|];
        k + 1
  }

  /** No occurrence of `p` starts before `IndexOf(s, p)`. */
  lemma {:induction false} IndexOfIsFirst(s: string, p: string, j: nat)
    requires j < IndexOf(s, p)
    ensures !StartsWith(s[j..], p)
    decreases |s|
  {
    if j > 0 {
      IndexOfIsFirst(s[1..], p, j - 1);
      assert s[j..] == s[1..][j - 1..];
    }
  }

  /** Where `s.split(p)[-1]` starts: past each occurrence of `p` found scanning from the
      left, each search resuming after the previous occurrence; 0 when `p` does not occur. */
  function LastPieceStart(s: string, p: string): (k: nat)
    requires |p| > 0
    ensures k <= |s| && !Contains(s[k..], p)
    ensures Contains(s, p) ==> |p| <= k && s[k - |p|..k] == p
    ensures !Contains(s, p) ==> k == 0
    decreases |s|
  {
    if Contains(s, p) then
      var i := IndexOf(s, p);
      var t := s[i + |p|..];
      var k' := LastPieceStart(t, p);
      MarkerBeforePiece(s, t, p, i, k');
      i + |p| + k'
    else
      assert s[0..] == s;
      0
  }

  lemma MarkerBeforePiece(s: string, t: string, p: string, i: nat, k': nat)
    requires i + |p| <= |s| && s[i..i + |p|] == p && t == s[i + |p|..] && k' <= |t|
    requires Contains(t, p) ==> |p| <= k' && t[k' - |p|..k'] == p
    requires !Contains(t, p) ==> k' == 0
    ensures s[i + |p| + k'..] == t[k'..]
    ensures s[i + |p| + k' - |p|..i + |p| + k'] == p
  {
    if Contains(t, p) {
      assert t[k' - |p|..k'] == s[i + k'..i + |p| + k'];
    }
  }

  /** The first `n` characters of the suffix of `s` from `k`. */
  lemma PrefixOfSuffix(s: string, k: nat, r: string, n: nat)
    requires k <= |s| && r == s[k..] && n <= |r|
    ensures k + n <= |s| && s[k..k + n] == r[..n]
    ensures n < |r| ==> s[k + n] == r[n]
  {
  }

  /** `s.split(p)[-1]` (p non-empty): what follows the last occurrence, or `s` itself. */
  function AfterLast(s: string, p: string): (r: string)
    requires |p| > 0
    ensures !Contains(r, p)
    ensures |r| <= |s|
  {
    s[LastPieceStart(s, p)..]
  }

  /** `s.split(c, 1)[0]`: the text before the first `c`, or all of `s`. */
  function UpTo(s: string, c: char): (r: string)
    ensures c !in r
    ensures |r| <= |s| && r == s[..|r|]
    ensures |r| < |s| ==> s[|r|] == c
  {
    if |s| == 0 || s[0] == c then [] else [s[0]] + UpTo(s[1..], c)
  }

  // ---------------------------------------------------------------- strip / split

  /** `s.lstrip()` */
  function LStrip(s: string): (r: string)
    ensures |r| <= |s| && r == s[|s| - |r|..]
    ensures r != [] ==> !IsSpace(r[0])
  {
    if |s| > 0 && IsSpace(s[0]) then LStrip(s[1..]) else s
  }

  /** `s.rstrip()` */
  function RStrip(s: string): (r: string)
    ensures |r| <= |s| && r == s[..|r|]
    ensures r != [] ==> !IsSpace(r[|r| - 1])
  {
    if |s| > 0 && IsSpace(s[|s| - 1]) then RStrip(s[..|s| - 1]) else s
  }

  /** `s.strip()` */
  function Strip(s: string): (r: string)
    ensures |r| <= |s|
    ensures r != [] ==> !IsSpace(r[0]) && !IsSpace(r[|r| - 1])
  {
    var l := LStrip(s);
    var r := RStrip(l);
    assert r != [] ==> r[0] == l[0];
    r
  }

  /** Stripping a lower-cased text leaves it lower-cased. */
  lemma StripKeepsLower(s: string)
    ensures Lower(Strip(Lower(s))) == Strip(Lower(s))
  {
    var t := Lower(s);
    var l := LStrip(t);
    var r := Strip(t);
    assert r == RStrip(l) && RStrip(l) == l[..|RStrip(l)|];
    assert l == t[|t| - |l|..];
    forall i | 0 <= i < |r|
      ensures LowerChar(r[i]) == r[i]
    {
      assert r[i] == t[|t| - |l| + i];
    }
  }

  /** A string with no whitespace at either end is its own strip. */
  lemma StripUnchanged(s: string)
    requires s != [] && !IsSpace(s[0]) && !IsSpace(s[|s| - 1])
    ensures Strip(s) == s
  {
    assert LStrip(s) == s;
  }

  /** `s.rstrip(c)` for one character */
  function RStripChar(s: string, c: char): (r: string)
    ensures |r| <= |s| && r == s[..|r|]
    ensures r != [] ==> r[|r| - 1] != c
  {
    if |s| > 0 && s[|s| - 1] == c then RStripChar(s[..|s| - 1], c) else s
  }

  /** Number of leading non-whitespace characters. */
  function TokenLength(s: string): (n: nat)
    ensures n <= |s|
    ensures |s| > 0 && !IsSpace(s[0]) ==> n > 0
  {
    if |s| == 0 || IsSpace(s[0]) then 0 else 1 + TokenLength(s[1..])
  }

  /** `s.split()`: the maximal runs of non-whitespace characters. */
  function Words(s: string): seq<string>
    decreases |s|
  {
    var t := LStrip(s);
    if t == [] then []
    else
      var n := TokenLength(t);
      assert n > 0;
      [t[..n]] + Words(t[n..])
  }

  /** `s.split()` never yields an empty word. */
  lemma {:induction false} WordsNonEmpty(s: string)
    ensures forall k :: 0 <= k < |Words(s)| ==> |Words(s)[k]| > 0
    decreases |s|
  {
    var t := LStrip(s);
    if t != [] {
      var n := TokenLength(t);
      var rest := Words(t[n..]);
      WordsNonEmpty(t[n..]);
      assert Words(s) == [t[..n]] + rest;
      forall k | 0 <= k < |Words(s)|
        ensures |Words(s)[k]| > 0
      {
        if k > 0 {
          assert Words(s)[k] == rest[k - 1];
        }
      }
    }
  }

  /** `s.replace(" ", r)` */
  function ReplaceSpace(s: string, r: string): (out: string)
    ensures ' ' !in r ==> ' ' !in out
  {
    if s == [] then []
    else (if s[0] == ' ' then r else [s[0]]) + ReplaceSpace(s[1..], r)
  }

  /** `sep.join(parts)` */
  function Join(sep: string, parts: seq<string>): string {
    if parts == [] then []
    else if |parts| == 1 then parts[0]
    else parts[0] + sep + Join(sep, parts[1..])
  }

  /** `s.title()` on ASCII: a letter is upper-cased when it does not follow a letter and
      lower-cased when it does. */
  function Title(s: string): (r: string)
    ensures |r| == |s|
  {
    seq(|s|, i requires 0 <= i < |s| =>
      if i > 0 && IsLetter(s[i - 1]) then LowerChar(s[i]) else UpperChar(s[i]))
  }

  /** `any(t in text for t in terms)` */
  predicate AnyContained(text: string, terms: seq<string>) {
    exists k :: 0 <= k < |terms| && Contains(text, terms[k])
  }

  /** `sum(1 for t in terms if t in text)` */
  function CountContained(text: string, terms: seq<string>): (n: nat)
    ensures n <= |terms|
    ensures n > 0 <==> AnyContained(text, terms)
  {
    if terms == [] then 0
    else
      var m := CountContained(text, terms[..|terms| - 1]);
      assert forall k :: 0 <= k < |terms| - 1 ==> terms[..|terms| - 1][k] == terms[k];
      m + (if Contains(text, terms[|terms| - 1]) then 1 else 0)
  }

  /** Terms known not to occur do not count: `dead` holds their indexes. */
  lemma {:induction false} CountContainedSkips(text: string, terms: seq<string>, dead: set<nat>)
    requires forall k :: k in dead ==> k < |terms| && !Contains(text, terms[k])
    ensures CountContained(text, terms) + |dead| <= |terms|
  {
    if terms != [] {
      var last := |terms| - 1;
      var init := terms[..last];
      var rest := dead - {last};
      assert forall k :: k in rest ==> init[k] == terms[k];
      CountContainedSkips(text, init, rest);
      if last in dead {
        assert |rest| == |dead| - 1;
      } else {
        assert rest == dead;
      }
    } else {
      assert dead == {};
    }
  }

  /** `str(n)` for a natural number */
  function NatToString(n: nat): (s: string)
    ensures |s| > 0
    decreases n
  {
    var d := ['0' + (n % 10) as char];
    if n < 10 then d else NatToString(n / 10) + d
  }
}
