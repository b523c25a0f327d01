/**
 * The string operations the core relies on: Python's `str.split()`,
 * `str.split(sep)`, `str.strip()`, `str.join`, case mapping, PostgreSQL's
 * `ILIKE` with its `%`/`_` wildcards, and code-point string order.
 */
module Text {
  import opened Wrappers

  /** Python's `str.isspace()` for one character. */
  predicate IsSpace(c: char)
  {
    var n := c as int;
    || (9 <= n <= 13)          // \t \n \v \f \r
    || (28 <= n <= 32)         // file, group, record, unit separators; space
    || n == 0x85 || n == 0xA0 || n == 0x1680
    || (0x2000 <= n <= 0x200A)
    || n == 0x2028 || n == 0x2029 || n == 0x202F || n == 0x205F || n == 0x3000
  }

  predicate NoSpace(s: string)
  {
    forall i :: 0 <= i < |s| ==> !IsSpace(s[i])
  }

  /** `s.lstrip()`: drops the leading whitespace. */
  function TrimLeft(s: string): (r: string)
    ensures |r| <= |s| && r == s[|s| - |r|..]
    ensures forall k :: 0 <= k < |s| - |r| ==> IsSpace(s[k])
    ensures r == [] || !IsSpace(r[0])
  {
    if s != [] && IsSpace(s[0]) then TrimLeft(s[1..]) else s
  }

  /** `s.rstrip()`: drops the trailing whitespace. */
  function TrimRight(s: string): (r: string)
    ensures |r| <= |s| && r == s[..|r|]
    ensures forall k :: |r| <= k < |s| ==> IsSpace(s[k])
    ensures r == [] || !IsSpace(r[|r| - 1])
  {
    if s != [] && IsSpace(s[|s| - 1]) then TrimRight(s[..|s| - 1]) else s
  }

  /** `s.strip()`. */
  function Strip(s: string): (r: string)
    ensures r == [] || (!IsSpace(r[0]) && !IsSpace(r[|r| - 1]))
  {
    TrimRight(TrimLeft(s))
  }

  /** What `strip` removes is whitespace, and what it keeps is a middle slice. */
  lemma StripSlice(s: string)
    ensures var r := Strip(s); var i := |s| - |TrimLeft(s)|;
      && i + |r| <= |s| && r == s[i..i + |r|]
      && (forall k :: 0 <= k < i ==> IsSpace(s[k]))
      && (forall k :: i + |r| <= k < |s| ==> IsSpace(s[k]))
  {
    var l := TrimLeft(s);
    var r := TrimRight(l);
    var i := |s| - |l|;
    PrefixOfSuffix(s, i, |r|);
    forall k | i + |r| <= k < |s|
      ensures IsSpace(s[k])
    {
      assert s[k] == l[k - i];
    }
  }

  lemma PrefixOfSuffix(s: string, i: nat, n: nat)
    requires i + n <= |s|
    ensures s[i..][..n] == s[i..i + n]
  {
  }

  /** A string without whitespace at either end is left as it is. */
  lemma StripNoEdgeSpace(s: string)
    requires s == [] || (!IsSpace(s[0]) && !IsSpace(s[|s| - 1]))
    ensures Strip(s) == s
  {
  }

  /** Stripping twice is stripping once. */
  lemma {:induction false} StripIdempotent(s: string)
    ensures Strip(Strip(s)) == Strip(s)
  {
    var r := Strip(s);
    if r != [] {
      assert TrimLeft(r) == r;
      assert TrimRight(r) == r;
    }
  }

  /** A non-empty run of non-whitespace characters. */
  predicate IsWord(w: string)
  {
    w != [] && NoSpace(w)
  }

  /** The first position at or after `i` that does not hold whitespace. */
  function SkipSpace(s: string, i: nat): (j: nat)
    requires i <= |s|
    ensures i <= j <= |s|
    ensures forall k :: i <= k < j ==> IsSpace(s[k])
    ensures j == |s| || !IsSpace(s[j])
    decreases |s| - i
  {
    if i < |s| && IsSpace(s[i]) then SkipSpace(s, i + 1) else i
  }

  /** The first position at or after `i` that holds whitespace. */
  function WordEnd(s: string, i: nat): (j: nat)
    requires i <= |s|
    ensures i <= j <= |s|
    ensures forall k :: i <= k < j ==> !IsSpace(s[k])
    ensures j == |s| || IsSpace(s[j])
    decreases |s| - i
  {
    if i < |s| && !IsSpace(s[i]) then WordEnd(s, i + 1) else i
  }

  /** The words of `s` from position `i` on. */
  function WordsFrom(s: string, i: nat): (r: seq<string>)
    requires i <= |s|
    ensures forall k :: 0 <= k < |r| ==> IsWord(r[k])
    decreases |s| - i
  {
    var j := SkipSpace(s, i);
    if j == |s| then []
    else
      var e := WordEnd(s, j);
      assert forall k :: 0 <= k < e - j ==> s[j..e][k] == s[j + k];
      [s[j..e]] + WordsFrom(s, e)
  }

  /** `s.split()`: the maximal runs of non-whitespace characters. */
  function Words(s: string): (r: seq<string>)
    ensures forall i :: 0 <= i < |r| ==> IsWord(r[i])
  {
    WordsFrom(s, 0)
  }

  /** A word that starts after a run of whitespace at `j` and ends at `e` is the next one. */
  lemma WordAt(s: string, i: nat, j: nat, e: nat)
    requires i <= j < e <= |s|
    requires forall k :: i <= k < j ==> IsSpace(s[k])
    requires forall k :: j <= k < e ==> !IsSpace(s[k])
    requires e == |s| || IsSpace(s[e])
    ensures WordsFrom(s, i) == [s[j..e]] + WordsFrom(s, e)
  {
    var j' := SkipSpace(s, i);
    var e' := WordEnd(s, j);
  }

  /** Nothing but whitespace from `i` on holds no more words. */
  lemma NoWordsAfter(s: string, i: nat)
    requires i <= |s|
    requires forall k :: i <= k < |s| ==> IsSpace(s[k])
    ensures WordsFrom(s, i) == []
  {
    var j := SkipSpace(s, i);
  }

  /** Where the parts of `a + " " + b` sit. */
  lemma SpacedIndex(a: string, b: string)
    ensures var s := a + " " + b;
            && |s| == |a| + 1 + |b|
            && (forall k :: 0 <= k < |a| ==> s[k] == a[k])
            && s[|a|] == ' '
            && (forall k :: 0 <= k < |b| ==> s[|a| + 1 + k] == b[k])
  {
  }

  /** Splitting one word gives that word alone. */
  lemma WordsOne(w: string)
    requires IsWord(w)
    ensures Words(w) == [w]
  {
    WordAt(w, 0, 0, |w|);
    NoWordsAfter(w, |w|);
    assert w[0..|w|] == w;
  }

  /** Two words separated by one space split into exactly those two words. */
  lemma WordsTwo(a: string, b: string)
    requires IsWord(a) && IsWord(b)
    ensures Words(a + " " + b) == [a, b]
  {
    var s := a + " " + b;
    var m := |a| + 1;
    assert forall k :: 0 <= k < |a| ==> s[k] == a[k];
    assert s[|a|] == ' ';
    assert forall k :: m <= k < |s| ==> s[k] == b[k - m];
    WordAt(s, 0, 0, |a|);
    WordAt(s, |a|, m, |s|);
    NoWordsAfter(s, |s|);
    assert s[0..|a|] == a;
    assert s[m..|s|] == b;
  }

  /** Words at `[0, x)`, `[x + 1, y)` and `[y + 1, |s|)`, split by single whitespace characters. */
  lemma ThreeWordsAt(s: string, x: nat, y: nat)
    requires 0 < x && x + 1 < y && y + 1 < |s|
    requires forall k :: 0 <= k < x ==> !IsSpace(s[k])
    requires forall k :: x + 1 <= k < y ==> !IsSpace(s[k])
    requires forall k :: y + 1 <= k < |s| ==> !IsSpace(s[k])
    requires IsSpace(s[x]) && IsSpace(s[y])
    ensures |Words(s)| == 3
  {
    WordAt(s, 0, 0, x);
    WordAt(s, x, x + 1, y);
    WordAt(s, y, y + 1, |s|);
    NoWordsAfter(s, |s|);
  }

  /** Three words separated by single spaces split into three words. */
  lemma WordsThree(a: string, b: string, c: string)
    requires IsWord(a) && IsWord(b) && IsWord(c)
    ensures |Words(a + " " + b + " " + c)| == 3
  {
    var t := a + " " + b;
    var s := t + " " + c;
    SpacedIndex(a, b);
    SpacedIndex(t, c);
    forall k | 0 <= k < |a|
      ensures !IsSpace(s[k])
    {
      assert s[k] == t[k] == a[k];
    }
    forall k | |a| + 1 <= k < |t|
      ensures !IsSpace(s[k])
    {
      assert s[k] == t[k] == b[k - |a| - 1];
    }
    forall k | |t| + 1 <= k < |s|
      ensures !IsSpace(s[k])
    {
      assert s[k] == c[k - |t| - 1];
    }
    ThreeWordsAt(s, |a|, |t|);
  }

  /** A string holding no whitespace at all splits into at most one word. */
  lemma WordsNoSpace(s: string)
    requires NoSpace(s)
    ensures |Words(s)| == if s == [] then 0 else 1
  {
    if s != [] {
      WordsOne(s);
    }
  }

  /** The number of occurrences of `c` in `s`. */
  function Occurrences(s: string, c: char): nat
  {
    if s == [] then 0 else (if s[0] == c then 1 else 0) + Occurrences(s[1..], c)
  }

  /** `sep.join(parts)`. */
  function Join(parts: seq<string>, sep: string): string
  {
    if parts == [] then ""
    else if |parts| == 1 then parts[0]
    else parts[0] + sep + Join(parts[1..], sep)
  }

  /** The position of the first `c` in `s`. */
  function IndexOf(s: string, c: char): (i: nat)
    requires c in s
    ensures i < |s| && s[i] == c && c !in s[..i]
  {
    if s[0] == c then 0
    else
      assert c in s[1..];
      var j := IndexOf(s[1..], c);
      assert s[..j + 1] == [s[0]] + s[1..][..j];
      j + 1
  }

  /** `s.split(c)` for a one-character separator. */
  function SplitOn(s: string, c: char): (r: seq<string>)
    ensures |r| >= 1
    ensures forall i :: 0 <= i < |r| ==> c !in r[i]
    decreases |s|
  {
    if c !in s then [s]
    else
      var i := IndexOf(s, c);
      [s[..i]] + SplitOn(s[i + 1..], c)
  }

  /** The first separator is found wherever it first occurs. */
  lemma {:induction false} IndexOfAt(s: string, c: char, i: nat)
    requires i < |s| && s[i] == c && c !in s[..i]
    ensures IndexOf(s, c) == i
  {
    assert i > 0 ==> s[..i][0] == s[0];
    if s[0] != c {
      assert s[1..][i - 1] == c;
      assert s[1..][..i - 1] == s[..i][1..];
      IndexOfAt(s[1..], c, i - 1);
    }
  }

  /** Two pieces joined by one separator split back into those pieces. */
  lemma SplitOnTwo(a: string, b: string, c: char)
    requires c !in a && c !in b
    ensures SplitOn(a + [c] + b, c) == [a, b]
  {
    var s := a + [c] + b;
    assert s[|a|] == c;
    assert s[..|a|] == a;
    IndexOfAt(s, c, |a|);
    assert s[|a| + 1..] == b;
  }

  lemma OccurrencesAppend(a: string, b: string, c: char)
    ensures Occurrences(a + b, c) == Occurrences(a, c) + Occurrences(b, c)
  {
    if a == [] {
      assert a + b == b;
    } else {
      assert (a + b)[0] == a[0];
      assert (a + b)[1..] == a[1..] + b;
      OccurrencesAppend(a[1..], b, c);
    }
  }

  lemma OccurrencesAbsent(s: string, c: char)
    requires c !in s
    ensures Occurrences(s, c) == 0
  {
    if s != [] {
      OccurrencesAbsent(s[1..], c);
    }
  }

  /** Splitting and re-joining with the same separator gives the string back. */
  lemma {:induction false} SplitJoin(s: string, c: char)
    ensures Join(SplitOn(s, c), [c]) == s
    decreases |s|
  {
    if c in s {
      var r := SplitOn(s, c);
      var i := IndexOf(s, c);
      SplitJoin(s[i + 1..], c);
      assert r[1..] == SplitOn(s[i + 1..], c);
      assert s == s[..i] + [c] + s[i + 1..];
    }
  }

  /** `s.split(c)` has one more piece than `s` has separators. */
  lemma {:induction false} SplitCount(s: string, c: char)
    ensures |SplitOn(s, c)| == Occurrences(s, c) + 1
    decreases |s|
  {
    if c !in s {
      OccurrencesAbsent(s, c);
    } else {
      var i := IndexOf(s, c);
      SplitCount(s[i + 1..], c);
      assert s == s[..i] + ([c] + s[i + 1..]);
      OccurrencesAppend(s[..i], [c] + s[i + 1..], c);
      OccurrencesAbsent(s[..i], c);
      assert ([c] + s[i + 1..])[1..] == s[i + 1..];
    }
  }

  function LowerChar(c: char): char
  {
    if 'A' <= c <= 'Z' then (c as int + 32) as char else c
  }

  /** Lower-casing of ASCII letters; everything else is left alone. */
  function AsciiLower(s: string): (r: string)
    ensures |r| == |s|
    ensures forall i :: 0 <= i < |s| ==> r[i] == LowerChar(s[i])
  {
    seq(|s|, i requires 0 <= i < |s| => LowerChar(s[i]))
  }

  lemma AsciiLowerAppend(a: string, b: string)
    ensures AsciiLower(a + b) == AsciiLower(a) + AsciiLower(b)
  {
  }

  /** Characters with a meaning inside a LIKE pattern. */
  predicate IsLikeSpecial(c: char)
  {
    c == '%' || c == '_' || c == '\\'
  }

  predicate NoLikeSpecial(s: string)
  {
    forall i :: 0 <= i < |s| ==> !IsLikeSpecial(s[i])
  }

  /**
   * PostgreSQL `t LIKE p` with the default escape character `\`: `%`
   * matches any run of characters, `_` any single character, and `\x`
   * the character `x` itself.
   */
  predicate Like(t: string, p: string)
    decreases |p|, |t|
  {
    if p == [] then t == []
    else if p[0] == '%' then Like(t, p[1..]) || (t != [] && Like(t[1..], p))
    else if p[0] == '_' then t != [] && Like(t[1..], p[1..])
    else if p[0] == '\\' && |p| >= 2 then t != [] && t[0] == p[1] && Like(t[1..], p[2..])
    else t != [] && t[0] == p[0] && Like(t[1..], p[1..])
  }

  /** `t ILIKE p`: LIKE after lower-casing both sides. */
  predicate ILike(t: string, p: string)
  {
    Like(AsciiLower(t), AsciiLower(p))
  }

  /** `s` occurs in `t` at some position. */
  predicate Contains(t: string, s: string)
  {
    exists i :: 0 <= i <= |t| && OccursAt(t, s, i)
  }

  predicate OccursAt(t: string, s: string, i: int)
  {
    0 <= i <= |t| - |s| && t[i..i + |s|] == s
  }

  lemma {:induction false} LikeAnything(t: string)
    ensures Like(t, "%")
    decreases |t|
  {
    if t != [] {
      LikeAnything(t[1..]);
    }
  }

  /** A literal followed by `%` matches exactly the strings it starts. */
  lemma {:induction false} LikePrefix(t: string, s: string)
    requires NoLikeSpecial(s)
    ensures Like(t, s + "%") <==> |s| <= |t| && t[..|s|] == s
    decreases |s|
  {
    if s == [] {
      assert s + "%" == "%";
      LikeAnything(t);
    } else {
      assert (s + "%")[1..] == s[1..] + "%";
      if t != [] {
        LikePrefix(t[1..], s[1..]);
        if |s| <= |t| && t[..|s|] == s {
          assert t[1..][..|s| - 1] == s[1..];
        }
        if t[0] == s[0] && |s[1..]| <= |t[1..]| && t[1..][..|s[1..]|] == s[1..] {
          assert t[..|s|] == [t[0]] + t[1..][..|s[1..]|];
        }
      }
    }
  }

  /** A leading `%` lets the rest of the pattern match any suffix. */
  lemma {:induction false} LikeLeadingPercent(t: string, q: string)
    ensures Like(t, "%" + q) <==> exists i :: 0 <= i <= |t| && Like(t[i..], q)
    decreases |t|
  {
    var p := "%" + q;
    assert p[1..] == q;
    if t == [] {
      assert t[0..] == t;
    } else {
      LikeLeadingPercent(t[1..], q);
      if Like(t, p) {
        if !Like(t, q) {
          var i :| 0 <= i <= |t[1..]| && Like(t[1..][i..], q);
          assert t[1..][i..] == t[i + 1..];
        } else {
          assert t[0..] == t;
        }
      }
      if exists i :: 0 <= i <= |t| && Like(t[i..], q) {
        var i :| 0 <= i <= |t| && Like(t[i..], q);
        if i == 0 {
          assert t[0..] == t;
        } else {
          assert t[1..][i - 1..] == t[i..];
        }
      }
    }
  }

  /** `%s%` with no special character in `s` is a substring test. */
  lemma LikeContains(t: string, s: string)
    requires NoLikeSpecial(s)
    ensures Like(t, "%" + s + "%") <==> Contains(t, s)
  {
    assert "%" + s + "%" == "%" + (s + "%");
    LikeLeadingPercent(t, s + "%");
    if Contains(t, s) {
      var i :| 0 <= i <= |t| && OccursAt(t, s, i);
      LikePrefix(t[i..], s);
      assert t[i..][..|s|] == t[i..i + |s|];
    }
    if exists i :: 0 <= i <= |t| && Like(t[i..], s + "%") {
      var i :| 0 <= i <= |t| && Like(t[i..], s + "%");
      LikePrefix(t[i..], s);
      assert t[i..][..|s|] == t[i..i + |s|];
      assert OccursAt(t, s, i);
    }
  }

  /**
   * The services search with `ILIKE '%' || term || '%'`: for a term without
   * `%`, `_` or `\` this is a case-insensitive substring test.
   */
  lemma ILikeContains(t: string, term: string)
    requires NoLikeSpecial(term)
    ensures ILike(t, "%" + term + "%") <==> Contains(AsciiLower(t), AsciiLower(term))
  {
    AsciiLowerAppend("%" + term, "%");
    AsciiLowerAppend("%", term);
    assert AsciiLower("%" + term + "%") == "%" + AsciiLower(term) + "%";
    LikeContains(AsciiLower(t), AsciiLower(term));
  }

  /**
   * The term is not escaped: a search for `_` matches every non-empty
   * value, although no value need contain the character `_`.
   */
  lemma UnderscoreSearchMatchesAll(t: string)
    requires t != []
    ensures ILike(t, "%" + "_" + "%")
  {
    var lt := AsciiLower(t);
    assert AsciiLower("%_%") == "%_%";
    assert "%" + "_" + "%" == "%_%";
    LikeAnything(lt[1..]);
    assert "%_%"[1..] == "_%";
    assert "_%"[1..] == "%";
    assert Like(lt, "_%");
  }

  /** Code-point order on strings (`a <= b`). */
  predicate StrLeq(a: string, b: string)
  {
    a == [] || (b != [] && (a[0] < b[0] || (a[0] == b[0] && StrLeq(a[1..], b[1..]))))
  }

  lemma {:induction false} StrLeqTotal(a: string, b: string)
    ensures StrLeq(a, b) || StrLeq(b, a)
  {
    if a != [] && b != [] && a[0] == b[0] {
      StrLeqTotal(a[1..], b[1..]);
    }
  }

  lemma {:induction false} StrLeqTransitive(a: string, b: string, c: string)
    requires StrLeq(a, b) && StrLeq(b, c)
    ensures StrLeq(a, c)
  {
    if a != [] && b != [] && c != [] && a[0] == b[0] && b[0] == c[0] {
      StrLeqTransitive(a[1..], b[1..], c[1..]);
    }
  }

  lemma {:induction false} StrLeqAntisymmetric(a: string, b: string)
    requires StrLeq(a, b) && StrLeq(b, a)
    ensures a == b
  {
    if a != [] && b != [] {
      StrLeqAntisymmetric(a[1..], b[1..]);
      assert a == [a[0]] + a[1..] && b == [b[0]] + b[1..];
    }
  }

  /** `column ILIKE '%term%'`; a NULL column matches nothing. */
  predicate SearchHits(column: Option<string>, term: string)
  {
    column.Some? && ILike(column.value, "%" + term + "%")
  }

  /**
   * For a term without `%`, `_` or `\`, a search hit is a case-insensitive
   * substring of the column.
   */
  lemma SearchHitsIsSubstring(column: Option<string>, term: string)
    requires NoLikeSpecial(term)
    ensures SearchHits(column, term) <==> column.Some? && Contains(AsciiLower(column.value), AsciiLower(term))
  {
    if column.Some? {
      ILikeContains(column.value, term);
    }
  }
}
