/**
 * The parts of Python's string behaviour the file manager relies on:
 * slicing with clamped (and negative) bounds, `strip`, `split(sep)`,
 * `sep.join`, whitespace `split()`, and the decimal `int()` conversion.
 */
module PyStr {
  import opened Outcomes

  /** Python's `str.isspace` for one character: what `split()` and `strip()` treat as blank. */
  predicate IsSpace(c: char) {
    c == ' ' || ('\t' <= c <= '\r') || ('\U{1c}' <= c <= '\U{1f}') ||
    c == '\U{85}' || c == '\U{a0}' || c == '\U{1680}' || ('\U{2000}' <= c <= '\U{200a}') ||
    c == '\U{2028}' || c == '\U{2029}' || c == '\U{202f}' || c == '\U{205f}' || c == '\U{3000}'
  }

  // ---------------------------------------------------------------- slices

  /** A slice bound as Python normalises it for a sequence of length n. */
  function Bound(i: int, n: nat): (b: nat)
    ensures b <= n
  {
    if i < 0 then (if i + n < 0 then 0 else i + n)
    else if i > n then n
    else i
  }

  /** `s[i:j]`: never fails; bounds are counted from the end when negative, then clamped. */
  function Slice<T>(s: seq<T>, i: int, j: int): (r: seq<T>)
    ensures |r| <= |s|
    ensures 0 <= i <= j <= |s| ==> r == s[i..j]
    ensures Bound(i, |s|) <= Bound(j, |s|) ==> |r| == Bound(j, |s|) - Bound(i, |s|)
    ensures Bound(j, |s|) < Bound(i, |s|) ==> r == []
  {
    var lo, hi := Bound(i, |s|), Bound(j, |s|);
    if lo <= hi then s[lo..hi] else []
  }

  /** A non-empty sequence is its head followed by its tail (stated generically, so elements are not compared). */
  lemma {:induction false} HeadTail<T>(s: seq<T>)
    requires |s| >= 1
    ensures s == [s[0]] + s[1..]
  {
  }

  /** Concatenation regrouped (stated generically, so elements are not compared). */
  lemma {:induction false} ConcatAssoc<T>(a: seq<T>, b: seq<T>, c: seq<T>)
    ensures a + (b + c) == (a + b) + c
  {
  }

  /** `s[:k]` and `s[k:]` as Dafny slices at the clamped index. */
  lemma {:induction false} SliceAround<T>(s: seq<T>, k: int)
    ensures Slice(s, 0, k) == s[..Bound(k, |s|)]
    ensures Slice(s, k, |s|) == s[Bound(k, |s|)..]
  {
    assert Bound(0, |s|) == 0 && Bound(|s|, |s|) == |s|;
  }

  /** `s[:k] + s[k:] == s`, for every integer k. */
  lemma {:induction false} SliceSplit<T>(s: seq<T>, k: int)
    ensures Slice(s, 0, k) + Slice(s, k, |s|) == s
  {
    var b := Bound(k, |s|);
    assert Slice(s, 0, k) == s[..b];
    assert Slice(s, k, |s|) == s[b..];
  }

  // ---------------------------------------------------------------- searching

  /** The first index whose character satisfies p, or |s| when there is none. */
  function FirstWhere(s: string, p: char -> bool): (k: nat)
    ensures k <= |s|
    ensures forall i :: 0 <= i < k ==> !p(s[i])
    ensures k < |s| ==> p(s[k])
  {
    if s == [] then 0
    else if p(s[0]) then 0
    else 1 + FirstWhere(s[1..], p)
  }

  /** FirstWhere is the only index with its two properties. */
  lemma {:induction false} FirstWhereUnique(s: string, p: char -> bool, k: nat)
    requires k <= |s| && (forall i :: 0 <= i < k ==> !p(s[i])) && (k < |s| ==> p(s[k]))
    ensures FirstWhere(s, p) == k
  {
  }

  /** The first index of c in s, or |s|. */
  function IndexOf(s: string, c: char): (k: nat)
    ensures k <= |s|
    ensures c !in s[..k]
    ensures k < |s| ==> s[k] == c
  {
    var k := FirstWhere(s, x => x == c);
    assert forall i :: 0 <= i < k ==> s[..k][i] == s[i];
    k
  }

  /** IndexOf is the position of the first c. */
  lemma {:induction false} IndexOfUnique(s: string, c: char, j: nat)
    requires j < |s| && s[j] == c && c !in s[..j]
    ensures IndexOf(s, c) == j
  {
    forall i | 0 <= i < j ensures s[i] != c {
      assert s[..j][i] == s[i];
    }
    FirstWhereUnique(s, x => x == c, j);
  }

  // ---------------------------------------------------------------- strip

  /** How many leading characters satisfy `drop`. */
  function LeadLength(s: string, drop: char -> bool): (k: nat)
    ensures k <= |s|
    ensures forall i :: 0 <= i < k ==> drop(s[i])
    ensures k < |s| ==> !drop(s[k])
  {
    if s == [] || !drop(s[0]) then 0 else 1 + LeadLength(s[1..], drop)
  }

  /** LeadLength is the only length with its two properties. */
  lemma {:induction false} LeadLengthIs(s: string, drop: char -> bool, k: nat)
    requires k <= |s| && (forall i :: 0 <= i < k ==> drop(s[i])) && (k < |s| ==> !drop(s[k]))
    ensures LeadLength(s, drop) == k
  {
  }

  /** Leading characters satisfying `drop` removed. */
  function StripStart(s: string, drop: char -> bool): (r: string)
    ensures |r| <= |s| && r == s[|s| - |r|..]
    ensures forall i :: 0 <= i < |s| - |r| ==> drop(s[i])
    ensures r == [] || !drop(r[0])
  {
    s[LeadLength(s, drop)..]
  }

  /** Trailing characters satisfying `drop` removed. */
  function StripEnd(s: string, drop: char -> bool): (r: string)
    ensures |r| <= |s| && r == s[..|r|]
    ensures forall i :: |r| <= i < |s| ==> drop(s[i])
    ensures r == [] || !drop(r[|r| - 1])
    decreases |s|
  {
    if s == [] || !drop(s[|s| - 1]) then s
    else StripEnd(s[..|s| - 1], drop)
  }

  /**
   * `s.strip(chars)`: both ends stripped of the characters satisfying `drop`.
   * What is kept is the middle part of s that starts after the droppable
   * prefix, and everything outside it is droppable.
   */
  function Strip(s: string, drop: char -> bool): (r: string)
    ensures var i := LeadLength(s, drop);
      i + |r| <= |s| && r == s[i..i + |r|] &&
      (forall k :: i + |r| <= k < |s| ==> drop(s[k])) &&
      (r == [] || (!drop(r[0]) && !drop(r[|r| - 1])))
  {
    var i := LeadLength(s, drop);
    var t := StripStart(s, drop);
    assert t == s[i..];
    var r := StripEnd(t, drop);
    assert r == s[i..i + |r|] by { assert r == t[..|r|]; }
    assert forall k :: i + |r| <= k < |s| ==> drop(s[k]) by {
      forall k | i + |r| <= k < |s| ensures drop(s[k]) { assert s[k] == t[k - i]; }
    }
    r
  }

  /** Stripping twice strips nothing more. */
  lemma {:induction false} StripIdempotent(s: string, drop: char -> bool)
    ensures Strip(Strip(s, drop), drop) == Strip(s, drop)
  {
    var r := Strip(s, drop);
    assert StripStart(r, drop) == r;
  }

  /** `s.strip()`: whitespace stripped from both ends. */
  function StripSpace(s: string): string {
    Strip(s, IsSpace)
  }

  /** `s.strip(c)` for a single character. */
  function StripChar(s: string, c: char): string {
    Strip(s, x => x == c)
  }

  // ---------------------------------------------------------------- split and join

  /** `s.split(c)`: the pieces between occurrences of c, empty ones included. */
  function SplitOn(s: string, c: char): (parts: seq<string>)
    ensures |parts| >= 1
    ensures forall p :: p in parts ==> c !in p
    ensures parts[0] == s[..IndexOf(s, c)]
    decreases |s|
  {
    var k := IndexOf(s, c);
    if k == |s| then [s] else [s[..k]] + SplitOn(s[k + 1..], c)
  }

  /** `c.join(parts)`. */
  function Join(parts: seq<string>, c: char): string {
    if |parts| == 0 then ""
    else if |parts| == 1 then parts[0]
    else parts[0] + [c] + Join(parts[1..], c)
  }

  lemma {:induction false} IndexOfSeparated(a: string, c: char, b: string)
    requires c !in a
    ensures IndexOf(a + [c] + b, c) == |a|
  {
    var s := a + [c] + b;
    var k := IndexOf(s, c);
    forall i | 0 <= i < |a| ensures s[i] != c {
      assert s[i] == a[i];
      assert a[i] in a;
    }
    forall j | |a| < j <= |s| ensures c in s[..j] {
      assert s[..j][|a|] == c;
    }
  }

  /** Joining the pieces with the separator gives the string back. */
  lemma {:induction false} JoinSplitOn(s: string, c: char)
    ensures Join(SplitOn(s, c), c) == s
    decreases |s|
  {
    var k := IndexOf(s, c);
    if k < |s| {
      var rest := s[k + 1..];
      var tail := SplitOn(rest, c);
      var parts := [s[..k]] + tail;
      assert SplitOn(s, c) == parts;
      assert |parts| > 1 && parts[0] == s[..k] && parts[1..] == tail;
      JoinSplitOn(rest, c);
      assert Join(parts, c) == s[..k] + [c] + rest;
      assert s == s[..k] + [c] + rest;
    } else {
      assert SplitOn(s, c) == [s];
    }
  }

  /** Splitting a join of separator-free pieces gives the pieces back. */
  lemma {:induction false} SplitOnJoin(parts: seq<string>, c: char)
    requires |parts| >= 1
    requires forall p :: p in parts ==> c !in p
    ensures SplitOn(Join(parts, c), c) == parts
  {
    if |parts| == 1 {
      var s := parts[0];
      assert parts[0] in parts;
      var k := IndexOf(s, c);
      assert forall i :: 0 <= i < |s| ==> s[i] != c;
      assert k == |s|;
      assert SplitOn(s, c) == [s];
    } else {
      var p0, tail := parts[0], parts[1..];
      var rest := Join(tail, c);
      assert c !in p0 by { assert p0 in parts; }
      assert forall p :: p in tail ==> c !in p by {
        forall p | p in tail ensures c !in p { assert p in parts; }
      }
      SplitOnJoin(tail, c);
      var s := p0 + [c] + rest;
      assert Join(parts, c) == s;
      assert SplitOn(s, c) == [p0] + SplitOn(rest, c) by {
        IndexOfSeparated(p0, c, rest);
        assert s[..|p0|] == p0;
        assert s[|p0| + 1..] == rest;
      }
      HeadTail(parts);
    }
  }

  /** Joining one more piece: the join so far, the separator, the new piece. */
  lemma {:induction false} JoinSnoc(parts: seq<string>, last: string, c: char)
    requires |parts| >= 1
    ensures Join(parts + [last], c) == Join(parts, c) + [c] + last
  {
    if |parts| > 1 {
      assert (parts + [last])[1..] == parts[1..] + [last];
      JoinSnoc(parts[1..], last, c);
    } else {
      assert (parts + [last])[1..] == [last];
    }
  }

  /** A join of non-empty pieces starts with the first piece's first character and ends with the last's last. */
  lemma {:induction false} JoinEnds(parts: seq<string>, c: char)
    requires |parts| >= 1 && forall i :: 0 <= i < |parts| ==> parts[i] != []
    ensures var j := Join(parts, c);
      j != [] && j[0] == parts[0][0] && j[|j| - 1] == parts[|parts| - 1][|parts[|parts| - 1]| - 1]
  {
    if |parts| > 1 {
      JoinEnds(parts[1..], c);
    }
  }

  /** A string whose ends are kept is its own strip. */
  lemma {:induction false} StripUnpadded(s: string, drop: char -> bool)
    requires s != [] && !drop(s[0]) && !drop(s[|s| - 1])
    ensures Strip(s, drop) == s
  {
    var r := Strip(s, drop);
    assert LeadLength(s, drop) == 0;
    assert r == s[..|r|];
    assert |r| == |s|;
  }

  /** Stripping a droppable frame from around a middle whose ends are kept leaves exactly the middle. */
  lemma {:induction false} StripFramed(pre: string, mid: string, post: string, drop: char -> bool)
    requires forall i :: 0 <= i < |pre| ==> drop(pre[i])
    requires forall i :: 0 <= i < |post| ==> drop(post[i])
    requires mid != [] && !drop(mid[0]) && !drop(mid[|mid| - 1])
    ensures Strip(pre + mid + post, drop) == mid
  {
    ConcatAssoc(pre, mid, post);
    StripStartAfter(pre, mid + post, drop);
    StripEndBefore(mid, post, drop);
  }

  /** A droppable prefix before a kept character is exactly what StripStart removes. */
  lemma {:induction false} StripStartAfter(pre: string, rest: string, drop: char -> bool)
    requires forall i :: 0 <= i < |pre| ==> drop(pre[i])
    requires rest != [] && !drop(rest[0])
    ensures StripStart(pre + rest, drop) == rest
  {
    var s := pre + rest;
    forall i | 0 <= i < |pre| ensures drop(s[i]) { assert s[i] == pre[i]; }
    assert s[|pre|] == rest[0];
    LeadLengthIs(s, drop, |pre|);
    assert s[|pre|..] == rest;
  }

  /** A droppable suffix after a kept character is exactly what StripEnd removes. */
  lemma {:induction false} StripEndBefore(mid: string, post: string, drop: char -> bool)
    requires forall i :: 0 <= i < |post| ==> drop(post[i])
    requires mid != [] && !drop(mid[|mid| - 1])
    ensures StripEnd(mid + post, drop) == mid
    decreases |post|
  {
    if post == [] {
      assert mid + post == mid;
    } else {
      var s := mid + post;
      assert s[|s| - 1] == post[|post| - 1];
      assert s[..|s| - 1] == mid + post[..|post| - 1];
      StripEndBefore(mid, post[..|post| - 1], drop);
    }
  }

  /** The second piece of `s.split(c)`: the text after the first c, up to the next c or the end. */
  lemma {:induction false} SecondPiece(s: string, c: char)
    requires c in s
    ensures var k := IndexOf(s, c);
      k < |s| && |SplitOn(s, c)| >= 2 &&
      SplitOn(s, c)[1] == s[k + 1..][..IndexOf(s[k + 1..], c)]
  {
    assert s[..|s|] == s;
  }

  // ---------------------------------------------------------------- split on whitespace

  /** A word of `split()`: a non-empty run of non-blank characters. */
  predicate IsWord(w: string) {
    w != [] && forall i :: 0 <= i < |w| ==> !IsSpace(w[i])
  }

  /** `s.split()`: the maximal runs of non-blank characters, in order. */
  function Words(s: string): (ws: seq<string>)
    ensures forall i :: 0 <= i < |ws| ==> IsWord(ws[i])
    decreases |s|
  {
    if s == [] then []
    else if IsSpace(s[0]) then Words(s[1..])
    else
      var k := FirstWhere(s, IsSpace);
      LeadingWord(s);
      [s[..k]] + Words(s[k..])
  }

  /** The run before the first blank of a string that starts non-blank is a word. */
  lemma {:induction false} LeadingWord(s: string)
    requires s != [] && !IsSpace(s[0])
    ensures 1 <= FirstWhere(s, IsSpace) && IsWord(s[..FirstWhere(s, IsSpace)])
  {
  }

  /** A string holding a non-blank character has at least one word. */
  lemma {:induction false} WordsNonEmpty(s: string, c: char)
    requires c in s && !IsSpace(c)
    ensures |Words(s)| >= 1
    decreases |s|
  {
    if IsSpace(s[0]) {
      assert c in s[1..] by {
        var i :| 0 <= i < |s| && s[i] == c;
        assert i != 0;
        assert s[1..][i - 1] == c;
      }
      WordsNonEmpty(s[1..], c);
    }
  }

  /** A leading blank does not change the words. */
  lemma {:induction false} WordsAfterSpace(x: string, sp: char)
    requires IsSpace(sp)
    ensures Words([sp] + x) == Words(x)
  {
    assert ([sp] + x)[1..] == x;
  }

  /** A single word splits as itself. */
  lemma {:induction false} WordsOfWord(w: string)
    requires IsWord(w)
    ensures Words(w) == [w]
  {
    var k := FirstWhere(w, IsSpace);
    assert k == |w|;
    assert w[..k] == w;
    assert Words(w[k..]) == [];
  }

  /** A word followed by a blank is split off as the first word. */
  lemma {:induction false} WordsOfWordThen(w: string, sp: char, x: string)
    requires IsWord(w) && IsSpace(sp)
    ensures Words(w + [sp] + x) == [w] + Words([sp] + x)
  {
    var s := w + [sp] + x;
    assert s[0] == w[0];
    var k := FirstWhere(s, IsSpace);
    assert k == |w| by {
      assert forall i :: 0 <= i < |w| ==> s[i] == w[i];
      assert s[|w|] == sp;
    }
    assert s[..k] == w && s[k..] == [sp] + x;
  }

  /** A blank and a word at the end add exactly that word to the words. */
  lemma {:induction false} WordsSnoc(x: string, sp: char, n: string)
    requires IsSpace(sp) && IsWord(n)
    ensures Words(x + [sp] + n) == Words(x) + [n]
    decreases |x|
  {
    var s := x + [sp] + n;
    if x == [] {
      assert s == [sp] + n;
      WordsAfterSpace(n, sp);
      WordsOfWord(n);
    } else if IsSpace(x[0]) {
      assert s[1..] == x[1..] + [sp] + n;
      WordsSnoc(x[1..], sp, n);
    } else {
      var k := FirstWhere(x, IsSpace);
      assert forall i :: 0 <= i < |x| ==> s[i] == x[i];
      if k < |x| {
        FirstWhereUnique(s, IsSpace, k);
        assert s[..k] == x[..k];
        assert s[k..] == x[k..] + [sp] + n;
        WordsSnoc(x[k..], sp, n);
        ConcatAssoc([x[..k]], Words(x[k..]), [n]);
      } else {
        assert s[|x|] == sp;
        FirstWhereUnique(s, IsSpace, |x|);
        assert s[..|x|] == x;
        assert s[|x|..] == [sp] + n;
        WordsAfterSpace(n, sp);
        WordsOfWord(n);
        assert Words(s) == [x] + [n];
        assert x[..k] == x && x[k..] == [];
        assert Words(x) == [x];
      }
    }
  }

  /** `" ".join(ws).split() == ws` for words. */
  lemma {:induction false} WordsOfJoin(ws: seq<string>)
    requires forall i :: 0 <= i < |ws| ==> IsWord(ws[i])
    ensures Words(Join(ws, ' ')) == ws
  {
    if |ws| == 1 {
      WordsOfWord(ws[0]);
    } else if |ws| > 1 {
      var w, tail := ws[0], ws[1..];
      var rest := Join(tail, ' ');
      assert Words(Join(ws, ' ')) == [w] + Words([' '] + rest) by {
        WordsOfWordThen(w, ' ', rest);
      }
      WordsAfterSpace(rest, ' ');
      WordsOfJoin(tail);
      HeadTail(ws);
    }
  }

  // ---------------------------------------------------------------- integers

  predicate IsDigit(c: char) {
    '0' <= c <= '9'
  }

  function DigitChar(d: nat): (c: char)
    requires d < 10
    ensures IsDigit(c) && c as int - '0' as int == d
  {
    ('0' as int + d) as char
  }

  /** The decimal digits of n, most significant first, without leading zeros. */
  function NatToString(n: nat): (s: string)
    ensures |s| >= 1 && forall c :: c in s ==> IsDigit(c)
    ensures |s| > 1 ==> s[0] != '0'
  {
    if n < 10 then [DigitChar(n)] else NatToString(n / 10) + [DigitChar(n % 10)]
  }

  /** The value of a string of decimal digits. */
  function DigitsValue(s: string): nat
    requires forall c :: c in s ==> IsDigit(c)
  {
    if s == [] then 0
    else
      var last := s[|s| - 1];
      assert last in s;
      assert IsDigit(last);
      DigitsValue(s[..|s| - 1]) * 10 + (last as int - '0' as int)
  }

  lemma {:induction false} NatToStringValue(n: nat)
    ensures DigitsValue(NatToString(n)) == n
  {
    if n >= 10 {
      var s := NatToString(n);
      assert s[..|s| - 1] == NatToString(n / 10);
      NatToStringValue(n / 10);
    }
  }

  /** How Python renders an integer: an optional minus sign, then the digits. */
  function IntToString(i: int): string {
    if i < 0 then "-" + NatToString(-i) else NatToString(i)
  }

  /**
   * Digits with single underscores between them, as `int()` accepts in base 10:
   * the first and last characters are digits and no two underscores are adjacent.
   */
  predicate DigitGroups(s: string) {
    |s| >= 1 && IsDigit(s[0]) && IsDigit(s[|s| - 1]) &&
    (forall i :: 0 <= i < |s| ==> IsDigit(s[i]) || s[i] == '_') &&
    (forall i :: 0 <= i < |s| - 1 ==> s[i] == '_' ==> s[i + 1] != '_')
  }

  function WithoutUnderscores(s: string): (r: string)
    requires forall i :: 0 <= i < |s| ==> IsDigit(s[i]) || s[i] == '_'
    ensures forall c :: c in r ==> IsDigit(c)
  {
    if s == [] then []
    else (if s[0] == '_' then [] else [s[0]]) + WithoutUnderscores(s[1..])
  }

  lemma {:induction false} WithoutUnderscoresOfDigits(s: string)
    requires forall c :: c in s ==> IsDigit(c)
    ensures WithoutUnderscores(s) == s
  {
    if s != [] {
      assert s[0] in s;
      WithoutUnderscoresOfDigits(s[1..]);
      HeadTail(s);
    }
  }

  /**
   * `int(s)` in base 10: surrounding whitespace, an optional sign, and ASCII
   * digits grouped by underscores; anything else is refused (None).
   */
  function ParseInt(s: string): Option<int> {
    ParseTrimmed(StripSpace(s))
  }

  /** `int()` of a string with no surrounding whitespace. */
  function ParseTrimmed(t: string): (r: Option<int>)
    ensures r.Some? <==> DigitGroups(if |t| >= 1 && (t[0] == '-' || t[0] == '+') then t[1..] else t)
  {
    var signed := |t| >= 1 && (t[0] == '-' || t[0] == '+');
    var body := if signed then t[1..] else t;
    if !DigitGroups(body) then None
    else
      var n := DigitsValue(WithoutUnderscores(body));
      Some(if signed && t[0] == '-' then -(n as int) else n as int)
  }

  /** The digits NatToString renders form a single group. */
  lemma {:induction false} NatToStringGrouped(n: nat)
    ensures DigitGroups(NatToString(n))
    ensures forall c :: c in NatToString(n) ==> IsDigit(c)
  {
    var digits := NatToString(n);
    forall k | 0 <= k < |digits| ensures IsDigit(digits[k]) {
      assert digits[k] in digits;
    }
  }

  /** What IntToString renders has no surrounding whitespace. */
  lemma {:induction false} RenderedUnpadded(i: int)
    ensures StripSpace(IntToString(i)) == IntToString(i)
  {
    var s := IntToString(i);
    var digits := NatToString(if i < 0 then -i else i);
    assert digits[|digits| - 1] in digits;
    assert digits[0] in digits;
    assert !IsSpace(s[0]) && !IsSpace(s[|s| - 1]);
    StripUnpadded(s, IsSpace);
  }

  /** What IntToString renders, ParseTrimmed reads back. */
  lemma {:induction false} ParseRendered(i: int)
    ensures ParseTrimmed(IntToString(i)) == Some(i)
  {
    var n: nat := if i < 0 then -i else i;
    var digits := NatToString(n);
    NatToStringGrouped(n);
    WithoutUnderscoresOfDigits(digits);
    NatToStringValue(n);
    assert DigitsValue(WithoutUnderscores(digits)) == n;
    var s := IntToString(i);
    if i < 0 {
      assert s[0] == '-' && s[1..] == digits;
    } else {
      assert s == digits;
      assert IsDigit(s[0]);
    }
  }

  /** What IntToString renders, ParseInt reads back. */
  lemma {:induction false} ParseIntToString(i: int)
    ensures ParseInt(IntToString(i)) == Some(i)
  {
    RenderedUnpadded(i);
    ParseRendered(i);
  }
}
