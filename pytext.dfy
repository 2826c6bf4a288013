/** The handful of Python `str` operations the protocol's text payloads go
    through: `isspace`, `strip`, `split()`, `split(sep)`, `in`, `int(s)` and
    `str(n)`, with their Python meaning. */
module PyText {
  import opened Common

  /** `c.isspace()`: the characters Python's `str.split()` and `str.strip()`
      treat as whitespace. */
  predicate IsSpace(c: char)
  {
    || c == ' '
    || ('\t' <= c <= '\r')
    || ('\U{1C}' <= c <= '\U{1F}')
    || c == '\U{85}' || c == '\U{A0}' || c == '\U{1680}'
    || ('\U{2000}' <= c <= '\U{200A}')
    || c == '\U{2028}' || c == '\U{2029}' || c == '\U{202F}' || c == '\U{205F}' || c == '\U{3000}'
  }

  predicate NoSpace(s: string) { forall i :: 0 <= i < |s| ==> !IsSpace(s[i]) }

  predicate AllSpace(s: string) { forall i :: 0 <= i < |s| ==> IsSpace(s[i]) }

  /** `c not in s` for a single character. */
  predicate Lacks(s: string, c: char) { forall i :: 0 <= i < |s| ==> s[i] != c }

  // ---------------------------------------------------------------- strip

  /** `s.lstrip()`: drops the leading whitespace and nothing else. */
  function LStrip(s: string): (r: string)
    ensures |r| <= |s|
    ensures r == [] || !IsSpace(r[0])
  {
    if s != [] && IsSpace(s[0]) then LStrip(s[1..]) else s
  }

  /** `s.rstrip()`: drops the trailing whitespace and nothing else. */
  function RStrip(s: string): (r: string)
    ensures |r| <= |s|
    ensures r == [] || !IsSpace(r[|r| - 1])
  {
    if s != [] && IsSpace(s[|s| - 1]) then RStrip(s[..|s| - 1]) else s
  }

  /** `s.strip()`: what is left has whitespace at neither end, and it is
      empty exactly when `s` is all whitespace. */
  function Strip(s: string): (r: string)
    ensures |r| <= |s|
    ensures r == [] || (!IsSpace(r[0]) && !IsSpace(r[|r| - 1]))
    ensures r == [] <==> AllSpace(s)
  {
    var t := LStrip(s);
    LStripDrops(s);
    RStripDrops(t);
    assert AllSpace(s) ==> t == [] by {
      if AllSpace(s) {
        LStripAllSpace(s);
      }
    }
    RStrip(t)
  }

  /** `lstrip` drops a run of leading whitespace and keeps the rest. */
  lemma {:induction false} LStripDrops(s: string)
    ensures LStrip(s) == s[|s| - |LStrip(s)|..] && AllSpace(s[..|s| - |LStrip(s)|])
    decreases |s|
  {
    if s != [] && IsSpace(s[0]) {
      LStripDrops(s[1..]);
      var k := |s| - |LStrip(s)|;
      assert s[1..][..k - 1] == s[1..k];
    }
  }

  /** `rstrip` drops a run of trailing whitespace and keeps the rest. */
  lemma {:induction false} RStripDrops(s: string)
    ensures RStrip(s) == s[..|RStrip(s)|] && AllSpace(s[|RStrip(s)|..])
    decreases |s|
  {
    if s != [] && IsSpace(s[|s| - 1]) {
      var init := s[..|s| - 1];
      RStripDrops(init);
      var n := |RStrip(s)|;
      assert init[n..] + [s[|s| - 1]] == s[n..];
    }
  }

  // ---------------------------------------------------------------- join

  /** `sep.join(xs)`. */
  function Join(sep: string, xs: seq<string>): string
  {
    if xs == [] then "" else if |xs| == 1 then xs[0] else xs[0] + sep + Join(sep, xs[1..])
  }

  // ---------------------------------------------------------------- split()

  /** Length of the leading run of non-whitespace characters. */
  function TokenLen(s: string): (n: nat)
    ensures n <= |s| && NoSpace(s[..n])
    ensures n < |s| ==> IsSpace(s[n])
  {
    if s == [] || IsSpace(s[0]) then 0 else 1 + TokenLen(s[1..])
  }

  /** `s.split()`: the maximal runs of non-whitespace characters, in order. */
  function SplitWs(s: string): (r: seq<string>)
    ensures forall i :: 0 <= i < |r| ==> r[i] != [] && NoSpace(r[i])
    decreases |s|
  {
    var t := LStrip(s);
    if t == [] then []
    else
      var n := TokenLen(t);
      [t[..n]] + SplitWs(t[n..])
  }

  // ---------------------------------------------------------------- find, in, split(sep)

  /** `pat` occurs in `s` starting at index `i`. */
  predicate MatchAt(s: string, pat: string, i: int)
  {
    0 <= i && i + |pat| <= |s| && s[i..i + |pat|] == pat
  }

  /** `s.find(pat)`, with `None` for -1. */
  function IndexOf(s: string, pat: string): (r: Option<nat>)
    ensures r.Some? ==> MatchAt(s, pat, r.value)
    ensures r.Some? ==> forall j :: 0 <= j < r.value ==> !MatchAt(s, pat, j)
    ensures r.None? ==> forall j :: !MatchAt(s, pat, j)
    decreases |s|
  {
    if |s| < |pat| then None
    else if s[..|pat|] == pat then Some(0)
    else
      MatchShift(s, pat);
      match IndexOf(s[1..], pat)
      case None => None
      case Some(i) => Some(i + 1)
  }

  lemma MatchShift(s: string, pat: string)
    requires s != []
    ensures forall j :: 1 <= j ==> (MatchAt(s, pat, j) <==> MatchAt(s[1..], pat, j - 1))
  {
    forall j | 1 <= j
      ensures MatchAt(s, pat, j) <==> MatchAt(s[1..], pat, j - 1)
    {
      if j + |pat| <= |s| {
        var a, b := s[j..j + |pat|], s[1..][j - 1..j - 1 + |pat|];
        forall k | 0 <= k < |pat| ensures a[k] == b[k] {
          assert a[k] == s[j + k];
          assert b[k] == s[1..][j - 1 + k];
        }
        assert a == b;
      }
    }
  }

  /** `pat in s`. */
  predicate Contains(s: string, pat: string) { IndexOf(s, pat).Some? }

  /** `s.split(sep)` for a non-empty separator: the pieces between the
      non-overlapping occurrences of `sep`, scanning left to right. */
  function SplitOn(s: string, sep: string): (r: seq<string>)
    requires sep != []
    ensures |r| >= 1
    ensures !Contains(s, sep) ==> r == [s]
    ensures Contains(s, sep) ==> |r| >= 2
    decreases |s|
  {
    match IndexOf(s, sep)
    case None => [s]
    case Some(i) => [s[..i]] + SplitOn(s[i + |sep|..], sep)
  }

  /** `sep.join(s.split(sep))` is `s`: splitting loses nothing but the
      separators. */
  lemma {:induction false} JoinSplitOn(s: string, sep: string)
    requires sep != []
    ensures Join(sep, SplitOn(s, sep)) == s
    decreases |s|
  {
    match IndexOf(s, sep)
    case None =>
    case Some(i) =>
      var rest := s[i + |sep|..];
      JoinSplitOn(rest, sep);
      var r := SplitOn(rest, sep);
      assert SplitOn(s, sep) == [s[..i]] + r;
      assert ([s[..i]] + r)[1..] == r;
      assert s[i..i + |sep|] == sep;
      assert s == s[..i] + sep + rest;
  }

  // ---------------------------------------------------------------- int(), str()

  predicate IsDigit(c: char) { '0' <= c <= '9' }

  function DigitChar(d: nat): (c: char)
    requires d < 10
    ensures IsDigit(c) && c as int - '0' as int == d
  {
    ('0' as int + d) as char
  }

  /** The digit part `int()` accepts: ASCII digits, where a single `_` may
      stand between two digits. */
  predicate DigitString(s: string)
  {
    |s| > 0 && forall i :: 0 <= i < |s| ==> DigitOrGroupMark(s, i)
  }

  predicate DigitOrGroupMark(s: string, i: nat)
    requires i < |s|
  {
    IsDigit(s[i]) || (s[i] == '_' && 0 < i < |s| - 1 && IsDigit(s[i - 1]) && IsDigit(s[i + 1]))
  }

  /** The value of a digit string, underscores ignored. */
  function DigitsValue(s: string): nat
  {
    if s == [] then 0
    else
      var last := s[|s| - 1];
      if IsDigit(last) then DigitsValue(s[..|s| - 1]) * 10 + (last as int - '0' as int)
      else DigitsValue(s[..|s| - 1])
  }

  /** The whitespace `int()` skips around a number: `isspace` characters
      except the ASCII separators U+001C to U+001F, which `int()` does not
      skip (it trims ASCII text by the C `isspace` set), so `int("\x1c5")`
      raises where `"\x1c5".strip()` gives `"5"`. */
  predicate IsIntSpace(c: char)
  {
    IsSpace(c) && !('\U{1C}' <= c <= '\U{1F}')
  }

  /** The leading whitespace `int()` skips, dropped. */
  function IntTrimLeft(s: string): (r: string)
    ensures |r| <= |s|
    ensures r == [] || !IsIntSpace(r[0])
  {
    if s != [] && IsIntSpace(s[0]) then IntTrimLeft(s[1..]) else s
  }

  /** `IntTrimLeft` keeps a suffix, and empties only an all-whitespace text. */
  lemma {:induction false} IntTrimLeftSuffix(s: string)
    ensures IntTrimLeft(s) == s[|s| - |IntTrimLeft(s)|..]
    ensures IntTrimLeft(s) == [] ==> forall i :: 0 <= i < |s| ==> IsIntSpace(s[i])
  {
    if s != [] && IsIntSpace(s[0]) {
      IntTrimLeftSuffix(s[1..]);
      assert forall i :: 1 <= i < |s| ==> s[i] == s[1..][i - 1];
    }
  }

  /** The trailing whitespace `int()` skips, dropped. */
  function IntTrimRight(s: string): (r: string)
    ensures |r| <= |s|
    ensures r == [] || !IsIntSpace(r[|r| - 1])
  {
    if s != [] && IsIntSpace(s[|s| - 1]) then IntTrimRight(s[..|s| - 1]) else s
  }

  /** `IntTrimRight` keeps a prefix, and empties only an all-whitespace text. */
  lemma {:induction false} IntTrimRightPrefix(s: string)
    ensures IntTrimRight(s) == s[..|IntTrimRight(s)|]
    ensures IntTrimRight(s) == [] ==> forall i :: 0 <= i < |s| ==> IsIntSpace(s[i])
  {
    if s != [] && IsIntSpace(s[|s| - 1]) {
      IntTrimRightPrefix(s[..|s| - 1]);
    }
  }

  /** The text `int()` reads: `s` without the whitespace it skips at either end. */
  function IntTrim(s: string): (r: string)
  {
    IntTrimRight(IntTrimLeft(s))
  }

  /** `int(s)`: surrounding whitespace, an optional sign, then a digit string;
      anything else raises `ValueError`, here `None`. */
  function ParseInt(s: string): (r: Option<int>)
    ensures r.Some? ==> !AllSpace(s) && IntTrim(s) != [] && NoSpace(IntTrim(s))
    ensures r.Some? && r.value < 0 ==> IntTrim(s)[0] == '-'
  {
    var r := ReadSigned(IntTrim(s));
    assert r.Some? ==> !AllSpace(s) by {
      if r.Some? {
        var u := IntTrimLeft(s);
        var t := IntTrimRight(u);
        IntTrimLeftSuffix(s);
        IntTrimRightPrefix(u);
        assert t[0] == s[|s| - |u|];
      }
    }
    r
  }

  /** The number an optional sign and a digit string spell, once `int()` has
      trimmed the text. */
  function ReadSigned(t: string): (r: Option<int>)
    ensures r.Some? ==> t != [] && NoSpace(t)
    ensures r.Some? && r.value < 0 ==> t[0] == '-'
  {
    if |t| > 0 && (t[0] == '-' || t[0] == '+') then
      if DigitString(t[1..]) then
        assert NoSpace(t) by {
          forall i | 1 <= i < |t| ensures !IsSpace(t[i]) {
            assert DigitOrGroupMark(t[1..], i - 1) && t[i] == t[1..][i - 1];
          }
        }
        var v: int := DigitsValue(t[1..]);
        Some(if t[0] == '-' then -v else v)
      else None
    else if DigitString(t) then
      assert NoSpace(t) by {
        forall i | 0 <= i < |t| ensures !IsSpace(t[i]) {
          assert DigitOrGroupMark(t, i);
        }
      }
      Some(DigitsValue(t))
    else None
  }

  /** `str(n)` for n >= 0. */
  function NatToString(n: nat): (s: string)
    ensures |s| >= 1 && forall i :: 0 <= i < |s| ==> IsDigit(s[i])
  {
    if n < 10 then [DigitChar(n)] else NatToString(n / 10) + [DigitChar(n % 10)]
  }

  /** `str(n)`. */
  function IntToString(n: int): (s: string)
    ensures |s| >= 1
    ensures forall i :: 0 <= i < |s| ==> IsDigit(s[i]) || (i == 0 && s[i] == '-')
  {
    if n < 0 then "-" + NatToString(-n) else NatToString(n)
  }

  // ---------------------------------------------------------------- lemmas

  /** Whitespace before a string that starts with a non-space is all `lstrip` removes. */
  lemma {:induction false} LStripPadded(w: string, s: string)
    requires AllSpace(w) && s != [] && !IsSpace(s[0])
    ensures LStrip(w + s) == s
  {
    if w != [] {
      assert (w + s)[1..] == w[1..] + s;
      LStripPadded(w[1..], s);
    }
  }

  /** Whitespace after a string that ends with a non-space is all `rstrip` removes. */
  lemma {:induction false} RStripPadded(s: string, w: string)
    requires AllSpace(w) && s != [] && !IsSpace(s[|s| - 1])
    ensures RStrip(s + w) == s
  {
    if w != [] {
      assert (s + w)[..|s + w| - 1] == s + w[..|w| - 1];
      RStripPadded(s, w[..|w| - 1]);
    }
  }

  /** `(w1 + s + w2).strip() == s` when `s` has no whitespace at either end. */
  lemma StripPadded(w1: string, s: string, w2: string)
    requires AllSpace(w1) && AllSpace(w2)
    requires s != [] && !IsSpace(s[0]) && !IsSpace(s[|s| - 1])
    ensures Strip(w1 + s + w2) == s
  {
    assert w1 + s + w2 == w1 + (s + w2);
    LStripPadded(w1, s + w2);
    RStripPadded(s, w2);
  }

  /** A token followed by whitespace (or nothing) is one run of non-space characters. */
  lemma {:induction false} TokenLenOf(tok: string, rest: string)
    requires NoSpace(tok)
    requires rest == [] || IsSpace(rest[0])
    ensures TokenLen(tok + rest) == |tok|
  {
    if tok != [] {
      assert (tok + rest)[1..] == tok[1..] + rest;
      TokenLenOf(tok[1..], rest);
    }
  }

  /** `split()` recovers the tokens that `" ".join` glued together, whatever
      whitespace surrounds the joined text. */
  lemma {:induction false} SplitWsJoin(w1: string, toks: seq<string>, w2: string)
    requires AllSpace(w1) && AllSpace(w2)
    requires forall i :: 0 <= i < |toks| ==> toks[i] != [] && NoSpace(toks[i])
    ensures SplitWs(w1 + Join(" ", toks) + w2) == toks
    decreases |toks|
  {
    var s := w1 + Join(" ", toks) + w2;
    if toks == [] {
      assert AllSpace(s);
      LStripAllSpace(s);
    } else {
      var rest := JoinFront(toks, w2);
      assert s == w1 + (toks[0] + rest);
      SplitWsFront(w1, toks[0], rest);
      if |toks| == 1 {
        LStripAllSpace(w2);
      } else {
        SplitWsJoin(" ", toks[1..], w2);
      }
      assert [toks[0]] + toks[1..] == toks;
    }
  }

  /** The first token of a join, and what follows it. */
  lemma JoinFront(toks: seq<string>, w: string) returns (rest: string)
    requires toks != []
    ensures rest == if |toks| == 1 then w else " " + Join(" ", toks[1..]) + w
    ensures Join(" ", toks) + w == toks[0] + rest
  {
    rest := if |toks| == 1 then w else " " + Join(" ", toks[1..]) + w;
  }

  /** `split()` takes a token after leading whitespace as its first piece. */
  lemma SplitWsFront(w: string, tok: string, rest: string)
    requires AllSpace(w) && tok != [] && NoSpace(tok)
    requires rest == [] || IsSpace(rest[0])
    ensures SplitWs(w + (tok + rest)) == [tok] + SplitWs(rest)
  {
    LStripPadded(w, tok + rest);
    TokenLenOf(tok, rest);
    assert (tok + rest)[..|tok|] == tok;
    assert (tok + rest)[|tok|..] == rest;
  }

  lemma {:induction false} LStripAllSpace(s: string)
    requires AllSpace(s)
    ensures LStrip(s) == [] && SplitWs(s) == []
  {
    if s != [] {
      LStripAllSpace(s[1..]);
    }
  }

  /** A string in which `c` does not occur is not split by `c`. */
  lemma SplitOnLacking(x: string, c: char)
    requires Lacks(x, c)
    ensures SplitOn(x, [c]) == [x]
  {
    forall j | 0 <= j && j + 1 <= |x|
      ensures !MatchAt(x, [c], j)
    {
      assert x[j..j + 1] == [x[j]];
    }
  }

  /** Splitting on `c` cuts at its first occurrence. */
  lemma SplitOnFirst(x: string, c: char, y: string)
    requires Lacks(x, c)
    ensures SplitOn(x + [c] + y, [c]) == [x] + SplitOn(y, [c])
  {
    var s := x + [c] + y;
    assert s[|x|..|x| + 1] == [c];
    assert MatchAt(s, [c], |x|);
    var i := IndexOf(s, [c]).value;
    assert s[i..i + 1] == [c];
    assert s[i] == c;
    assert i == |x|;
    assert s[..i] == x;
    assert s[i + 1..] == y;
  }

  /** `pat in x + pat + y`. */
  lemma ContainsWithin(x: string, pat: string, y: string)
    ensures Contains(x + pat + y, pat)
  {
    var s := x + pat + y;
    assert s[|x|..|x| + |pat|] == pat;
    assert MatchAt(s, pat, |x|);
  }

  /** When the character at position `m` of `pat` occurs in `s` only where an
      occurrence of `pat` at `k` puts it, `s.find(pat)` is `k`. */
  lemma IndexOfAnchored(s: string, pat: string, k: nat, m: nat)
    requires MatchAt(s, pat, k) && m < |pat|
    requires forall i :: 0 <= i < |s| && s[i] == pat[m] ==> i == k + m
    ensures IndexOf(s, pat) == Some(k)
  {
    var r := IndexOf(s, pat);
    assert r.Some?;
    var j := r.value;
    assert s[j..j + |pat|] == pat;
    assert s[j + m] == pat[m];
  }

  /** `str(n)` holds only digits and a sign. */
  lemma IntToStringLacks(n: int, ch: char)
    requires ch != '-' && !IsDigit(ch)
    ensures Lacks(IntToString(n), ch)
  {
  }

  /** Reading back `str(n)` with `int()` gives `n`. */
  lemma {:induction false} NatRoundTrip(n: nat)
    ensures DigitString(NatToString(n)) && DigitsValue(NatToString(n)) == n
  {
    var s := NatToString(n);
    if n >= 10 {
      NatRoundTrip(n / 10);
      var p := NatToString(n / 10);
      assert s[..|s| - 1] == p;
    }
  }

  lemma ParseIntSigned(d: string)
    requires DigitString(d)
    ensures ParseInt("-" + d) == Some(-(DigitsValue(d) as int))
  {
    var s := "-" + d;
    assert s[1..] == d;
    assert DigitOrGroupMark(d, |d| - 1);
    IntTrimPlain(s);
    var v: int := DigitsValue(d);
    assert ReadSigned(s) == Some(if s[0] == '-' then -v else v);
  }

  lemma ParseIntUnsigned(s: string)
    requires DigitString(s) && IsDigit(s[0])
    ensures ParseInt(s) == Some(DigitsValue(s))
  {
    assert DigitOrGroupMark(s, |s| - 1);
    IntTrimPlain(s);
    assert ReadSigned(s) == Some(DigitsValue(s));
  }

  /** A text with no whitespace at either end is what `int()` reads. */
  lemma IntTrimPlain(s: string)
    requires s != [] && !IsIntSpace(s[0]) && !IsIntSpace(s[|s| - 1])
    ensures IntTrim(s) == s
  {
    assert IntTrimLeft(s) == s;
  }

  lemma IntRoundTrip(n: int)
    ensures ParseInt(IntToString(n)) == Some(n)
  {
    if n < 0 {
      var d := NatToString(-n);
      NatRoundTrip(-n);
      ParseNegative(n, d);
    } else {
      NatRoundTrip(n);
      ParseIntUnsigned(NatToString(n));
    }
  }

  lemma ParseNegative(n: int, d: string)
    requires n < 0 && DigitString(d) && DigitsValue(d) == -n
    ensures ParseInt("-" + d) == Some(n)
  {
    ParseIntSigned(d);
  }

  /** `int()` raises on a text that starts or ends with one of the ASCII
      separators U+001C to U+001F, although `strip()` would remove it. */
  lemma SeparatorRejected(s: string)
    requires s != [] && ('\U{1C}' <= s[0] <= '\U{1F}' || '\U{1C}' <= s[|s| - 1] <= '\U{1F}')
    ensures IsSpace(s[0]) || IsSpace(s[|s| - 1])
    ensures ParseInt(s) == None
  {
    var u := IntTrimLeft(s);
    var t := IntTrimRight(u);
    IntTrimLeftSuffix(s);
    IntTrimRightPrefix(u);
    if t != [] {
      if '\U{1C}' <= s[0] <= '\U{1F}' {
        assert u == s;
        assert t[0] == s[0];
      } else {
        assert u[|u| - 1] == s[|s| - 1];
        assert t == u;
      }
      if ReadSigned(t).Some? {
        ReadSignedEnds(t);
      }
    }
  }

  /** What `int()` reads begins with a digit or a sign and ends with a digit. */
  lemma ReadSignedEnds(t: string)
    requires ReadSigned(t).Some?
    ensures IsDigit(t[|t| - 1]) && (IsDigit(t[0]) || t[0] == '-' || t[0] == '+')
  {
    if t[0] == '-' || t[0] == '+' {
      assert DigitOrGroupMark(t[1..], |t| - 2);
    } else {
      assert DigitOrGroupMark(t, 0) && DigitOrGroupMark(t, |t| - 1);
    }
  }

  /** `" | ".join(segs).split("|")`: each piece is one segment with the
      single spaces of the separator around it (and `w` before the first). */
  lemma {:induction false} SplitJoinBar(w: string, segs: seq<string>)
    requires AllSpace(w) && |segs| >= 1
    requires forall i :: 0 <= i < |segs| ==> Lacks(segs[i], '|')
    ensures |SplitOn(w + Join(" | ", segs), "|")| == |segs|
    ensures forall i :: 0 <= i < |segs| ==>
      SplitOn(w + Join(" | ", segs), "|")[i]
        == (if i == 0 then w else " ") + segs[i] + (if i + 1 < |segs| then " " else "")
    decreases |segs|
  {
    if |segs| == 1 {
      SplitJoinBarOne(w, segs[0]);
    } else {
      SplitJoinBar(" ", segs[1..]);
      SplitJoinBarCons(w, segs);
    }
  }

  /** The step of `SplitJoinBar`: the first piece, then the pieces of the rest. */
  lemma SplitJoinBarCons(w: string, segs: seq<string>)
    requires AllSpace(w) && |segs| >= 2
    requires forall i :: 0 <= i < |segs| ==> Lacks(segs[i], '|')
    requires |SplitOn(" " + Join(" | ", segs[1..]), "|")| == |segs| - 1
    requires forall i :: 0 <= i < |segs| - 1 ==>
      SplitOn(" " + Join(" | ", segs[1..]), "|")[i]
        == " " + segs[1..][i] + (if i + 2 < |segs| then " " else "")
    ensures |SplitOn(w + Join(" | ", segs), "|")| == |segs|
    ensures forall i :: 0 <= i < |segs| ==>
      SplitOn(w + Join(" | ", segs), "|")[i]
        == (if i == 0 then w else " ") + segs[i] + (if i + 1 < |segs| then " " else "")
  {
    var s := w + Join(" | ", segs);
    var x := w + segs[0] + " ";
    var y := " " + Join(" | ", segs[1..]);
    JoinBarFirst(w, segs);
    SplitOnFirst(x, '|', y);
    var r := SplitOn(s, "|");
    assert r == [x] + SplitOn(y, "|");
    forall i | 1 <= i < |segs|
      ensures r[i] == " " + segs[i] + (if i + 1 < |segs| then " " else "")
    {
      assert r[i] == SplitOn(y, "|")[i - 1];
      assert segs[1..][i - 1] == segs[i];
    }
  }

  lemma SplitJoinBarOne(w: string, seg: string)
    requires AllSpace(w) && Lacks(seg, '|')
    ensures SplitOn(w + Join(" | ", [seg]), "|") == [w + seg + ""]
  {
    var s := w + Join(" | ", [seg]);
    assert s == w + seg + "";
    assert Lacks(s, '|');
    SplitOnLacking(s, '|');
  }

  /** The first separator of `w + " | ".join(segs)` follows the first segment. */
  lemma JoinBarFirst(w: string, segs: seq<string>)
    requires AllSpace(w) && |segs| >= 2 && Lacks(segs[0], '|')
    ensures w + Join(" | ", segs) == (w + segs[0] + " ") + ['|'] + (" " + Join(" | ", segs[1..]))
    ensures Lacks(w + segs[0] + " ", '|')
  {
    var a, j := segs[0], Join(" | ", segs[1..]);
    assert Join(" | ", segs) == a + " | " + j;
    ConcatBar(w, a, j);
    LacksPadded(w, a);
  }

  lemma ConcatBar(w: string, a: string, j: string)
    ensures w + (a + " | " + j) == (w + a + " ") + ['|'] + (" " + j)
  {
    var l, r := w + (a + " | " + j), (w + a + " ") + ['|'] + (" " + j);
    assert |l| == |r|;
    forall i | 0 <= i < |l| ensures l[i] == r[i] {
    }
  }

  lemma LacksPadded(w: string, a: string)
    requires AllSpace(w) && Lacks(a, '|')
    ensures Lacks(w + a + " ", '|')
  {
    var x := w + a + " ";
    forall i | 0 <= i < |x| ensures x[i] != '|' {
      if i < |w| {
        assert x[i] == w[i] && IsSpace(w[i]);
      } else if i < |w| + |a| {
        assert x[i] == a[i - |w|];
      }
    }
  }

  /** A character missing from both halves is missing from their concatenation. */
  lemma LacksConcat(a: string, b: string, c: char)
    requires Lacks(a, c) && Lacks(b, c)
    ensures Lacks(a + b, c)
  {
    forall i | 0 <= i < |a + b| ensures (a + b)[i] != c {
      if i >= |a| {
        assert (a + b)[i] == b[i - |a|];
      }
    }
  }

  /** A separator whose `m`-th character occurs nowhere else in it, nor in the
      text around it, splits that text into exactly the two sides. */
  lemma SplitOnUnique(x: string, pat: string, y: string, m: nat)
    requires m < |pat| && Lacks(x, pat[m]) && Lacks(y, pat[m])
    requires forall j :: 0 <= j < |pat| && j != m ==> pat[j] != pat[m]
    ensures Contains(x + pat + y, pat)
    ensures SplitOn(x + pat + y, pat) == [x, y]
  {
    var s := x + pat + y;
    assert s[|x|..|x| + |pat|] == pat;
    assert forall i :: 0 <= i < |x| ==> s[i] == x[i];
    assert forall i :: |x| <= i < |x| + |pat| ==> s[i] == pat[i - |x|];
    assert forall i :: |x| + |pat| <= i < |s| ==> s[i] == y[i - |x| - |pat|];
    IndexOfAnchored(s, pat, |x|, m);
    assert s[..|x|] == x && s[|x| + |pat|..] == y;
    forall j | 0 <= j && j + |pat| <= |y| ensures !MatchAt(y, pat, j) {
      assert y[j..j + |pat|][m] == y[j + m] != pat[m];
    }
  }

  /** Text that starts with a non-space character is not blank. */
  lemma StripNonBlank(s: string)
    requires s != [] && !IsSpace(s[0])
    ensures Strip(s) != []
  {
    assert LStrip(s) == s;
    RStripKeepsFirst(s);
  }

  lemma {:induction false} RStripKeepsFirst(s: string)
    requires s != [] && !IsSpace(s[0])
    ensures RStrip(s) != []
    decreases |s|
  {
    if IsSpace(s[|s| - 1]) {
      assert |s| >= 2;
      assert s[..|s| - 1][0] == s[0];
      RStripKeepsFirst(s[..|s| - 1]);
    }
  }

  /** `pat` does not occur where its first character does not. */
  lemma LacksNotContains(s: string, pat: string)
    requires pat != [] && Lacks(s, pat[0])
    ensures !Contains(s, pat)
  {
    forall j | 0 <= j && j + |pat| <= |s| ensures !MatchAt(s, pat, j) {
      assert s[j..j + |pat|][0] == s[j] != pat[0];
    }
  }
}
