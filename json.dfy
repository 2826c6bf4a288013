/** The JSON text of a grid: `json.dumps` of a list of lists of integers,
    and the `json.loads` that reads such a text back. */
module Json {
  import opened Common
  import opened PyText

  /** `str(v)` for each cell of a row. */
  function IntTexts(row: seq<int>): (ts: seq<string>)
    ensures |ts| == |row|
    ensures forall j :: 0 <= j < |row| ==> ts[j] == IntToString(row[j])
  {
    seq(|row|, j requires 0 <= j < |row| => IntToString(row[j]))
  }

  /** A row's cells between the brackets, separated by `", "`. */
  function RowContent(row: seq<int>): string
  {
    Join(", ", IntTexts(row))
  }

  /** `json.dumps(row)`. */
  function RowText(row: seq<int>): string
  {
    "[" + RowContent(row) + "]"
  }

  function RowTexts(g: seq<seq<int>>): (ts: seq<string>)
    ensures |ts| == |g|
    ensures forall i :: 0 <= i < |g| ==> ts[i] == RowText(g[i])
  {
    seq(|g|, i requires 0 <= i < |g| => RowText(g[i]))
  }

  function RowContents(g: seq<seq<int>>): (cs: seq<string>)
    ensures |cs| == |g|
    ensures forall i :: 0 <= i < |g| ==> cs[i] == RowContent(g[i])
  {
    seq(|g|, i requires 0 <= i < |g| => RowContent(g[i]))
  }

  /** `json.dumps(grid)` with the default separators `", "`: `[]` for the
      empty list, and otherwise a text that opens with `[[` and closes with
      `]]`. */
  function Dumps(g: seq<seq<int>>): (d: string)
    ensures g == [] <==> d == "[]"
    ensures g != [] ==> |d| >= 4 && d[..2] == "[[" && d[|d| - 2..] == "]]"
  {
    var d := "[" + Join(", ", RowTexts(g)) + "]";
    if g == [] then
      assert RowTexts(g) == [];
      d
    else
      var cs := RowContents(g);
      JoinBracketed(cs);
      assert RowTexts(g) == Bracketed(cs);
      Wrapped(Join("], [", cs));
      d
  }

  // ---------------------------------------------------------------- loads

  /** A JSON number as `json.dumps` writes an integer: exactly `str(v)`, so
      no `+`, no leading zeros, no `_` and no surrounding whitespace, all of
      which `int()` would take and `json.loads` refuses. */
  function ParseNumber(p: string): (r: Option<int>)
    ensures r.Some? ==> IntToString(r.value) == p
  {
    match ParseInt(p)
    case Some(v) => if IntToString(v) == p then Some(v) else None
    case None => None
  }

  /** `f` of every element, in order; `None` as soon as one of them is
      `None`. */
  function ParseAll<A, B>(f: A -> Option<B>, xs: seq<A>): (r: Option<seq<B>>)
    ensures r.Some? ==> |r.value| == |xs| && forall i :: 0 <= i < |xs| ==> f(xs[i]) == Some(r.value[i])
    ensures r.None? ==> exists i :: 0 <= i < |xs| && f(xs[i]).None?
  {
    if xs == [] then Some([])
    else
      var head, tail := f(xs[0]), ParseAll(f, xs[1..]);
      if head.Some? && tail.Some? then
        var r := [head.value] + tail.value;
        assert forall i :: 1 <= i < |xs| ==> xs[i] == xs[1..][i - 1] && r[i] == tail.value[i - 1];
        Some(r)
      else
        assert exists i :: 0 <= i < |xs| && f(xs[i]).None? by {
          if head.Some? {
            var k :| 0 <= k < |xs| - 1 && f(xs[1..][k]).None?;
            assert xs[1..][k] == xs[k + 1];
          }
        }
        None
  }

  /** Each piece read as an integer; `None` if any is not one. */
  function ParseInts(ps: seq<string>): Option<seq<int>>
  {
    ParseAll(ParseNumber, ps)
  }

  /** The text between a row's brackets. */
  function ParseRow(content: string): Option<seq<int>>
  {
    if content == [] then Some([]) else ParseInts(SplitOn(content, ", "))
  }

  /** Each row's content read as a row; `None` if any is not one. */
  function ParseRows(cs: seq<string>): Option<seq<seq<int>>>
  {
    ParseAll(ParseRow, cs)
  }

  /** `json.loads(text)` for a list of lists of integers spelt exactly as
      `json.dumps` spells it; `None` for every other text. */
  function Loads(t: string): (r: Option<seq<seq<int>>>)
    ensures r.Some? ==> Dumps(r.value) == t
  {
    if t == "[]" then Some([])
    else if |t| >= 4 && t[..2] == "[[" && t[|t| - 2..] == "]]" then
      var mid := t[2..|t| - 2];
      assert t == "[[" + mid + "]]";
      DumpsOfRows(mid);
      ParseRows(SplitOn(mid, "], ["))
    else None
  }

  // ---------------------------------------------------------------- lemmas

  /** The outer and the first row's brackets, and what they enclose. */
  lemma Wrapped(mid: string)
    ensures var t := "[" + ("[" + mid + "]") + "]";
      && t == "[[" + mid + "]]" && |t| >= 4
      && t[..2] == "[[" && t[|t| - 2..] == "]]" && t[2..|t| - 2] == mid
  {
    var t := "[" + ("[" + mid + "]") + "]";
    assert t == "[[" + mid + "]]";
  }

  /** The client reads back exactly the grid the server wrote. */
  lemma LoadsDumps(g: seq<seq<int>>)
    ensures Loads(Dumps(g)) == Some(g)
  {
    var t := Dumps(g);
    if g == [] {
      assert t == "[]";
    } else {
      var cs := RowContents(g);
      JoinBracketed(cs);
      assert RowTexts(g) == Bracketed(cs);
      var mid := Join("], [", cs);
      Wrapped(mid);
      forall i | 0 <= i < |cs| ensures Lacks(cs[i], ']') {
        ContentLacks(g[i], ']');
      }
      SplitJoinAnchored(cs, "], [", 0);
      RowsRoundTrip(g);
    }
  }

  /** Every row's content reads back as the row. */
  lemma {:induction false} RowsRoundTrip(g: seq<seq<int>>)
    ensures ParseRows(RowContents(g)) == Some(g)
    decreases |g|
  {
    if g != [] {
      var cs := RowContents(g);
      assert cs[1..] == RowContents(g[1..]);
      RowsRoundTrip(g[1..]);
      RowRoundTrip(g[0]);
      assert [g[0]] + g[1..] == g;
    }
  }

  /** A row's content reads back as the row. */
  lemma RowRoundTrip(row: seq<int>)
    ensures ParseRow(RowContent(row)) == Some(row)
  {
    var ts := IntTexts(row);
    if row != [] {
      assert |ts[0]| >= 1;
      JoinFirst(", ", ts);
      forall j | 0 <= j < |ts| ensures Lacks(ts[j], ',') {
        IntToStringLacks(row[j], ',');
      }
      SplitJoinAnchored(ts, ", ", 0);
      IntsRoundTrip(row);
    }
  }

  lemma {:induction false} IntsRoundTrip(row: seq<int>)
    ensures ParseInts(IntTexts(row)) == Some(row)
    decreases |row|
  {
    if row != [] {
      var ts := IntTexts(row);
      assert ts[1..] == IntTexts(row[1..]);
      IntsRoundTrip(row[1..]);
      NumberRoundTrip(row[0]);
      assert ParseNumber(ts[0]) == Some(row[0]);
      assert [row[0]] + row[1..] == row;
    }
  }

  /** `str(v)` is read back as `v`. */
  lemma NumberRoundTrip(v: int)
    ensures ParseNumber(IntToString(v)) == Some(v)
  {
    IntRoundTrip(v);
  }

  /** Rows read from between the outer brackets are dumped back to them. */
  lemma DumpsOfRows(mid: string)
    ensures var r := ParseRows(SplitOn(mid, "], ["));
      r.Some? ==> Dumps(r.value) == "[[" + mid + "]]"
  {
    var cs := SplitOn(mid, "], [");
    if ParseRows(cs).Some? {
      var g := ParseRows(cs).value;
      RowsCanonical(cs);
      JoinSplitOn(mid, "], [");
      DumpsOfContents(g, mid);
    }
  }

  /** A non-empty grid whose row contents join to `mid` is dumped as
      `[[mid]]`. */
  lemma DumpsOfContents(g: seq<seq<int>>, mid: string)
    requires g != [] && Join("], [", RowContents(g)) == mid
    ensures Dumps(g) == "[[" + mid + "]]"
  {
    var cs := RowContents(g);
    JoinBracketed(cs);
    assert RowTexts(g) == Bracketed(cs);
    Wrapped(mid);
  }

  /** The rows `loads` reads are written back as the same row texts. */
  lemma RowsCanonical(cs: seq<string>)
    ensures ParseRows(cs).Some? ==> RowContents(ParseRows(cs).value) == cs
  {
    if ParseRows(cs).Some? {
      var g := ParseRows(cs).value;
      forall i | 0 <= i < |cs| ensures RowContents(g)[i] == cs[i] {
        RowCanonical(cs[i]);
      }
    }
  }

  /** A row `loads` reads is written back as the same text. */
  lemma RowCanonical(c: string)
    ensures ParseRow(c).Some? ==> RowContent(ParseRow(c).value) == c
  {
    if c != [] {
      var ps := SplitOn(c, ", ");
      NumbersCanonical(ps);
      JoinSplitOn(c, ", ");
    }
  }

  /** The numbers `loads` reads are written back as the same pieces. */
  lemma NumbersCanonical(ps: seq<string>)
    ensures ParseInts(ps).Some? ==> IntTexts(ParseInts(ps).value) == ps
  {
    if ParseInts(ps).Some? {
      var vs := ParseInts(ps).value;
      assert forall i :: 0 <= i < |ps| ==> IntTexts(vs)[i] == ps[i];
    }
  }

  /** A joined text starts with its first piece. */
  lemma JoinFirst(sep: string, xs: seq<string>)
    requires |xs| >= 1
    ensures |Join(sep, xs)| >= |xs[0]| && Join(sep, xs)[..|xs[0]|] == xs[0]
  {
  }

  /** A row's content holds only digits, signs, commas and spaces. */
  lemma ContentLacks(row: seq<int>, ch: char)
    requires ch != '-' && ch != ',' && ch != ' ' && !IsDigit(ch)
    ensures Lacks(RowContent(row), ch)
  {
    var ts := IntTexts(row);
    forall j | 0 <= j < |ts| ensures Lacks(ts[j], ch) {
      IntToStringLacks(row[j], ch);
    }
    JoinLacks(", ", ts, ch);
  }

  lemma {:induction false} JoinLacks(sep: string, xs: seq<string>, ch: char)
    requires Lacks(sep, ch) && forall i :: 0 <= i < |xs| ==> Lacks(xs[i], ch)
    ensures Lacks(Join(sep, xs), ch)
    decreases |xs|
  {
    if |xs| >= 2 {
      JoinLacks(sep, xs[1..], ch);
      LacksConcat(xs[0], sep, ch);
      LacksConcat(xs[0] + sep, Join(sep, xs[1..]), ch);
    }
  }

  function Bracketed(cs: seq<string>): (bs: seq<string>)
    ensures |bs| == |cs|
    ensures forall i :: 0 <= i < |cs| ==> bs[i] == "[" + cs[i] + "]"
  {
    seq(|cs|, i requires 0 <= i < |cs| => "[" + cs[i] + "]")
  }

  /** Bracketed pieces joined by `", "` are the pieces joined by `"], ["`
      inside one pair of brackets. */
  lemma {:induction false} JoinBracketed(cs: seq<string>)
    requires |cs| >= 1
    ensures Join(", ", Bracketed(cs)) == "[" + Join("], [", cs) + "]"
    decreases |cs|
  {
    if |cs| >= 2 {
      JoinBracketed(cs[1..]);
      assert Bracketed(cs)[1..] == Bracketed(cs[1..]);
      var j := Join("], [", cs[1..]);
      assert Join(", ", Bracketed(cs)) == "[" + cs[0] + "]" + ", " + ("[" + j + "]");
      assert Join("], [", cs) == cs[0] + "], [" + j;
      assert "[" + cs[0] + "]" + ", " + ("[" + j + "]") == "[" + (cs[0] + "], [" + j) + "]";
    }
  }

  /** A separator whose `m`-th character occurs nowhere else in it is found
      first right after a piece that lacks that character. */
  lemma SplitOnFirstAnchored(x: string, pat: string, y: string, m: nat)
    requires m < |pat| && Lacks(x, pat[m])
    requires forall j :: 0 <= j < |pat| && j != m ==> pat[j] != pat[m]
    ensures SplitOn(x + pat + y, pat) == [x] + SplitOn(y, pat)
  {
    var s := x + pat + y;
    assert s[|x|..|x| + |pat|] == pat;
    assert MatchAt(s, pat, |x|);
    forall j | 0 <= j < |x| && j + |pat| <= |s| ensures !MatchAt(s, pat, j) {
      assert s[j..j + |pat|][m] == s[j + m];
      if j + m < |x| {
        assert s[j + m] == x[j + m];
      } else {
        assert s[j + m] == pat[j + m - |x|];
      }
    }
    assert IndexOf(s, pat) == Some(|x|);
    assert s[..|x|] == x && s[|x| + |pat|..] == y;
  }

  /** A text lacking the separator's `m`-th character does not contain it. */
  lemma LacksAnchor(x: string, pat: string, m: nat)
    requires m < |pat| && Lacks(x, pat[m])
    ensures SplitOn(x, pat) == [x]
  {
    forall j | 0 <= j && j + |pat| <= |x| ensures !MatchAt(x, pat, j) {
      assert x[j..j + |pat|][m] == x[j + m];
    }
  }

  /** Splitting pieces joined by such a separator gives the pieces back. */
  lemma {:induction false} SplitJoinAnchored(xs: seq<string>, pat: string, m: nat)
    requires |xs| >= 1 && m < |pat|
    requires forall j :: 0 <= j < |pat| && j != m ==> pat[j] != pat[m]
    requires forall i :: 0 <= i < |xs| ==> Lacks(xs[i], pat[m])
    ensures SplitOn(Join(pat, xs), pat) == xs
    decreases |xs|
  {
    if |xs| == 1 {
      LacksAnchor(xs[0], pat, m);
    } else {
      SplitJoinAnchored(xs[1..], pat, m);
      SplitOnFirstAnchored(xs[0], pat, Join(pat, xs[1..]), m);
      assert [xs[0]] + xs[1..] == xs;
    }
  }
}
