/** The Python string operations the claim code relies on: strip, split,
    join, startswith, `in`, replace, upper and str() of an integer. */
module Strings {

  /** Exactly the characters for which Python's `str.isspace()` holds;
      `str.strip()` with no argument removes runs of these at both ends. */
  predicate IsSpace(c: char) {
    || c == ' '
    || '\t' <= c <= '\r'
    || '\U{001C}' <= c <= '\U{001F}'
    || c == '\U{0085}' || c == '\U{00A0}' || c == '\U{1680}'
    || '\U{2000}' <= c <= '\U{200A}'
    || c == '\U{2028}' || c == '\U{2029}' || c == '\U{202F}' || c == '\U{205F}' || c == '\U{3000}'
  }

  /** A string every character of which is white space (the empty string included). */
  predicate IsBlank(s: string) {
    forall i :: 0 <= i < |s| ==> IsSpace(s[i])
  }

  /** `s.lstrip()`: the longest suffix of `s` that does not start with white space. */
  function TrimLeft(s: string): (r: string)
    ensures |r| <= |s| && r == s[|s| - |r|..]
    ensures |r| == 0 || !IsSpace(r[0])
    ensures IsBlank(s[..|s| - |r|])
  {
    if |s| > 0 && IsSpace(s[0]) then TrimLeft(s[1..]) else s
  }

  /** `s.rstrip()`: the longest prefix of `s` that does not end with white space. */
  function TrimRight(s: string): (r: string)
    ensures |r| <= |s| && r == s[..|r|]
    ensures |r| == 0 || !IsSpace(r[|r| - 1])
    ensures IsBlank(s[|r|..])
  {
    if |s| > 0 && IsSpace(s[|s| - 1]) then TrimRight(s[..|s| - 1]) else s
  }

  /** `s.strip()`. */
  function Strip(s: string): string {
    TrimRight(TrimLeft(s))
  }

  /** `not s.strip()` holds exactly for the blank strings. */
  lemma StripEmptyIffBlank(s: string)
    ensures Strip(s) == "" <==> IsBlank(s)
  {
    if IsBlank(s) {
      TrimLeftBlank(s);
    } else {
      TrimLeftNotBlank(s);
      TrimRightKeepsHead(TrimLeft(s));
    }
  }

  /** Left-trimming a blank string leaves nothing. */
  lemma {:induction false} TrimLeftBlank(s: string)
    requires IsBlank(s)
    ensures TrimLeft(s) == ""
  {
    if |s| > 0 {
      assert IsSpace(s[0]);
      assert IsBlank(s[1..]) by {
        forall i | 0 <= i < |s| - 1
          ensures IsSpace(s[1..][i])
        {
          assert s[1..][i] == s[i + 1];
        }
      }
      TrimLeftBlank(s[1..]);
    }
  }

  /** Left-trimming a string with a non-space character leaves a string
      that starts with a non-space character. */
  lemma {:induction false} TrimLeftNotBlank(s: string)
    requires !IsBlank(s)
    ensures |TrimLeft(s)| > 0
  {
    if IsSpace(s[0]) {
      assert !IsBlank(s[1..]) by {
        var k :| 0 <= k < |s| && !IsSpace(s[k]);
        assert k > 0 && s[1..][k - 1] == s[k];
      }
      TrimLeftNotBlank(s[1..]);
    }
  }

  /** Right-trimming a string that starts with a non-space character keeps it non-empty. */
  lemma {:induction false} TrimRightKeepsHead(s: string)
    requires |s| > 0 && !IsSpace(s[0])
    ensures |TrimRight(s)| > 0
  {
    if |s| > 1 && IsSpace(s[|s| - 1]) {
      var t := s[..|s| - 1];
      assert t[0] == s[0];
      TrimRightKeepsHead(t);
    }
  }

  /** Stripping a string that has no white space at either end changes nothing. */
  lemma StripTrimmed(s: string)
    requires |s| > 0 ==> !IsSpace(s[0]) && !IsSpace(s[|s| - 1])
    ensures Strip(s) == s
  {
  }

  /** Number of occurrences of `c` in `s`. */
  function Count(s: string, c: char): (n: nat)
    ensures n <= |s|
    ensures n == 0 <==> c !in s
  {
    if |s| == 0 then 0 else (if s[0] == c then 1 else 0) + Count(s[1..], c)
  }

  /** `s.split(c)` for a one-character separator: the maximal pieces between
      separators, so the empty string gives `[""]`. */
  function Split(s: string, c: char): (r: seq<string>)
    ensures |r| == Count(s, c) + 1
    ensures forall i :: 0 <= i < |r| ==> c !in r[i]
  {
    if |s| == 0 then [""]
    else
      var rest := Split(s[1..], c);
      if s[0] == c then [""] + rest
      else [[s[0]] + rest[0]] + rest[1..]
  }

  /** `sep.join(xs)`. */
  function Join(xs: seq<string>, sep: string): string {
    if |xs| == 0 then ""
    else if |xs| == 1 then xs[0]
    else xs[0] + sep + Join(xs[1..], sep)
  }

  /** A join of two or more pieces is the first, the separator, and the join of the rest. */
  lemma JoinCons(a: string, ws: seq<string>, sep: string)
    requires |ws| > 0
    ensures Join([a] + ws, sep) == a + sep + Join(ws, sep)
  {
    assert ([a] + ws)[1..] == ws;
  }

  /** Putting `p` in front of the first piece puts it in front of the join. */
  lemma JoinFirstPrefixed(p: string, zs: seq<string>, sep: string)
    requires |zs| > 0
    ensures Join([p + zs[0]] + zs[1..], sep) == p + Join(zs, sep)
  {
    var ws := [p + zs[0]] + zs[1..];
    if |zs| > 1 {
      assert ws[1..] == zs[1..];
    }
  }

  /** Every piece with `p` put in front of it. */
  function Prefixed(p: string, zs: seq<string>): (r: seq<string>)
    ensures |r| == |zs|
    ensures forall i :: 0 <= i < |zs| ==> r[i] == p + zs[i]
  {
    if |zs| == 0 then [] else [p + zs[0]] + Prefixed(p, zs[1..])
  }

  /** Joining with `sep` after prefixing every piece but the first with `p`
      is joining with `sep + p`. */
  lemma {:induction false} JoinPrefixed(a: string, zs: seq<string>, sep: string, p: string)
    ensures Join([a] + Prefixed(p, zs), sep) == Join([a] + zs, sep + p)
    decreases zs
  {
    if |zs| > 0 {
      var rest := [zs[0]] + Prefixed(p, zs[1..]);
      JoinPrefixed(zs[0], zs[1..], sep, p);
      assert [zs[0]] + zs[1..] == zs;
      assert Join(rest, sep) == Join(zs, sep + p);
      assert Prefixed(p, zs) == [p + rest[0]] + rest[1..];
      JoinFirstPrefixed(p, rest, sep);
      assert Join(Prefixed(p, zs), sep) == p + Join(zs, sep + p);
      JoinCons(a, Prefixed(p, zs), sep);
      JoinCons(a, zs, sep + p);
      assert a + sep + (p + Join(zs, sep + p)) == a + (sep + p) + Join(zs, sep + p);
    }
  }

  /** Joining the pieces of a split with the separator gives back the string. */
  lemma {:induction false} JoinSplit(s: string, c: char)
    ensures Join(Split(s, c), [c]) == s
  {
    if |s| > 0 {
      var t := s[1..];
      var rest := Split(t, c);
      JoinSplit(t, c);
      if s[0] == c {
        assert s == [c] + t;
        SplitLeadingSeparator(t, c);
        JoinAfterSeparator(rest, t, c);
      } else {
        assert s == [s[0]] + t;
        SplitLeadingChar(s[0], t, c);
        JoinFirstPrefixed([s[0]], rest, [c]);
      }
    }
  }

  /** An empty first piece joins to a leading separator. */
  lemma JoinAfterSeparator(rest: seq<string>, t: string, c: char)
    requires |rest| > 0 && Join(rest, [c]) == t
    ensures Join([""] + rest, [c]) == [c] + t
  {
    JoinCons("", rest, [c]);
    assert "" + [c] + t == [c] + t;
  }

  /** A string without the separator is a single piece. */
  lemma {:induction false} SplitNoSeparator(a: string, c: char)
    requires c !in a
    ensures Split(a, c) == [a]
  {
    if |a| > 0 {
      SplitNoSeparator(a[1..], c);
      assert [a[0]] + a[1..] == a;
    }
  }

  /** A piece without the separator followed by the separator splits off as one element. */
  lemma {:induction false} SplitAfterPiece(a: string, c: char, b: string)
    requires c !in a
    ensures Split(a + [c] + b, c) == [a] + Split(b, c)
  {
    if |a| == 0 {
      assert a + [c] + b == [c] + b;
      SplitLeadingSeparator(b, c);
    } else {
      SplitAfterPiece(a[1..], c, b);
      SplitCons(a[0], a[1..] + [c] + b, c, a[1..], Split(b, c));
      SplitOffHead(a, c, b);
    }
  }

  /** Taking the head off a piece followed by a separator and more text. */
  lemma SplitOffHead(a: string, c: char, b: string)
    requires |a| > 0
    ensures a + [c] + b == [a[0]] + (a[1..] + [c] + b)
    ensures [a[0]] + a[1..] == a
  {
    assert a == [a[0]] + a[1..];
    assert a + [c] + b == [a[0]] + a[1..] + [c] + b;
  }

  /** A non-separator in front of a string joins its first piece. */
  lemma SplitCons(x: char, t: string, c: char, p: string, rs: seq<string>)
    requires x != c && Split(t, c) == [p] + rs
    ensures Split([x] + t, c) == [[x] + p] + rs
  {
    SplitLeadingChar(x, t, c);
    assert ([p] + rs)[1..] == rs;
  }

  /** A leading separator splits off an empty piece. */
  lemma SplitLeadingSeparator(t: string, c: char)
    ensures Split([c] + t, c) == [""] + Split(t, c)
  {
    assert ([c] + t)[1..] == t;
  }

  /** A leading non-separator joins the first piece. */
  lemma SplitLeadingChar(x: char, t: string, c: char)
    requires x != c
    ensures Split([x] + t, c) == [[x] + Split(t, c)[0]] + Split(t, c)[1..]
  {
    assert ([x] + t)[1..] == t;
  }

  /** Splitting a join gives back the pieces when no piece holds the separator. */
  lemma {:induction false} SplitJoin(xs: seq<string>, c: char)
    requires |xs| > 0
    requires forall i :: 0 <= i < |xs| ==> c !in xs[i]
    ensures Split(Join(xs, [c]), c) == xs
  {
    if |xs| == 1 {
      SplitNoSeparator(xs[0], c);
    } else {
      SplitJoin(xs[1..], c);
      SplitAfterPiece(xs[0], c, Join(xs[1..], [c]));
      assert [xs[0]] + xs[1..] == xs;
    }
  }

  /** `s.startswith(p)`. */
  predicate StartsWith(s: string, p: string) {
    |p| <= |s| && s[..|p|] == p
  }

  /** `s.endswith(p)`. */
  predicate EndsWith(s: string, p: string) {
    |p| <= |s| && s[|s| - |p|..] == p
  }

  lemma StartsWithConcat(p: string, t: string)
    ensures StartsWith(p + t, p)
  {
    assert (p + t)[..|p|] == p;
  }

  lemma EndsWithConcat(h: string, t: string)
    ensures EndsWith(h + t, t)
  {
    assert (h + t)[|h + t| - |t|..] == t;
  }

  /** `p in s` for strings: `p` occurs in `s` as a contiguous piece. */
  predicate Contains(s: string, p: string)
    decreases |s|
  {
    StartsWith(s, p) || (|s| > 0 && Contains(s[1..], p))
  }

  /** A prefix that occurs at the start occurs in the string. */
  lemma ContainsWhenStarts(s: string, p: string, t: string)
    ensures Contains(p + t, p)
  {
    assert (p + t)[..|p|] == p;
  }

  /** An occurrence needs room: nothing longer than `s` occurs in it. */
  lemma {:induction false} ContainsFits(s: string, p: string)
    ensures Contains(s, p) ==> |p| <= |s|
    decreases |s|
  {
    if |s| > 0 {
      ContainsFits(s[1..], p);
    }
  }

  /** `s.replace(p, t)` for a non-empty `p`: every non-overlapping
      occurrence, scanning left to right, is replaced by `t`. */
  function ReplaceAll(s: string, p: string, t: string): (r: string)
    requires |p| > 0
    ensures !Contains(s, p) ==> r == s
    ensures t == "" ==> |r| <= |s|
    ensures t == "" && Contains(s, p) ==> |r| < |s|
    decreases |s|
  {
    if |s| < |p| then ContainsFits(s, p); s
    else if s[..|p|] == p then t + ReplaceAll(s[|p|..], p, t)
    else [s[0]] + ReplaceAll(s[1..], p, t)
  }

  /** `s.upper()` restricted to ASCII letters. */
  function Upper(s: string): (r: string)
    ensures |r| == |s|
    ensures forall i :: 0 <= i < |s| ==> ('a' <= s[i] <= 'z' ==> r[i] as int == s[i] as int - 32)
    ensures forall i :: 0 <= i < |s| ==> (!('a' <= s[i] <= 'z') ==> r[i] == s[i])
  {
    if |s| == 0 then ""
    else [if 'a' <= s[0] <= 'z' then (s[0] as int - 32) as char else s[0]] + Upper(s[1..])
  }

  predicate IsDigit(c: char) {
    '0' <= c <= '9'
  }

  /** Decimal digits of `n` without leading zeros: Python's `str(n)` for `n >= 0`. */
  function NatToString(n: nat): (r: string)
    ensures |r| > 0
    ensures forall i :: 0 <= i < |r| ==> IsDigit(r[i])
    ensures |r| > 1 ==> r[0] != '0'
  {
    if n < 10 then [('0' as int + n) as char]
    else NatToString(n / 10) + [('0' as int + n % 10) as char]
  }

  /** The value of a string of decimal digits. */
  function DigitsValue(s: string): nat
    requires forall i :: 0 <= i < |s| ==> IsDigit(s[i])
  {
    if |s| == 0 then 0
    else
      assert IsDigit(s[|s| - 1]);
      10 * DigitsValue(s[..|s| - 1]) + (s[|s| - 1] as int - '0' as int)
  }

  /** Reading the digits back gives the number: `int(str(n)) == n`. */
  lemma {:induction false} NatToStringRoundTrip(n: nat)
    ensures DigitsValue(NatToString(n)) == n
  {
    if n >= 10 {
      NatToStringRoundTrip(n / 10);
      var s := NatToString(n);
      assert s[..|s| - 1] == NatToString(n / 10);
    }
  }

  /** Distinct numbers have distinct renderings. */
  lemma NatToStringInjective(m: nat, n: nat)
    requires NatToString(m) == NatToString(n)
    ensures m == n
  {
    NatToStringRoundTrip(m);
    NatToStringRoundTrip(n);
  }

  /** Python's `str(i)` for any integer. */
  function IntToString(i: int): (r: string)
    ensures |r| > 0
    ensures i < 0 <==> r[0] == '-'
  {
    if i < 0 then "-" + NatToString(-i) else NatToString(i)
  }

  /** A field name that splits and strips back to itself. */
  predicate PlainField(f: string) {
    ',' !in f && (|f| > 0 ==> !IsSpace(f[0]) && !IsSpace(f[|f| - 1]))
  }

  /** `[x.strip() for x in xs]`. */
  function StripAll(xs: seq<string>): (r: seq<string>)
    ensures |r| == |xs|
    ensures forall i :: 0 <= i < |xs| ==> r[i] == Strip(xs[i])
  {
    seq(|xs|, i requires 0 <= i < |xs| => Strip(xs[i]))
  }

  /** The names with a space in front of every one but the first. */
  function SpaceLed(xs: seq<string>): (r: seq<string>)
    requires |xs| > 0
    ensures |r| == |xs| && r[0] == xs[0]
    ensures forall i :: 1 <= i < |xs| ==> r[i] == " " + xs[i]
  {
    [xs[0]] + Prefixed(" ", xs[1..])
  }

  /** The ", "-joined list equals a ","-join of the space-led names. */
  lemma JoinCommaSpace(xs: seq<string>)
    requires |xs| > 0
    ensures Join(xs, ", ") == Join(SpaceLed(xs), ",")
  {
    JoinPrefixed(xs[0], xs[1..], ",", " ");
    assert [xs[0]] + xs[1..] == xs;
    assert "," + " " == ", ";
  }

  /** A space in front of a plain field is undone by stripping. */
  lemma StripSpaceLed(f: string)
    requires PlainField(f)
    ensures Strip(" " + f) == f
  {
    assert (" " + f)[1..] == f;
    StripTrimmed(f);
  }

  /** Stripping the space-led names gives the plain names back. */
  lemma StripUndoesSpaceLed(fields: seq<string>)
    requires |fields| > 0
    requires forall i :: 0 <= i < |fields| ==> PlainField(fields[i])
    ensures StripAll(SpaceLed(fields)) == fields
  {
    StripSpaceLedEach(fields);
    StripAllPointwise(SpaceLed(fields), fields);
  }

  /** `StripAll` is determined by what stripping does to each piece. */
  lemma StripAllPointwise(xs: seq<string>, ys: seq<string>)
    requires |xs| == |ys|
    requires forall i :: 0 <= i < |xs| ==> Strip(xs[i]) == ys[i]
    ensures StripAll(xs) == ys
  {
  }

  lemma StripSpaceLedEach(fields: seq<string>)
    requires |fields| > 0
    requires forall i :: 0 <= i < |fields| ==> PlainField(fields[i])
    ensures forall i :: 0 <= i < |fields| ==> Strip(SpaceLed(fields)[i]) == fields[i]
  {
    forall i | 0 <= i < |fields|
      ensures Strip(SpaceLed(fields)[i]) == fields[i]
    {
      StripSpaceLedAt(fields, i);
    }
  }

  lemma StripSpaceLedAt(fields: seq<string>, i: nat)
    requires i < |fields| && PlainField(fields[i])
    ensures |fields| > 0 && Strip(SpaceLed(fields)[i]) == fields[i]
  {
    if i == 0 {
      StripTrimmed(fields[0]);
    } else {
      StripSpaceLed(fields[i]);
    }
  }

  lemma SpaceLedHasNoComma(fields: seq<string>)
    requires |fields| > 0
    requires forall i :: 0 <= i < |fields| ==> PlainField(fields[i])
    ensures forall i :: 0 <= i < |fields| ==> ',' !in SpaceLed(fields)[i]
  {
    var ys := SpaceLed(fields);
    forall i | 0 <= i < |ys|
      ensures ',' !in ys[i]
    {
      if i > 0 {
        assert ys[i] == " " + fields[i];
        assert ',' !in fields[i];
      }
    }
  }

  /** A ", "-joined list of plain names splits on commas and strips back to
      the names: the inverse of the join. */
  lemma SplitStripCommaSpace(xs: seq<string>)
    requires |xs| > 0
    requires forall i :: 0 <= i < |xs| ==> PlainField(xs[i])
    ensures StripAll(Split(Join(xs, ", "), ',')) == xs
  {
    SpaceLedHasNoComma(xs);
    JoinCommaSpace(xs);
    SplitJoin(SpaceLed(xs), ',');
    StripUndoesSpaceLed(xs);
  }
}
