/** The JavaScript string built-ins the calculators rely on: `split` on a
    single-character separator, `trim`, `toLowerCase`, `startsWith` and
    `parseInt(_, 10)`. */
module Strings {
  import opened Common

  /** JavaScript's white space and line terminators (the characters `trim`
      removes and `parseInt` skips). */
  predicate IsWhiteSpace(c: char)
  {
    var n := c as int;
    n == 0x09 || n == 0x0A || n == 0x0B || n == 0x0C || n == 0x0D || n == 0x20
    || n == 0xA0 || n == 0x1680 || (0x2000 <= n <= 0x200A) || n == 0x2028
    || n == 0x2029 || n == 0x202F || n == 0x205F || n == 0x3000 || n == 0xFEFF
  }

  predicate IsDigit(c: char)
  {
    '0' <= c <= '9'
  }

  /** Index of the first character of `s` that is not white space. */
  function FirstNonSpace(s: string): (i: nat)
    ensures i <= |s|
    ensures forall k :: 0 <= k < i ==> IsWhiteSpace(s[k])
    ensures i == |s| || !IsWhiteSpace(s[i])
  {
    if s == [] || !IsWhiteSpace(s[0]) then 0 else 1 + FirstNonSpace(s[1..])
  }

  /** Length of `s` once trailing white space is removed. */
  function LastNonSpaceEnd(s: string): (j: nat)
    ensures j <= |s|
    ensures forall k :: j <= k < |s| ==> IsWhiteSpace(s[k])
    ensures j == 0 || !IsWhiteSpace(s[j - 1])
  {
    if s == [] || !IsWhiteSpace(s[|s| - 1]) then |s| else LastNonSpaceEnd(s[..|s| - 1])
  }

  /** `s` without its leading white space: a suffix of `s` that does not
      start with white space, preceded in `s` only by white space. */
  function TrimStart(s: string): (r: string)
    ensures |r| <= |s| && r == s[|s| - |r|..]
    ensures r == [] || !IsWhiteSpace(r[0])
    ensures forall k :: 0 <= k < |s| - |r| ==> IsWhiteSpace(s[k])
  {
    s[FirstNonSpace(s)..]
  }

  /** `trim`: `s` without its leading and trailing white space. */
  function Trim(s: string): (r: string)
    ensures r == [] || (!IsWhiteSpace(r[0]) && !IsWhiteSpace(r[|r| - 1]))
    ensures FirstNonSpace(s) + |r| <= |s|
    ensures s[FirstNonSpace(s)..FirstNonSpace(s) + |r|] == r
    ensures forall k :: FirstNonSpace(s) + |r| <= k < |s| ==> IsWhiteSpace(s[k])
  {
    var a := FirstNonSpace(s);
    var t := s[a..];
    var r := t[..LastNonSpaceEnd(t)];
    assert s[a..a + |r|] == r;
    r
  }

  /** A string is blank when it holds nothing but white space. */
  lemma TrimEmptyIff(s: string)
    ensures Trim(s) == [] <==> forall k :: 0 <= k < |s| ==> IsWhiteSpace(s[k])
  {
    if forall k :: 0 <= k < |s| ==> IsWhiteSpace(s[k]) {
      var a := FirstNonSpace(s);
      assert a == |s|;
    }
  }

  /** Index of the first `c` in `s`, or `|s|` when there is none. */
  function IndexOf(s: string, c: char): (i: nat)
    ensures i <= |s|
    ensures i < |s| ==> s[i] == c
    ensures forall k :: 0 <= k < i ==> s[k] != c
  {
    if s == [] then 0 else if s[0] == c then 0 else 1 + IndexOf(s[1..], c)
  }

  /** `pieces.join(sep)`. */
  function Join(pieces: seq<string>, sep: char): string
  {
    if |pieces| == 0 then []
    else if |pieces| == 1 then pieces[0]
    else pieces[0] + [sep] + Join(pieces[1..], sep)
  }

  /** `s.split(sep)`: the pieces between separators, empty ones kept. Joining
      them back with `sep` gives `s`, and no piece holds `sep`. */
  function Split(s: string, sep: char): (r: seq<string>)
    ensures |r| >= 1
    ensures forall i :: 0 <= i < |r| ==> sep !in r[i]
    ensures Join(r, sep) == s
    decreases |s|
  {
    var i := IndexOf(s, sep);
    if i == |s| then [s]
    else
      var rest := Split(s[i + 1..], sep);
      assert s == s[..i] + [sep] + s[i + 1..];
      [s[..i]] + rest
  }

  /** Splitting undoes joining: `split` recovers pieces that hold no separator. */
  lemma {:induction false} SplitJoin(pieces: seq<string>, sep: char)
    requires |pieces| >= 1
    requires forall i :: 0 <= i < |pieces| ==> sep !in pieces[i]
    ensures Split(Join(pieces, sep), sep) == pieces
  {
    if |pieces| == 1 {
      IndexOfAbsent(pieces[0], sep);
    } else {
      var s := Join(pieces, sep);
      var rest := Join(pieces[1..], sep);
      assert s == pieces[0] + [sep] + rest;
      IndexOfAfter(pieces[0], sep, rest);
      assert s[..|pieces[0]|] == pieces[0];
      assert s[|pieces[0]| + 1..] == rest;
      SplitJoin(pieces[1..], sep);
      assert pieces == [pieces[0]] + pieces[1..];
    }
  }

  /** Every character of a piece occurs in the joined text. */
  lemma {:induction false} JoinPieceChars(pieces: seq<string>, sep: char, i: nat, k: nat)
    requires i < |pieces| && k < |pieces[i]|
    ensures pieces[i][k] in Join(pieces, sep)
  {
    if |pieces| > 1 {
      var head := pieces[0] + [sep];
      var rest := Join(pieces[1..], sep);
      var j := head + rest;
      assert Join(pieces, sep) == j;
      if i == 0 {
        assert j[k] == pieces[0][k];
      } else {
        assert pieces[1..][i - 1] == pieces[i];
        JoinPieceChars(pieces[1..], sep, i - 1, k);
        var m :| 0 <= m < |rest| && rest[m] == pieces[i][k];
        assert j[|head| + m] == rest[m];
      }
    }
  }

  /** A joined string starts with its first piece. */
  lemma JoinHead(pieces: seq<string>, sep: char)
    requires |pieces| >= 1
    ensures StartsWith(Join(pieces, sep), pieces[0])
  {
    if |pieces| > 1 {
      assert Join(pieces, sep) == pieces[0] + ([sep] + Join(pieces[1..], sep));
    }
  }

  lemma IndexOfAbsent(s: string, c: char)
    requires c !in s
    ensures IndexOf(s, c) == |s|
  {
  }

  lemma IndexOfAfter(a: string, c: char, b: string)
    requires c !in a
    ensures IndexOf(a + [c] + b, c) == |a|
  {
    var s := a + [c] + b;
    assert s[|a|] == c;
    forall k | 0 <= k < |a| ensures s[k] != c {
      assert s[k] == a[k];
    }
  }

  /** ASCII case mapping of one character. */
  function LowerChar(c: char): (d: char)
    ensures 'A' <= c <= 'Z' ==> d as int == c as int + 32
    ensures !('A' <= c <= 'Z') ==> d == c
  {
    if 'A' <= c <= 'Z' then (c as int + 32) as char else c
  }

  /** `toLowerCase`, for the Latin capital letters used in model and brand names. */
  function ToLower(s: string): (r: string)
    ensures |r| == |s|
    ensures forall i :: 0 <= i < |s| ==> r[i] == LowerChar(s[i])
  {
    if s == [] then [] else [LowerChar(s[0])] + ToLower(s[1..])
  }

  /** `s.startsWith(p)`. */
  predicate StartsWith(s: string, p: string)
  {
    |p| <= |s| && s[..|p|] == p
  }

  /** A lower-cased text starts with `p` when its leading characters lower to `p`. */
  lemma StartsWithLower(s: string, p: string)
    requires |p| <= |s|
    requires forall i :: 0 <= i < |p| ==> LowerChar(s[i]) == p[i]
    ensures StartsWith(ToLower(s), p)
  {
    assert ToLower(s)[..|p|] == p;
  }

  /** A lower-cased text whose first character lowers to something else does not start with `p`. */
  lemma NotStartsWithLower(s: string, p: string)
    requires |s| >= 1 && |p| >= 1
    requires LowerChar(s[0]) != p[0]
    ensures !StartsWith(ToLower(s), p)
  {
    assert ToLower(s)[0] != p[0];
  }

  /** Number of leading decimal digits of `s`. */
  function DigitRun(s: string): (n: nat)
    ensures n <= |s|
    ensures forall k :: 0 <= k < n ==> IsDigit(s[k])
    ensures n == |s| || !IsDigit(s[n])
  {
    if s == [] || !IsDigit(s[0]) then 0 else 1 + DigitRun(s[1..])
  }

  /** The number a run of decimal digits denotes. */
  function DigitsValue(ds: string): (v: nat)
    requires forall k :: 0 <= k < |ds| ==> IsDigit(ds[k])
  {
    if ds == [] then 0
    else
      assert IsDigit(ds[|ds| - 1]);
      DigitsValue(ds[..|ds| - 1]) * 10 + (ds[|ds| - 1] as int - '0' as int)
  }

  /** `parseInt(s, 10)`: skips leading white space, takes an optional sign and
      the longest run of digits after it; `None` stands for `NaN`, which the
      source gets when no digit follows. */
  function ParseInt10(s: string): (r: Option<int>)
    ensures r.Some? <==> (var t := TrimStart(s);
      var u := if |t| > 0 && (t[0] == '-' || t[0] == '+') then t[1..] else t;
      |u| > 0 && IsDigit(u[0]))
  {
    var t := TrimStart(s);
    var u := if |t| > 0 && (t[0] == '-' || t[0] == '+') then t[1..] else t;
    var n := DigitRun(u);
    if n == 0 then None
    else
      var v: int := DigitsValue(u[..n]);
      Some(if t[0] == '-' then -v else v)
  }

  /** The decimal digits of `n`, without leading zeros. */
  function Decimal(n: nat): (ds: string)
    ensures |ds| >= 1
    ensures forall k :: 0 <= k < |ds| ==> IsDigit(ds[k])
  {
    if n < 10 then [('0' as int + n) as char]
    else Decimal(n / 10) + [('0' as int + n % 10) as char]
  }

  lemma {:induction false} DecimalValue(n: nat)
    ensures DigitsValue(Decimal(n)) == n
  {
    if n >= 10 {
      var ds := Decimal(n);
      assert ds[..|ds| - 1] == Decimal(n / 10);
      DecimalValue(n / 10);
    }
  }

  lemma DigitRunOf(ds: string, rest: string)
    requires forall k :: 0 <= k < |ds| ==> IsDigit(ds[k])
    requires rest == [] || !IsDigit(rest[0])
    ensures DigitRun(ds + rest) == |ds|
    decreases |ds|
  {
    var s := ds + rest;
    if ds != [] {
      assert s[0] == ds[0] && IsDigit(s[0]);
      assert s[1..] == ds[1..] + rest;
      DigitRunOf(ds[1..], rest);
      assert DigitRun(s) == 1 + DigitRun(s[1..]);
    } else {
      assert s == rest;
    }
  }

  /** `parseInt` spelled out over the trimmed text `t`, the digits' text `u`
      and the digits `ds` it starts with. */
  lemma ParseSteps(s: string, t: string, u: string, neg: bool, ds: string)
    requires t == TrimStart(s) && |t| > 0 && (t[0] == '-' <==> neg)
    requires u == if t[0] == '-' || t[0] == '+' then t[1..] else t
    requires |ds| > 0 && DigitRun(u) == |ds| && u[..|ds|] == ds
    ensures var v: int := DigitsValue(ds); ParseInt10(s) == Some(if neg then -v else v)
  {
  }

  /** `parseInt` of a text whose trimmed start is an optional minus sign,
      a run of digits and a non-digit rest is the number the digits denote. */
  lemma ParseOf(s: string, neg: bool, ds: string, rest: string)
    requires |ds| >= 1 && forall k :: 0 <= k < |ds| ==> IsDigit(ds[k])
    requires rest == [] || !IsDigit(rest[0])
    requires TrimStart(s) == if neg then ['-'] + (ds + rest) else ds + rest
    ensures var v: int := DigitsValue(ds); ParseInt10(s) == Some(if neg then -v else v)
  {
    var t := TrimStart(s);
    var v: int := DigitsValue(ds);
    var u := if neg then t[1..] else t;
    assert |t| > 0 && (t[0] == '-' <==> neg) && (t[0] == '-' || t[0] == '+' <==> neg)
      && DigitRun(u) == |ds| && u[..|ds|] == ds by {
      if !neg { assert t[0] == ds[0] && IsDigit(t[0]); }
      assert u == ds + rest;
      DigitRunOf(ds, rest);
      assert u[..|ds|] == ds;
    }
    ParseSteps(s, t, u, neg, ds);
  }

  /** `parseInt` reads back the decimal form of a number, ignoring leading
      white space and whatever follows the digits. */
  lemma ParseDecimal(ws: string, n: nat, rest: string)
    requires forall k :: 0 <= k < |ws| ==> IsWhiteSpace(ws[k])
    requires rest == [] || !IsDigit(rest[0])
    ensures ParseInt10(ws + Decimal(n) + rest) == Some(n)
  {
    var ds := Decimal(n);
    var s := ds + rest;
    assert s[0] == ds[0] && !IsWhiteSpace(s[0]);
    LeadingSpace(ws, s);
    assert ws + ds + rest == ws + s;
    ParseOf(ws + s, false, ds, rest);
    DecimalValue(n);
  }

  lemma MinusRegroup(ws: string, ds: string, rest: string)
    ensures ws + ['-'] + ds + rest == ws + (['-'] + (ds + rest))
  {
    var a, b := ws + ['-'] + ds + rest, ws + (['-'] + (ds + rest));
    assert |a| == |b|;
    forall k | 0 <= k < |a| ensures a[k] == b[k] {
      if k < |ws| {
      } else if k == |ws| {
      } else if k < |ws| + 1 + |ds| {
        assert a[k] == ds[k - |ws| - 1] == b[k];
      } else {
        assert a[k] == rest[k - |ws| - 1 - |ds|] == b[k];
      }
    }
  }

  /** The same with a minus sign in front of the digits. */
  lemma ParseNegativeDecimal(ws: string, n: nat, rest: string)
    requires forall k :: 0 <= k < |ws| ==> IsWhiteSpace(ws[k])
    requires rest == [] || !IsDigit(rest[0])
    ensures ParseInt10(ws + ['-'] + Decimal(n) + rest) == Some(-(n as int))
  {
    var ds := Decimal(n);
    var s := ['-'] + (ds + rest);
    assert ws + ['-'] + ds + rest == ws + s by {
      MinusRegroup(ws, ds, rest);
    }
    assert ParseInt10(ws + s) == Some(-(n as int)) by {
      LeadingSpace(ws, s);
      ParseOf(ws + s, true, ds, rest);
      DecimalValue(n);
    }
  }

  lemma LeadingSpace(ws: string, s: string)
    requires forall k :: 0 <= k < |ws| ==> IsWhiteSpace(ws[k])
    requires s == [] || !IsWhiteSpace(s[0])
    ensures TrimStart(ws + s) == s
    decreases |ws|
  {
    if ws == [] {
      assert ws + s == s;
    } else {
      assert (ws + s)[1..] == ws[1..] + s;
      LeadingSpace(ws[1..], s);
    }
  }
}
