/** The Python string operations the listing code relies on: `str.split()`
    (runs of whitespace), `str.split(c)` for one separator character,
    `str.join`, `str.strip`, and the conversions `str(int)` and `int(str)`. */
module Text {
  import opened Wrappers

  /** Python's `str.isspace` for a single character. */
  predicate IsSpace(c: char)
  {
    || c == ' ' || c == '\t' || c == '\n' || c == '\r' || c == '\U{000B}' || c == '\U{000C}'
    || ('\U{001C}' <= c <= '\U{001F}') || c == '\U{0085}' || c == '\U{00A0}' || c == '\U{1680}'
    || ('\U{2000}' <= c <= '\U{200A}') || c == '\U{2028}' || c == '\U{2029}' || c == '\U{202F}'
    || c == '\U{205F}' || c == '\U{3000}'
  }

  /** A piece produced by `str.split()`: non-empty and free of whitespace. */
  predicate IsToken(t: string)
  {
    |t| > 0 && forall i :: 0 <= i < |t| ==> !IsSpace(t[i])
  }

  /** Length of the leading run of non-whitespace characters. */
  function TokenLength(s: string): (n: nat)
    ensures n <= |s|
    ensures forall i :: 0 <= i < n ==> !IsSpace(s[i])
    ensures n < |s| ==> IsSpace(s[n])
  {
    if s == [] || IsSpace(s[0]) then 0 else 1 + TokenLength(s[1..])
  }

  /** `s.split()`: the maximal runs of non-whitespace, in order. */
  function Split(s: string): (r: seq<string>)
    ensures forall i :: 0 <= i < |r| ==> IsToken(r[i])
    decreases |s|
  {
    if s == [] then []
    else if IsSpace(s[0]) then Split(s[1..])
    else
      var n := TokenLength(s);
      assert n > 0;
      [s[..n]] + Split(s[n..])
  }

  /** `sep.join(parts)`. */
  function Join(sep: string, parts: seq<string>): string
  {
    if parts == [] then ""
    else if |parts| == 1 then parts[0]
    else parts[0] + sep + Join(sep, parts[1..])
  }

  /** `" ".join(s.split())`: collapses every run of whitespace to one space
      and drops whitespace at both ends. */
  function CollapseSpaces(s: string): string
  {
    Join(" ", Split(s))
  }

  /** Every whitespace character is a plain space with a non-whitespace
      character on each side: no leading, trailing or doubled whitespace. */
  predicate SingleSpaced(t: string)
  {
    forall i :: 0 <= i < |t| && IsSpace(t[i]) ==>
      t[i] == ' ' && 0 < i < |t| - 1 && !IsSpace(t[i - 1]) && !IsSpace(t[i + 1])
  }

  lemma TokenLengthOfToken(t: string, u: string)
    requires IsToken(t)
    requires u == [] || IsSpace(u[0])
    ensures TokenLength(t + u) == |t|
  {
    assert forall k :: 0 <= k < |t| ==> (t + u)[k] == t[k];
    if u != [] {
      assert (t + u)[|t|] == u[0];
    }
  }

  /** Splitting undoes joining by single spaces. */
  lemma {:induction false} SplitJoinSpaces(toks: seq<string>)
    requires forall i :: 0 <= i < |toks| ==> IsToken(toks[i])
    ensures Split(Join(" ", toks)) == toks
  {
    if |toks| == 0 {
    } else if |toks| == 1 {
      var t := toks[0];
      TokenLengthOfToken(t, "");
      assert t + "" == t;
      assert t[..|t|] == t;
      assert Split(t) == [t[..|t|]] + Split(t[|t|..]);
    } else {
      var t := toks[0];
      var rest := Join(" ", toks[1..]);
      var s := t + " " + rest;
      assert Join(" ", toks) == s;
      SplitJoinSpaces(toks[1..]);
      assert s == t + (" " + rest);
      TokenLengthOfToken(t, " " + rest);
      assert s[..|t|] == t;
      assert s[|t|..] == " " + rest;
      assert (" " + rest)[1..] == rest;
      assert Split(s) == [t] + Split(" " + rest);
      assert Split(" " + rest) == Split(rest);
    }
  }

  lemma {:induction false} JoinSpacesShape(toks: seq<string>)
    requires forall i :: 0 <= i < |toks| ==> IsToken(toks[i])
    ensures var s := Join(" ", toks);
      && SingleSpaced(s)
      && (toks != [] ==> |s| > 0 && !IsSpace(s[0]) && !IsSpace(s[|s| - 1]))
      && (toks == [] ==> s == "")
  {
    if |toks| > 1 {
      var t := toks[0];
      var rest := Join(" ", toks[1..]);
      var s := t + " " + rest;
      assert Join(" ", toks) == s;
      JoinSpacesShape(toks[1..]);
      assert |rest| > 0 && !IsSpace(rest[0]) && !IsSpace(rest[|rest| - 1]);
      forall i | 0 <= i < |s| && IsSpace(s[i])
        ensures s[i] == ' ' && 0 < i < |s| - 1 && !IsSpace(s[i - 1]) && !IsSpace(s[i + 1])
      {
        assert forall k :: 0 <= k < |t| ==> s[k] == t[k];
        if i == |t| {
          assert s[i + 1] == rest[0];
          assert s[i - 1] == t[|t| - 1];
        } else if i > |t| {
          var k := i - |t| - 1;
          assert s[i] == rest[k];
          assert 0 < k < |rest| - 1;
          assert s[i + 1] == rest[k + 1];
          assert s[i - 1] == rest[k - 1];
        }
      }
      assert s[|s| - 1] == rest[|rest| - 1];
    }
  }

  /** The move-in normalisation leaves the whitespace-separated words as
      they were and shapes the text as SingleSpaced describes. */
  lemma CollapseSpacesMeaning(s: string)
    ensures SingleSpaced(CollapseSpaces(s))
    ensures Split(CollapseSpaces(s)) == Split(s)
  {
    JoinSpacesShape(Split(s));
    SplitJoinSpaces(Split(s));
  }

  /** Index of the first `c` in `s`, or `|s|` when there is none. */
  function IndexOf(s: string, c: char): (i: nat)
    ensures i <= |s|
    ensures forall k :: 0 <= k < i ==> s[k] != c
    ensures i < |s| ==> s[i] == c
  {
    if s == [] || s[0] == c then 0 else 1 + IndexOf(s[1..], c)
  }

  /** `s.split(c)`: the pieces between occurrences of `c`, empty ones kept. */
  function SplitOn(s: string, c: char): (r: seq<string>)
    ensures |r| >= 1
    ensures forall i :: 0 <= i < |r| ==> c !in r[i]
    ensures Join([c], r) == s
    decreases |s|
  {
    var i := IndexOf(s, c);
    if i == |s| then
      assert s[..i] == s;
      [s]
    else
      var rest := SplitOn(s[i + 1..], c);
      assert c !in s[..i] by {
        forall k | 0 <= k < i ensures s[..i][k] != c { }
      }
      assert ([s[..i]] + rest)[1..] == rest;
      assert s == s[..i] + [c] + s[i + 1..];
      [s[..i]] + rest
  }

  /** Number of occurrences of `c` in `s`. */
  function Occurrences(s: string, c: char): nat
  {
    if s == [] then 0 else (if s[0] == c then 1 else 0) + Occurrences(s[1..], c)
  }

  lemma {:induction false} OccurrencesSplit(s: string, i: nat, c: char)
    requires i <= |s|
    ensures Occurrences(s, c) == Occurrences(s[..i], c) + Occurrences(s[i..], c)
  {
    if i > 0 {
      OccurrencesSplit(s[1..], i - 1, c);
      assert s[1..][..i - 1] == s[..i][1..];
      assert s[1..][i - 1..] == s[i..];
    } else {
      assert s[i..] == s;
    }
  }

  lemma {:induction false} OccurrencesNone(s: string, c: char)
    requires c !in s
    ensures Occurrences(s, c) == 0
  {
    if s != [] {
      assert s[0] in s;
      assert forall k :: 0 <= k < |s[1..]| ==> s[1..][k] == s[k + 1];
      OccurrencesNone(s[1..], c);
    }
  }

  /** `s.split(c)` has one more piece than `s` has occurrences of `c`. */
  lemma {:induction false} SplitOnCount(s: string, c: char)
    ensures |SplitOn(s, c)| == Occurrences(s, c) + 1
    decreases |s|
  {
    var i := IndexOf(s, c);
    if i == |s| {
      OccurrencesNone(s, c);
    } else {
      SplitOnCount(s[i + 1..], c);
      OccurrencesSplit(s, i, c);
      OccurrencesNone(s[..i], c);
      assert s[i..][1..] == s[i + 1..];
    }
  }

  /** `s.split(c)` has a single piece exactly when `c` does not occur. */
  lemma SplitOnSingle(s: string, c: char)
    ensures |SplitOn(s, c)| == 1 <==> c !in s
  {
    var i := IndexOf(s, c);
    if i < |s| {
      assert s[i] in s;
    } else {
      assert forall k :: 0 <= k < |s| ==> s[k] != c;
    }
  }

  /** The first piece of `s.split(c)` is everything before the first `c`. */
  lemma SplitOnFirst(s: string, c: char)
    ensures SplitOn(s, c)[0] == s[..IndexOf(s, c)]
  {
  }

  /** When `c` occurs, the second piece of `s.split(c)` is what lies between
      the first `c` and the next one, or the end. */
  lemma SplitOnSecond(s: string, c: char)
    requires c in s
    ensures |SplitOn(s, c)| >= 2
    ensures var rest := s[IndexOf(s, c) + 1..]; SplitOn(s, c)[1] == rest[..IndexOf(rest, c)]
  {
    SplitOnSingle(s, c);
    SplitOnFirst(s[IndexOf(s, c) + 1..], c);
  }

  lemma {:induction false} IndexOfPiece(p: string, c: char, rest: string)
    requires c !in p
    ensures IndexOf(p + [c] + rest, c) == |p|
  {
    var s := p + [c] + rest;
    assert forall k :: 0 <= k < |p| ==> s[k] == p[k] && p[k] in p;
    assert s[|p|] == c;
  }

  /** One step of `SplitOn`: the piece before the first `c`, then the
      split of what follows it. */
  lemma SplitOnStep(s: string, c: char)
    requires IndexOf(s, c) < |s|
    ensures SplitOn(s, c) == [s[..IndexOf(s, c)]] + SplitOn(s[IndexOf(s, c) + 1..], c)
  {
  }

  /** Splitting on `c` undoes joining with `c` when no piece contains `c`. */
  lemma {:induction false} SplitOnJoin(parts: seq<string>, c: char)
    requires |parts| >= 1
    requires forall i :: 0 <= i < |parts| ==> c !in parts[i]
    ensures SplitOn(Join([c], parts), c) == parts
  {
    if |parts| == 1 {
      var s := parts[0];
      assert forall k :: 0 <= k < |s| ==> s[k] in s;
    } else {
      var p := parts[0];
      var rest := Join([c], parts[1..]);
      var s := p + [c] + rest;
      assert Join([c], parts) == s;
      IndexOfPiece(p, c, rest);
      SplitOnStep(s, c);
      assert s[..|p|] == p;
      assert s[|p| + 1..] == rest;
      SplitOnJoin(parts[1..], c);
      assert parts == [p] + parts[1..];
    }
  }

  /** `s.lstrip()`. */
  function TrimStart(s: string): (r: string)
    ensures |r| <= |s| && r == s[|s| - |r|..]
    ensures forall i :: 0 <= i < |s| - |r| ==> IsSpace(s[i])
    ensures r != [] ==> !IsSpace(r[0])
  {
    if s != [] && IsSpace(s[0]) then TrimStart(s[1..]) else s
  }

  /** `s.rstrip()`. */
  function TrimEnd(s: string): (r: string)
    ensures |r| <= |s| && r == s[..|r|]
    ensures forall i :: |r| <= i < |s| ==> IsSpace(s[i])
    ensures r != [] ==> !IsSpace(r[|r| - 1])
  {
    if s != [] && IsSpace(s[|s| - 1]) then TrimEnd(s[..|s| - 1]) else s
  }

  /** `s.strip()`. */
  function Strip(s: string): (r: string)
    ensures r != [] ==> !IsSpace(r[0]) && !IsSpace(r[|r| - 1])
    ensures |r| <= |s|
  {
    TrimEnd(TrimStart(s))
  }

  /** `s.strip()` is the piece of `s` left once whitespace is removed from
      both ends. */
  lemma StripMeaning(s: string)
    ensures exists lo :: StrippedAt(s, Strip(s), lo)
  {
    var a := TrimStart(s);
    TrimBoth(s, a, TrimEnd(a));
    assert StrippedAt(s, Strip(s), |s| - |a|);
  }

  /** Whitespace removed from the front of `s` (leaving the suffix `a`)
      and then from the back of `a` (leaving the prefix `r`) leaves `r`
      at the offset where `a` starts, surrounded by whitespace only. */
  lemma TrimBoth(s: string, a: string, r: string)
    requires |a| <= |s| && a == s[|s| - |a|..]
    requires forall i :: 0 <= i < |s| - |a| ==> IsSpace(s[i])
    requires |r| <= |a| && r == a[..|r|]
    requires forall i :: |r| <= i < |a| ==> IsSpace(a[i])
    ensures StrippedAt(s, r, |s| - |a|)
  {
    var lo := |s| - |a|;
    assert s[lo..lo + |r|] == r;
    forall i | lo + |r| <= i < |s|
      ensures IsSpace(s[i])
    {
      assert s[i] == a[i - lo];
    }
  }

  /** `r` sits at offset `lo` of `s` and only whitespace surrounds it. */
  predicate StrippedAt(s: string, r: string, lo: int)
  {
    && 0 <= lo <= |s| - |r| && s[lo..lo + |r|] == r
    && (forall i :: 0 <= i < lo ==> IsSpace(s[i]))
    && (forall i :: lo + |r| <= i < |s| ==> IsSpace(s[i]))
  }

  function DigitChar(d: nat): (c: char)
    requires d < 10
    ensures '0' <= c <= '9'
  {
    ('0' as int + d) as char
  }

  function DigitValue(c: char): nat
    requires '0' <= c <= '9'
  {
    c as int - '0' as int
  }

  /** One or more ASCII decimal digits. */
  predicate IsDigits(s: string)
  {
    |s| > 0 && forall i :: 0 <= i < |s| ==> '0' <= s[i] <= '9'
  }

  /** The number a run of decimal digits stands for. */
  function DigitsValue(s: string): nat
    requires forall i :: 0 <= i < |s| ==> '0' <= s[i] <= '9'
  {
    if s == [] then 0 else 10 * DigitsValue(s[..|s| - 1]) + DigitValue(s[|s| - 1])
  }

  /** `str(n)` for a non-negative integer. */
  function NatToString(n: nat): (r: string)
    ensures IsDigits(r)
  {
    if n < 10 then [DigitChar(n)] else NatToString(n / 10) + [DigitChar(n % 10)]
  }

  /** `str(i)` for any integer. */
  function IntToString(i: int): string
  {
    if i < 0 then "-" + NatToString(-i) else NatToString(i)
  }

  /** `int(t)` for a whitespace-free token: an optional sign, then decimal
      digits; anything else is the ValueError case, `None`. */
  function ParseInt(t: string): Option<int>
  {
    if |t| > 0 && (t[0] == '+' || t[0] == '-') then
      if IsDigits(t[1..]) then
        var v: int := DigitsValue(t[1..]);
        Some(if t[0] == '-' then -v else v)
      else None
    else if IsDigits(t) then Some(DigitsValue(t))
    else None
  }

  lemma {:induction false} DigitsValueOfNat(n: nat)
    ensures DigitsValue(NatToString(n)) == n
  {
    if n >= 10 {
      var p := NatToString(n / 10);
      var s := p + [DigitChar(n % 10)];
      assert s[..|s| - 1] == p;
      DigitsValueOfNat(n / 10);
    }
  }

  /** Reading back what `str` wrote gives the number again. */
  lemma ParseIntToString(i: int)
    ensures ParseInt(IntToString(i)) == Some(i)
  {
    if i < 0 {
      var s := "-" + NatToString(-i);
      assert s[1..] == NatToString(-i);
      DigitsValueOfNat(-i);
    } else {
      DigitsValueOfNat(i);
    }
  }

  /** What `str` writes is one whitespace-free token. */
  lemma IntToStringIsToken(i: int)
    ensures IsToken(IntToString(i))
  {
    var d := NatToString(if i < 0 then -i else i);
    assert forall k :: 0 <= k < |d| ==> !IsSpace(d[k]);
  }
}
