/** String helpers with Python's meaning: str.strip(), ASCII str.lower(),
    str.startswith(), str.split(c), sep.join(parts), int(s) and str(n). */
module Text {
  import opened Wrappers

  /** str.isspace() for one character: the ASCII whitespace and separator
      controls plus the Unicode space separators. */
  predicate IsSpace(c: char)
  {
    c == ' ' || c == '\t' || c == '\n' || c == '\r' || c == '\U{000B}' || c == '\U{000C}'
    || ('\U{001C}' <= c <= '\U{001F}') || c == '\U{0085}' || c == '\U{00A0}' || c == '\U{1680}'
    || ('\U{2000}' <= c <= '\U{200A}') || c == '\U{2028}' || c == '\U{2029}' || c == '\U{202F}'
    || c == '\U{205F}' || c == '\U{3000}'
  }

  function TrimLeft(s: string): (r: string)
    ensures |r| <= |s|
    ensures r == [] || !IsSpace(r[0])
  {
    if |s| > 0 && IsSpace(s[0]) then TrimLeft(s[1..]) else s
  }

  function TrimRight(s: string): (r: string)
    ensures |r| <= |s| && r == s[..|r|]
    ensures r == [] || !IsSpace(r[|r| - 1])
  {
    if |s| > 0 && IsSpace(s[|s| - 1]) then TrimRight(s[..|s| - 1]) else s
  }

  /** str.strip() with no argument. */
  function Strip(s: string): string
  {
    TrimRight(TrimLeft(s))
  }

  lemma TrimRightKeepsPrefix(s: string, k: nat)
    requires k < |s| && !IsSpace(s[k])
    ensures k < |TrimRight(s)| && TrimRight(s)[..k + 1] == s[..k + 1]
    decreases |s|
  {
    if |s| > 0 && IsSpace(s[|s| - 1]) {
      TrimRightKeepsPrefix(s[..|s| - 1], k);
    }
  }

  lemma TrimLeftNoSpace(s: string)
    requires s == [] || !IsSpace(s[0])
    ensures TrimLeft(s) == s
  {
  }

  /** A stripped string has no whitespace at either end, and stripping it again changes nothing. */
  lemma {:induction false} StripIsClean(s: string)
    ensures Strip(s) == [] || (!IsSpace(Strip(s)[0]) && !IsSpace(Strip(s)[|Strip(s)| - 1]))
    ensures Strip(Strip(s)) == Strip(s)
  {
    var l := TrimLeft(s);
    var r := TrimRight(l);
    if r != [] {
      assert r[0] == l[0];
    }
    TrimLeftNoSpace(r);
  }

  lemma {:induction false} TrimRightSpace(x: string, c: char)
    requires IsSpace(c)
    ensures TrimRight(x + [c]) == TrimRight(x)
  {
    assert (x + [c])[..|x + [c]| - 1] == x;
  }

  lemma {:induction false} TrimLeftAppend(x: string, y: string, k: nat)
    requires k < |x| && !IsSpace(x[k])
    ensures TrimLeft(x + y) == TrimLeft(x) + y
    decreases |x|
  {
    assert (x + y)[0] == x[0];
    if IsSpace(x[0]) {
      assert x[1..][k - 1] == x[k];
      TrimLeftAppend(x[1..], y, k - 1);
      calc {
        TrimLeft(x + y);
        TrimLeft((x + y)[1..]);
        { assert (x + y)[1..] == x[1..] + y; }
        TrimLeft(x[1..] + y);
      }
    }
  }

  lemma {:induction false} TrimLeftAllSpace(x: string)
    requires forall k :: 0 <= k < |x| ==> IsSpace(x[k])
    ensures TrimLeft(x) == []
    decreases |x|
  {
    if |x| > 0 {
      TrimLeftAllSpace(x[1..]);
    }
  }

  /** Stripping text wrapped in a leading newline and a trailing blank keeps
      everything up to its last non-blank character. */
  lemma {:induction false} StripWrapped(j: string)
    requires |j| > 0 && !IsSpace(j[0])
    ensures Strip("\n" + j + " ") == TrimRight(j)
  {
    var t := "\n" + j + " ";
    assert t[1..] == j + " ";
    assert TrimLeft(t) == TrimLeft(j + " ");
    assert (j + " ")[0] == j[0];
    TrimLeftNoSpace(j + " ");
    TrimRightSpace(j, ' ');
  }

  /** Appending whitespace does not change the stripped text. */
  lemma {:induction false} StripDropsTrailingSpace(x: string, c: char)
    requires IsSpace(c)
    ensures Strip(x + [c]) == Strip(x)
  {
    if exists k :: 0 <= k < |x| && !IsSpace(x[k]) {
      var k :| 0 <= k < |x| && !IsSpace(x[k]);
      TrimLeftAppend(x, [c], k);
      TrimRightSpace(TrimLeft(x), c);
    } else {
      TrimLeftAllSpace(x);
      TrimLeftAllSpace(x + [c]);
    }
  }

  function LowerChar(c: char): char
  {
    if 'A' <= c <= 'Z' then (c as int + 32) as char else c
  }

  /** str.lower() on the ASCII letters. */
  function Lower(s: string): (r: string)
    ensures |r| == |s|
    ensures forall i :: 0 <= i < |s| ==> r[i] == LowerChar(s[i])
  {
    if |s| == 0 then [] else [LowerChar(s[0])] + Lower(s[1..])
  }

  lemma LowerIdempotent(s: string)
    ensures Lower(Lower(s)) == Lower(s)
  {
    assert forall i :: 0 <= i < |s| ==> Lower(Lower(s))[i] == Lower(s)[i];
  }

  /** No ASCII capital letter, so lower() leaves the text as it is. */
  predicate NoUpper(s: string)
  {
    forall i :: 0 <= i < |s| ==> !('A' <= s[i] <= 'Z')
  }

  lemma LowerOfNoUpper(s: string)
    requires NoUpper(s)
    ensures Lower(s) == s
  {
    assert forall i :: 0 <= i < |s| ==> Lower(s)[i] == s[i];
  }

  lemma LowerHasNoUpper(s: string)
    ensures NoUpper(Lower(s))
  {
  }

  predicate StartsWith(s: string, prefix: string)
  {
    |prefix| <= |s| && s[..|prefix|] == prefix
  }

  predicate IsDigit(c: char)
  {
    '0' <= c <= '9'
  }

  predicate AllDigits(s: string)
  {
    forall i :: 0 <= i < |s| ==> IsDigit(s[i])
  }

  function DigitChar(d: nat): char
    requires d < 10
  {
    ('0' as int + d) as char
  }

  /** The value of a string of decimal digits, most significant first. */
  function DigitsValue(s: string): nat
    requires AllDigits(s)
  {
    if |s| == 0 then 0
    else DigitsValue(s[..|s| - 1]) * 10 + (s[|s| - 1] as int - '0' as int)
  }

  /** str(n) for a natural number. */
  function NatToString(n: nat): (r: string)
    ensures |r| > 0 && AllDigits(r)
  {
    if n < 10 then [DigitChar(n)] else NatToString(n / 10) + [DigitChar(n % 10)]
  }

  lemma {:induction false} NatToStringValue(n: nat)
    ensures DigitsValue(NatToString(n)) == n
  {
    if n >= 10 {
      var s := NatToString(n);
      assert s[..|s| - 1] == NatToString(n / 10);
      NatToStringValue(n / 10);
    }
  }

  /** Decimal rendering is injective: distinct numbers never print alike. */
  lemma NatToStringInjective(m: nat, n: nat)
    requires NatToString(m) == NatToString(n)
    ensures m == n
  {
    NatToStringValue(m);
    NatToStringValue(n);
  }

  /** str(i) for any integer. */
  function IntToString(i: int): (r: string)
    ensures |r| > 0
  {
    if i >= 0 then NatToString(i) else "-" + NatToString(-i)
  }

  /** int(s) in base 10: surrounding whitespace, an optional sign, then at least one ASCII digit. */
  function PyInt(s: string): (r: Option<int>)
  {
    var t := Strip(s);
    if |t| > 0 && (t[0] == '-' || t[0] == '+') then
      (if |t| > 1 && AllDigits(t[1..]) then
         Some(if t[0] == '-' then -(DigitsValue(t[1..]) as int) else DigitsValue(t[1..]))
       else None)
    else if |t| > 0 && AllDigits(t) then Some(DigitsValue(t))
    else None
  }

  lemma {:induction false} PyIntOfNatToString(n: nat)
    ensures PyInt(NatToString(n)) == Some(n)
  {
    var s := NatToString(n);
    assert !IsSpace(s[0]) && !IsSpace(s[|s| - 1]);
    TrimLeftNoSpace(s);
    assert TrimRight(s) == s;
    assert Strip(s) == s;
    NatToStringValue(n);
  }

  /** sep.join(parts). */
  function Join(sep: string, parts: seq<string>): string
  {
    if |parts| == 0 then ""
    else if |parts| == 1 then parts[0]
    else parts[0] + sep + Join(sep, parts[1..])
  }

  lemma {:induction false} JoinSnoc(sep: string, parts: seq<string>, p: string)
    requires |parts| > 0
    ensures Join(sep, parts + [p]) == Join(sep, parts) + sep + p
    decreases |parts|
  {
    if |parts| > 1 {
      assert (parts + [p])[1..] == parts[1..] + [p];
      JoinSnoc(sep, parts[1..], p);
    } else {
      assert (parts + [p])[1..] == [p];
    }
  }

  /** s.split(c): the pieces between occurrences of c, always at least one. */
  function SplitOn(s: string, c: char): (r: seq<string>)
    ensures |r| >= 1
  {
    if |s| == 0 then [""]
    else
      var rest := SplitOn(s[1..], c);
      if s[0] == c then [""] + rest else [[s[0]] + rest[0]] + rest[1..]
  }

  lemma {:induction false} SplitOnPrefix(p: string, c: char, x: string)
    requires c !in p
    ensures SplitOn(p + [c] + x, c) == [p] + SplitOn(x, c)
    decreases |p|
  {
    if |p| == 0 {
      assert p + [c] + x == [c] + x;
      assert ([c] + x)[1..] == x;
    } else {
      var s := p + [c] + x;
      assert s[0] == p[0] && s[0] != c;
      assert s[1..] == p[1..] + [c] + x;
      SplitOnPrefix(p[1..], c, x);
      assert [p[0]] + p[1..] == p;
    }
  }

  lemma {:induction false} SplitOnNoSep(s: string, c: char)
    requires c !in s
    ensures SplitOn(s, c) == [s]
    decreases |s|
  {
    if |s| > 0 {
      SplitOnNoSep(s[1..], c);
      assert [s[0]] + s[1..] == s;
    }
  }
}
