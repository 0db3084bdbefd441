/**
  String helpers the request pipeline relies on: JavaScript's String.prototype.trim,
  the decimal text of an integral Number (what a template literal prints) and its
  parse back (parseInt with radix 10), and the concatenation of a template literal's
  pieces together with where each piece lands in the result.
*/
module Strings {

  /** The code points trim removes: ECMAScript WhiteSpace (tab, vertical tab, form feed,
      space, no-break space, byte order mark and every Zs space separator) and
      LineTerminator (line feed, carriage return, line and paragraph separators). */
  predicate IsSpace(c: char) {
    || c == '\t' || c == '\n' || c == '\U{000B}' || c == '\U{000C}' || c == '\r'
    || c == ' ' || c == '\U{00A0}' || c == '\U{1680}'
    || ('\U{2000}' <= c <= '\U{200A}')
    || c == '\U{2028}' || c == '\U{2029}' || c == '\U{202F}' || c == '\U{205F}'
    || c == '\U{3000}' || c == '\U{FEFF}'
  }

  predicate AllSpace(s: string) {
    forall k :: 0 <= k < |s| ==> IsSpace(s[k])
  }

  /** `s` without its leading space characters. */
  function TrimStart(s: string): (r: string)
    ensures |r| <= |s| && r == s[|s| - |r|..]
    ensures AllSpace(s[..|s| - |r|])
    ensures r == [] || !IsSpace(r[0])
  {
    if s != [] && IsSpace(s[0]) then
      var r := TrimStart(s[1..]);
      assert s[1..][|s| - 1 - |r|..] == s[|s| - |r|..];
      assert forall k :: 1 <= k < |s| - |r| ==> s[k] == s[1..][..|s| - 1 - |r|][k - 1];
      r
    else s
  }

  /** `s` without its trailing space characters. */
  function TrimEnd(s: string): (r: string)
    ensures |r| <= |s| && r == s[..|r|]
    ensures AllSpace(s[|r|..])
    ensures r == [] || !IsSpace(r[|r| - 1])
  {
    if s != [] && IsSpace(s[|s| - 1]) then
      var r := TrimEnd(s[..|s| - 1]);
      assert s[..|s| - 1][..|r|] == s[..|r|];
      assert forall k :: |r| <= k < |s| - 1 ==> s[k] == s[..|s| - 1][|r|..][k - |r|];
      r
    else s
  }

  /** String.prototype.trim: `s` without its leading and trailing space characters. */
  function Trim(s: string): (r: string)
    ensures |r| <= |s|
    ensures r == [] || (!IsSpace(r[0]) && !IsSpace(r[|r| - 1]))
    ensures r == [] <==> AllSpace(s)
  {
    var t := TrimStart(s);
    var r := TrimEnd(t);
    assert r != [] ==> r[0] == t[0];
    assert AllSpace(s) ==> t == [] by {
      if t != [] {
        assert t[0] == s[|s| - |t|];
      }
    }
    assert r == [] ==> t == [] by {
      assert t[0..] == t;
    }
    assert r == [] ==> AllSpace(s) by {
      assert s[..|s|] == s;
    }
    r
  }

  /** Trim(s) is `s` with a run of spaces removed from each end. */
  lemma TrimIsSlice(s: string) returns (before: string, after: string)
    ensures AllSpace(before) && AllSpace(after)
    ensures s == before + Trim(s) + after
  {
    var t := TrimStart(s);
    before, after := SpacesAround(s, t, TrimEnd(t));
  }

  /** A suffix `t` of `s` after spaces, and a prefix `r` of `t` before spaces:
      `s` is spaces, then `r`, then spaces. */
  lemma SpacesAround(s: string, t: string, r: string) returns (before: string, after: string)
    requires |t| <= |s| && t == s[|s| - |t|..] && AllSpace(s[..|s| - |t|])
    requires |r| <= |t| && r == t[..|r|] && AllSpace(t[|r|..])
    ensures AllSpace(before) && AllSpace(after)
    ensures s == before + r + after
  {
    before, after := s[..|s| - |t|], t[|r|..];
    assert t == r + after;
    assert s == before + t;
  }

  /** Spaces followed by a text that does not start with a space: TrimStart
      removes exactly the spaces. */
  lemma {:induction false} TrimStartOf(a: string, t: string)
    requires AllSpace(a) && (t == [] || !IsSpace(t[0]))
    ensures TrimStart(a + t) == t
  {
    if a == [] {
      assert a + t == t;
    } else {
      assert (a + t)[0] == a[0];
      assert (a + t)[1..] == a[1..] + t;
      TrimStartOf(a[1..], t);
    }
  }

  /** A text that does not end with a space, followed by spaces: TrimEnd removes
      exactly the spaces. */
  lemma {:induction false} TrimEndOf(t: string, b: string)
    requires AllSpace(b) && (t == [] || !IsSpace(t[|t| - 1]))
    ensures TrimEnd(t + b) == t
  {
    if b == [] {
      assert t + b == t;
    } else {
      assert (t + b)[|t + b| - 1] == b[|b| - 1];
      assert (t + b)[..|t + b| - 1] == t + b[..|b| - 1];
      TrimEndOf(t, b[..|b| - 1]);
    }
  }

  /** Trim is determined by its contract: whenever `s` is spaces, then `r`, then
      spaces, and `r` neither starts nor ends with a space, Trim(s) is `r`. */
  lemma TrimUnique(a: string, r: string, b: string)
    requires AllSpace(a) && AllSpace(b)
    requires r == [] || (!IsSpace(r[0]) && !IsSpace(r[|r| - 1]))
    ensures Trim(a + r + b) == r
  {
    var s := a + r + b;
    if r == [] {
      assert AllSpace(s) by {
        forall k | 0 <= k < |s| ensures IsSpace(s[k]) {
          if k < |a| { assert s[k] == a[k]; } else { assert s[k] == b[k - |a|]; }
        }
      }
    } else {
      assert s == a + (r + b);
      TrimStartOf(a, r + b);
      TrimEndOf(r, b);
    }
  }

  /** Trimming twice changes nothing more. */
  lemma TrimIdempotent(s: string)
    ensures Trim(Trim(s)) == Trim(s)
  {
    TrimOfTrimmed(Trim(s));
  }

  /** A text with no space at either end is its own trim. */
  lemma TrimOfTrimmed(r: string)
    requires r == [] || (!IsSpace(r[0]) && !IsSpace(r[|r| - 1]))
    ensures Trim(r) == r
  {
    assert [] + r == r && r + [] == r;
    TrimStartOf([], r);
    TrimEndOf(r, []);
  }



  /** The decimal digit for 0 <= d < 10. */
  function DigitChar(d: nat): (c: char)
    requires d < 10
    ensures '0' <= c <= '9' && c as int - '0' as int == d
  {
    (48 + d) as char
  }

  predicate IsDigits(s: string) {
    forall k :: 0 <= k < |s| ==> '0' <= s[k] <= '9'
  }

  /** The decimal text of a natural number, as JavaScript prints an integral Number. */
  function NatToDecimal(n: nat): (s: string)
    ensures s != [] && IsDigits(s)
    ensures |s| > 1 ==> s[0] != '0'
  {
    if n < 10 then [DigitChar(n)] else NatToDecimal(n / 10) + [DigitChar(n % 10)]
  }

  /** The decimal text of an integer, with a leading '-' when it is negative. */
  function IntToDecimal(i: int): (s: string)
    ensures s != []
    ensures i < 0 <==> s[0] == '-'
  {
    if i < 0 then "-" + NatToDecimal(-i) else NatToDecimal(i)
  }

  /** The value of a string of decimal digits (parseInt with radix 10 on such a string). */
  function DecimalValue(s: string): nat
    requires IsDigits(s)
  {
    if s == [] then 0 else 10 * DecimalValue(s[..|s| - 1]) + (s[|s| - 1] as int - '0' as int)
  }

  /** parseInt(s, 10) on the text of an integral Number: an optional '-' then digits. */
  function ParseDecimal(s: string): (v: int)
    requires s != []
    requires if s[0] == '-' then IsDigits(s[1..]) else IsDigits(s)
  {
    if s[0] == '-' then -(DecimalValue(s[1..]) as int) else DecimalValue(s)
  }

  /** Reading back a printed natural number gives the number. */
  lemma {:induction false} NatDecimalRoundTrip(n: nat)
    ensures DecimalValue(NatToDecimal(n)) == n
  {
    if n >= 10 {
      NatDecimalRoundTrip(n / 10);
      var s := NatToDecimal(n);
      assert s[..|s| - 1] == NatToDecimal(n / 10);
    }
  }

  /** parseInt(String(i), 10) == i for every integer i: so converting an integral
      duration to text and parsing it back loses nothing. */
  lemma IntDecimalRoundTrip(i: int)
    ensures var s := IntToDecimal(i);
      (if s[0] == '-' then IsDigits(s[1..]) else IsDigits(s)) && ParseDecimal(s) == i
  {
    var s := IntToDecimal(i);
    if i < 0 {
      assert s[1..] == NatToDecimal(-i);
      NatDecimalRoundTrip(-i);
    } else {
      NatDecimalRoundTrip(i);
    }
  }

  /** The concatenation of `parts`, in order. */
  function Concat(parts: seq<string>): string {
    if parts == [] then [] else Concat(parts[..|parts| - 1]) + parts[|parts| - 1]
  }

  /** `sub` occurs in `s` starting at index `i`. */
  predicate OccursAt(s: string, sub: string, i: nat) {
    i + |sub| <= |s| && s[i..i + |sub|] == sub
  }

  ghost predicate Contains(s: string, sub: string) {
    exists i: nat :: OccursAt(s, sub, i)
  }

  /** `sub` occurs in `s` at two places that do not overlap. */
  ghost predicate OccursTwice(s: string, sub: string) {
    exists i: nat, j: nat :: i + |sub| <= j && OccursAt(s, sub, i) && OccursAt(s, sub, j)
  }

  /** One more part appends exactly that part. */
  lemma ConcatSnoc(parts: seq<string>, x: string)
    ensures Concat(parts + [x]) == Concat(parts) + x
  {
    assert (parts + [x])[..|parts|] == parts;
  }

  lemma {:induction false} ConcatAppend(a: seq<string>, b: seq<string>)
    ensures Concat(a + b) == Concat(a) + Concat(b)
    decreases |b|
  {
    if b == [] {
      assert a + b == a;
    } else {
      var b', last := b[..|b| - 1], b[|b| - 1];
      ConcatAppend(a, b');
      assert b == b' + [last];
      assert a + b == (a + b') + [last];
      ConcatSnoc(a + b', last);
      ConcatSnoc(b', last);
    }
  }

  /** Each part lands in the concatenation right after the parts before it. */
  lemma ConcatAt(parts: seq<string>, k: nat)
    requires k < |parts|
    ensures OccursAt(Concat(parts), parts[k], |Concat(parts[..k])|)
  {
    var pre := parts[..k + 1];
    assert pre[..k] == parts[..k];
    assert Concat(pre) == Concat(parts[..k]) + parts[k];
    assert parts == pre + parts[k + 1..];
    ConcatAppend(pre, parts[k + 1..]);
  }

  /** A later part starts no earlier than the end of an earlier one. */
  lemma {:induction false} ConcatOffsetsGrow(parts: seq<string>, j: nat, k: nat)
    requires j < k <= |parts|
    ensures |Concat(parts[..j])| + |parts[j]| <= |Concat(parts[..k])|
    decreases k
  {
    if k == j + 1 {
      assert parts[..k][..j] == parts[..j];
    } else {
      ConcatOffsetsGrow(parts, j, k - 1);
      assert parts[..k][..k - 1] == parts[..k - 1];
    }
  }

  /** A concatenation is empty exactly when every part is. */
  lemma {:induction false} ConcatEmpty(parts: seq<string>)
    ensures Concat(parts) == [] <==> forall k :: 0 <= k < |parts| ==> parts[k] == []
  {
    if parts != [] {
      var init := parts[..|parts| - 1];
      ConcatEmpty(init);
      assert forall k :: 0 <= k < |init| ==> init[k] == parts[k];
    }
  }

  /** When every non-empty part ends with `c`, so does a non-empty concatenation. */
  lemma {:induction false} ConcatEndsWith(parts: seq<string>, c: char)
    requires forall k :: 0 <= k < |parts| ==> parts[k] == [] || parts[k][|parts[k]| - 1] == c
    ensures Concat(parts) == [] || Concat(parts)[|Concat(parts)| - 1] == c
  {
    if parts != [] {
      ConcatEndsWith(parts[..|parts| - 1], c);
    }
  }

  /** An occurrence inside `x` is still one, at the same place, once `y` follows. */
  lemma OccursBefore(x: string, y: string, sub: string, i: nat)
    requires OccursAt(x, sub, i)
    ensures OccursAt(x + y, sub, i)
  {
    assert (x + y)[i..i + |sub|] == x[i..i + |sub|];
  }

  /** An occurrence inside `y` is one in `x + y`, shifted by `|x|`. */
  lemma OccursAfter(x: string, y: string, sub: string, i: nat)
    requires OccursAt(y, sub, i)
    ensures OccursAt(x + y, sub, |x| + i)
  {
    assert (x + y)[|x| + i..|x| + i + |sub|] == y[i..i + |sub|];
  }
}
