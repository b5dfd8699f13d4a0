/**
 * The JavaScript string operations the storefront relies on, restricted to
 * ASCII: `trim`, `toLowerCase`, `includes`, `startsWith`, `replace` of the
 * first occurrence of a character, decimal `String(n)` and `parseInt(s, 10)`.
 */
module Ascii {
  import opened Types

  /** ASCII white space as `String.prototype.trim` sees it: space, and tab through carriage return. */
  predicate IsSpace(c: char) {
    c == ' ' || ('\t' <= c <= '\r')
  }

  predicate IsDigit(c: char) {
    '0' <= c <= '9'
  }

  /** The string holds white space only (possibly nothing at all). */
  predicate IsBlank(s: string) {
    forall i :: 0 <= i < |s| ==> IsSpace(s[i])
  }

  /** Drops leading white space. */
  function TrimStart(s: string): (r: string)
    ensures |r| <= |s| && r == s[|s| - |r|..]
    ensures IsBlank(s[..|s| - |r|])
    ensures r == [] || !IsSpace(r[0])
  {
    if s != [] && IsSpace(s[0]) then
      var r := TrimStart(s[1..]);
      assert s[..|s| - |r|] == [s[0]] + s[1..][..|s| - 1 - |r|];
      r
    else s
  }

  /** Drops trailing white space. */
  function TrimEnd(s: string): (r: string)
    ensures |r| <= |s| && r == s[..|r|]
    ensures IsBlank(s[|r|..])
    ensures r == [] || !IsSpace(r[|r| - 1])
  {
    if s != [] && IsSpace(s[|s| - 1]) then
      var r := TrimEnd(s[..|s| - 1]);
      assert s[|r|..] == s[..|s| - 1][|r|..] + [s[|s| - 1]];
      r
    else s
  }

  /** `s.trim()`. */
  function Trim(s: string): string {
    TrimEnd(TrimStart(s))
  }

  /** `!s.trim()`: trimming leaves nothing exactly when the string is blank. */
  lemma TrimEmptyIffBlank(s: string)
    ensures Trim(s) == [] <==> IsBlank(s)
  {
    var t := TrimStart(s);
    var u := TrimEnd(t);
    assert s == s[..|s| - |t|] + t;
    assert IsBlank(s) ==> IsBlank(t);
    assert u == [] ==> t[|u|..] == t;
  }

  /** Trimming an already trimmed string changes nothing. */
  lemma TrimIdempotent(s: string)
    ensures Trim(Trim(s)) == Trim(s)
  {
    var t := TrimStart(s);
    var u := TrimEnd(t);
    if u != [] {
      assert u[0] == t[0];
    }
    assert TrimStart(u) == u;
  }

  /** A non-empty string is blank exactly when its first character is white space and the rest is blank. */
  lemma BlankCons(s: string)
    requires s != []
    ensures IsBlank(s) <==> IsSpace(s[0]) && IsBlank(s[1..])
  {
    assert forall i :: 0 < i < |s| ==> s[i] == s[1..][i - 1];
  }

  /** Leading white space is dropped entirely, whatever follows it. */
  lemma {:induction false} TrimStartPadded(pre: string, s: string)
    requires IsBlank(pre)
    ensures TrimStart(pre + s) == TrimStart(s)
  {
    if pre != [] {
      assert (pre + s)[0] == pre[0];
      assert (pre + s)[1..] == pre[1..] + s;
      BlankCons(pre);
      TrimStartPadded(pre[1..], s);
    } else {
      assert pre + s == s;
    }
  }

  /** Trailing white space is dropped entirely, whatever precedes it. */
  lemma {:induction false} TrimEndPadded(s: string, post: string)
    requires IsBlank(post)
    ensures TrimEnd(s + post) == TrimEnd(s)
  {
    if post != [] {
      var p := post[..|post| - 1];
      assert IsSpace(post[|post| - 1]) && (s + post)[|s + post| - 1] == post[|post| - 1];
      assert (s + post)[..|s + post| - 1] == s + p;
      assert IsBlank(p) by {
        forall i | 0 <= i < |p| ensures IsSpace(p[i]) { assert p[i] == post[i]; }
      }
      TrimEndPadded(s, p);
    } else {
      assert s + post == s;
    }
  }

  /**
   * Leading white space of a text followed by blanks: a blank text vanishes
   * with the blanks, any other keeps the blanks after its own trimmed start.
   */
  lemma {:induction false} TrimStartBeforeBlanks(t: string, post: string)
    requires IsBlank(post)
    ensures TrimStart(t + post) == if IsBlank(t) then [] else TrimStart(t) + post
  {
    if t == [] {
      assert t + post == [] + post;
      TrimStartPadded(post, []);
      assert post + [] == post;
    } else if IsSpace(t[0]) {
      assert (t + post)[0] == t[0];
      assert (t + post)[1..] == t[1..] + post;
      TrimStartBeforeBlanks(t[1..], post);
      BlankCons(t);
    } else {
      assert (t + post)[0] == t[0];
      BlankCons(t);
    }
  }

  /** `(pre + t + post).trim()` equals `t.trim()` whenever both pads are white space. */
  lemma TrimPadded(pre: string, t: string, post: string)
    requires IsBlank(pre) && IsBlank(post)
    ensures Trim(pre + t + post) == Trim(t)
  {
    assert pre + t + post == pre + (t + post);
    TrimStartPadded(pre, t + post);
    TrimStartBeforeBlanks(t, post);
    TrimEmptyIffBlank(t);
    if !IsBlank(t) {
      TrimEndPadded(TrimStart(t), post);
    }
  }

  /** `c.toLowerCase()` for an ASCII letter; other characters are unchanged. */
  function LowerChar(c: char): (r: char)
    ensures 'A' <= c <= 'Z' ==> r as int == c as int + 32
    ensures !('A' <= c <= 'Z') ==> r == c
  {
    if 'A' <= c <= 'Z' then (c as int + 32) as char else c
  }

  /** `s.toLowerCase()` over ASCII. */
  function ToLower(s: string): (r: string)
    ensures |r| == |s|
    ensures forall i :: 0 <= i < |s| ==> r[i] == LowerChar(s[i])
  {
    seq(|s|, i requires 0 <= i < |s| => LowerChar(s[i]))
  }

  /** `s.startsWith(prefix)`. */
  predicate StartsWith(s: string, prefix: string) {
    |prefix| <= |s| && s[..|prefix|] == prefix
  }

  /** A string starts with its first part, and dropping that part leaves the rest. */
  lemma StartsWithConcat(prefix: string, rest: string)
    ensures StartsWith(prefix + rest, prefix)
    ensures (prefix + rest)[|prefix|..] == rest
  {
    assert (prefix + rest)[..|prefix|] == prefix;
  }

  /** `hay.includes(needle)`: needle occurs at some position of hay. */
  predicate Contains(hay: string, needle: string)
    decreases |hay|
  {
    StartsWith(hay, needle) || (hay != [] && Contains(hay[1..], needle))
  }

  /** Every string contains the empty string. */
  lemma ContainsEmpty(hay: string)
    ensures Contains(hay, [])
  {
  }

  /** A string contains each of its own prefixes. */
  lemma {:induction false} ContainsPrefix(hay: string, pre: string, rest: string)
    requires hay == pre + rest
    ensures Contains(hay, pre)
  {
    assert hay[..|pre|] == pre;
  }

  /** A string that contains a longer needle contains each prefix of it. */
  lemma {:induction false} ContainsShorter(hay: string, a: string, b: string)
    requires Contains(hay, a + b)
    ensures Contains(hay, a)
    decreases |hay|
  {
    if StartsWith(hay, a + b) {
      assert hay[..|a|] == (a + b)[..|a|] == a;
    } else {
      ContainsShorter(hay[1..], a, b);
    }
  }

  /** Lower-casing twice is lower-casing once. */
  lemma ToLowerIdempotent(s: string)
    ensures ToLower(ToLower(s)) == ToLower(s)
  {
  }

  /** Lower-casing works character by character, so it distributes over concatenation. */
  lemma ToLowerAppend(a: string, b: string)
    ensures ToLower(a + b) == ToLower(a) + ToLower(b)
  {
  }

  /** Lower-casing neither creates nor removes white space. */
  lemma ToLowerBlank(s: string)
    ensures IsBlank(ToLower(s)) <==> IsBlank(s)
  {
  }

  /** `s.replace(c, '')` with a one-character pattern: removes the first occurrence only. */
  function RemoveFirst(s: string, c: char): (r: string)
    ensures c !in s ==> r == s
    ensures c in s ==> |r| == |s| - 1
  {
    if s == [] then []
    else if s[0] == c then s[1..]
    else [s[0]] + RemoveFirst(s[1..], c)
  }

  // ---------------------------------------------------------------- numbers

  function DigitChar(d: nat): (c: char)
    requires d < 10
    ensures IsDigit(c)
  {
    ('0' as int + d) as char
  }

  function DigitValue(c: char): (d: nat)
    requires IsDigit(c)
    ensures d < 10 && DigitChar(d) == c
  {
    c as int - '0' as int
  }

  /** Decimal spelling of a natural number, most significant digit first. */
  function NatToString(n: nat): (r: string)
    ensures |r| >= 1
    ensures forall i :: 0 <= i < |r| ==> IsDigit(r[i])
  {
    if n < 10 then [DigitChar(n)] else NatToString(n / 10) + [DigitChar(n % 10)]
  }

  /** `String(n)` for an integer. */
  function IntToString(n: int): (r: string)
    ensures |r| >= 1
    ensures n >= 0 <==> IsDigit(r[0])
  {
    if n < 0 then "-" + NatToString(-n) else NatToString(n)
  }

  predicate AllDigits(s: string) {
    forall i :: 0 <= i < |s| ==> IsDigit(s[i])
  }

  /** Value of a string of decimal digits. */
  function DigitsValue(s: string): nat
    requires AllDigits(s)
  {
    if s == [] then 0 else DigitsValue(s[..|s| - 1]) * 10 + DigitValue(s[|s| - 1])
  }

  /** The longest prefix made of decimal digits. */
  function DigitPrefix(s: string): (r: string)
    ensures AllDigits(r) && StartsWith(s, r)
    ensures |r| < |s| ==> !IsDigit(s[|r|])
  {
    if s != [] && IsDigit(s[0]) then [s[0]] + DigitPrefix(s[1..]) else []
  }

  /**
   * `parseInt(s, 10)`: skip leading white space, read an optional sign and the
   * longest run of digits after it; `None` stands for `NaN` (no digit there).
   */
  function ParseInt(s: string): Option<int> {
    var t := TrimStart(s);
    var negative := t != [] && t[0] == '-';
    var body := if t != [] && (t[0] == '-' || t[0] == '+') then t[1..] else t;
    var digits := DigitPrefix(body);
    if digits == [] then None
    else Some(if negative then -(DigitsValue(digits) as int) else DigitsValue(digits))
  }

  lemma {:induction false} DigitsValueOfNatToString(n: nat)
    ensures DigitsValue(NatToString(n)) == n
  {
    var s := NatToString(n);
    if n >= 10 {
      DigitsValueOfNatToString(n / 10);
      assert s[..|s| - 1] == NatToString(n / 10);
    }
  }

  lemma {:induction false} DigitPrefixOfDigits(d: string, rest: string)
    requires AllDigits(d)
    requires rest == [] || !IsDigit(rest[0])
    ensures DigitPrefix(d + rest) == d
  {
    if d != [] {
      assert (d + rest)[1..] == d[1..] + rest;
      DigitPrefixOfDigits(d[1..], rest);
      assert [d[0]] + d[1..] == d;
    } else {
      assert d + rest == rest;
    }
  }

  /** A string starting with a digit is read back as its leading run of digits. */
  lemma {:induction false} ParseIntOfDigits(d: string, rest: string)
    requires d != [] && AllDigits(d)
    requires rest == [] || !IsDigit(rest[0])
    ensures ParseInt(d + rest) == Some(DigitsValue(d) as int)
  {
    DigitPrefixOfDigits(d, rest);
    var pos := d + rest;
    assert pos[0] == d[0];
    assert TrimStart(pos) == pos;
  }

  /** The same behind a minus sign. */
  lemma {:induction false} ParseIntOfNegatedDigits(d: string, rest: string)
    requires d != [] && AllDigits(d)
    requires rest == [] || !IsDigit(rest[0])
    ensures ParseInt("-" + d + rest) == Some(-(DigitsValue(d) as int))
  {
    DigitPrefixOfDigits(d, rest);
    var neg := "-" + d + rest;
    assert neg[0] == '-';
    assert TrimStart(neg) == neg;
    assert neg[1..] == d + rest;
  }

  /**
   * Round trip: `parseInt(String(n) + rest, 10) == n` whenever `rest` does not
   * continue the digits, e.g. the "3" left of a "3s" retry hint.
   */
  lemma {:induction false} ParseIntOfIntToString(n: int, rest: string)
    requires rest == [] || !IsDigit(rest[0])
    ensures ParseInt(IntToString(n) + rest) == Some(n)
  {
    var m: nat := if n < 0 then -n else n;
    DigitsValueOfNatToString(m);
    if n < 0 {
      ParseIntOfNegatedDigits(NatToString(m), rest);
    } else {
      ParseIntOfDigits(NatToString(m), rest);
    }
  }
}
