/**
 * The string primitives the lead forms and the handlers rely on: JavaScript's
 * whitespace class, `String.prototype.trim`, the `replace(/\D/g, '')` digit
 * strip and `String.prototype.includes`.
 */
module Text {

  /** JavaScript's `\s`: WhiteSpace plus LineTerminator. `trim()` strips exactly this set. */
  predicate IsSpace(c: char) {
    var n := c as int;
    n == 0x20 || 0x09 <= n <= 0x0D || n == 0xA0 || n == 0x1680 || 0x2000 <= n <= 0x200A
    || n == 0x2028 || n == 0x2029 || n == 0x202F || n == 0x205F || n == 0x3000 || n == 0xFEFF
  }

  predicate AllSpace(s: string) {
    forall k :: 0 <= k < |s| ==> IsSpace(s[k])
  }

  /** Drops the leading whitespace: the result is a suffix of `s` that starts with a non-space. */
  function TrimStart(s: string): (r: string)
    ensures |r| <= |s| && r == s[|s| - |r|..]
    ensures r == [] || !IsSpace(r[0])
    ensures forall k :: 0 <= k < |s| - |r| ==> IsSpace(s[k])
  {
    if s != [] && IsSpace(s[0]) then TrimStart(s[1..]) else s
  }

  /** Drops the trailing whitespace: the result is a prefix of `s` that ends with a non-space. */
  function TrimEnd(s: string): (r: string)
    ensures |r| <= |s| && r == s[..|r|]
    ensures r == [] || !IsSpace(r[|r| - 1])
    ensures forall k :: |r| <= k < |s| ==> IsSpace(s[k])
  {
    if s != [] && IsSpace(s[|s| - 1]) then TrimEnd(s[..|s| - 1]) else s
  }

  /** `r` is the slice of `s` at offset `i`, and only whitespace lies outside it. */
  ghost predicate TrimmedSlice(s: string, r: string, i: nat) {
    i + |r| <= |s| && r == s[i..i + |r|] && AllSpace(s[..i]) && AllSpace(s[i + |r|..])
  }

  /**
   * `s.trim()`: the slice of `s` left once whitespace is removed from both ends;
   * the slice neither starts nor ends with whitespace.
   */
  function Trim(s: string): (r: string)
    ensures |r| <= |s|
    ensures exists i :: TrimmedSlice(s, r, i)
    ensures r != [] ==> !IsSpace(r[0]) && !IsSpace(r[|r| - 1])
  {
    var t := TrimStart(s);
    var r := TrimEnd(t);
    var i := |s| - |t|;
    assert r == s[i..i + |r|];
    forall k | i + |r| <= k < |s| ensures IsSpace(s[k]) {
      assert s[k] == t[k - i];
    }
    assert TrimmedSlice(s, r, i);
    r
  }

  /** Leading whitespace before a non-space start is exactly what `TrimStart` drops. */
  lemma {:induction false} TrimStartPadded(pre: string, rest: string)
    requires AllSpace(pre) && (rest == [] || !IsSpace(rest[0]))
    ensures TrimStart(pre + rest) == rest
  {
    if pre == [] {
      assert pre + rest == rest;
    } else {
      assert (pre + rest)[1..] == pre[1..] + rest;
      TrimStartPadded(pre[1..], rest);
    }
  }

  /** Trailing whitespace after a non-space end is exactly what `TrimEnd` drops. */
  lemma {:induction false} TrimEndPadded(rest: string, post: string)
    requires AllSpace(post) && (rest == [] || !IsSpace(rest[|rest| - 1]))
    ensures TrimEnd(rest + post) == rest
  {
    if post == [] {
      assert rest + post == rest;
    } else {
      assert (rest + post)[..|rest + post| - 1] == rest + post[..|post| - 1];
      TrimEndPadded(rest, post[..|post| - 1]);
    }
  }

  /** Padding a string that neither starts nor ends with whitespace is undone by `trim()`. */
  lemma TrimPadded(pre: string, core: string, post: string)
    requires AllSpace(pre) && AllSpace(post)
    requires core != [] && !IsSpace(core[0]) && !IsSpace(core[|core| - 1])
    ensures Trim(pre + core + post) == core
  {
    assert pre + core + post == pre + (core + post);
    TrimStartPadded(pre, core + post);
    TrimEndPadded(core, post);
  }

  /** A string trims to nothing exactly when every character of it is whitespace. */
  lemma TrimEmptyIff(s: string)
    ensures Trim(s) == [] <==> AllSpace(s)
  {
    var r := Trim(s);
    var i: nat :| TrimmedSlice(s, r, i);
    if r == [] {
      forall k | 0 <= k < |s| ensures IsSpace(s[k]) {
        if k < i { assert s[..i][k] == s[k]; } else { assert s[i..][k - i] == s[k]; }
      }
    } else {
      assert s[i] == r[0];
    }
  }

  predicate IsDigit(c: char) {
    '0' <= c <= '9'
  }

  predicate AllDigits(s: string) {
    forall k :: 0 <= k < |s| ==> IsDigit(s[k])
  }

  /** `s.replace(/\D/g, '')`: keeps the characters 0-9 and drops every other one. */
  function DigitsOnly(s: string): (r: string)
    ensures |r| <= |s|
    ensures AllDigits(r)
  {
    if s == [] then [] else (if IsDigit(s[0]) then [s[0]] else []) + DigitsOnly(s[1..])
  }

  /** Each digit occurs in the stripped string as often as in `s`; nothing else occurs. */
  lemma {:induction false} DigitsOnlyCounts(s: string)
    ensures forall c :: IsDigit(c) ==> multiset(DigitsOnly(s))[c] == multiset(s)[c]
  {
    if s != [] {
      assert s == [s[0]] + s[1..];
      DigitsOnlyCounts(s[1..]);
    }
  }

  /** The strip works character by character, left to right, so it keeps the order of the digits. */
  lemma {:induction false} DigitsOnlyAppend(a: string, b: string)
    ensures DigitsOnly(a + b) == DigitsOnly(a) + DigitsOnly(b)
  {
    if a == [] {
      assert a + b == b;
    } else {
      assert (a + b)[1..] == a[1..] + b;
      DigitsOnlyAppend(a[1..], b);
    }
  }

  /** The strip leaves a string unchanged exactly when it has nothing but digits. */
  lemma {:induction false} DigitsOnlyFixedIff(s: string)
    ensures DigitsOnly(s) == s <==> AllDigits(s)
  {
    if s != [] && AllDigits(s) {
      DigitsOnlyFixedIff(s[1..]);
    }
  }

  /** Stripping twice is stripping once. */
  lemma DigitsOnlyIdempotent(s: string)
    ensures DigitsOnly(DigitsOnly(s)) == DigitsOnly(s)
  {
    DigitsOnlyFixedIff(DigitsOnly(s));
  }

  /** A separator followed by a group of digits strips to the group. */
  lemma StripGroup(sep: char, group: string)
    requires !IsDigit(sep) && AllDigits(group)
    ensures DigitsOnly([sep] + group) == group
  {
    assert ([sep] + group)[1..] == group;
    DigitsOnlyFixedIff(group);
  }

  /** A number written `+a-b-c-d` strips to its four digit groups run together. */
  lemma StripDashedNumber(a: string, b: string, c: string, d: string)
    requires AllDigits(a) && AllDigits(b) && AllDigits(c) && AllDigits(d)
    ensures DigitsOnly((['+'] + a) + (['-'] + b) + (['-'] + c) + (['-'] + d)) == a + b + c + d
  {
    StripGroup('+', a);
    StripGroup('-', b);
    StripGroup('-', c);
    StripGroup('-', d);
    DigitsOnlyAppend(['+'] + a, ['-'] + b);
    DigitsOnlyAppend((['+'] + a) + (['-'] + b), ['-'] + c);
    DigitsOnlyAppend((['+'] + a) + (['-'] + b) + (['-'] + c), ['-'] + d);
  }

  /** The repository's own test case: a number written with a `+` and dashes. */
  lemma SeparatedNumberDigits(p: string)
    requires p == "+234-801-234-5678"
    ensures DigitsOnly(p) == "2348012345678"
  {
    assert p == (['+'] + "234") + (['-'] + "801") + (['-'] + "234") + (['-'] + "5678");
    StripDashedNumber("234", "801", "234", "5678");
  }

  /** `s.includes(sub)`: `sub` occurs in `s` at some position. */
  predicate Contains(s: string, sub: string) {
    exists i :: 0 <= i <= |s| - |sub| && OccursAt(s, sub, i)
  }

  predicate OccursAt(s: string, sub: string, i: nat) {
    i + |sub| <= |s| && s[i..i + |sub|] == sub
  }

  /** A string contains each of its prefixes, and so every string that starts with them. */
  lemma ContainsPrefix(sub: string, rest: string)
    ensures Contains(sub + rest, sub)
  {
    assert (sub + rest)[0..|sub|] == sub;
    assert OccursAt(sub + rest, sub, 0);
  }
}
