/**
 * String building blocks shared by the report serializers: JavaScript's
 * `Array.prototype.join('')`, the decimal text of a number in a template
 * literal, and `String.prototype.replace` with a global one-character pattern.
 */
module Strings {

  /** `parts.join('')`: the parts one after the other, with no separator. */
  function Concat(parts: seq<string>): string
  {
    if parts == [] then "" else parts[0] + Concat(parts[1..])
  }

  /** Joining two lists is joining each and gluing the results. */
  lemma {:induction false} ConcatAppend(a: seq<string>, b: seq<string>)
    ensures Concat(a + b) == Concat(a) + Concat(b)
  {
    if a == [] {
      assert a + b == b;
    } else {
      assert (a + b)[1..] == a[1..] + b;
      ConcatAppend(a[1..], b);
    }
  }

  /** Where part `i` begins in `Concat(parts)`. */
  function Offset(parts: seq<string>, i: nat): nat
    requires i <= |parts|
  {
    |Concat(parts[..i])|
  }

  /**
   * Part `i` of a join sits, unchanged, right after the parts before it:
   * nothing is inserted between items.
   */
  lemma ConcatPart(parts: seq<string>, i: nat)
    requires i < |parts|
    ensures Offset(parts, i) + |parts[i]| <= |Concat(parts)|
    ensures Concat(parts)[Offset(parts, i)..Offset(parts, i) + |parts[i]|] == parts[i]
  {
    assert parts == parts[..i] + ([parts[i]] + parts[i + 1..]);
    ConcatAppend(parts[..i], [parts[i]] + parts[i + 1..]);
    ConcatAppend([parts[i]], parts[i + 1..]);
    assert Concat([parts[i]]) == parts[i] by {
      assert [parts[i]][1..] == [];
    }
  }

  predicate IsDigit(c: char)
  {
    '0' <= c <= '9'
  }

  predicate AllDigits(s: string)
  {
    forall i :: 0 <= i < |s| ==> IsDigit(s[i])
  }

  function DigitChar(d: nat): (c: char)
    requires d < 10
    ensures IsDigit(c)
  {
    "0123456789"[d]
  }

  function DigitValue(c: char): (d: nat)
    requires IsDigit(c)
    ensures d < 10
  {
    (c as int - '0' as int) as nat
  }

  /** The decimal text of a natural number, as `${n}` writes it: no leading zero. */
  function NatToString(n: nat): (s: string)
    ensures |s| >= 1 && AllDigits(s)
    ensures s[0] == '0' ==> n == 0
  {
    if n < 10 then [DigitChar(n)] else NatToString(n / 10) + [DigitChar(n % 10)]
  }

  /** Reads decimal digits back as a number: the reference for `NatToString`. */
  function ParseDigits(s: string): nat
    requires AllDigits(s)
  {
    if s == [] then 0 else ParseDigits(s[..|s| - 1]) * 10 + DigitValue(s[|s| - 1])
  }

  /** Printing a number and reading it back gives the number. */
  lemma {:induction false} ParseNatToString(n: nat)
    ensures ParseDigits(NatToString(n)) == n
  {
    var s := NatToString(n);
    if n < 10 {
      assert s[..|s| - 1] == [];
    } else {
      assert s[..|s| - 1] == NatToString(n / 10);
      ParseNatToString(n / 10);
    }
  }

  /** The decimal text of an integer, with a leading '-' when negative. */
  function IntToString(i: int): string
  {
    if i < 0 then "-" + NatToString(-i) else NatToString(i)
  }

  /** `s.replace(/c/g, rep)`: every occurrence of `c` becomes `rep`. */
  function ReplaceAll(s: string, c: char, rep: string): string
  {
    if s == [] then "" else (if s[0] == c then rep else [s[0]]) + ReplaceAll(s[1..], c, rep)
  }

  /** The character replaced is gone unless the replacement brings it back. */
  lemma {:induction false} ReplaceAllRemoves(s: string, c: char, rep: string, d: char)
    requires d !in rep
    requires d == c || d !in s
    ensures d !in ReplaceAll(s, c, rep)
  {
    if s != [] {
      ReplaceAllRemoves(s[1..], c, rep, d);
    }
  }

  /** Text without `c` is left as it is. */
  lemma {:induction false} ReplaceAllAbsent(s: string, c: char, rep: string)
    requires c !in s
    ensures ReplaceAll(s, c, rep) == s
  {
    if s != [] {
      ReplaceAllAbsent(s[1..], c, rep);
    }
  }

  predicate StartsWith(s: string, prefix: string)
  {
    |prefix| <= |s| && s[..|prefix|] == prefix
  }

  /** What follows a prefix is the rest of the concatenation. */
  lemma SliceAfter(a: string, b: string)
    ensures (a + b)[|a|..] == b
  {
  }

  lemma StartsWithAppend(a: string, b: string)
    ensures StartsWith(a + b, a)
  {
    assert (a + b)[..|a|] == a;
  }

  lemma StartsWithGrouped(a: string, b: string, c: string)
    ensures StartsWith(a + (b + c), a + b)
  {
    assert a + (b + c) == (a + b) + c;
    StartsWithAppend(a + b, c);
  }

  /** `t` occurs in `s` at position `at`. */
  predicate OccursAt(s: string, t: string, at: nat)
  {
    at + |t| <= |s| && s[at..at + |t|] == t
  }

  lemma OccursAtStart(t: string, b: string)
    ensures OccursAt(t + b, t, 0)
  {
    assert (t + b)[..|t|] == t;
  }

  /** An occurrence moves right by the length of text put before it. */
  lemma OccursAfterPrefix(a: string, s: string, t: string, at: nat)
    requires OccursAt(s, t, at)
    ensures OccursAt(a + s, t, |a| + at)
  {
    assert (a + s)[|a| + at..|a| + at + |t|] == s[at..at + |t|];
  }

  /** An occurrence stays where it is when text is put after it. */
  lemma OccursBeforeSuffix(s: string, b: string, t: string, at: nat)
    requires OccursAt(s, t, at)
    ensures OccursAt(s + b, t, at)
  {
    assert (s + b)[at..at + |t|] == s[at..at + |t|];
  }

  /** An occurrence moves right by the length of two pieces of text put before it. */
  lemma OccursAfterPrefixes(a: string, b: string, s: string, t: string, at: nat)
    requires OccursAt(s, t, at)
    ensures OccursAt(a + (b + s), t, |a| + (|b| + at))
  {
    OccursAfterPrefix(b, s, t, at);
    OccursAfterPrefix(a, b + s, t, |b| + at);
  }

  lemma StartsWithExtend(s: string, prefix: string, b: string)
    requires StartsWith(s, prefix)
    ensures StartsWith(s + b, prefix)
  {
    assert (s + b)[..|prefix|] == s[..|prefix|];
  }

  /** Text that starts with `a` does not start with `b` when they differ at position 1. */
  lemma DifferentStarts(s: string, a: string, b: string)
    requires StartsWith(s, a) && |a| >= 2 && |b| >= 2 && a[1] != b[1]
    ensures !StartsWith(s, b)
  {
    assert s[1] == s[..|a|][1] == a[1];
  }

  /** The opening tag of an HTML element. */
  function OpenTag(name: string, attributes: string): string
  {
    "<" + name + attributes + ">"
  }

  /** Markup that begins with a tag shows the tag's first letter right after `<`. */
  lemma OpenTagName(name: string, attributes: string, rest: string)
    requires |name| > 0
    ensures var s := OpenTag(name, attributes) + rest; |s| >= 2 && s[0] == '<' && s[1] == name[0]
  {
  }
}
