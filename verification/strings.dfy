/** The handful of Python `str` operations the monitored code relies on:
    `sep.join`, `s.split(c)`, the `in` substring test, `lower`, `strip` and
    `str` of an integer, each defined once; `join`/`split`, `in` and `str`
    come with the lemmas that tie them to a partner (a round trip or a
    positional definition). */
module Strings {

  /** Python's `sep.join(items)`. */
  function Join(items: seq<string>, sep: string): string
  {
    if |items| == 0 then ""
    else if |items| == 1 then items[0]
    else items[0] + sep + Join(items[1..], sep)
  }

  /** A join ends with its last item. */
  lemma {:induction false} JoinEndsWithLast(items: seq<string>, sep: string)
    requires |items| >= 1
    ensures EndsWith(Join(items, sep), items[|items| - 1])
  {
    if |items| == 1 {
      assert Join(items, sep)[|items[0]| - |items[0]|..] == items[0];
    } else {
      JoinEndsWithLast(items[1..], sep);
      EndsWithExtend(items[0] + sep, Join(items[1..], sep), items[|items| - 1]);
      assert (items[0] + sep) + Join(items[1..], sep) == Join(items, sep);
    }
  }

  /** A suffix of `b` is a suffix of `a + b`. */
  lemma EndsWithExtend(a: string, b: string, t: string)
    requires EndsWith(b, t)
    ensures EndsWith(a + b, t)
  {
    assert (a + b)[|a + b| - |t|..] == b[|b| - |t|..];
  }

  /** Appending the same text to a string and to one of its suffixes keeps
      the suffix relation. */
  lemma EndsWithAppend(s: string, t: string, u: string)
    requires EndsWith(s, t)
    ensures EndsWith(s + u, t + u)
  {
    assert (s + u)[|s + u| - |t + u|..] == s[|s| - |t|..] + u;
  }

  /** Every item of a join occurs in it. */
  lemma {:induction false} JoinContainsItem(items: seq<string>, sep: string, i: nat)
    requires i < |items|
    ensures Contains(Join(items, sep), items[i])
  {
    if |items| == 1 {
      ContainsInfix("", items[0], "");
      assert "" + items[0] + "" == items[0];
    } else if i == 0 {
      ContainsInfix("", items[0], sep + Join(items[1..], sep));
      assert "" + items[0] + (sep + Join(items[1..], sep)) == Join(items, sep);
    } else {
      JoinContainsItem(items[1..], sep, i - 1);
      ContainsSuffix(items[0] + sep, Join(items[1..], sep), items[i]);
      assert (items[0] + sep) + Join(items[1..], sep) == Join(items, sep);
    }
  }

  /** Regrouping a concatenation, for proofs that split long strings. */
  lemma Assoc(a: string, b: string, c: string)
    ensures a + b + c == a + (b + c)
  {
  }

  /** Python's `s.split(c)` for a one-character separator: the pieces between
      consecutive occurrences of `c`, empty pieces included. */
  function Split(s: string, c: char): (r: seq<string>)
    ensures |r| >= 1
    ensures forall i :: 0 <= i < |r| ==> c !in r[i]
  {
    if |s| == 0 then [""]
    else
      var rest := Split(s[1..], c);
      if s[0] == c then [""] + rest
      else [[s[0]] + rest[0]] + rest[1..]
  }

  /** True iff no item contains the separator character. */
  predicate FreeOf(items: seq<string>, c: char)
  {
    forall i :: 0 <= i < |items| ==> c !in items[i]
  }

  /** Joining the pieces of a split restores the split string. */
  lemma {:induction false} JoinSplit(s: string, c: char)
    ensures Join(Split(s, c), [c]) == s
  {
    if |s| > 0 {
      var rest := Split(s[1..], c);
      JoinSplit(s[1..], c);
      if s[0] == c {
        assert Split(s, c) == [""] + rest;
        assert ([""] + rest)[1..] == rest;
        assert s == [c] + s[1..];
      } else {
        var r := Split(s, c);
        assert r == [[s[0]] + rest[0]] + rest[1..];
        if |rest| == 1 {
          assert s == [s[0]] + s[1..];
        } else {
          assert r[1..] == rest[1..];
          assert Join(rest, [c]) == rest[0] + [c] + Join(rest[1..], [c]);
          assert s == [s[0]] + s[1..];
        }
      }
    }
  }

  /** Splitting a string that starts with a separator-free prefix `p` glues
      `p` onto the first piece of the rest. */
  lemma {:induction false} SplitPrefix(p: string, t: string, c: char)
    requires c !in p
    ensures Split(p + t, c) == [p + Split(t, c)[0]] + Split(t, c)[1..]
  {
    if |p| > 0 {
      SplitPrefix(p[1..], t, c);
      assert (p + t)[1..] == p[1..] + t;
      assert (p + t)[0] == p[0];
      assert [p[0]] + (p[1..] + Split(t, c)[0]) == p + Split(t, c)[0];
    } else {
      var r := Split(t, c);
      assert p + t == t;
      assert p + r[0] == r[0];
      assert r == [r[0]] + r[1..];
    }
  }

  /** Splitting a join of separator-free items restores the items. */
  lemma {:induction false} SplitJoin(items: seq<string>, c: char)
    requires |items| >= 1
    requires FreeOf(items, c)
    ensures Split(Join(items, [c]), c) == items
  {
    if |items| == 1 {
      SplitPrefix(items[0], "", c);
      assert items[0] + "" == items[0];
    } else {
      var t := Join(items[1..], [c]);
      SplitJoin(items[1..], c);
      assert Join(items, [c]) == items[0] + ([c] + t);
      SplitPrefix(items[0], [c] + t, c);
      assert ([c] + t)[1..] == t;
      assert Split([c] + t, c) == [""] + Split(t, c);
      assert items[0] + "" == items[0];
      assert items == [items[0]] + items[1..];
    }
  }

  /** Python's `sub in s`. */
  predicate Contains(s: string, sub: string)
  {
    sub <= s || (|s| > 0 && Contains(s[1..], sub))
  }

  /** `sub` occurs in `s` starting at position `i`. */
  predicate OccursAt(s: string, sub: string, i: int)
  {
    0 <= i && i + |sub| <= |s| && s[i..i + |sub|] == sub
  }

  /** `Contains` agrees with the positional definition of a substring: the
      one holds exactly when `sub` occurs at some position of `s`. */
  lemma {:induction false} ContainsOccurs(s: string, sub: string)
    ensures Contains(s, sub) <==> exists i :: OccursAt(s, sub, i)
  {
    if Contains(s, sub) {
      ContainsGivesPosition(s, sub);
    }
    if exists i :: OccursAt(s, sub, i) {
      var i :| OccursAt(s, sub, i);
      PositionGivesContains(s, sub, i);
    }
  }

  lemma {:induction false} ContainsGivesPosition(s: string, sub: string)
    requires Contains(s, sub)
    ensures exists i :: OccursAt(s, sub, i)
  {
    if sub <= s {
      assert OccursAt(s, sub, 0);
    } else {
      ContainsGivesPosition(s[1..], sub);
      var i :| OccursAt(s[1..], sub, i);
      assert s[1..][i..i + |sub|] == s[i + 1..i + 1 + |sub|];
      assert OccursAt(s, sub, i + 1);
    }
  }

  lemma {:induction false} PositionGivesContains(s: string, sub: string, i: int)
    requires OccursAt(s, sub, i)
    ensures Contains(s, sub)
    decreases i
  {
    if i == 0 {
      assert sub <= s;
    } else {
      assert s[1..][i - 1..i - 1 + |sub|] == s[i..i + |sub|];
      PositionGivesContains(s[1..], sub, i - 1);
    }
  }

  /** A string contains every one of its infixes. */
  lemma {:induction false} ContainsInfix(a: string, b: string, c: string)
    ensures Contains(a + b + c, b)
  {
    if |a| == 0 {
      assert a + b + c == b + c;
      assert b <= b + c;
    } else {
      ContainsInfix(a[1..], b, c);
      assert (a + b + c)[1..] == a[1..] + b + c;
    }
  }

  /** Whatever a suffix contains, the whole string contains. */
  lemma {:induction false} ContainsSuffix(a: string, b: string, sub: string)
    requires Contains(b, sub)
    ensures Contains(a + b, sub)
  {
    if |a| > 0 {
      ContainsSuffix(a[1..], b, sub);
      assert (a + b)[1..] == a[1..] + b;
    } else {
      assert a + b == b;
    }
  }

  /** Whatever a prefix contains, the whole string contains. */
  lemma {:induction false} ContainsPrefix(a: string, b: string, sub: string)
    requires Contains(a, sub)
    ensures Contains(a + b, sub)
  {
    if sub <= a {
      assert sub <= a + b;
    } else {
      ContainsPrefix(a[1..], b, sub);
      assert (a + b)[1..] == a[1..] + b;
    }
  }

  /** A string shorter than `sub` cannot contain it. */
  lemma {:induction false} ShortNotContains(s: string, sub: string)
    requires |s| < |sub|
    ensures !Contains(s, sub)
  {
    if |s| > 0 {
      ShortNotContains(s[1..], sub);
    }
  }

  /** Python's `s.endswith(t)`. */
  predicate EndsWith(s: string, t: string)
  {
    |t| <= |s| && s[|s| - |t|..] == t
  }

  lemma EndsWithConcat(a: string, t: string)
    ensures EndsWith(a + t, t)
  {
    assert (a + t)[|a + t| - |t|..] == t;
  }

  /** ASCII lower-casing of one character. */
  function LowerChar(ch: char): char
  {
    if 'A' <= ch <= 'Z' then (ch as int + 32) as char else ch
  }

  /** Python's `s.lower()`, restricted to the ASCII letters. */
  function Lower(s: string): (r: string)
    ensures |r| == |s|
    ensures forall i :: 0 <= i < |s| ==> r[i] == LowerChar(s[i])
  {
    if |s| == 0 then "" else [LowerChar(s[0])] + Lower(s[1..])
  }

  /** True iff `s` holds no ASCII capital letter. */
  predicate NoUpper(s: string)
  {
    forall i :: 0 <= i < |s| ==> !('A' <= s[i] <= 'Z')
  }

  /** Lower-casing keeps every lower-case infix: `sub in s` implies
      `sub in s.lower()` when `sub` has no capitals. */
  lemma {:induction false} ContainsLower(s: string, sub: string)
    requires NoUpper(sub)
    requires Contains(s, sub)
    ensures Contains(Lower(s), sub)
  {
    if sub <= s {
      assert forall i :: 0 <= i < |sub| ==> Lower(s)[i] == sub[i];
      assert sub <= Lower(s);
    } else {
      ContainsLower(s[1..], sub);
      assert Lower(s)[1..] == Lower(s[1..]);
    }
  }

  /** Lower-casing is idempotent. */
  lemma LowerIdempotent(s: string)
    ensures Lower(Lower(s)) == Lower(s)
  {
  }

  /** Python's `str.isspace` for the characters below U+0100. */
  predicate IsSpace(ch: char)
  {
    ch == ' ' || (0x09 <= ch as int <= 0x0D) || (0x1C <= ch as int <= 0x1F)
    || ch as int == 0x85 || ch as int == 0xA0
  }

  function TrimStart(s: string): (r: string)
    ensures |r| <= |s|
  {
    if |s| > 0 && IsSpace(s[0]) then TrimStart(s[1..]) else s
  }

  function TrimEnd(s: string): (r: string)
    ensures |r| <= |s|
  {
    if |s| > 0 && IsSpace(s[|s| - 1]) then TrimEnd(s[..|s| - 1]) else s
  }

  /** Python's `s.strip()`. */
  function Strip(s: string): string
  {
    TrimEnd(TrimStart(s))
  }

  /** Stripping a string that starts with a non-space and ends with one
      trailing space after a non-space removes exactly that space. */
  lemma StripOneTrailingSpace(s: string)
    requires |s| >= 2 && !IsSpace(s[0]) && !IsSpace(s[|s| - 2]) && s[|s| - 1] == ' '
    ensures Strip(s) == s[..|s| - 1]
  {
    assert TrimStart(s) == s;
    var t := s[..|s| - 1];
    assert t[|t| - 1] == s[|s| - 2];
    assert TrimEnd(t) == t;
  }

  /** Decimal digit for `d`. */
  function DigitChar(d: nat): char
    requires d < 10
  {
    "0123456789"[d]
  }

  /** Numeric value of a decimal digit character (0 for anything else). */
  function DigitValue(ch: char): nat
  {
    if '0' <= ch <= '9' then ch as int - '0' as int else 0
  }

  predicate IsDigits(s: string)
  {
    forall i :: 0 <= i < |s| ==> '0' <= s[i] <= '9'
  }

  /** Python's `str(n)` for a non-negative integer. */
  function NatToString(n: nat): (r: string)
    ensures |r| >= 1 && IsDigits(r)
  {
    if n < 10 then [DigitChar(n)] else NatToString(n / 10) + [DigitChar(n % 10)]
  }

  /** Python's `str(i)` for an integer (also what an f-string produces). */
  function IntToString(i: int): (r: string)
    ensures |r| >= 1
    ensures forall k :: 0 <= k < |r| ==> r[k] == '-' || '0' <= r[k] <= '9'
  {
    if i < 0 then "-" + NatToString(-i) else NatToString(i)
  }

  /** Python's `int(s)` on a string of decimal digits. */
  function ParseNat(s: string): nat
  {
    if |s| == 0 then 0 else ParseNat(s[..|s| - 1]) * 10 + DigitValue(s[|s| - 1])
  }

  /** Python's `int(s)` on an optionally signed string of decimal digits. */
  function ParseInt(s: string): int
  {
    if |s| > 0 && s[0] == '-' then -(ParseNat(s[1..]) as int) else ParseNat(s)
  }

  /** Reading back the decimal rendering of a natural number gives it back. */
  lemma {:induction false} ParseNatToString(n: nat)
    ensures ParseNat(NatToString(n)) == n
  {
    var s := NatToString(n);
    if n < 10 {
      assert s[..0] == "";
    } else {
      ParseNatToString(n / 10);
      assert s[..|s| - 1] == NatToString(n / 10);
    }
  }

  /** Reading back the decimal rendering of an integer gives it back, so
      distinct integers render differently. */
  lemma ParseIntToString(i: int)
    ensures ParseInt(IntToString(i)) == i
  {
    if i < 0 {
      var n: nat := -i;
      var s := IntToString(i);
      assert s == "-" + NatToString(n);
      ParseNatToString(n);
      assert s[0] == '-';
      assert s[1..] == NatToString(n);
    } else {
      ParseNatToString(i);
    }
  }

  lemma IntToStringInjective(i: int, j: int)
    requires IntToString(i) == IntToString(j)
    ensures i == j
  {
    ParseIntToString(i);
    ParseIntToString(j);
  }
}
