/** The few Python `str` methods the core uses, on single-character patterns. */
module Strings {

  /** `s.replace(c, t)` for a one-character pattern `c`. */
  function ReplaceChar(s: string, c: char, t: string): (r: string)
    ensures c !in t ==> c !in r
    ensures c !in s ==> r == s
  {
    if s == [] then []
    else (if s[0] == c then t else [s[0]]) + ReplaceChar(s[1..], c, t)
  }

  lemma {:induction false} ReplaceCharAppend(a: string, b: string, c: char, t: string)
    ensures ReplaceChar(a + b, c, t) == ReplaceChar(a, c, t) + ReplaceChar(b, c, t)
  {
    if a == [] {
      assert a + b == b;
    } else {
      assert (a + b)[1..] == a[1..] + b;
      ReplaceCharAppend(a[1..], b, c, t);
    }
  }

  /** Replacing never introduces a character that neither the text nor the replacement holds. */
  lemma {:induction false} ReplaceCharKeepsOut(s: string, c: char, t: string, d: char)
    requires d !in s && d !in t
    ensures d !in ReplaceChar(s, c, t)
  {
    if s != [] {
      ReplaceCharKeepsOut(s[1..], c, t, d);
    }
  }

  /** `s.rstrip(c)`: `s` without its trailing run of `c`. */
  function RStrip(s: string, c: char): (r: string)
    ensures |r| <= |s| && r == s[..|r|]
    ensures r == [] || r[|r| - 1] != c
    ensures forall i :: |r| <= i < |s| ==> s[i] == c
  {
    if s == [] then []
    else if s[|s| - 1] == c then RStrip(s[..|s| - 1], c)
    else s
  }

  /** Whether `s` contains two consecutive underscores. */
  predicate HasDunder(s: string) {
    |s| >= 2 && ((s[0] == '_' && s[1] == '_') || HasDunder(s[1..]))
  }

  /** `s.split("__")`: the pieces between non-overlapping `__`, scanned left to right. */
  function SplitDunder(s: string): (parts: seq<string>)
    ensures |parts| >= 1
  {
    if |s| < 2 then [s]
    else if s[0] == '_' && s[1] == '_' then [""] + SplitDunder(s[2..])
    else
      var rest := SplitDunder(s[1..]);
      [[s[0]] + rest[0]] + rest[1..]
  }

  lemma {:induction false} SplitDunderNone(s: string)
    requires !HasDunder(s)
    ensures SplitDunder(s) == [s]
  {
    if |s| >= 2 {
      assert !(s[0] == '_' && s[1] == '_');
      SplitDunderNone(s[1..]);
      assert [s[0]] + s[1..] == s;
    }
  }

  /** Splitting `a + "__" + b` gives back `a` and `b` when neither holds a `__` and `a` does not end in `_`. */
  lemma {:induction false} SplitDunderAt(a: string, b: string)
    requires !HasDunder(a) && (a == [] || a[|a| - 1] != '_')
    requires !HasDunder(b)
    ensures SplitDunder(a + "__" + b) == [a, b]
  {
    var s := a + "__" + b;
    if a == [] {
      assert s == "__" + b;
      assert s[2..] == b;
      SplitDunderNone(b);
    } else {
      assert s[1..] == a[1..] + "__" + b;
      assert !HasDunder(a[1..]);
      assert a[1..] == [] || a[1..][|a[1..]| - 1] != '_';
      SplitDunderAt(a[1..], b);
      assert !(s[0] == '_' && s[1] == '_') by {
        if |a| == 1 { assert s[1] == '_' && s[0] == a[0]; } else { assert s[1] == a[1]; }
      }
      assert [s[0]] + a[1..] == a;
    }
  }

  /** Decimal digits of a natural number, as `f"{n}"` prints it. */
  function NatToDecimal(n: nat): (r: string)
    ensures |r| >= 1
    ensures forall x :: x in r ==> '0' <= x <= '9'
  {
    if n < 10 then [Digit(n)] else NatToDecimal(n / 10) + [Digit(n % 10)]
  }

  function Digit(d: nat): (c: char)
    requires d < 10
    ensures '0' <= c <= '9'
  {
    "0123456789"[d]
  }

  /** The text before the first `c`, as `s.split(c)[0]` gives it (all of `s` when there is none). */
  function BeforeFirst(s: string, c: char): (r: string)
    ensures |r| <= |s| && r == s[..|r|]
    ensures c !in r
    ensures |r| < |s| ==> s[|r|] == c
    ensures (c in s) <==> |r| < |s|
  {
    if s == [] then []
    else if s[0] == c then []
    else [s[0]] + BeforeFirst(s[1..], c)
  }
}
