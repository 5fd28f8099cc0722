/** Small vocabulary shared by the back-end and front-end models: an optional
    value, ASCII case mapping, prefix and substring tests, the decimal rendering
    of a natural number, and the code-unit order that JavaScript's default
    `sort` and Python's `sorted` use on strings. */
module Common {

  datatype Option<T> = None | Some(value: T)

  /* ---------- case mapping (ASCII letters only) ---------- */

  function UpperChar(c: char): (r: char)
    ensures 'a' <= c <= 'z' ==> r as int == c as int - 32
    ensures !('a' <= c <= 'z') ==> r == c
  {
    if 'a' <= c <= 'z' then (c as int - 32) as char else c
  }

  function LowerChar(c: char): (r: char)
    ensures 'A' <= c <= 'Z' ==> r as int == c as int + 32
    ensures !('A' <= c <= 'Z') ==> r == c
  {
    if 'A' <= c <= 'Z' then (c as int + 32) as char else c
  }

  /** `str.upper()` / `String.toUpperCase()` restricted to ASCII. */
  function Upper(s: string): (r: string)
    ensures |r| == |s|
    ensures forall i :: 0 <= i < |s| ==> r[i] == UpperChar(s[i])
  {
    seq(|s|, i requires 0 <= i < |s| => UpperChar(s[i]))
  }

  /** `String.toLowerCase()` restricted to ASCII. */
  function Lower(s: string): (r: string)
    ensures |r| == |s|
    ensures forall i :: 0 <= i < |s| ==> r[i] == LowerChar(s[i])
  {
    seq(|s|, i requires 0 <= i < |s| => LowerChar(s[i]))
  }

  lemma UpperIdempotent(s: string)
    ensures Upper(Upper(s)) == Upper(s)
  {
    assert forall i :: 0 <= i < |s| ==> UpperChar(UpperChar(s[i])) == UpperChar(s[i]);
  }

  /* ---------- prefixes and substrings ---------- */

  /** `s.startsWith(p)`. */
  predicate StartsWith(s: string, p: string)
  {
    |p| <= |s| && s[..|p|] == p
  }

  /** `s.includes(sub)` / Python's `sub in s`. */
  predicate Contains(s: string, sub: string)
  {
    exists i | 0 <= i <= |s| - |sub| :: OccursAt(s, sub, i)
  }

  /** `sub` occurs in `s` starting at index `i`. */
  predicate OccursAt(s: string, sub: string, i: int)
  {
    0 <= i <= |s| - |sub| && s[i..i + |sub|] == sub
  }

  lemma ContainsEmpty(s: string)
    ensures Contains(s, "")
  {
    assert OccursAt(s, "", 0);
  }

  lemma StartsWithContains(s: string, p: string)
    requires StartsWith(s, p)
    ensures Contains(s, p)
  {
    assert OccursAt(s, p, 0);
  }

  /* ---------- decimal rendering of a natural number ---------- */

  function DigitChar(d: nat): (c: char)
    requires d < 10
    ensures '0' <= c <= '9' && c as int - '0' as int == d
  {
    ('0' as int + d) as char
  }

  /** Python's `str(n)` / JavaScript's template rendering of a non-negative integer. */
  function NatToString(n: nat): (s: string)
    ensures |s| >= 1
    ensures forall i :: 0 <= i < |s| ==> '0' <= s[i] <= '9'
    decreases n
  {
    if n < 10 then [DigitChar(n)] else NatToString(n / 10) + [DigitChar(n % 10)]
  }

  /** Reads a string of decimal digits back as a number. */
  function DigitsValue(s: string): nat
    requires forall i :: 0 <= i < |s| ==> '0' <= s[i] <= '9'
  {
    if s == [] then 0 else DigitsValue(s[..|s| - 1]) * 10 + (s[|s| - 1] as int - '0' as int)
  }

  lemma {:induction false} NatToStringRoundTrip(n: nat)
    ensures DigitsValue(NatToString(n)) == n
    decreases n
  {
    if n >= 10 {
      var s := NatToString(n);
      assert s[..|s| - 1] == NatToString(n / 10);
      NatToStringRoundTrip(n / 10);
    }
  }

  lemma NatToStringInjective(a: nat, b: nat)
    requires NatToString(a) == NatToString(b)
    ensures a == b
  {
    NatToStringRoundTrip(a);
    NatToStringRoundTrip(b);
  }

  /** The index of the first `c` in `s`, or `|s|`. */
  function IndexOf(s: string, c: char): (i: nat)
    ensures i <= |s|
    ensures i < |s| ==> s[i] == c
    ensures forall k :: 0 <= k < i ==> s[k] != c
  {
    if s == [] then 0
    else if s[0] == c then 0
    else 1 + IndexOf(s[1..], c)
  }

  /* ---------- records filled in a loop ---------- */

  /** The record `out` after `for (i ...) if (vals[i]) out[keys[i]] = vals[i]`,
      starting from `{}`: a later key overwrites an earlier one. */
  function CollectSome<T>(keys: seq<string>, vals: seq<Option<T>>): map<string, T>
    requires |keys| == |vals|
  {
    if keys == [] then map[]
    else
      var n := |keys| - 1;
      var m := CollectSome(keys[..n], vals[..n]);
      if vals[n].Some? then m[keys[n] := vals[n].value] else m
  }

  /** One more loop step. */
  lemma CollectSomeStep<T>(keys: seq<string>, vals: seq<Option<T>>, i: nat)
    requires |keys| == |vals| && i < |keys|
    ensures CollectSome(keys[..i + 1], vals[..i + 1]) ==
      if vals[i].Some? then CollectSome(keys[..i], vals[..i])[keys[i] := vals[i].value]
      else CollectSome(keys[..i], vals[..i])
  {
    assert keys[..i + 1][..i] == keys[..i];
    assert vals[..i + 1][..i] == vals[..i];
  }

  /** A key is present exactly when some position holds it with a value. */
  lemma {:induction false} CollectSomeKeys<T>(keys: seq<string>, vals: seq<Option<T>>, k: string)
    requires |keys| == |vals|
    ensures k in CollectSome(keys, vals) <==> exists i :: 0 <= i < |keys| && keys[i] == k && vals[i].Some?
  {
    if keys != [] {
      var n := |keys| - 1;
      CollectSomeKeys(keys[..n], vals[..n], k);
      if k in CollectSome(keys[..n], vals[..n]) {
        var i :| 0 <= i < n && keys[..n][i] == k && vals[..n][i].Some?;
        assert keys[i] == k && vals[i].Some?;
      }
      if exists i :: 0 <= i < |keys| && keys[i] == k && vals[i].Some? {
        var i :| 0 <= i < |keys| && keys[i] == k && vals[i].Some?;
        if i < n {
          assert keys[..n][i] == k && vals[..n][i].Some?;
        }
      }
    }
  }

  /** A present key holds the value of its last position with a value. */
  lemma {:induction false} CollectSomeLastWins<T>(keys: seq<string>, vals: seq<Option<T>>, k: string) returns (i: nat)
    requires |keys| == |vals| && k in CollectSome(keys, vals)
    ensures i < |keys| && keys[i] == k && vals[i].Some? && CollectSome(keys, vals)[k] == vals[i].value
    ensures forall j :: i < j < |keys| && keys[j] == k ==> vals[j].None?
  {
    var n := |keys| - 1;
    if vals[n].Some? && keys[n] == k {
      i := n;
    } else {
      i := CollectSomeLastWins(keys[..n], vals[..n], k);
      assert keys[..n][i] == keys[i] && vals[..n][i] == vals[i];
      forall j | i < j < |keys| && keys[j] == k ensures vals[j].None? {
        if j < n { assert keys[..n][j] == keys[j] && vals[..n][j] == vals[j]; }
      }
    }
  }

  /* ---------- lexicographic order ---------- */

  /** Strict lexicographic order on character codes, a proper prefix first:
      the order of JavaScript's default `Array.prototype.sort` and of Python's
      `sorted` on strings. */
  predicate StrLess(a: string, b: string)
    decreases |a|
  {
    if a == [] then b != []
    else if b == [] then false
    else if a[0] != b[0] then a[0] < b[0]
    else StrLess(a[1..], b[1..])
  }

  lemma {:induction false} StrLessIrreflexive(a: string)
    ensures !StrLess(a, a)
    decreases |a|
  {
    if a != [] { StrLessIrreflexive(a[1..]); }
  }

  lemma {:induction false} StrLessTotal(a: string, b: string)
    ensures a == b || StrLess(a, b) || StrLess(b, a)
    decreases |a|
  {
    if a != [] && b != [] && a[0] == b[0] {
      StrLessTotal(a[1..], b[1..]);
      if a[1..] == b[1..] {
        assert a == [a[0]] + a[1..] && b == [b[0]] + b[1..];
      }
    }
  }

  lemma {:induction false} StrLessTransitive(a: string, b: string, c: string)
    requires StrLess(a, b) && StrLess(b, c)
    ensures StrLess(a, c)
    decreases |a|
  {
    if a != [] && b != [] && c != [] && a[0] == b[0] && b[0] == c[0] {
      StrLessTransitive(a[1..], b[1..], c[1..]);
    }
  }

  lemma StrLessAsymmetric(a: string, b: string)
    requires StrLess(a, b)
    ensures !StrLess(b, a)
  {
    if StrLess(b, a) {
      StrLessTransitive(a, b, a);
      StrLessIrreflexive(a);
    }
  }
}
