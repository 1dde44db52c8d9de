// Decimal printing, the byte-wise order of Go strings, and sort.Strings.
module Text {
  import opened Basics

  predicate IsDigit(c: char) { '0' <= c <= '9' }

  predicate EndsInDigit(s: string) { |s| > 0 && IsDigit(s[|s| - 1]) }

  function DigitChar(d: nat): (c: char)
    requires d < 10
    ensures IsDigit(c) && c as int - '0' as int == d
  {
    ('0' as int + d) as char
  }

  // fmt.Sprintf("%d") on a non-negative number.
  function Digits(n: nat): string {
    if n < 10 then [DigitChar(n)] else Digits(n / 10) + [DigitChar(n % 10)]
  }

  predicate AllDigits(s: string) {
    forall i :: 0 <= i < |s| ==> IsDigit(s[i])
  }

  lemma {:induction false} DigitsAreDigits(n: nat)
    ensures Digits(n) != "" && AllDigits(Digits(n))
  {
    if n >= 10 {
      DigitsAreDigits(n / 10);
    }
  }

  function Decimal(n: int): string {
    if n < 0 then "-" + Digits(-n) else Digits(n)
  }

  function DigitValue(c: char): nat
    requires IsDigit(c)
  {
    c as int - '0' as int
  }

  function NumberOf(s: string): nat
    requires AllDigits(s)
  {
    if s == [] then 0
    else 10 * NumberOf(s[..|s| - 1]) + DigitValue(s[|s| - 1])
  }

  lemma {:induction false} DigitsReadBack(n: nat)
    ensures AllDigits(Digits(n)) && NumberOf(Digits(n)) == n
  {
    DigitsAreDigits(n);
    if n >= 10 {
      DigitsReadBack(n / 10);
      assert Digits(n)[..|Digits(n)| - 1] == Digits(n / 10);
    } else {
      assert Digits(n)[..0] == [];
    }
  }

  lemma LongerPrefixEndsInDigit(a: string, i: nat, b: string, j: nat)
    requires a + Digits(i) == b + Digits(j) && |a| > |b|
    ensures EndsInDigit(a)
  {
    DigitsAreDigits(j);
    assert a[|a| - 1] == (a + Digits(i))[|a| - 1] == Digits(j)[|a| - 1 - |b|];
  }

  // A text that does not end in a digit, followed by a number, can be taken apart again.
  lemma TrailingNumber(a: string, i: nat, b: string, j: nat)
    requires !EndsInDigit(a) && !EndsInDigit(b)
    requires a + Digits(i) == b + Digits(j)
    ensures a == b && i == j
  {
    if |a| > |b| {
      LongerPrefixEndsInDigit(a, i, b, j);
    } else if |b| > |a| {
      LongerPrefixEndsInDigit(b, j, a, i);
    } else {
      var s := a + Digits(i);
      assert a == s[..|a|] == b;
      assert Digits(i) == s[|a|..] == Digits(j);
      DigitsReadBack(i);
      DigitsReadBack(j);
    }
  }

  // strings.ToLower, on ASCII.
  function LowerChar(c: char): char {
    if 'A' <= c <= 'Z' then (c as int + 32) as char else c
  }

  function ToLower(s: string): string {
    if s == "" then "" else [LowerChar(s[0])] + ToLower(s[1..])
  }

  lemma {:induction false} ToLowerKeepsDigits(s: string)
    ensures |ToLower(s)| == |s| && (EndsInDigit(ToLower(s)) <==> EndsInDigit(s))
  {
    if |s| <= 1 {
    } else {
      ToLowerKeepsDigits(s[1..]);
      assert s[1..][|s| - 2] == s[|s| - 1];
    }
  }

  lemma {:induction false} DigitsAreLower(digits: string)
    requires AllDigits(digits)
    ensures ToLower(digits) == digits
  {
    if digits == "" {
    } else {
      DigitsAreLower(digits[1..]);
      assert digits == [digits[0]] + digits[1..];
    }
  }

  lemma ToLowerStep(c: char, s: string)
    ensures ToLower([c] + s) == [LowerChar(c)] + ToLower(s)
  {
    assert ([c] + s)[1..] == s;
  }

  lemma {:induction false} ToLowerOnDigits(s: string, digits: string)
    requires AllDigits(digits)
    ensures ToLower(s + digits) == ToLower(s) + digits
  {
    if s == "" {
      assert s + digits == digits;
      DigitsAreLower(digits);
    } else {
      var c, rest := s[0], s[1..];
      calc {
        ToLower(s + digits);
        { assert s + digits == [c] + (rest + digits); }
        ToLower([c] + (rest + digits));
        { ToLowerStep(c, rest + digits); }
        [LowerChar(c)] + ToLower(rest + digits);
        { ToLowerOnDigits(rest, digits); }
        [LowerChar(c)] + (ToLower(rest) + digits);
        ToLower(s) + digits;
      }
    }
  }

  // Go's `<=` on strings.
  predicate LessEq(a: string, b: string) {
    |a| == 0 || (|b| > 0 && (a[0] < b[0] || (a[0] == b[0] && LessEq(a[1..], b[1..]))))
  }

  lemma {:induction false} LessEqTotal(a: string, b: string)
    ensures LessEq(a, b) || LessEq(b, a)
    ensures LessEq(a, b) && LessEq(b, a) ==> a == b
  {
    if |a| > 0 && |b| > 0 && a[0] == b[0] {
      LessEqTotal(a[1..], b[1..]);
      assert a == [a[0]] + a[1..] && b == [b[0]] + b[1..];
    }
  }

  lemma {:induction false} LessEqTransitive(a: string, b: string, c: string)
    requires LessEq(a, b) && LessEq(b, c)
    ensures LessEq(a, c)
  {
    if |a| > 0 && a[0] == b[0] == c[0] {
      LessEqTransitive(a[1..], b[1..], c[1..]);
    }
  }

  ghost predicate Ascending(s: seq<string>) {
    forall i, j :: 0 <= i < j < |s| ==> LessEq(s[i], s[j])
  }

  function Insert(x: string, s: seq<string>): seq<string> {
    if s == [] || LessEq(x, s[0]) then [x] + s else [s[0]] + Insert(x, s[1..])
  }

  // sort.Strings.
  function Sort(s: seq<string>): seq<string> {
    if s == [] then [] else Insert(s[0], Sort(s[1..]))
  }

  lemma {:induction false} InsertPermutes(x: string, s: seq<string>)
    ensures multiset(Insert(x, s)) == multiset(s) + multiset{x}
  {
    if s == [] {
    } else {
      InsertPermutes(x, s[1..]);
      assert s == [s[0]] + s[1..];
    }
  }

  lemma {:induction false} SortPermutes(s: seq<string>)
    ensures multiset(Sort(s)) == multiset(s)
  {
    if s == [] {
    } else {
      SortPermutes(s[1..]);
      InsertPermutes(s[0], Sort(s[1..]));
      assert s == [s[0]] + s[1..];
    }
  }

  lemma {:induction false} InsertAscends(x: string, s: seq<string>)
    requires Ascending(s)
    ensures Ascending(Insert(x, s))
  {
    var r := Insert(x, s);
    if s == [] {
    } else if LessEq(x, s[0]) {
      forall i, j | 0 <= i < j < |r| ensures LessEq(r[i], r[j]) {
        if i == 0 && j > 1 { LessEqTransitive(x, s[0], s[j - 1]); }
      }
    } else {
      LessEqTotal(x, s[0]);
      InsertAscends(x, s[1..]);
      InsertPermutes(x, s[1..]);
      var t := Insert(x, s[1..]);
      forall i, j | 0 <= i < j < |r| ensures LessEq(r[i], r[j]) {
        if i == 0 {
          assert t[j - 1] in multiset(s[1..]) + multiset{x};
          if t[j - 1] != x {
            assert t[j - 1] in s[1..];
          }
        }
      }
    }
  }

  lemma {:induction false} SortAscends(s: seq<string>)
    ensures Ascending(Sort(s))
  {
    if s == [] {
    } else {
      SortAscends(s[1..]);
      InsertAscends(s[0], Sort(s[1..]));
    }
  }

  lemma AscendingHead(s: seq<string>, t: seq<string>)
    requires Ascending(s) && Ascending(t) && s != [] && t != []
    requires s[0] in t && t[0] in s
    ensures s[0] == t[0]
  {
    var i :| 0 <= i < |t| && t[i] == s[0];
    var j :| 0 <= j < |s| && s[j] == t[0];
    LessEqTotal(s[0], t[0]);
    assert i > 0 ==> LessEq(t[0], t[i]);
    assert j > 0 ==> LessEq(s[0], s[j]);
  }

  lemma AscendingTail(s: seq<string>)
    requires Ascending(s) && s != []
    ensures Ascending(s[1..]) && multiset(s) == multiset{s[0]} + multiset(s[1..])
  {
    assert s == [s[0]] + s[1..];
    forall i, j | 0 <= i < j < |s[1..]| ensures LessEq(s[1..][i], s[1..][j]) {
      assert s[1..][i] == s[i + 1] && s[1..][j] == s[j + 1];
    }
  }

  lemma SameHead(s: seq<string>, t: seq<string>)
    requires Ascending(s) && Ascending(t) && multiset(s) == multiset(t) && s != [] && t != []
    ensures s[0] == t[0]
  {
    assert s[0] in multiset(t) && t[0] in multiset(s);
    AscendingHead(s, t);
  }

  // Two ascending arrangements of the same strings are the same sequence.
  lemma {:induction false} AscendingUnique(s: seq<string>, t: seq<string>)
    requires Ascending(s) && Ascending(t) && multiset(s) == multiset(t)
    ensures s == t
  {
    assert |s| == |multiset(s)| == |multiset(t)| == |t|;
    if s == [] {
    } else {
      SameHead(s, t);
      AscendingTail(s);
      AscendingTail(t);
      assert multiset(s[1..]) == multiset(s) - multiset{s[0]} == multiset(t[1..]);
      AscendingUnique(s[1..], t[1..]);
      assert s == [s[0]] + s[1..] && t == [t[0]] + t[1..];
    }
  }

  ghost function Pick<K>(keys: set<K>): K
    requires keys != {}
  {
    var k :| k in keys; k
  }

  ghost function SomeOrder<K>(keys: set<K>): seq<K> {
    if keys == {} then [] else [Pick(keys)] + SomeOrder(keys - {Pick(keys)})
  }

  lemma {:induction false} SomeOrderEnumerates<K>(keys: set<K>)
    ensures Enumerates(SomeOrder(keys), keys)
  {
    if keys == {} {
    } else {
      var k := Pick(keys);
      SomeOrderEnumerates(keys - {k});
      assert multiset(keys) == multiset(keys - {k}) + multiset{k};
    }
  }

  // The keys of a map in sort.Strings order.
  ghost function SortedKeys(keys: set<string>): seq<string> {
    Sort(SomeOrder(keys))
  }

  lemma SortedKeysEnumerate(keys: set<string>)
    ensures Enumerates(SortedKeys(keys), keys)
  {
    SomeOrderEnumerates(keys);
    SortPermutes(SomeOrder(keys));
  }

  lemma SortedKeysMembers(keys: set<string>)
    ensures var s := SortedKeys(keys);
            && (forall k :: k in s <==> k in keys)
            && (forall i, j :: 0 <= i < j < |s| ==> s[i] != s[j])
  {
    SortedKeysEnumerate(keys);
    EnumeratesMembers(SortedKeys(keys), keys);
  }

  lemma SortedKeysAscend(keys: set<string>)
    ensures Ascending(SortedKeys(keys))
  {
    SortAscends(SomeOrder(keys));
  }

  // Collecting a map's keys in any order and sorting them has one outcome.
  lemma SortForgetsOrder(order: seq<string>, keys: set<string>)
    requires Enumerates(order, keys)
    ensures Sort(order) == SortedKeys(keys)
  {
    SortAscends(order);
    SortPermutes(order);
    SortedKeysAscend(keys);
    SortedKeysEnumerate(keys);
    AscendingUnique(Sort(order), SortedKeys(keys));
  }

  // The collect-then-sort preamble of every deterministic loop over a map.
  method SortedRange(keys: set<string>) returns (order: seq<string>)
    ensures order == SortedKeys(keys)
    ensures forall k :: k in order <==> k in keys
  {
    SortedKeysMembers(keys);
    var collected := RangeKeys(keys);
    SortForgetsOrder(collected, keys);
    order := Sort(collected);
  }
}
