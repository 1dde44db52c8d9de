// What the text functions mean: numerals, lower case and the order of strings, read independently.
module Reading {
  import opened Basics
  import opened Text
  import opened Volumes

  // ----- Decimal numerals -----

  // Read from the front, most significant digit first.
  function ReadFrom(base: nat, text: string, sofar: nat): nat {
    if text == "" then sofar
    else
      var digit := if text[0] < '0' then 0 else text[0] as int - '0' as int;
      ReadFrom(base, text[1..], base * sofar + digit)
  }

  // `text` is the numeral of `n`: digits without a leading zero.
  predicate Numeral(text: string, n: nat) {
    && text != "" && (forall i :: 0 <= i < |text| ==> '0' <= text[i] <= '9')
    && (|text| > 1 ==> text[0] != '0')
    && ReadFrom(10, text, 0) == n
  }

  predicate SignedNumeral(text: string, n: int) {
    if n < 0 then text != "" && text[0] == '-' && Numeral(text[1..], -n) else Numeral(text, n)
  }

  lemma {:induction false} ReadLast(base: nat, text: string, sofar: nat, c: char)
    requires '0' <= c <= '9'
    ensures ReadFrom(base, text + [c], sofar) == base * ReadFrom(base, text, sofar) + (c as int - '0' as int)
  {
    if text == "" {
      assert ([c])[1..] == "";
    } else {
      var digit := if text[0] < '0' then 0 else text[0] as int - '0' as int;
      ReadLast(base, text[1..], base * sofar + digit, c);
      assert (text + [c])[1..] == text[1..] + [c];
    }
  }

  lemma {:induction false} ReadGrows(text: string, sofar: nat)
    ensures ReadFrom(10, text, sofar) >= sofar
  {
    if text == "" {
    } else {
      var digit := if text[0] < '0' then 0 else text[0] as int - '0' as int;
      ReadGrows(text[1..], 10 * sofar + digit);
    }
  }

  lemma {:induction false} DigitsAreNumeral(n: nat)
    ensures Numeral(Digits(n), n)
  {
    if n < 10 {
      assert Digits(n)[1..] == "";
    } else {
      var before, last := Digits(n / 10), DigitChar(n % 10);
      DigitsAreNumeral(n / 10);
      ReadLast(10, before, 0, last);
      if |before| == 1 {
        assert before[1..] == "";
      }
    }
  }

  // The numeral without its last digit.
  lemma NumeralFront(text: string, n: nat)
    requires Numeral(text, n) && |text| > 1
    ensures n >= 10 && Numeral(text[..|text| - 1], n / 10) && text[|text| - 1] == DigitChar(n % 10)
  {
    var before, last := text[..|text| - 1], text[|text| - 1];
    var rest := ReadFrom(10, before, 0);
    assert text == before + [last];
    ReadLast(10, before, 0, last);
    ReadGrows(before[1..], before[0] as int - '0' as int);
    TenTimes(n, rest, last as int - '0' as int);
  }

  lemma TenTimes(n: nat, rest: nat, digit: nat)
    requires n == 10 * rest + digit && digit < 10
    ensures n / 10 == rest && n % 10 == digit
  {
  }

  lemma {:induction false} NumeralIsDigits(text: string, n: nat)
    requires Numeral(text, n)
    ensures text == Digits(n)
  {
    if |text| == 1 {
      assert text[1..] == "" && text == [text[0]];
      assert ReadFrom(10, text, 0) == ReadFrom(10, text[1..], text[0] as int - '0' as int);
      assert text[0] == DigitChar(n);
    } else {
      NumeralFront(text, n);
      NumeralIsDigits(text[..|text| - 1], n / 10);
      assert text == text[..|text| - 1] + [text[|text| - 1]];
    }
  }

  // fmt.Sprintf("%d").
  lemma DecimalExactly(n: int, text: string)
    ensures text == Decimal(n) <==> SignedNumeral(text, n)
  {
    var size := if n < 0 then -n else n;
    DigitsAreNumeral(size);
    if SignedNumeral(text, n) {
      NumeralIsDigits(if n < 0 then text[1..] else text, size);
      if n < 0 {
        assert text == "-" + text[1..];
      }
    }
  }

  // ----- Octal numerals -----

  // `body` are octal digits that read as `size`.
  predicate OctalBody(body: string, size: nat) {
    body != "" && (forall i :: 0 <= i < |body| ==> '0' <= body[i] <= '7') && ReadFrom(8, body, 0) == size
  }

  // An optional sign, octal digits, and a value that fits into 32 bits.
  predicate OctalNumeral(text: string, n: int) {
    && -0x8000_0000 <= n <= 0x7fff_ffff
    && (|| (n >= 0 && OctalBody(text, n))
        || (n >= 0 && text != "" && text[0] == '+' && OctalBody(text[1..], n))
        || (n <= 0 && text != "" && text[0] == '-' && OctalBody(text[1..], -n)))
  }

  lemma {:induction false} OctalValueReads(body: string)
    requires forall i :: 0 <= i < |body| ==> '0' <= body[i] <= '7'
    ensures OctalValue(body) == ReadFrom(8, body, 0)
  {
    if body == "" {
    } else {
      var before, last := body[..|body| - 1], body[|body| - 1];
      assert body == before + [last];
      assert '0' <= last <= '7';
      OctalValueReads(before);
      ReadLast(8, before, 0, last);
    }
  }

  // strconv.ParseInt(s, 8, 32).
  lemma ParseOctalExactly(text: string, n: int)
    ensures ParseOctal32(text) == Some(n) <==> OctalNumeral(text, n)
  {
    if IsOctal(text) {
      OctalValueReads(text);
    }
    if text != "" && IsOctal(text[1..]) {
      OctalValueReads(text[1..]);
    }
  }

  // The mode of an executable file.
  lemma Octal775()
    ensures ParseOctal32("775") == Some(509)
  {
    assert "775"[1..] == "75" && "75"[1..] == "5" && "5"[1..] == "";
    assert ReadFrom(8, "775", 0) == ReadFrom(8, "75", 7) == ReadFrom(8, "5", 63) == ReadFrom(8, "", 509) == 509;
    ParseOctalExactly("775", 509);
  }

  // ----- Lower case -----

  predicate Lowered(s: string, t: string) {
    && |s| == |t|
    && forall i :: 0 <= i < |s| ==> t[i] == if 'A' <= s[i] <= 'Z' then (s[i] as int + 32) as char else s[i]
  }

  lemma {:induction false} ToLowerExactly(s: string, t: string)
    ensures t == ToLower(s) <==> Lowered(s, t)
  {
    if s == "" {
    } else if t != "" {
      ToLowerExactly(s[1..], t[1..]);
      assert t == [t[0]] + t[1..];
      if Lowered(s, t) {
        assert t[0] == LowerChar(s[0]);
        forall i | 0 <= i < |s[1..]| ensures t[1..][i] == LowerChar(s[1..][i]) {
          assert t[i + 1] == LowerChar(s[i + 1]);
        }
      }
      if t == ToLower(s) {
        assert t[1..] == ToLower(s[1..]);
        forall i | 0 <= i < |s| ensures t[i] == LowerChar(s[i]) {
          if i > 0 {
            assert t[1..][i - 1] == LowerChar(s[1..][i - 1]);
          }
        }
      }
    }
  }

  // ----- Order -----

  // `a` is a prefix of `b`, or smaller where they differ first.
  ghost predicate NotAfter(a: string, b: string) {
    a <= b || exists k :: SmallerAt(a, b, k)
  }

  predicate SmallerAt(a: string, b: string, k: int) {
    0 <= k < |a| && k < |b| && a[..k] == b[..k] && a[k] < b[k]
  }

  lemma SameFront(a: string, b: string, k: int)
    requires SmallerAt(a, b, k)
    ensures k == 0 || a[0] == b[0]
  {
    if k > 0 {
      assert a[0] == a[..k][0];
    }
  }

  lemma {:induction false} LessEqExactly(a: string, b: string)
    ensures LessEq(a, b) <==> NotAfter(a, b)
  {
    if a == "" || b == "" {
    } else if a[0] != b[0] {
      if a[0] < b[0] {
        assert SmallerAt(a, b, 0);
      }
      if k :| SmallerAt(a, b, k) {
        SameFront(a, b, k);
      }
    } else {
      LessEqExactly(a[1..], b[1..]);
      assert a == [a[0]] + a[1..] && b == [b[0]] + b[1..];
      if k :| SmallerAt(a[1..], b[1..], k) {
        assert a[..k + 1] == [a[0]] + a[1..][..k] && b[..k + 1] == [b[0]] + b[1..][..k];
        assert SmallerAt(a, b, k + 1);
      }
      if k :| SmallerAt(a, b, k) {
        assert a[1..][..k - 1] == a[..k][1..] && b[1..][..k - 1] == b[..k][1..];
        assert SmallerAt(a[1..], b[1..], k - 1);
      }
    }
  }

  ghost predicate StrictlyAscending(names: seq<string>) {
    forall i, j :: 0 <= i < j < |names| ==> names[i] != names[j] && LessEq(names[i], names[j])
  }

  // The names in sort order.
  ghost predicate Lists(names: seq<string>, keys: set<string>) {
    StrictlyAscending(names) && forall n :: n in names <==> n in keys
  }

  lemma ListsExactly(names: seq<string>, keys: set<string>)
    ensures Lists(names, keys) <==> names == SortedKeys(keys)
  {
    SortedKeysMembers(keys);
    SortedKeysAscend(keys);
    SortedKeysEnumerate(keys);
    if Lists(names, keys) {
      DistinctEnumerates(names, keys);
      AscendingUnique(names, SortedKeys(keys));
    }
  }
}
