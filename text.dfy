/** String helpers the service detail screen relies on: JavaScript's
    `Array.prototype.join`, the decimal rendering of a number inside a
    template literal, ASCII upper-casing, and the search for the last
    occurrence of a character. */
module Text {

  datatype Option<+T> = None | Some(value: T)

  /** `xs.join(sep)`: the elements in order, `sep` between neighbours; the
      empty array joins to the empty string. */
  function Join(xs: seq<string>, sep: string): string
  {
    if |xs| == 0 then ""
    else if |xs| == 1 then xs[0]
    else Join(xs[..|xs| - 1], sep) + sep + xs[|xs| - 1]
  }

  /** Total length of the elements of `xs`. */
  function TotalLength(xs: seq<string>): nat
  {
    if |xs| == 0 then 0 else TotalLength(xs[..|xs| - 1]) + |xs[|xs| - 1]|
  }

  /** The length of a join is the total length of the elements plus one
      separator between each pair of neighbours. */
  lemma {:induction false} JoinLength(xs: seq<string>, sep: string)
    ensures |Join(xs, sep)| == TotalLength(xs) + (if |xs| == 0 then 0 else (|xs| - 1) * |sep|)
  {
    if |xs| > 1 {
      var init := xs[..|xs| - 1];
      JoinLength(init, sep);
      assert |init| == |xs| - 1;
      assert (|xs| - 2) * |sep| + |sep| == (|xs| - 1) * |sep|;
    } else if |xs| == 1 {
      assert TotalLength(xs[..0]) == 0;
    }
  }

  /** Where the element after `ys` starts when `ys` is followed by more
      elements: each element of `ys` and the separator after it. */
  function Offset(ys: seq<string>, sep: string): nat
  {
    if |ys| == 0 then 0 else Offset(ys[..|ys| - 1], sep) + |ys[|ys| - 1]| + |sep|
  }

  /** A non-empty join ends one separator short of the next offset. */
  lemma {:induction false} JoinEndsAtOffset(xs: seq<string>, sep: string)
    requires |xs| > 0
    ensures |Join(xs, sep)| + |sep| == Offset(xs, sep)
  {
    if |xs| > 1 {
      JoinEndsAtOffset(xs[..|xs| - 1], sep);
    } else {
      assert xs[..0] == [];
    }
  }

  /** The joined string holds element `i` at its offset, followed by the
      separator when another element comes after it. */
  lemma {:induction false} JoinSlices(xs: seq<string>, sep: string, i: nat)
    requires i < |xs|
    ensures Offset(xs[..i], sep) + |xs[i]| <= |Join(xs, sep)|
    ensures Join(xs, sep)[Offset(xs[..i], sep)..Offset(xs[..i], sep) + |xs[i]|] == xs[i]
    ensures i + 1 < |xs| ==>
      Offset(xs[..i], sep) + |xs[i]| + |sep| <= |Join(xs, sep)|
      && Join(xs, sep)[Offset(xs[..i], sep) + |xs[i]|..Offset(xs[..i], sep) + |xs[i]| + |sep|] == sep
  {
    var n := |xs|;
    if n == 1 {
      assert xs[..i] == [];
    } else {
      var init := xs[..n - 1];
      var j := Join(init, sep);
      assert Join(xs, sep) == j + sep + xs[n - 1];
      JoinEndsAtOffset(init, sep);
      if i == n - 1 {
        assert xs[..i] == init;
      } else {
        JoinSlices(init, sep, i);
        assert xs[..i] == init[..i];
        if i + 1 == n - 1 {
          assert init[..i + 1] == init;
          assert init[..i + 1][..i] == init[..i];
          assert Offset(xs[..i], sep) + |xs[i]| == |j|;
        }
      }
    }
  }

  predicate IsDigit(c: char)
  {
    '0' <= c <= '9'
  }

  predicate IsDigits(s: string)
  {
    forall i :: 0 <= i < |s| ==> IsDigit(s[i])
  }

  function DigitChar(d: nat): (c: char)
    requires d < 10
    ensures IsDigit(c) && c as int - '0' as int == d
  {
    ('0' as int + d) as char
  }

  /** Decimal rendering of a natural number, most significant digit first,
      without leading zeros. */
  function NatToString(n: nat): (s: string)
    ensures |s| > 0 && IsDigits(s)
    ensures |s| > 1 ==> s[0] != '0'
  {
    if n < 10 then [DigitChar(n)] else NatToString(n / 10) + [DigitChar(n % 10)]
  }

  /** Value of a string of decimal digits. */
  function DigitsValue(s: string): nat
    requires IsDigits(s)
  {
    if |s| == 0 then 0 else DigitsValue(s[..|s| - 1]) * 10 + (s[|s| - 1] as int - '0' as int)
  }

  /** `${n}` for an integral number: an optional minus sign and the digits
      of its magnitude. */
  function IntToString(n: int): string
  {
    if n < 0 then "-" + NatToString(-n) else NatToString(n)
  }

  /** Reads back what IntToString writes. */
  function ParseInt(s: string): Option<int>
  {
    if |s| > 1 && s[0] == '-' && IsDigits(s[1..]) then Some(0 - DigitsValue(s[1..]) as int)
    else if |s| > 0 && IsDigits(s) then Some(DigitsValue(s))
    else None
  }

  lemma {:induction false} NatToStringRoundTrip(n: nat)
    ensures DigitsValue(NatToString(n)) == n
  {
    if n >= 10 {
      NatToStringRoundTrip(n / 10);
      var s := NatToString(n);
      assert s[..|s| - 1] == NatToString(n / 10);
    }
  }

  /** The decimal rendering of a number is read back as that number. */
  lemma IntToStringRoundTrip(n: int)
    ensures ParseInt(IntToString(n)) == Some(n)
  {
    if n < 0 {
      NatToStringRoundTrip(-n);
      assert IntToString(n)[1..] == NatToString(-n);
    } else {
      NatToStringRoundTrip(n);
    }
  }

  /** No colon appears in the rendering of a number. */
  lemma IntToStringHasNoColon(n: int)
    ensures forall i :: 0 <= i < |IntToString(n)| ==> IntToString(n)[i] != ':'
  {
  }

  function UpperChar(c: char): char
  {
    if 'a' <= c <= 'z' then (c as int - 32) as char else c
  }

  /** `s.toUpperCase()` restricted to ASCII letters. */
  function ToUpper(s: string): (r: string)
    ensures |r| == |s|
    ensures forall i :: 0 <= i < |r| ==> !('a' <= r[i] <= 'z')
    ensures forall i :: 0 <= i < |r| ==> (r[i] == s[i] || ('a' <= s[i] <= 'z' && r[i] as int == s[i] as int - 32))
  {
    seq(|s|, i requires 0 <= i < |s| => UpperChar(s[i]))
  }

  /** Upper-casing twice is upper-casing once. */
  lemma ToUpperIdempotent(s: string)
    ensures ToUpper(ToUpper(s)) == ToUpper(s)
  {
  }

  /** Index of the last occurrence of `c` in `s`, if any. */
  function LastIndexOf(s: string, c: char): (r: Option<nat>)
    ensures r.Some? ==> r.value < |s| && s[r.value] == c
    ensures r.Some? ==> forall j :: r.value < j < |s| ==> s[j] != c
    ensures r.None? ==> forall j :: 0 <= j < |s| ==> s[j] != c
  {
    if |s| == 0 then None
    else if s[|s| - 1] == c then Some(|s| - 1)
    else LastIndexOf(s[..|s| - 1], c)
  }
}
