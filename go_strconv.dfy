/** The two Go library conversions the core relies on: `fmt.Sprintf("%d", n)` for the
    device name and `strconv.Atoi` for the device id taken from the request path.
    Go's `int` is 64 bits wide here, so values are kept in `Int64`. */
module GoStrconv {
  import opened Wrappers

  const Int64Min: int := -0x8000_0000_0000_0000
  const Int64Max: int := 0x7fff_ffff_ffff_ffff

  /** A Go `int` on a 64-bit platform. */
  type Int64 = x: int | -0x8000_0000_0000_0000 <= x <= 0x7fff_ffff_ffff_ffff

  predicate IsDigit(c: char) {
    '0' <= c <= '9'
  }

  predicate AllDigits(s: string) {
    forall i :: 0 <= i < |s| ==> IsDigit(s[i])
  }

  function DigitValue(c: char): (d: nat)
    requires IsDigit(c)
    ensures d < 10
  {
    (c as int) - ('0' as int)
  }

  function DigitChar(d: nat): (c: char)
    requires d < 10
    ensures IsDigit(c) && DigitValue(c) == d
  {
    (('0' as int) + d) as char
  }

  /** The decimal digits of `n`, most significant first, without leading zeros. */
  function Digits(n: nat): (s: string)
    ensures |s| >= 1 && AllDigits(s)
    ensures s[0] == '0' ==> n == 0
  {
    if n < 10 then [DigitChar(n)] else Digits(n / 10) + [DigitChar(n % 10)]
  }

  /** The number a non-empty or empty string of decimal digits denotes (leading zeros allowed). */
  function ValueOf(s: string): nat
    requires AllDigits(s)
  {
    if s == [] then 0 else ValueOf(s[..|s| - 1]) * 10 + DigitValue(s[|s| - 1])
  }

  /** `fmt.Sprintf("%d", n)`: an optional minus sign followed by the digits of |n|. */
  function FormatInt(n: int): (s: string)
    ensures |s| >= 1
    ensures s[0] == '-' <==> n < 0
    ensures n >= 0 ==> AllDigits(s)
  {
    if n < 0 then "-" + Digits(-n) else Digits(n)
  }

  /** `strconv.Atoi`: an optional `+` or `-`, then one or more decimal digits, whose value
      must fit in 64 bits; anything else is an error (`None`). */
  function Atoi(s: string): Option<Int64> {
    if |s| == 0 then None
    else
      var body := if s[0] == '-' || s[0] == '+' then s[1..] else s;
      if |body| == 0 || !AllDigits(body) then None
      else
        var v: int := if s[0] == '-' then -(ValueOf(body) as int) else ValueOf(body);
        if Int64Min <= v <= Int64Max then Some(v) else None
  }

  lemma {:induction false} DigitsValue(n: nat)
    ensures ValueOf(Digits(n)) == n
  {
    var s := Digits(n);
    if n < 10 {
      assert s[..|s| - 1] == [];
    } else {
      assert s[..|s| - 1] == Digits(n / 10);
      DigitsValue(n / 10);
    }
  }

  /** Parsing what `%d` printed gives the number back, for every 64-bit value. */
  lemma AtoiFormatInt(n: Int64)
    ensures Atoi(FormatInt(n)) == Some(n)
  {
    var s := FormatInt(n);
    if n < 0 {
      var d := Digits(-(n as int));
      assert s == "-" + d && s[1..] == d;
      DigitsValue(-(n as int));
    } else {
      var d := Digits(n);
      assert s == d && IsDigit(d[0]);
      DigitsValue(n);
    }
  }

  /** Two different 64-bit values never print alike. */
  lemma FormatIntInjective(a: Int64, b: Int64)
    requires FormatInt(a) == FormatInt(b)
    ensures a == b
  {
    AtoiFormatInt(a);
    AtoiFormatInt(b);
  }

  /** Atoi rejects the empty string and a lone sign. */
  lemma AtoiRejectsBareSign()
    ensures Atoi("") == None && Atoi("-") == None && Atoi("+") == None
  {
  }
}
