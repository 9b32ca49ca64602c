/** Record identifiers. The raw layer hands record IDs to the client as strings; update and
    delete convert them with Go's strconv.Atoi before anything else happens. */
module RecordIds {
  import opened Wrappers

  /** The range of Go's `int` on a 64-bit platform. */
  const MIN_INT: int := -0x8000_0000_0000_0000
  const MAX_INT: int := 0x7fff_ffff_ffff_ffff

  predicate IsDigit(c: char) {
    '0' <= c <= '9'
  }

  predicate AllDigits(s: string) {
    forall i :: 0 <= i < |s| ==> IsDigit(s[i])
  }

  /** The value of a string of decimal digits. */
  function DigitsValue(s: string): nat
    requires AllDigits(s)
  {
    if s == [] then 0 else 10 * DigitsValue(s[..|s| - 1]) + (s[|s| - 1] as int - '0' as int)
  }

  /** strconv.Atoi: an optional sign followed by at least one decimal digit, whose value
      fits Go's 64-bit `int`; anything else is refused. */
  function ParseRecordId(s: string): (r: Option<int>)
    ensures r.Some? ==> MIN_INT <= r.value <= MAX_INT
    ensures r.Some? ==> |s| > 0 && (IsDigit(s[0]) || s[0] == '-' || s[0] == '+')
    ensures r.Some? && IsDigit(s[0]) ==> AllDigits(s) && r.value == DigitsValue(s)
    ensures r.Some? && s[0] == '+' ==> |s| > 1 && AllDigits(s[1..]) && r.value == DigitsValue(s[1..])
    ensures r.Some? && s[0] == '-' ==> |s| > 1 && AllDigits(s[1..]) && r.value == 0 - DigitsValue(s[1..])
  {
    var body := if |s| > 0 && (s[0] == '-' || s[0] == '+') then s[1..] else s;
    if body == [] || !AllDigits(body) then None
    else
      assert IsDigit(s[|s| - 1]) by { assert s[|s| - 1] == body[|body| - 1]; }
      var v: int := if s[0] == '-' then 0 - (DigitsValue(body) as int) else DigitsValue(body);
      if MIN_INT <= v <= MAX_INT then Some(v) else None
  }

  /** The decimal digits of n, as strconv.Itoa writes them. */
  function Digits(n: nat): string {
    if n < 10 then [('0' as int + n) as char] else Digits(n / 10) + [('0' as int + n % 10) as char]
  }

  /** strconv.Itoa */
  function FormatInt(n: int): string {
    if n < 0 then "-" + Digits(-n) else Digits(n)
  }

  lemma {:induction false} DigitsValueOf(n: nat)
    ensures |Digits(n)| > 0 && AllDigits(Digits(n))
    ensures DigitsValue(Digits(n)) == n
    decreases n
  {
    if n >= 10 {
      DigitsValueOf(n / 10);
      var d := Digits(n);
      assert d[..|d| - 1] == Digits(n / 10);
    }
  }

  /** Atoi reads back exactly what Itoa writes, for every value of Go's `int`. */
  lemma ParseFormat(n: int)
    requires MIN_INT <= n <= MAX_INT
    ensures ParseRecordId(FormatInt(n)) == Some(n)
  {
    var s := FormatInt(n);
    if n < 0 {
      DigitsValueOf(-n);
      assert s[0] == '-' && s[1..] == Digits(-n);
    } else {
      DigitsValueOf(n);
      assert s == Digits(n) && IsDigit(s[0]);
      assert s[0] != '-' && s[0] != '+';
    }
  }

  /** Conversely, Atoi accepts every optionally signed run of decimal digits whose value fits
      Go's `int`, and reads its value. */
  lemma ParseRecordIdAccepts(sign: string, digits: string)
    requires sign == "" || sign == "+" || sign == "-"
    requires |digits| > 0 && AllDigits(digits)
    requires var v := if sign == "-" then 0 - DigitsValue(digits) else DigitsValue(digits);
             MIN_INT <= v <= MAX_INT
    ensures ParseRecordId(sign + digits)
              == Some(if sign == "-" then 0 - DigitsValue(digits) else DigitsValue(digits))
  {
    var s := sign + digits;
    if sign != "" {
      assert s[0] == sign[0] && s[1..] == digits;
    } else {
      assert s == digits && IsDigit(s[0]);
      assert s[0] != '-' && s[0] != '+';
    }
  }

  /** Atoi refuses an optionally signed run of digits whose value does not fit Go's `int`
      (strconv.ErrRange), so update and delete fail on such an ID before charging anything. */
  lemma ParseRecordIdRefuses(sign: string, digits: string)
    requires sign == "" || sign == "+" || sign == "-"
    requires |digits| > 0 && AllDigits(digits)
    requires var v := if sign == "-" then 0 - DigitsValue(digits) else DigitsValue(digits);
             v < MIN_INT || MAX_INT < v
    ensures ParseRecordId(sign + digits) == None
  {
    var s := sign + digits;
    if sign != "" {
      assert s[0] == sign[0] && s[1..] == digits;
    } else {
      assert s == digits && IsDigit(s[0]);
      assert s[0] != '-' && s[0] != '+';
    }
  }
}
