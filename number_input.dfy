/**
 * Reading an integer typed in reply to INPUT: trimming spaces and tabs, the
 * decimal-to-int32 converter, and the re-prompt loop over the pending replies.
 */
module NumberInput {
  import opened Wrappers
  import opened Text

  const Int32Min := -2147483648
  const Int32Max := 2147483647

  /** The largest magnitude the converter lets its accumulator reach before it gives up. */
  const Guard := 2147483648

  const InvalidNumber := "INVALID NUMBER"

  predicate AllDigits(d: string) {
    forall i :: 0 <= i < |d| ==> IsDigit(d[i])
  }

  /** The value of a digit string read left to right, as the converter accumulates it. */
  function DigitsValue(d: string): nat
    requires AllDigits(d)
  {
    if d == [] then 0 else DigitsValue(d[..|d| - 1]) * 10 + DigitValue(d[|d| - 1])
  }

  /** The length of an optional leading sign. */
  function SignLength(s: string): (n: nat)
    ensures n <= |s|
  {
    if s != [] && (s[0] == '+' || s[0] == '-') then 1 else 0
  }

  /**
   * What the converter accepts: an optional sign followed by at least one digit
   * and nothing else, whose signed value fits in 32 bits.
   */
  function ParseIntegerSpec(s: string): (r: Option<int>)
    ensures r.Some? ==> Int32Min <= r.value <= Int32Max
    ensures r.Some? ==> SignLength(s) < |s| && AllDigits(s[SignLength(s)..])
  {
    var digits := s[SignLength(s)..];
    if digits == [] || !AllDigits(digits) then
      None
    else
      var v: int := if s[0] == '-' then -(DigitsValue(digits) as int) else DigitsValue(digits);
      if Int32Min <= v <= Int32Max then Some(v) else None
  }

  /** Extending a digit string never lowers its value. */
  lemma {:induction false} DigitsValuePrefix(d: string, k: nat)
    requires AllDigits(d) && k <= |d|
    ensures AllDigits(d[..k]) && DigitsValue(d[..k]) <= DigitsValue(d)
    decreases |d|
  {
    if k < |d| {
      var init := d[..|d| - 1];
      assert init[..k] == d[..k];
      DigitsValuePrefix(init, k);
    } else {
      assert d[..k] == d;
    }
  }

  lemma DigitsValueSnoc(d: string, c: char)
    requires AllDigits(d) && IsDigit(c)
    ensures AllDigits(d + [c]) && DigitsValue(d + [c]) == DigitsValue(d) * 10 + DigitValue(c)
  {
    assert (d + [c])[..|d|] == d;
  }

  /**
   * The converter as the source writes it: sign, then a digit loop that gives up
   * on a non-digit or once the magnitude passes the guard, then the range check.
   */
  method ParseInteger(s: string) returns (ok: bool, out: int)
    ensures ok <==> ParseIntegerSpec(s).Some?
    ensures ok ==> out == ParseIntegerSpec(s).value
  {
    if |s| == 0 {
      return false, 0;
    }
    var i := 0;
    var neg := false;
    if s[0] == '+' || s[0] == '-' {
      neg := s[0] == '-';
      i := 1;
    }
    if i >= |s| {
      return false, 0;
    }
    var start := i;
    var val := 0;
    while i < |s|
      invariant start == SignLength(s) && start <= i <= |s|
      invariant AllDigits(s[start..i])
      invariant val == DigitsValue(s[start..i]) && val <= Guard
    {
      if !IsDigit(s[i]) {
        ParseIntegerRejects(s, i);
        return false, 0;
      }
      DigitStep(s, start, i);
      val := val * 10 + DigitValue(s[i]);
      if val > Guard {
        GuardRejects(s, start, i + 1);
        return false, 0;
      }
      i := i + 1;
    }
    assert s[start..i] == s[start..];
    var signedVal := if neg then -val else val;
    if signedVal < Int32Min || signedVal > Int32Max {
      return false, 0;
    }
    out := signedVal;
    ok := true;
  }

  lemma DigitStep(s: string, start: nat, i: nat)
    requires start <= i < |s| && AllDigits(s[start..i]) && IsDigit(s[i])
    ensures AllDigits(s[start..i + 1])
    ensures DigitsValue(s[start..i + 1]) == DigitsValue(s[start..i]) * 10 + DigitValue(s[i])
  {
    DigitsValueSnoc(s[start..i], s[i]);
    assert s[start..i] + [s[i]] == s[start..i + 1];
  }

  /** Digits after the sign whose value already passes the guard cannot convert. */
  lemma GuardRejects(s: string, start: nat, j: nat)
    requires start == SignLength(s) && start < j <= |s|
    requires AllDigits(s[start..j]) && DigitsValue(s[start..j]) > Guard
    ensures ParseIntegerSpec(s) == None
  {
    var d := s[start..];
    if AllDigits(d) {
      DigitsValuePrefix(d, j - start);
      forall k | 0 <= k < j - start ensures d[..j - start][k] == s[start..j][k] {
        assert d[k] == s[start + k];
      }
      assert d[..j - start] == s[start..j];
    }
  }

  /** The decimal digits of a natural number, most significant first. */
  function NatToDigits(n: nat): (d: string)
    decreases n
  {
    if n < 10 then [DigitChar(n)] else NatToDigits(n / 10) + [DigitChar(n % 10)]
  }

  /** The decimal text of an integer, with a leading '-' when it is negative. */
  function IntToString(n: int): string {
    if n < 0 then "-" + NatToDigits(-n) else NatToDigits(n)
  }

  lemma {:induction false} NatToDigitsValue(n: nat)
    ensures NatToDigits(n) != [] && AllDigits(NatToDigits(n)) && DigitsValue(NatToDigits(n)) == n
    decreases n
  {
    if n >= 10 {
      NatToDigitsValue(n / 10);
      DigitsValueSnoc(NatToDigits(n / 10), DigitChar(n % 10));
    }
  }

  /** Every 32-bit integer written in decimal is read back as itself. */
  lemma ParseIntegerRoundTrip(n: int)
    requires Int32Min <= n <= Int32Max
    ensures ParseIntegerSpec(IntToString(n)) == Some(n)
  {
    if n < 0 {
      NegativeText(-n);
    } else {
      UnsignedText(n);
    }
  }

  /** Unsigned digits carry no sign and read back as their value. */
  lemma UnsignedText(m: nat)
    ensures var t := NatToDigits(m);
      SignLength(t) == 0 && t != [] && AllDigits(t[0..]) && DigitsValue(t[0..]) == m && t[0] != '-'
  {
    var t := NatToDigits(m);
    NatToDigitsValue(m);
    assert t[0..] == t;
    assert IsDigit(t[0]);
  }

  /** A minus sign followed by the digits of m reads back as -m. */
  lemma NegativeText(m: nat)
    requires 0 < m <= Guard
    ensures ParseIntegerSpec("-" + NatToDigits(m)) == Some(-(m as int))
  {
    var t := "-" + NatToDigits(m);
    NatToDigitsValue(m);
    assert SignLength(t) == 1;
    assert t[1..] == NatToDigits(m);
    assert t[0] == '-';
  }

  /** The empty reply, a lone sign and a non-digit after the sign are all rejected. */
  lemma ParseIntegerRejects(s: string, i: nat)
    requires s == [] || s == "+" || s == "-" || (SignLength(s) <= i < |s| && !IsDigit(s[i]))
    ensures ParseIntegerSpec(s) == None
  {
    if s != [] && s != "+" && s != "-" {
      assert s[SignLength(s)..][i - SignLength(s)] == s[i];
    }
  }

  /** The ends of the 32-bit range: the least value is accepted, one past the greatest is not. */
  lemma ParseIntegerLimits()
    ensures ParseIntegerSpec("-2147483648") == Some(-2147483648)
    ensures ParseIntegerSpec("2147483647") == Some(2147483647)
    ensures ParseIntegerSpec("2147483648") == None
  {
    DecimalTexts();
    LeastInt32Text();
    UnsignedText(2147483647);
    UnsignedText(2147483648);
  }

  lemma LeastInt32Text()
    ensures ParseIntegerSpec("-2147483648") == Some(-2147483648)
  {
    DecimalTexts();
    assert "-2147483648" == "-" + NatToDigits(2147483648);
    NegativeText(2147483648);
  }

  lemma DecimalTexts()
    ensures NatToDigits(2147483648) == "2147483648"
    ensures NatToDigits(2147483647) == "2147483647"
  {
    assert NatToDigits(2) == "2";
    assert NatToDigits(21) == "21";
    assert NatToDigits(214) == "214";
    assert NatToDigits(2147) == "2147";
    assert NatToDigits(21474) == "21474";
    assert NatToDigits(214748) == "214748";
    assert NatToDigits(2147483) == "2147483";
    assert NatToDigits(21474836) == "21474836";
    assert NatToDigits(214748364) == "214748364";
  }

  function TrimLeft(s: string): (r: string)
    ensures |r| <= |s|
    ensures r != [] ==> !IsBlank(r[0])
  {
    if s != [] && IsBlank(s[0]) then TrimLeft(s[1..]) else s
  }

  function TrimRight(s: string): (r: string)
    ensures |r| <= |s|
    ensures r != [] ==> r[0] == s[0] && !IsBlank(r[|r| - 1])
  {
    if s != [] && IsBlank(s[|s| - 1]) then TrimRight(s[..|s| - 1]) else s
  }

  /** A reply without its leading and trailing spaces and tabs. */
  function Trimmed(s: string): (t: string)
    ensures |t| <= |s|
    ensures t != [] ==> !IsBlank(t[0]) && !IsBlank(t[|t| - 1])
  {
    TrimRight(TrimLeft(s))
  }

  lemma {:induction false} TrimLeftSlice(s: string) returns (l: nat)
    ensures l <= |s| && TrimLeft(s) == s[l..]
    ensures forall i :: 0 <= i < l ==> IsBlank(s[i])
    ensures l < |s| ==> !IsBlank(s[l])
  {
    if s != [] && IsBlank(s[0]) {
      var l' := TrimLeftSlice(s[1..]);
      l := l' + 1;
      assert s[1..][l'..] == s[l..];
      forall i | 0 < i < l ensures IsBlank(s[i]) {
        assert s[1..][i - 1] == s[i];
      }
    } else {
      l := 0;
    }
  }

  lemma {:induction false} TrimRightSlice(s: string) returns (r: nat)
    ensures r <= |s| && TrimRight(s) == s[..r]
    ensures forall i :: r <= i < |s| ==> IsBlank(s[i])
    ensures r > 0 ==> !IsBlank(s[r - 1])
    decreases |s|
  {
    if s != [] && IsBlank(s[|s| - 1]) {
      r := TrimRightSlice(s[..|s| - 1]);
      assert s[..|s| - 1][..r] == s[..r];
    } else {
      r := |s|;
    }
  }

  /**
   * The trimmed reply is the slice of the reply between the first and the last
   * character that is not a space or a tab; everything outside it is blank.
   */
  lemma TrimmedSlice(s: string) returns (l: nat, r: nat)
    ensures l <= r <= |s| && Trimmed(s) == s[l..r]
    ensures forall i :: 0 <= i < l ==> IsBlank(s[i])
    ensures forall i :: r <= i < |s| ==> IsBlank(s[i])
    ensures l < r ==> !IsBlank(s[l]) && !IsBlank(s[r - 1])
  {
    l := TrimLeftSlice(s);
    var r' := TrimRightSlice(s[l..]);
    r := l + r';
    assert s[l..][..r'] == s[l..r];
    forall i | r <= i < |s| ensures IsBlank(s[i]) {
      assert s[l..][i - l] == s[i];
    }
  }

  /** The two scans of the source: skip blanks from the left, then from the right. */
  method Trim(line: string) returns (t: string)
    ensures t == Trimmed(line)
  {
    var l, r := 0, |line|;
    while l < r && IsBlank(line[l])
      invariant 0 <= l <= r == |line|
      invariant TrimLeft(line[l..]) == TrimLeft(line)
    {
      TrimLeftStep(line, l);
      l := l + 1;
    }
    TrimLeftStop(line, l);
    while r > l && IsBlank(line[r - 1])
      invariant l <= r <= |line|
      invariant TrimRight(line[l..r]) == Trimmed(line)
    {
      TrimRightStep(line, l, r);
      r := r - 1;
    }
    t := line[l..r];
  }

  lemma TrimLeftStep(line: string, l: nat)
    requires l < |line| && IsBlank(line[l])
    ensures TrimLeft(line[l..]) == TrimLeft(line[l + 1..])
  {
    assert line[l..][1..] == line[l + 1..];
  }

  lemma TrimLeftStop(line: string, l: nat)
    requires l <= |line| && (l == |line| || !IsBlank(line[l]))
    ensures TrimLeft(line[l..]) == line[l..|line|]
  {
    assert line[l..] == line[l..|line|];
  }

  lemma TrimRightStep(line: string, l: nat, r: nat)
    requires l < r <= |line| && IsBlank(line[r - 1])
    ensures TrimRight(line[l..r]) == TrimRight(line[l..r - 1])
  {
    assert line[l..r][..r - 1 - l] == line[l..r - 1];
  }

  /**
   * The re-prompt loop of INPUT over the replies still to come: each reply is
   * trimmed and converted; the first one that converts is the value and the
   * replies after it remain. When the replies run out there is no value and none remain.
   */
  function ReadValue(input: seq<string>): (r: (Option<int>, seq<string>))
    ensures r.0.None? ==> r.1 == []
    ensures r.0.Some? ==> Int32Min <= r.0.value <= Int32Max && |r.1| < |input|
    ensures |r.1| <= |input| && r.1 == input[|input| - |r.1|..]
    decreases |input|
  {
    if input == [] then
      (None, [])
    else
      match ParseIntegerSpec(Trimmed(input[0]))
      case Some(v) => (Some(v), input[1..])
      case None => ReadValue(input[1..])
  }

  /** The first reply whose trimmed text converts gives the value; the replies before it are skipped. */
  lemma {:induction false} ReadValueFirstValid(input: seq<string>, k: nat)
    requires k < |input|
    requires forall j :: 0 <= j < k ==> ParseIntegerSpec(Trimmed(input[j])).None?
    requires ParseIntegerSpec(Trimmed(input[k])).Some?
    ensures ReadValue(input) == (ParseIntegerSpec(Trimmed(input[k])), input[k + 1..])
    decreases k
  {
    if k > 0 {
      var tail := input[1..];
      assert tail[k - 1] == input[k];
      assert tail[k..] == input[k + 1..];
      forall j | 0 <= j < k - 1 ensures ParseIntegerSpec(Trimmed(tail[j])).None? {
        assert tail[j] == input[j + 1];
      }
      ReadValueFirstValid(tail, k - 1);
    }
  }

  /** The re-prompt loop as the source runs it: one reply per turn until one converts. */
  method ReadInteger(replies: seq<string>) returns (value: Option<int>, rest: seq<string>)
    ensures (value, rest) == ReadValue(replies)
  {
    rest := replies;
    while rest != []
      invariant ReadValue(rest) == ReadValue(replies)
    {
      var t := Trim(rest[0]);
      var ok, v := ParseInteger(t);
      if ok {
        return Some(v), rest[1..];
      }
      rest := rest[1..];
    }
    value := None;
  }
}
