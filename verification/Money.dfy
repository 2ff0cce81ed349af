/** backend/src/lib/money.ts: printing ngwe amounts as "K1,020.00" and parsing them back. */
module Money {
  import opened Common

  const NGWE_PER_KWACHA: nat := 100
  const KWACHA_DECIMALS: nat := 2

  // ---- decimal strings ----

  predicate IsDigit(c: char) { '0' <= c <= '9' }

  predicate AllDigits(s: string) {
    forall i :: 0 <= i < |s| ==> IsDigit(s[i])
  }

  function DigitChar(d: nat): (c: char)
    requires d < 10
    ensures IsDigit(c)
  {
    "0123456789"[d]
  }

  function DigitValue(c: char): (d: nat)
    requires IsDigit(c)
    ensures d < 10 && DigitChar(d) == c
  {
    (c as int - '0' as int) as nat
  }

  /** toString of a non-negative integer. */
  function Digits(n: nat): (s: string)
    ensures |s| >= 1 && AllDigits(s) && (n < 10 ==> |s| == 1)
  {
    if n < 10 then [DigitChar(n)] else Digits(n / 10) + [DigitChar(n % 10)]
  }

  /** BigInt of a digit string. */
  function Value(s: string): nat
    requires AllDigits(s)
  {
    if s == "" then 0 else 10 * Value(s[..|s| - 1]) + DigitValue(s[|s| - 1])
  }

  lemma {:induction false} ValueOfDigits(n: nat)
    ensures Value(Digits(n)) == n
  {
    assert forall d: nat :: d < 10 ==> DigitValue(DigitChar(d)) == d;
    if n >= 10 {
      ValueOfDigits(n / 10);
      assert Digits(n)[..|Digits(n)| - 1] == Digits(n / 10);
    }
  }

  function PadStart(s: string, width: nat): string
    decreases width - |s|
  {
    if |s| >= width then s else PadStart("0" + s, width)
  }

  // ---- grouping ----

  predicate IsWord(c: char) { IsDigit(c) || 'a' <= c <= 'z' || 'A' <= c <= 'Z' || c == '_' }

  /** No word boundary at position i. */
  predicate Inside(s: string, i: nat)
    requires i <= |s|
  {
    (i > 0 && IsWord(s[i - 1])) == (i < |s| && IsWord(s[i]))
  }

  /** From position i follow one or more groups of three digits, and then no digit. */
  predicate GroupsAhead(s: string, i: nat)
    requires i <= |s|
  {
    exists j :: 1 <= j <= |s| && i + 3 * j <= |s| && AllDigits(s[i..i + 3 * j])
      && !(i + 3 * j < |s| && IsDigit(s[i + 3 * j]))
  }

  /** The replacement with a global match, from position i on. */
  function CommasFrom(s: string, i: nat): string
    requires i <= |s|
    decreases |s| - i
  {
    (if Inside(s, i) && GroupsAhead(s, i) then "," else "") + (if i < |s| then [s[i]] + CommasFrom(s, i + 1) else "")
  }

  function FormatThousands(s: string): string {
    CommasFrom(s, 0)
  }

  /** Groups of three digits, counted from the right and separated by commas. */
  function Grouped(s: string): string {
    if |s| <= 3 then s else Grouped(s[..|s| - 3]) + "," + s[|s| - 3..]
  }

  lemma CommaPlaces(s: string, i: nat)
    requires AllDigits(s) && i <= |s|
    ensures Inside(s, i) && GroupsAhead(s, i) <==> 0 < i < |s| && (|s| - i) % 3 == 0
  {
    if 0 < i < |s| && (|s| - i) % 3 == 0 {
      var j := (|s| - i) / 3;
      assert i + 3 * j == |s| && AllDigits(s[i..i + 3 * j]);
    }
  }

  /** The comma before the last `left` digits, if a group starts there. */
  function Comma(left: int): string {
    if left > 0 && left % 3 == 0 then "," else ""
  }

  /** From a position on, the commas stand where the number of digits left is a multiple of three. */
  lemma {:induction false} CommasAreGroups(s: string, i: nat)
    requires AllDigits(s) && i <= |s|
    ensures CommasFrom(s, i) == (if i > 0 then Comma(|s| - i) else "") + Tail(s, i)
    decreases |s| - i
  {
    hide CommasFrom, Tail, Comma, AllDigits;
    CommasStep(s, i);
    if i < |s| {
      CommasAreGroups(s, i + 1);
      TailStep(s, i);
      Regroup("", [s[i]], Comma(|s| - i - 1), Tail(s, i + 1));
    } else {
      TailEnd(s);
    }
  }

  lemma CommasStep(s: string, i: nat)
    requires AllDigits(s) && i <= |s|
    ensures CommasFrom(s, i)
            == (if i > 0 then Comma(|s| - i) else "") + if i < |s| then [s[i]] + CommasFrom(s, i + 1) else ""
  {
    hide Inside, GroupsAhead, AllDigits;
    CommaPlaces(s, i);
  }

  /** The digits from i on, with a comma before each later group. */
  function Tail(s: string, i: nat): string
    requires i <= |s|
    decreases |s| - i
  {
    if i == |s| then "" else [s[i]] + Comma(|s| - i - 1) + Tail(s, i + 1)
  }

  lemma TailStep(s: string, i: nat)
    requires i < |s|
    ensures Tail(s, i) == [s[i]] + Comma(|s| - i - 1) + Tail(s, i + 1)
  {
  }

  lemma TailEnd(s: string)
    ensures Tail(s, |s|) == ""
  {
  }

  lemma Regroup(head: string, a: string, b: string, c: string)
    ensures head + ((a + b) + c) == ((head + a) + b) + c
  {
  }

  lemma {:induction false} TailSplits(s: string, i: nat)
    requires |s| > 3 && i < |s| - 3
    ensures Tail(s, i) == Tail(s[..|s| - 3], i) + "," + s[|s| - 3..]
    decreases |s| - i
  {
    hide Comma, Tail;
    var front, last := s[..|s| - 3], s[|s| - 3..];
    CommaShift(|front| - i - 1);
    TailStep(s, i);
    TailStep(front, i);
    if i + 1 < |front| {
      TailSplits(s, i + 1);
      Regroup([s[i]] + Comma(|front| - i - 1), Tail(front, i + 1), ",", last);
    } else {
      ShortTail(s, i + 1);
      ShortTail(front, i + 1);
    }
  }

  lemma CommaShift(left: nat)
    ensures Comma(left + 3) == (if left == 0 then "," else Comma(left)) && Comma(0) == Comma(1) == Comma(2) == ""
  {
  }

  lemma {:induction false} ShortTail(s: string, i: nat)
    requires i <= |s| <= i + 3
    ensures Tail(s, i) == s[i..]
    decreases |s| - i
  {
    CommaShift(0);
    hide Comma;
    if i < |s| {
      ShortTail(s, i + 1);
      assert s[i..] == [s[i]] + s[i + 1..];
    }
  }

  lemma {:induction false} TailIsGrouped(s: string)
    ensures Tail(s, 0) == Grouped(s)
    decreases |s|
  {
    if |s| <= 3 {
      ShortTail(s, 0);
    } else {
      TailSplits(s, 0);
      TailIsGrouped(s[..|s| - 3]);
    }
  }

  /** The regular expression groups by three from the right, whatever the number of digits. */
  lemma ThousandsAreGrouped(s: string)
    requires AllDigits(s)
    ensures FormatThousands(s) == Grouped(s)
  {
    CommasAreGroups(s, 0);
    TailIsGrouped(s);
  }

  /** The character with d characters to its right. */
  function FromRight(s: string, d: nat): char
    requires d < |s|
  {
    s[|s| - 1 - d]
  }

  /** Counted from the right, exactly every fourth character is a comma. */
  lemma CommaPattern(s: string)
    requires AllDigits(s)
    ensures var g := FormatThousands(s);
      && |g| == |s| + (if s == "" then 0 else (|s| - 1) / 3)
      && forall d :: 0 <= d < |g| ==> (FromRight(g, d) == ',' <==> d % 4 == 3)
  {
    hide FormatThousands, Grouped;
    ThousandsAreGrouped(s);
    GroupedPattern(s);
  }

  lemma {:induction false} GroupedPattern(s: string)
    requires AllDigits(s)
    ensures |Grouped(s)| == |s| + if s == "" then 0 else (|s| - 1) / 3
    ensures forall d :: 0 <= d < |Grouped(s)| ==> (FromRight(Grouped(s), d) == ',' <==> d % 4 == 3)
    decreases |s|
  {
    var g := Grouped(s);
    if |s| > 3 {
      var front, last := s[..|s| - 3], s[|s| - 3..];
      var h := Grouped(front);
      GroupedPattern(front);
      assert g == h + "," + last && AllDigits(last);
      hide Grouped;
      forall d | 0 <= d < |g| ensures FromRight(g, d) == ',' <==> d % 4 == 3 {
        assert FromRight(g, d) == if d < 3 then last[2 - d] else if d == 3 then ',' else FromRight(h, d - 4);
      }
    } else {
      forall d | 0 <= d < |g| ensures FromRight(g, d) != ',' { assert IsDigit(FromRight(s, d)); }
    }
  }

  // ---- printing and parsing ----

  function FormatNgwe(amount: int): string {
    var sign := if amount < 0 then "-" else "";
    var abs: nat := if amount < 0 then -amount else amount;
    sign + "K" + FormatThousands(Digits(abs / NGWE_PER_KWACHA)) + "."
      + PadStart(Digits(abs % NGWE_PER_KWACHA), KWACHA_DECIMALS)
  }

  /** What String.prototype.trim removes: the white space and line terminators of ECMA-262. */
  predicate IsSpace(c: char) {
    || '\U{0009}' <= c <= '\U{000D}' || c == ' ' || c == '\U{00A0}' || c == '\U{1680}' || '\U{2000}' <= c <= '\U{200A}'
    || c == '\U{2028}' || c == '\U{2029}' || c == '\U{202F}' || c == '\U{205F}' || c == '\U{3000}' || c == '\U{FEFF}'
  }

  function TrimStart(s: string): string {
    if s != "" && IsSpace(s[0]) then TrimStart(s[1..]) else s
  }

  function TrimEnd(s: string): string {
    if s != "" && IsSpace(s[|s| - 1]) then TrimEnd(s[..|s| - 1]) else s
  }

  function Trim(s: string): string {
    TrimEnd(TrimStart(s))
  }

  function StripCurrency(s: string): string {
    if s != "" && (s[0] == 'K' || s[0] == 'k') then s[1..] else s
  }

  function RemoveCommas(s: string): (r: string)
    ensures ',' !in r
  {
    if s == "" then "" else RemoveCommas(s[..|s| - 1]) + if s[|s| - 1] == ',' then "" else [s[|s| - 1]]
  }

  function Cleaned(input: string): string {
    Trim(RemoveCommas(StripCurrency(Trim(input))))
  }

  /** The position of the first full stop, or the length. */
  function PointAt(s: string): (p: nat)
    ensures p <= |s| && (forall i :: 0 <= i < p ==> s[i] != '.') && (p < |s| ==> s[p] == '.')
  {
    if s == "" || s[0] == '.' then 0 else 1 + PointAt(s[1..])
  }

  function Whole(s: string): string { s[..PointAt(s)] }

  function Fraction(s: string): string {
    if PointAt(s) < |s| then s[PointAt(s) + 1..] else ""
  }

  /** One or more digits, optionally followed by a full stop and one or two digits. */
  predicate IsAmount(s: string) {
    && |Whole(s)| >= 1 && AllDigits(Whole(s))
    && (PointAt(s) < |s| ==> 1 <= |Fraction(s)| <= 2) && AllDigits(Fraction(s))
  }

  datatype ParseError = InvalidAmount

  /** The value of a cleaned amount: missing decimals count as zeros. */
  function Amount(s: string): nat
    requires IsAmount(s)
  {
    var padded := (Fraction(s) + "00")[..KWACHA_DECIMALS];
    assert AllDigits(padded);
    Value(Whole(s)) * NGWE_PER_KWACHA + Value(padded)
  }

  function ParseNgwe(input: string): Result<nat, ParseError> {
    if IsAmount(Cleaned(input)) then Success(Amount(Cleaned(input))) else Failure(InvalidAmount)
  }

  // ---- round trips ----

  lemma TrimKeeps(s: string)
    requires s != "" && !IsSpace(s[0]) && !IsSpace(s[|s| - 1])
    ensures Trim(s) == s
  {
  }

  lemma {:induction false} RemoveCommasConcat(a: string, b: string)
    ensures RemoveCommas(a + b) == RemoveCommas(a) + RemoveCommas(b)
  {
    if b == "" {
      assert a + b == a;
    } else {
      var front, last := b[..|b| - 1], b[|b| - 1];
      RemoveCommasConcat(a, front);
      assert (a + b)[..|a + b| - 1] == a + front && (a + b)[|a + b| - 1] == last;
      assert RemoveCommas(a + b) == RemoveCommas(a + front) + if last == ',' then "" else [last];
    }
  }

  lemma {:induction false} RemoveCommasKeeps(s: string)
    requires ',' !in s
    ensures RemoveCommas(s) == s
  {
    if s != "" {
      assert s[|s| - 1] in s;
      assert forall c :: c in s[..|s| - 1] ==> c in s;
      RemoveCommasKeeps(s[..|s| - 1]);
      assert s == s[..|s| - 1] + [s[|s| - 1]];
    }
  }

  lemma DigitsHaveNoComma(s: string)
    requires AllDigits(s)
    ensures ',' !in s && '.' !in s
  {
  }

  /** Removing the commas undoes the grouping, whatever the number of digits. */
  lemma GroupingIsUndone(s: string)
    requires AllDigits(s)
    ensures RemoveCommas(FormatThousands(s)) == s
  {
    hide FormatThousands, Grouped, RemoveCommas;
    ThousandsAreGrouped(s);
    GroupedUndone(s);
  }

  lemma {:induction false} GroupedUndone(s: string)
    requires AllDigits(s)
    ensures RemoveCommas(Grouped(s)) == s
    decreases |s|
  {
    hide RemoveCommas;
    DigitsHaveNoComma(s);
    if |s| <= 3 {
      RemoveCommasKeeps(s);
    } else {
      var front, last := s[..|s| - 3], s[|s| - 3..];
      GroupedUndone(front);
      DigitsHaveNoComma(last);
      RemoveCommasKeeps(last);
      RemoveCommasConcat(Grouped(front), ",");
      RemoveCommasConcat(Grouped(front) + ",", last);
      LoneComma();
    }
  }

  lemma LoneComma()
    ensures RemoveCommas(",") == "" && RemoveCommas(".") == "."
  {
    assert ","[..0] == "" && "."[..0] == "";
  }

  function Cents(f: nat): string
    requires f < NGWE_PER_KWACHA
  {
    PadStart(Digits(f), KWACHA_DECIMALS)
  }

  lemma CentsFacts(f: nat)
    requires f < NGWE_PER_KWACHA
    ensures |Cents(f)| == 2 && AllDigits(Cents(f)) && Value(Cents(f)) == f
  {
    var d := Digits(f);
    ValueOfDigits(f);
    if f < 10 {
      assert Cents(f) == "0" + d == ['0', d[0]];
      assert Cents(f)[..1] == "0" && Value("0") == 0 by { assert "0"[..0] == ""; }
      assert d[..0] == "";
    } else {
      assert |Digits(f / 10)| == 1;
      assert Cents(f) == d;
    }
  }

  lemma FirstPoint(w: string, f: string)
    requires AllDigits(w)
    ensures PointAt(w + "." + f) == |w|
  {
    var s := w + "." + f;
    var p := PointAt(s);
    assert s[|w|] == '.';
    assert forall i :: 0 <= i < |w| ==> s[i] == w[i] && IsDigit(w[i]);
  }

  lemma PrefixStripped(body: string)
    requires body != "" && IsDigit(body[|body| - 1])
    ensures StripCurrency(Trim("K" + body)) == body
  {
    var s := "K" + body;
    assert s[|s| - 1] == body[|body| - 1];
    TrimKeeps(s);
  }

  lemma CommasRemoved(w: string, f: string)
    requires AllDigits(w) && AllDigits(f)
    ensures RemoveCommas(FormatThousands(w) + "." + f) == w + "." + f
  {
    hide RemoveCommas, FormatThousands;
    var g := FormatThousands(w);
    GroupingIsUndone(w);
    DigitsHaveNoComma(f);
    RemoveCommasKeeps(f);
    RemoveCommasConcat(g, ".");
    RemoveCommasConcat(g + ".", f);
    LoneComma();
  }

  lemma CleanedFormat(w: string, f: string)
    requires AllDigits(w) && w != "" && AllDigits(f) && f != ""
    ensures Cleaned("K" + FormatThousands(w) + "." + f) == w + "." + f
  {
    hide RemoveCommas, FormatThousands, Trim, StripCurrency, IsSpace;
    var body, r := FormatThousands(w) + "." + f, w + "." + f;
    assert "K" + FormatThousands(w) + "." + f == "K" + body;
    assert IsDigit(f[|f| - 1]) && body[|body| - 1] == f[|f| - 1] && IsDigit(w[0]);
    PrefixStripped(body);
    CommasRemoved(w, f);
    DigitIsNoSpace(w[0]);
    DigitIsNoSpace(f[|f| - 1]);
    assert r[0] == w[0] && r[|r| - 1] == f[|f| - 1];
    TrimKeeps(r);
  }

  lemma DigitIsNoSpace(c: char)
    requires IsDigit(c)
    ensures !IsSpace(c)
  {
  }

  lemma TwoDecimals(w: string, f: string)
    requires AllDigits(w) && w != "" && AllDigits(f) && |f| == 2
    ensures var s := w + "." + f; IsAmount(s) && Amount(s) == Value(w) * NGWE_PER_KWACHA + Value(f)
  {
    hide Value;
    FirstPoint(w, f);
    var s := w + "." + f;
    assert s[..|w|] == w && s[|w| + 1..] == f && (f + "00")[..2] == f;
  }

  lemma ParseFormatted(x: nat)
    ensures ParseNgwe(FormatNgwe(x)) == Success(x)
  {
    hide Digits, Cents, FormatThousands, FormatNgwe, ParseNgwe, Value, AllDigits;
    FormatIs(x);
    CentsFacts(x % NGWE_PER_KWACHA);
    ValueOfDigits(x / NGWE_PER_KWACHA);
    ParseParts(Digits(x / NGWE_PER_KWACHA), Cents(x % NGWE_PER_KWACHA));
  }

  lemma ParseParts(w: string, c: string)
    requires AllDigits(w) && w != "" && AllDigits(c) && |c| == 2
    ensures ParseNgwe("K" + FormatThousands(w) + "." + c) == Success(Value(w) * NGWE_PER_KWACHA + Value(c))
  {
    hide FormatThousands, ParseNgwe, Cleaned, Value, IsAmount, Amount, AllDigits;
    CleanedFormat(w, c);
    TwoDecimals(w, c);
    ParseIs("K" + FormatThousands(w) + "." + c);
  }

  lemma FormatIs(x: nat)
    ensures FormatNgwe(x) == "K" + FormatThousands(Digits(x / NGWE_PER_KWACHA)) + "." + Cents(x % NGWE_PER_KWACHA)
  {
  }

  lemma ParseIs(input: string)
    requires IsAmount(Cleaned(input))
    ensures ParseNgwe(input) == Success(Amount(Cleaned(input)))
  {
  }

  lemma NegativeFormat(x: int)
    requires x < 0
    ensures FormatNgwe(x) == "-" + FormatNgwe(-x)
  {
  }

  lemma {:induction false} RemoveCommasStart(s: string)
    requires s != "" && s[0] == '-'
    ensures RemoveCommas(s) != "" && RemoveCommas(s)[0] == '-'
  {
    if |s| > 1 {
      RemoveCommasStart(s[..|s| - 1]);
    } else {
      assert s == "-" && s[..0] == "";
    }
  }

  lemma {:induction false} TrimEndStart(s: string)
    requires s != "" && s[0] == '-'
    ensures TrimEnd(s) != "" && TrimEnd(s)[0] == '-'
  {
    if |s| > 1 && IsSpace(s[|s| - 1]) { TrimEndStart(s[..|s| - 1]); }
  }

  lemma MinusIsRefused(s: string)
    requires s != "" && s[0] == '-'
    ensures ParseNgwe(s) == Failure(InvalidAmount)
  {
    TrimEndStart(s);
    var t := Trim(s);
    RemoveCommasStart(t);
    TrimEndStart(RemoveCommas(t));
    var c := Cleaned(s);
    assert c[0] == '-' && PointAt(c) >= 1 && Whole(c)[0] == '-';
  }

  /** The round trip, on every amount: a formatted amount parses, and parses to itself, exactly when it is not
      negative. A formatted debt is refused. */
  lemma RoundTrip(x: int)
    ensures x >= 0 ==> ParseNgwe(FormatNgwe(x)) == Success(x)
    ensures x < 0 ==> ParseNgwe(FormatNgwe(x)) == Failure(InvalidAmount)
  {
    if x >= 0 {
      ParseFormatted(x);
    } else {
      NegativeFormat(x);
      MinusIsRefused(FormatNgwe(x));
    }
  }

  /** Formatting loses nothing: different amounts, negative ones included, print differently. */
  lemma FormatIsInjective(x: int, y: int)
    requires FormatNgwe(x) == FormatNgwe(y)
    ensures x == y
  {
    hide FormatNgwe, ParseNgwe;
    RoundTrip(x);
    RoundTrip(y);
    if x < 0 {
      NegativeFormat(x);
      NegativeFormat(y);
      assert FormatNgwe(-x) == FormatNgwe(x)[1..] && FormatNgwe(-y) == FormatNgwe(y)[1..];
      ParseFormatted(-x);
      ParseFormatted(-y);
    }
  }

  /** Whatever spelling of an amount is accepted, printing the parsed value and parsing again gives the same value. */
  lemma ParseIsStable(input: string)
    requires ParseNgwe(input).Success?
    ensures ParseNgwe(FormatNgwe(ParseNgwe(input).value)) == ParseNgwe(input)
  {
    ParseFormatted(ParseNgwe(input).value);
  }

  /** Spelling does not matter: surrounding white space, a currency prefix, white space after it and commas
      anywhere change nothing. */
  lemma SpellingIsIgnored(input: string)
    requires ParseNgwe(input).Success?
    ensures ParseNgwe(Cleaned(input)) == ParseNgwe(input)
  {
    var c := Cleaned(input);
    assert IsAmount(c);
    CleanedAgain(c);
  }

  lemma CleanedAgain(c: string)
    requires IsAmount(c)
    ensures Cleaned(c) == c
  {
    hide IsAmount, RemoveCommas, IsSpace, Trim;
    DigitsEverywhere(c);
    DigitIsNoSpace(c[0]);
    DigitIsNoSpace(c[|c| - 1]);
    TrimKeeps(c);
    RemoveCommasKeeps(c);
  }

  lemma DigitsEverywhere(c: string)
    requires IsAmount(c)
    ensures c != "" && IsDigit(c[0]) && IsDigit(c[|c| - 1]) && ',' !in c
  {
    assert c[0] == Whole(c)[0];
    var p := PointAt(c);
    if p < |c| {
      assert c[|c| - 1] == Fraction(c)[|Fraction(c)| - 1];
      forall i | 0 <= i < |c| ensures c[i] != ',' {
        if i < p { assert IsDigit(Whole(c)[i]); } else if i > p { assert IsDigit(Fraction(c)[i - p - 1]); }
      }
    } else {
      assert c == Whole(c);
    }
  }

  /** One decimal counts tens of ngwe, and none counts whole kwacha. */
  lemma ShortFractions(w: string, d: char)
    requires w != "" && AllDigits(w) && IsDigit(d)
    ensures ParseNgwe(w) == ParseNgwe(w + ".00") == Success(Value(w) * NGWE_PER_KWACHA)
    ensures ParseNgwe(w + "." + [d]) == ParseNgwe(w + "." + [d, '0'])
      == Success(Value(w) * NGWE_PER_KWACHA + 10 * DigitValue(d))
  {
    hide ParseNgwe, Value, IsAmount, Amount;
    NoDecimals(w);
    OneDecimal(w, d);
    TwoDigits('0', '0');
    TwoDigits(d, '0');
    TwoDecimals(w, "00");
    TwoDecimals(w, [d, '0']);
    assert w + "." + "00" == w + ".00" && DigitValue('0') == 0;
    ParseCleaned(w);
    ParseCleaned(w + ".00");
    ParseCleaned(w + "." + [d]);
    ParseCleaned(w + "." + [d, '0']);
  }

  lemma ParseCleaned(s: string)
    requires IsAmount(s)
    ensures ParseNgwe(s) == Success(Amount(s))
  {
    hide IsAmount, Amount;
    CleanedAgain(s);
  }

  lemma TwoDigits(a: char, b: char)
    requires IsDigit(a) && IsDigit(b)
    ensures AllDigits([a, b]) && Value([a, b]) == 10 * DigitValue(a) + DigitValue(b)
  {
    assert [a, b][..1] == [a] && [a][..0] == "";
    assert Value([a]) == DigitValue(a);
  }

  lemma NoDecimals(w: string)
    requires w != "" && AllDigits(w)
    ensures IsAmount(w) && Amount(w) == Value(w) * NGWE_PER_KWACHA
  {
    DigitsHaveNoComma(w);
    assert PointAt(w) == |w| && w[..|w|] == w;
    TwoDigits('0', '0');
    hide Value;
    assert ("" + "00")[..2] == ['0', '0'];
  }

  lemma OneDecimal(w: string, d: char)
    requires w != "" && AllDigits(w) && IsDigit(d)
    ensures var s := w + "." + [d]; IsAmount(s) && Amount(s) == Value(w) * NGWE_PER_KWACHA + 10 * DigitValue(d)
  {
    TwoDigits(d, '0');
    hide Value;
    var s := w + "." + [d];
    FirstPoint(w, [d]);
    assert s[..|w|] == w && s[|w| + 1..] == [d] && ([d] + "00")[..2] == [d, '0'];
  }

  // ---- the forms, spelled out ----

  /** The whole kwacha without leading zeros, and two digits for the ngwe. */
  predicate Denotes(w: string, c: string, n: nat) {
    && AllDigits(w) && w != "" && (|w| == 1 || w[0] != '0') && AllDigits(c) && |c| == 2
    && 100 * Value(w) + Value(c) == n
  }

  predicate Prints(s: string, x: int, w: string, c: string) {
    Denotes(w, c, if x < 0 then -x else x) && s == (if x < 0 then "-" else "") + "K" + Grouped(w) + "." + c
  }

  /** A printed amount: the sign of a debt, K, the kwacha in groups of three, a full stop and the ngwe. */
  lemma PrintedForm(x: int)
    ensures exists w, c :: Prints(FormatNgwe(x), x, w, c)
  {
    hide Digits, Cents, FormatThousands, FormatNgwe, Value, AllDigits, Grouped;
    var n: nat := if x < 0 then -x else x;
    var w, c := Digits(n / 100), Cents(n % 100);
    FormatIs(n);
    CentsFacts(n % 100);
    ValueOfDigits(n / 100);
    NoLeadingZero(n / 100);
    ThousandsAreGrouped(w);
    assert FormatNgwe(n) == "K" + Grouped(w) + "." + c;
    if x < 0 { NegativeFormat(x); }
    assert Denotes(w, c, n);
    assert "-" + FormatNgwe(n) == "-" + "K" + Grouped(w) + "." + c && "" + "K" == "K";
    assert Prints(FormatNgwe(x), x, w, c);
  }

  lemma {:induction false} NoLeadingZero(n: nat)
    ensures |Digits(n)| == 1 || Digits(n)[0] != '0'
    ensures n >= 1 ==> Digits(n)[0] != '0'
  {
    if n >= 10 { NoLeadingZero(n / 10); }
  }

  /** s is w, or w and a full stop and one or two digits f. */
  predicate Spells(s: string, w: string, f: string) {
    && w != "" && AllDigits(w) && AllDigits(f) && |f| <= 2 && s == if f == "" then w else w + "." + f
  }

  /** Exactly the strings of this form are amounts, once they are cleaned; one decimal counts tens of ngwe. */
  lemma AcceptedIff(input: string)
    ensures ParseNgwe(input).Success? <==> exists w, f :: Spells(Cleaned(input), w, f)
    ensures forall w, f :: Spells(Cleaned(input), w, f) ==>
      ParseNgwe(input) == Success(100 * Value(w) + (if |f| == 1 then 10 else 1) * Value(f))
  {
    var s := Cleaned(input);
    hide Cleaned, Value;
    if IsAmount(s) {
      var w, f := Whole(s), Fraction(s);
      assert PointAt(s) < |s| ==> s == s[..PointAt(s)] + "." + s[PointAt(s) + 1..];
      assert Spells(s, w, f);
    }
    forall w, f | Spells(s, w, f)
      ensures ParseNgwe(input) == Success(100 * Value(w) + (if |f| == 1 then 10 else 1) * Value(f))
    {
      SpelledAmount(s, w, f);
    }
  }

  lemma SpelledAmount(s: string, w: string, f: string)
    requires Spells(s, w, f)
    ensures IsAmount(s) && Amount(s) == 100 * Value(w) + (if |f| == 1 then 10 else 1) * Value(f)
  {
    hide Value, IsAmount, Amount;
    EmptyValue();
    if |f| == 0 {
      NoDecimals(w);
    } else if |f| == 1 {
      assert f == [f[0]];
      OneDecimal(w, f[0]);
      DigitAlone(f[0]);
    } else {
      TwoDecimals(w, f);
    }
  }

  lemma EmptyValue()
    ensures Value("") == 0
  {
  }

  lemma DigitAlone(d: char)
    requires IsDigit(d)
    ensures Value([d]) == DigitValue(d)
  {
    assert [d][..0] == "";
  }

  predicate Blank(s: string) {
    forall i :: 0 <= i < |s| ==> IsSpace(s[i])
  }

  lemma {:induction false} BlankStart(a: string, s: string)
    requires Blank(a) && s != "" && !IsSpace(s[0])
    ensures TrimStart(a + s) == s
  {
    hide IsSpace;
    if a != "" {
      BlankStart(a[1..], s);
      assert (a + s)[1..] == a[1..] + s;
    } else {
      assert a + s == s;
    }
  }

  lemma {:induction false} BlankEnd(s: string, b: string)
    requires Blank(b) && s != "" && !IsSpace(s[|s| - 1])
    ensures TrimEnd(s + b) == s
  {
    hide IsSpace;
    if b != "" {
      BlankEnd(s, b[..|b| - 1]);
      assert (s + b)[..|s + b| - 1] == s + b[..|b| - 1];
    } else {
      assert s + b == s;
    }
  }

  lemma BlanksTrimmed(a: string, s: string, b: string)
    requires Blank(a) && Blank(b) && s != "" && !IsSpace(s[0]) && !IsSpace(s[|s| - 1])
    ensures Trim(a + s + b) == s
  {
    hide IsSpace, TrimStart, TrimEnd;
    assert a + s + b == a + (s + b);
    BlankStart(a, s + b);
    BlankEnd(s, b);
  }

  /** Blanks around an amount, a K or k before it, and a comma inside it change nothing. */
  lemma SpellingLaw(a: string, s: string, b: string, i: nat)
    requires Blank(a) && Blank(b) && s != "" && IsDigit(s[0]) && IsDigit(s[|s| - 1]) && 0 < i < |s|
    ensures ParseNgwe(a + s + b) == ParseNgwe(s)
    ensures ParseNgwe(a + "K" + s + b) == ParseNgwe(s) && ParseNgwe(a + "k" + s + b) == ParseNgwe(s)
    ensures ParseNgwe(s[..i] + "," + s[i..]) == ParseNgwe(s)
  {
    hide IsSpace, Trim, RemoveCommas, IsAmount, Amount, Blank;
    EndsAreDigits(s);
    PrefixedTrims(a, s, b);
    assert s[..i] + s[i..] == s;
    CommaDropped(s[..i], s[i..]);
    var t := s[..i] + "," + s[i..];
    assert t[0] == s[0] && t[|t| - 1] == s[|s| - 1];
    EndsAreDigits(t);
  }

  /** A string that starts and ends with a digit is trimmed already and has no prefix. */
  lemma EndsAreDigits(s: string)
    requires s != "" && IsDigit(s[0]) && IsDigit(s[|s| - 1])
    ensures Trim(s) == s && StripCurrency(s) == s
  {
    DigitIsNoSpace(s[0]);
    DigitIsNoSpace(s[|s| - 1]);
    TrimKeeps(s);
  }

  lemma PrefixedTrims(a: string, s: string, b: string)
    requires Blank(a) && Blank(b) && s != "" && IsDigit(s[0]) && IsDigit(s[|s| - 1])
    ensures Trim(a + s + b) == s && Trim(a + "K" + s + b) == "K" + s && Trim(a + "k" + s + b) == "k" + s
    ensures StripCurrency("K" + s) == s && StripCurrency("k" + s) == s
  {
    hide Trim, Blank;
    DigitIsNoSpace(s[0]);
    DigitIsNoSpace(s[|s| - 1]);
    BlanksTrimmed(a, s, b);
    assert a + "K" + s == a + ("K" + s) && a + "k" + s == a + ("k" + s);
    assert ("K" + s)[|s|] == s[|s| - 1] && ("k" + s)[|s|] == s[|s| - 1];
    LettersAreNoSpaces();
    BlanksTrimmed(a, "K" + s, b);
    BlanksTrimmed(a, "k" + s, b);
  }

  lemma LettersAreNoSpaces()
    ensures !IsSpace('K') && !IsSpace('k')
  {
  }

  lemma CommaDropped(x: string, y: string)
    ensures RemoveCommas(x + "," + y) == RemoveCommas(x + y)
  {
    hide RemoveCommas;
    RemoveCommasConcat(x + ",", y);
    RemoveCommasConcat(x, ",");
    RemoveCommasConcat(x, y);
    LoneComma();
  }
}
