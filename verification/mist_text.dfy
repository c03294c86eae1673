/**
 * Amounts of SUI as decimal text: printing and reading MIST, and the grammar of the stake field.
 * Numbers are exact.
 */
module MistText {
  import opened Common

  const MIST_PER_SUI := 1_000_000_000
  const MAX_STAKE_DECIMALS := 9
  /** 0.1 SUI. */
  const MIN_STAKE_MIST := 100_000_000

  // ----- Digits -----

  predicate IsDigit(c: char) {
    '0' <= c <= '9'
  }

  predicate AllDigits(s: string) {
    forall i :: 0 <= i < |s| ==> IsDigit(s[i])
  }

  function DigitChar(d: nat): (c: char)
    requires d < 10
    ensures IsDigit(c) && DigitOf(c) == d
  {
    '0' + d as char
  }

  function DigitOf(c: char): (d: nat)
    requires IsDigit(c)
    ensures d < 10
  {
    (c - '0') as nat
  }

  function Digits(n: nat): (s: string)
    ensures s != "" && AllDigits(s)
  {
    if n < 10 then [DigitChar(n)] else Digits(n / 10) + [DigitChar(n % 10)]
  }

  /** Exactly the last `width` digits. */
  function Padded(n: nat, width: nat): (s: string)
    ensures |s| == width && AllDigits(s)
  {
    if width == 0 then "" else Padded(n / 10, width - 1) + [DigitChar(n % 10)]
  }

  function ParseNat(s: string): nat
    requires AllDigits(s)
  {
    if s == "" then 0 else ParseNat(s[..|s| - 1]) * 10 + DigitOf(s[|s| - 1])
  }

  function Pow10(n: nat): (p: nat)
    ensures p > 0
  {
    if n == 0 then 1 else 10 * Pow10(n - 1)
  }

  lemma Pow10Of9()
    ensures Pow10(9) == MIST_PER_SUI
  {
    assert Pow10(3) == 1_000;
    assert Pow10(6) == 1_000_000;
  }

  lemma {:induction false} ParseDigits(n: nat)
    ensures ParseNat(Digits(n)) == n
    decreases n
  {
    if n >= 10 {
      ParseDigits(n / 10);
      assert Digits(n)[..|Digits(n)| - 1] == Digits(n / 10);
    }
  }

  lemma {:induction false} ParsePadded(n: nat, width: nat)
    requires n < Pow10(width)
    ensures ParseNat(Padded(n, width)) == n
    decreases width
  {
    if width > 0 {
      ParsePadded(n / 10, width - 1);
      assert Padded(n, width)[..width - 1] == Padded(n / 10, width - 1);
    }
  }

  // ----- Printing and reading -----

  /** Ties go up. */
  function Nearest(x: real): nat
    requires x >= 0.0
  {
    (x + 0.5).Floor
  }

  function Fixed9(mist: nat): string {
    Digits(mist / MIST_PER_SUI) + "." + Padded(mist % MIST_PER_SUI, 9)
  }

  /** `toFixed(9)` of an exact amount. */
  function ToFixed9(sui: real): string
    requires sui >= 0.0
  {
    Fixed9(Nearest(sui * 1_000_000_000.0))
  }

  /** Where the first point is, or the length of the text. */
  function PointAt(s: string): (k: nat)
    ensures k <= |s| && (k < |s| ==> s[k] == '.') && forall i :: 0 <= i < k ==> s[i] != '.'
  {
    if s == "" || s[0] == '.' then 0 else 1 + PointAt(s[1..])
  }

  lemma PointAfter(whole: string, rest: string)
    requires AllDigits(whole)
    ensures PointAt(whole + "." + rest) == |whole|
    ensures PointAt(whole) == |whole|
  {
    var s := whole + "." + rest;
    assert s[|whole|] == '.';
    assert forall i :: 0 <= i < |whole| ==> s[i] == whole[i];
  }

  lemma AppendDigits(a: string, b: string)
    requires AllDigits(a) && AllDigits(b)
    ensures AllDigits(a + b)
  {
  }

  lemma SplitFixed(mist: nat)
    ensures var s := Fixed9(mist);
            PointAt(s) == |Digits(mist / MIST_PER_SUI)| && s[..PointAt(s)] == Digits(mist / MIST_PER_SUI) &&
            PointAt(s) + 10 == |s| && s[PointAt(s) + 1..] == Padded(mist % MIST_PER_SUI, 9)
  {
    PointAfter(Digits(mist / MIST_PER_SUI), Padded(mist % MIST_PER_SUI, 9));
  }

  /** Nine decimals of the text after the point, filled up with zeros. */
  function SuiToMist(sui: real): nat {
    if sui <= 0.0 then 0
    else
      var fixed := ToFixed9(sui);
      var point := PointAt(fixed);
      SplitFixed(Nearest(sui * 1_000_000_000.0));
      AppendDigits(fixed[point + 1..], "000000000");
      ParseNat(fixed[..point]) * MIST_PER_SUI + ParseNat((fixed[point + 1..] + "000000000")[..9])
  }

  /** Digit by digit, the conversion is rounding to the nearest MIST. */
  lemma SuiToMistIsNearest(sui: real)
    requires sui > 0.0
    ensures SuiToMist(sui) == Nearest(sui * 1_000_000_000.0)
    ensures -0.5 <= SuiToMist(sui) as real - sui * 1_000_000_000.0 <= 0.5
  {
    var mist := Nearest(sui * 1_000_000_000.0);
    SplitFixed(mist);
    ParseDigits(mist / MIST_PER_SUI);
    Pow10Of9();
    ParsePadded(mist % MIST_PER_SUI, 9);
    var frac := Padded(mist % MIST_PER_SUI, 9);
    assert (frac + "000000000")[..9] == frac;
  }

  /**
   * The conversion does not round down, as its description says: it does exactly when less than half
   * a MIST is left over, and six tenths of a MIST become one.
   */
  lemma RoundsDownExactly(sui: real)
    requires sui > 0.0
    ensures var mist := sui * 1_000_000_000.0;
            SuiToMist(sui) == mist.Floor <==> mist - mist.Floor as real < 0.5
    ensures SuiToMist(0.0000000006) == 1
  {
    SuiToMistIsNearest(sui);
    SuiToMistIsNearest(0.0000000006);
    assert 0.0000000006 * 1_000_000_000.0 == 0.6;
  }

  function TrimZeros(s: string): string {
    if s != "" && s[|s| - 1] == '0' then TrimZeros(s[..|s| - 1]) else s
  }

  /** Drops a final run of zeros, and the point before it. */
  function StripZeros(s: string): string {
    var t := TrimZeros(s);
    if |t| == |s| then s
    else if t != "" && t[|t| - 1] == '.' then t[..|t| - 1]
    else t
  }

  function MistToSui(mist: nat): string {
    StripZeros(ToFixed9(mist as real / 1_000_000_000.0))
  }

  lemma NearestOfWhole(mist: nat)
    ensures Nearest(mist as real / 1_000_000_000.0 * 1_000_000_000.0) == mist
  {
    assert mist as real / 1_000_000_000.0 * 1_000_000_000.0 == mist as real;
  }

  /** Reading back an amount gives the amount, for every number of MIST. */
  lemma SuiToMistUndoesDivision(mist: nat)
    ensures SuiToMist(mist as real / 1_000_000_000.0) == mist
  {
    NearestOfWhole(mist);
    if mist > 0 {
      SuiToMistIsNearest(mist as real / 1_000_000_000.0);
    }
  }

  lemma {:induction false} TrimAfterPoint(whole: string, frac: string)
    ensures TrimZeros(whole + "." + frac) == whole + "." + TrimZeros(frac)
    ensures |TrimZeros(frac)| <= |frac|
    decreases |frac|
  {
    var s := whole + "." + frac;
    if frac == "" {
      assert s == whole + ".";
      assert s[|s| - 1] == '.';
    } else if frac[|frac| - 1] == '0' {
      TrimAfterPoint(whole, frac[..|frac| - 1]);
      assert s[..|s| - 1] == whole + "." + frac[..|frac| - 1];
    }
  }

  lemma TimesTen(a: nat, p: nat)
    ensures a * p * 10 == a * (10 * p)
  {
  }

  lemma {:induction false} TrimmedDigits(frac: string)
    requires AllDigits(frac)
    ensures var z := TrimZeros(frac);
            AllDigits(z) && |z| <= |frac| && (z != "" ==> z[|z| - 1] != '0') &&
            ParseNat(z) * Pow10(|frac| - |z|) == ParseNat(frac)
    decreases |frac|
  {
    if frac != "" && frac[|frac| - 1] == '0' {
      var init := frac[..|frac| - 1];
      var z := TrimZeros(init);
      TrimmedDigits(init);
      TimesTen(ParseNat(z), Pow10(|init| - |z|));
    }
  }

  lemma StripFraction(whole: string, frac: string)
    requires frac != "" && '.' !in frac
    ensures StripZeros(whole + "." + frac) ==
            if TrimZeros(frac) == "" then whole else whole + "." + TrimZeros(frac)
  {
    var t := TrimZeros(whole + "." + frac);
    TrimAfterPoint(whole, frac);
    TrimLast(frac);
    if TrimZeros(frac) == "" {
      assert t == whole + ".";
      assert t[..|t| - 1] == whole;
    } else {
      assert t[|t| - 1] == TrimZeros(frac)[|TrimZeros(frac)| - 1];
      assert |t| == |whole + "." + frac| ==> TrimZeros(frac) == frac;
    }
  }

  lemma {:induction false} TrimLast(s: string)
    ensures |TrimZeros(s)| <= |s| && (|TrimZeros(s)| == |s| ==> TrimZeros(s) == s)
    ensures '.' !in s && TrimZeros(s) != "" ==> TrimZeros(s)[|TrimZeros(s)| - 1] != '.'
    decreases |s|
  {
    if s != "" && s[|s| - 1] == '0' {
      TrimLast(s[..|s| - 1]);
    }
  }

  /** The printed form: the whole part, and the fraction without its trailing zeros if there is one. */
  lemma PrintedForm(mist: nat)
    ensures var whole, frac := Digits(mist / MIST_PER_SUI), TrimZeros(Padded(mist % MIST_PER_SUI, 9));
            MistToSui(mist) == if frac == "" then whole else whole + "." + frac
  {
    NearestOfWhole(mist);
    StripFraction(Digits(mist / MIST_PER_SUI), Padded(mist % MIST_PER_SUI, 9));
  }

  // ----- The stake field -----

  datatype StakeError = NothingEntered | NotNumeric | TooManyDecimals | BelowMinimum

  predicate IsSpace(c: char) {
    c in {' ', '\t', '\n', '\r', '\U{000B}', '\U{000C}', '\U{00A0}', '\U{1680}', '\U{2028}', '\U{2029}', '\U{202F}',
          '\U{205F}', '\U{3000}', '\U{FEFF}'} || '\U{2000}' <= c <= '\U{200A}'
  }

  /** By code point: tab to carriage return, the space, and the wider spaces and line ends of Unicode. */
  lemma SpacesAre(c: char)
    ensures IsSpace(c) <==>
              var n := c as int;
              9 <= n <= 13 || n == 32 || n == 160 || n == 5760 || 8192 <= n <= 8202 || n == 8232 || n == 8233 ||
              n == 8239 || n == 8287 || n == 12288 || n == 65279
  {
  }

  predicate AllSpace(s: string) {
    forall i :: 0 <= i < |s| ==> IsSpace(s[i])
  }

  function TrimStart(s: string): string {
    if s != "" && IsSpace(s[0]) then TrimStart(s[1..]) else s
  }

  function TrimEnd(s: string): string {
    if s != "" && IsSpace(s[|s| - 1]) then TrimEnd(s[..|s| - 1]) else s
  }

  function Trim(s: string): string {
    TrimEnd(TrimStart(s))
  }

  function WholePart(s: string): string {
    s[..PointAt(s)]
  }

  function FracPart(s: string): string {
    if PointAt(s) < |s| then s[PointAt(s) + 1..] else ""
  }

  /** Digits with at most one point among them. */
  predicate Numeric(s: string) {
    AllDigits(WholePart(s)) && AllDigits(FracPart(s))
  }

  /** The amount in MIST that two parts spell; an empty part counts as zero. */
  function Combine(whole: string, frac: string): nat
    requires AllDigits(whole) && AllDigits(frac) && |frac| <= 9
  {
    ParseNat(whole) * MIST_PER_SUI + ParseNat(frac) * Pow10(9 - |frac|)
  }

  function Amount(s: string): nat
    requires Numeric(s) && |FracPart(s)| <= 9
  {
    Combine(WholePart(s), FracPart(s))
  }

  function ParseWagerInput(raw: string): Result<nat, StakeError> {
    var trimmed := Trim(raw);
    if trimmed == "" then Err(NothingEntered)
    else if !Numeric(trimmed) then Err(NotNumeric)
    else if trimmed == "." then Err(NothingEntered)
    else if |FracPart(trimmed)| > MAX_STAKE_DECIMALS then Err(TooManyDecimals)
    else if Amount(trimmed) < MIN_STAKE_MIST then Err(BelowMinimum)
    else Ok(Amount(trimmed))
  }

  /**
   * What the stake field answers: nothing entered for white space, alone or around a single point; not a
   * number for anything but digits with at most one point; too many decimals beyond nine; too little below
   * 0.1 SUI; and the amount otherwise.
   */
  lemma AnswersExactly(raw: string)
    ensures var text, answer := Trim(raw), ParseWagerInput(raw);
            var empty, numeric := text == "" || text == ".", Numeric(text);
            (answer == Err(NothingEntered) <==> empty) && (answer == Err(NotNumeric) <==> !numeric) &&
            (answer == Err(TooManyDecimals) <==> !empty && numeric && |FracPart(text)| > 9) &&
            (answer == Err(BelowMinimum) <==>
               !empty && numeric && |FracPart(text)| <= 9 && Amount(text) < 100_000_000) &&
            (answer.Ok? <==> !empty && numeric && |FracPart(text)| <= 9 && Amount(text) >= 100_000_000) &&
            (answer.Ok? ==> answer.value == Amount(text))
  {
    assert PointAt("") == 0 && PointAt(".") == 0;
  }

  lemma {:induction false} TrimStartStops(l: string, s: string)
    requires AllSpace(l) && (s != "" ==> !IsSpace(s[0]))
    ensures TrimStart(l + s) == s
    decreases |l|
  {
    if l == "" {
      assert l + s == s;
    } else {
      assert (l + s)[1..] == l[1..] + s;
      TrimStartStops(l[1..], s);
    }
  }

  lemma {:induction false} TrimEndStops(s: string, r: string)
    requires AllSpace(r) && (s != "" ==> !IsSpace(s[|s| - 1]))
    ensures TrimEnd(s + r) == s
    decreases |r|
  {
    if r == "" {
      assert s + r == s;
    } else {
      assert (s + r)[..|s + r| - 1] == s + r[..|r| - 1];
      TrimEndStops(s, r[..|r| - 1]);
    }
  }

  lemma TrimBoth(l: string, s: string, r: string)
    requires AllSpace(l) && AllSpace(r) && s != "" && !IsSpace(s[0]) && !IsSpace(s[|s| - 1])
    ensures Trim(l + s + r) == s
  {
    assert l + s + r == l + (s + r);
    TrimStartStops(l, s + r);
    TrimEndStops(s, r);
  }

  function Judged(amount: nat): Result<nat, StakeError> {
    if amount < MIN_STAKE_MIST then Err(BelowMinimum) else Ok(amount)
  }

  lemma Parts(whole: string, frac: string)
    requires AllDigits(whole)
    ensures WholePart(whole + "." + frac) == whole && FracPart(whole + "." + frac) == frac
    ensures WholePart(whole) == whole && FracPart(whole) == ""
  {
    PointAfter(whole, frac);
  }

  lemma JudgesTrimmed(raw: string)
    requires Trim(raw) != "" && Trim(raw) != "." && Numeric(Trim(raw)) && |FracPart(Trim(raw))| <= 9
    ensures ParseWagerInput(raw) == Judged(Amount(Trim(raw)))
  {
  }

  lemma NotSpace(c: char)
    ensures IsDigit(c) || c == '.' ==> !IsSpace(c)
  {
  }

  /**
   * Any whole part and up to nine decimals, either of which may be empty, are read as the amount they
   * spell, whatever white space surrounds them.
   */
  lemma ReadsDecimals(l: string, whole: string, frac: string, r: string)
    requires AllSpace(l) && AllSpace(r) && AllDigits(whole) && AllDigits(frac)
    requires |frac| <= 9 && (whole != "" || frac != "")
    ensures ParseWagerInput(l + (whole + "." + frac) + r) ==
            Judged(Combine(whole, frac))
  {
    var s := whole + "." + frac;
    NotSpace(s[0]);
    NotSpace(s[|s| - 1]);
    TrimBoth(l, s, r);
    Parts(whole, frac);
    assert |s| > 1;
    JudgesTrimmed(l + s + r);
  }

  lemma ReadsWhole(l: string, whole: string, r: string)
    requires AllSpace(l) && AllSpace(r) && AllDigits(whole) && whole != ""
    ensures ParseWagerInput(l + whole + r) == Judged(Combine(whole, ""))
  {
    NotSpace(whole[0]);
    NotSpace(whole[|whole| - 1]);
    TrimBoth(l, whole, r);
    Parts(whole, "");
    assert IsDigit(whole[0]);
    JudgesTrimmed(l + whole + r);
  }

  /** The text spells the amount: digits, and perhaps a point and at most nine decimals. */
  ghost predicate Spells(s: string, whole: string, frac: string, amount: nat) {
    AllDigits(whole) && AllDigits(frac) && |frac| <= 9 && (whole != "" || frac != "") &&
    (s == whole + "." + frac || (s == whole && frac == "")) && amount == Combine(whole, frac)
  }

  /** Only those texts are accepted, and only from the minimum stake on. */
  lemma AcceptsOnlyDecimals(raw: string)
    requires ParseWagerInput(raw).Ok?
    ensures ParseWagerInput(raw).value >= 100_000_000
    ensures exists whole, frac :: Spells(Trim(raw), whole, frac, ParseWagerInput(raw).value)
  {
    var s := Trim(raw);
    if PointAt(s) < |s| {
      assert s == WholePart(s) + "." + FracPart(s);
    } else {
      assert WholePart(s) == s;
    }
    assert Spells(s, WholePart(s), FracPart(s), Amount(s));
  }

  /**
   * The printed form of an amount is canonical: no superfluous zero at either end, at most nine
   * decimals, no point without decimals.
   */
  ghost predicate Canonical(s: string) {
    Numeric(s) && |FracPart(s)| <= 9 && WholePart(s) != "" && (WholePart(s)[0] == '0' ==> WholePart(s) == "0") &&
    (FracPart(s) == "" ==> s == WholePart(s)) && (FracPart(s) != "" ==> FracPart(s)[|FracPart(s)| - 1] != '0')
  }

  lemma {:induction false} NoLeadingZero(n: nat)
    ensures Digits(n)[0] == '0' ==> |Digits(n)| == 1
    ensures Digits(n)[0] == '0' <==> n == 0
    decreases n
  {
    if n >= 10 {
      NoLeadingZero(n / 10);
      assert Digits(n)[0] == Digits(n / 10)[0];
    }
  }

  lemma PrintedIsCanonical(mist: nat)
    ensures Canonical(MistToSui(mist))
  {
    var whole, frac := Digits(mist / MIST_PER_SUI), TrimZeros(Padded(mist % MIST_PER_SUI, 9));
    PrintedForm(mist);
    TrimmedDigits(Padded(mist % MIST_PER_SUI, 9));
    NoLeadingZero(mist / MIST_PER_SUI);
    Parts(whole, frac);
    assert Digits(mist / MIST_PER_SUI)[0] == '0' ==> Digits(mist / MIST_PER_SUI) == "0";
  }

  lemma ParseSnoc(init: string, c: char)
    requires AllDigits(init) && IsDigit(c)
    ensures AllDigits(init + [c]) && ParseNat(init + [c]) == ParseNat(init) * 10 + DigitOf(c)
    ensures ParseNat(init + [c]) / 10 == ParseNat(init) && ParseNat(init + [c]) % 10 == DigitOf(c)
    ensures DigitChar(DigitOf(c)) == c
  {
    assert (init + [c])[..|init|] == init;
  }

  lemma DigitsSnoc(n: nat, d: nat)
    requires d < 10
    ensures Digits(n * 10 + d) == if n == 0 then [DigitChar(d)] else Digits(n) + [DigitChar(d)]
  {
    assert (n * 10 + d) / 10 == n && (n * 10 + d) % 10 == d;
  }

  lemma {:induction false} DigitsOfParse(s: string)
    requires AllDigits(s) && s != "" && (s[0] == '0' ==> s == "0")
    ensures Digits(ParseNat(s)) == s && (ParseNat(s) == 0 ==> s == "0")
    decreases |s|
  {
    var init, c := s[..|s| - 1], s[|s| - 1];
    assert s == init + [c];
    ParseSnoc(init, c);
    DigitsSnoc(ParseNat(init), DigitOf(c));
    if init != "" {
      assert init[0] == s[0] && init != "0";
      DigitsOfParse(init);
    }
  }

  lemma {:induction false} PaddedOfParse(s: string)
    requires AllDigits(s)
    ensures Padded(ParseNat(s), |s|) == s && ParseNat(s) < Pow10(|s|)
    decreases |s|
  {
    if s != "" {
      var init, c := s[..|s| - 1], s[|s| - 1];
      assert s == init + [c];
      ParseSnoc(init, c);
      PaddedOfParse(init);
    }
  }

  function Zeros(n: nat): (s: string)
    ensures |s| == n && AllDigits(s)
  {
    if n == 0 then "" else Zeros(n - 1) + "0"
  }

  lemma TrimOneZero(s: string)
    ensures TrimZeros(s + "0") == TrimZeros(s)
  {
    assert (s + "0")[..|s|] == s;
  }

  lemma {:induction false} ZerosAppended(s: string, n: nat)
    requires AllDigits(s) && (s != "" ==> s[|s| - 1] != '0')
    ensures AllDigits(s + Zeros(n)) && ParseNat(s + Zeros(n)) == ParseNat(s) * Pow10(n)
    ensures TrimZeros(s + Zeros(n)) == s
    decreases n
  {
    if n == 0 {
      assert s + Zeros(0) == s;
    } else {
      ZerosAppended(s, n - 1);
      assert s + Zeros(n) == s + Zeros(n - 1) + "0";
      ParseSnoc(s + Zeros(n - 1), '0');
      TrimOneZero(s + Zeros(n - 1));
      TimesTen(ParseNat(s), Pow10(n - 1));
    }
  }

  /** Filling a canonical fraction up with zeros and trimming it gives it back. */
  lemma FilledFraction(frac: string, filled: string)
    requires AllDigits(frac) && |frac| <= |filled| && (frac != "" ==> frac[|frac| - 1] != '0')
    requires filled == frac + Zeros(|filled| - |frac|)
    ensures AllDigits(filled) && ParseNat(filled) == ParseNat(frac) * Pow10(|filled| - |frac|)
    ensures ParseNat(filled) < Pow10(|filled|) && TrimZeros(Padded(ParseNat(filled), |filled|)) == frac
  {
    ZerosAppended(frac, |filled| - |frac|);
    PaddedOfParse(filled);
  }

  lemma CanonicalParts(s: string)
    requires Canonical(s)
    ensures s == if FracPart(s) == "" then WholePart(s) else WholePart(s) + "." + FracPart(s)
  {
  }

  lemma PrintsParts(whole: string, frac: string)
    requires AllDigits(whole) && whole != "" && (whole[0] == '0' ==> whole == "0")
    requires AllDigits(frac) && |frac| <= 9 && (frac != "" ==> frac[|frac| - 1] != '0')
    ensures MistToSui(Combine(whole, frac)) == if frac == "" then whole else whole + "." + frac
  {
    var mist := Combine(whole, frac);
    PartsOfAmount(whole, frac);
    PrintedForm(mist);
  }

  lemma NumberParts(mist: nat, q: nat, r: nat)
    requires mist == q * MIST_PER_SUI + r && r < MIST_PER_SUI
    ensures mist / MIST_PER_SUI == q && mist % MIST_PER_SUI == r
  {
  }

  lemma FracNumber(frac: string, filled: string)
    requires AllDigits(frac) && |frac| <= 9 && (frac != "" ==> frac[|frac| - 1] != '0')
    requires filled == frac + Zeros(9 - |frac|)
    ensures AllDigits(filled) && ParseNat(filled) < MIST_PER_SUI && TrimZeros(Padded(ParseNat(filled), 9)) == frac
    ensures ParseNat(filled) == ParseNat(frac) * Pow10(9 - |frac|)
  {
    FilledFraction(frac, filled);
    Pow10Of9();
  }

  lemma PartsOfAmount(whole: string, frac: string)
    requires AllDigits(whole) && whole != "" && (whole[0] == '0' ==> whole == "0")
    requires AllDigits(frac) && |frac| <= 9 && (frac != "" ==> frac[|frac| - 1] != '0')
    ensures Digits(Combine(whole, frac) / MIST_PER_SUI) == whole
    ensures TrimZeros(Padded(Combine(whole, frac) % MIST_PER_SUI, 9)) == frac
  {
    var filled := frac + Zeros(9 - |frac|);
    DigitsOfParse(whole);
    FracNumber(frac, filled);
    NumberParts(Combine(whole, frac), ParseNat(whole), ParseNat(filled));
  }

  /** Every amount has exactly one canonical text, the printed one. */
  lemma CanonicalIsPrinted(s: string)
    requires Canonical(s)
    ensures s == MistToSui(Amount(s))
  {
    CanonicalParts(s);
    PrintsParts(WholePart(s), FracPart(s));
  }

  lemma PartsAddUp(mist: nat)
    ensures var whole, frac := Digits(mist / MIST_PER_SUI), TrimZeros(Padded(mist % MIST_PER_SUI, 9));
            AllDigits(frac) && |frac| <= 9 && Combine(whole, frac) == mist
  {
    TrimmedDigits(Padded(mist % MIST_PER_SUI, 9));
    ParseDigits(mist / MIST_PER_SUI);
    Pow10Of9();
    ParsePadded(mist % MIST_PER_SUI, 9);
  }

  /** What is printed spells the amount, in every case: the two conversions undo one another. */
  lemma PrintedSpellsAmount(mist: nat)
    ensures var s := MistToSui(mist);
            Numeric(s) && |FracPart(s)| <= 9 && Amount(s) == mist &&
            SuiToMist(Amount(s) as real / 1_000_000_000.0) == mist
  {
    PrintedForm(mist);
    PartsAddUp(mist);
    Parts(Digits(mist / MIST_PER_SUI), TrimZeros(Padded(mist % MIST_PER_SUI, 9)));
    SuiToMistUndoesDivision(mist);
  }

  lemma ReadsPrinted(whole: string, frac: string, mist: nat)
    requires AllDigits(whole) && whole != "" && AllDigits(frac) && |frac| <= 9
    requires Combine(whole, frac) == mist
    ensures ParseWagerInput(if frac == "" then whole else whole + "." + frac) == Judged(mist)
  {
    if frac == "" {
      ReadsWhole("", whole, "");
      assert "" + whole + "" == whole;
    } else {
      ReadsDecimals("", whole, frac, "");
      assert "" + (whole + "." + frac) + "" == whole + "." + frac;
    }
  }

  /** The stake field reads a printed amount as that amount, exactly when it is at least 0.1 SUI. */
  lemma StakeReadsPrinted(mist: nat)
    ensures ParseWagerInput(MistToSui(mist)) == Judged(mist)
    ensures ParseWagerInput(MistToSui(mist)) == Ok(mist) <==> mist >= 100_000_000
  {
    PrintedForm(mist);
    PartsAddUp(mist);
    ReadsPrinted(Digits(mist / MIST_PER_SUI), TrimZeros(Padded(mist % MIST_PER_SUI, 9)), mist);
  }
}
