/** The payment-field normalisers and validators of the checkout screen
    (CheckoutScreen.jsx, handleCardNumberChange, handleExpiryChange,
    handleCVVChange). Each handler keeps only the digits of what was typed,
    caps their number, re-renders them, and recomputes that field's error
    text. The current date, read by the expiry handler, is a parameter. */
module CardInput {
  import opened Text
  import opened Wrappers

  const CardNumberMessage := "Card number must be 16 digits"
  const InvalidExpiryMessage := "Invalid expiry format (MM/YY)"
  const ExpiredMessage := "Card has expired"
  const CvvMessage := "CVV must be 3 or 4 digits"

  /** `raw.replace(/\D/g, "").slice(0, cap)`, the first step of every
      payment-field handler: the typed digits, in order, cut to `cap`. A
      text that is already all digits and short enough is kept as it is. */
  function DigitsUpTo(raw: string, cap: nat): (d: string)
    ensures AllDigits(d) && |d| <= cap
    ensures |d| == if |Digits(raw)| <= cap then |Digits(raw)| else cap
    ensures d == Digits(raw)[..|d|]
    ensures AllDigits(raw) && |raw| <= cap ==> d == raw
  {
    Prefix(Digits(raw), cap)
  }

  // ---------------------------------------------------------------- card number

  /** The digits kept from a typed card number: at most 16. */
  function CardDigits(raw: string): string {
    DigitsUpTo(raw, 16)
  }

  /** `digits.replace(/(.{4})/g, "$1 ").trim()`: a space after every full
      group of four, the trailing one trimmed. */
  function FormatCard(d: string): string
    decreases |d|
  {
    if |d| <= 4 then d else d[..4] + " " + FormatCard(d[4..])
  }

  /** The text shown in the card-number field after an edit. */
  function NormalizeCard(raw: string): string {
    FormatCard(CardDigits(raw))
  }

  /** The card-number error recorded after an edit. */
  function CardNumberError(raw: string): string {
    if |CardDigits(raw)| == 16 then "" else CardNumberMessage
  }

  /** The rendering's length: one separator per full group of four that is
      followed by more digits. */
  lemma {:induction false} FormatCardLength(d: string)
    ensures |FormatCard(d)| == if d == [] then 0 else |d| + (|d| - 1) / 4
    decreases |d|
  {
    if |d| > 4 {
      FormatCardLength(d[4..]);
    }
  }

  lemma ShiftByFive(i: int)
    requires i >= 5
    ensures (i - 5) % 5 == i % 5 && (i - 5) / 5 == i / 5 - 1
  {
  }

  /** The last position of a rendering of k + 1 digits is not one of the
      separator positions 4, 9, 14, .... */
  lemma LastIndexNotSeparator(k: nat)
    ensures (k + k / 4) % 5 != 4
  {
    var q, t := k / 4, k % 4;
    assert k + k / 4 == 5 * q + t;
    assert (5 * q + t) % 5 == t;
  }

  /** One position of the rendering: a space exactly at the positions
      4, 9, 14, ..., and elsewhere the next digit in order. */
  lemma {:induction false} FormatCardAt(d: string, i: int)
    requires AllDigits(d)
    requires 0 <= i < |FormatCard(d)|
    ensures FormatCard(d)[i] == ' ' <==> i % 5 == 4
    ensures i % 5 != 4 ==> 0 <= i - i / 5 < |d| && FormatCard(d)[i] == d[i - i / 5]
    decreases |d|
  {
    if |d| <= 4 {
      assert i % 5 == i && i / 5 == 0;
    } else if i >= 5 {
      FormatCardAt(d[4..], i - 5);
      assert FormatCard(d)[i] == FormatCard(d[4..])[i - 5];
      ShiftByFive(i);
    } else {
      assert i % 5 == i && i / 5 == 0;
    }
  }

  /** The rendering is groups of four digits separated by single spaces:
      the digits in order with a space exactly at the positions 4, 9, 14,
      ..., and never a trailing space (the last group may be shorter). */
  lemma FormatCardShape(d: string)
    requires AllDigits(d)
    ensures |FormatCard(d)| == if d == [] then 0 else |d| + (|d| - 1) / 4
    ensures forall i :: 0 <= i < |FormatCard(d)| ==> (FormatCard(d)[i] == ' ' <==> i % 5 == 4)
    ensures forall i :: 0 <= i < |FormatCard(d)| && i % 5 != 4 ==> FormatCard(d)[i] == d[i - i / 5]
    ensures FormatCard(d) == [] || FormatCard(d)[|FormatCard(d)| - 1] != ' '
  {
    var r := FormatCard(d);
    FormatCardLength(d);
    forall i | 0 <= i < |r|
      ensures r[i] == ' ' <==> i % 5 == 4
      ensures i % 5 != 4 ==> r[i] == d[i - i / 5]
    {
      FormatCardAt(d, i);
    }
    if d != [] {
      LastIndexNotSeparator(|d| - 1);
      FormatCardAt(d, |r| - 1);
    }
  }

  /** Removing the whitespace from the rendering gives back the digits:
      exactly the text the order request sends as the card number. */
  lemma {:induction false} StripFormattedCard(d: string)
    requires AllDigits(d)
    ensures StripSpaces(FormatCard(d)) == d
    ensures Digits(FormatCard(d)) == d
    decreases |d|
  {
    if |d| > 4 {
      StripFormattedCard(d[4..]);
      StripSpacesAppend(d[..4] + " ", FormatCard(d[4..]));
      StripSpacesAppend(d[..4], " ");
      DigitsAppend(d[..4] + " ", FormatCard(d[4..]));
      DigitsAppend(d[..4], " ");
      assert d[..4] + d[4..] == d;
    }
  }

  /** The rendered card number fits the field's 19-character limit. */
  lemma NormalizedCardLength(raw: string)
    ensures |NormalizeCard(raw)| <= 19
  {
    FormatCardShape(CardDigits(raw));
  }

  /** Re-normalising a rendered card number gives the same text. */
  lemma NormalizeCardIdempotent(raw: string)
    ensures NormalizeCard(NormalizeCard(raw)) == NormalizeCard(raw)
    ensures CardDigits(NormalizeCard(raw)) == CardDigits(raw)
  {
    StripFormattedCard(CardDigits(raw));
  }

  /** The card-number error is empty exactly when 16 digits were kept. */
  lemma CardNumberErrorCases(raw: string)
    ensures CardNumberError(raw) == "" <==> |CardDigits(raw)| == 16
    ensures CardNumberError(raw) != "" ==> CardNumberError(raw) == CardNumberMessage
  {
  }

  // ---------------------------------------------------------------- expiry

  /** `s.split(c)`: the parts of `s` between occurrences of `c`. */
  function Split(s: string, c: char): (parts: seq<string>)
    ensures |parts| >= 1
  {
    if s == [] then [""]
    else if s[0] == c then [""] + Split(s[1..], c)
    else
      var rest := Split(s[1..], c);
      [[s[0]] + rest[0]] + rest[1..]
  }

  /** A text without `c` splits into itself alone. */
  lemma {:induction false} SplitWithout(s: string, c: char)
    requires forall i :: 0 <= i < |s| ==> s[i] != c
    ensures Split(s, c) == [s]
  {
    if s != [] {
      SplitWithout(s[1..], c);
      assert [s[0]] + s[1..] == s;
    }
  }

  /** JavaScript's unary `+` on a text: its value when it is a numeral, and
      `None` (NaN, with which every comparison is false) otherwise. */
  function JsNumber(s: string): Option<nat> {
    if AllDigits(s) then Some(DecimalValue(s)) else None
  }

  /** The digits kept from a typed expiry: at most 4. */
  function ExpiryDigits(raw: string): string {
    DigitsUpTo(raw, 4)
  }

  /** The text shown in the expiry field: a '/' after the second digit once
      there are more than two. */
  function NormalizeExpiry(raw: string): string {
    var v := ExpiryDigits(raw);
    if |v| > 2 then v[..2] + "/" + v[2..] else v
  }

  /** The expiry error for a field text `val`, given the current year modulo
      100 and the current month (1..12). */
  function ExpiryMessage(val: string, year: int, month: int): string {
    var parts := Split(val, '/');
    var m := parts[0];
    var y := if |parts| > 1 then Some(parts[1]) else None;
    var mv := JsNumber(m);
    if m == "" || y == None || y == Some("") || (mv.Some? && (mv.value < 1 || mv.value > 12)) then
      InvalidExpiryMessage
    else
      var yv := JsNumber(y.value);
      if (yv.Some? && yv.value < year) || (yv.Some? && mv.Some? && yv.value == year && mv.value < month) then
        ExpiredMessage
      else
        ""
  }

  /** The expiry error recorded after an edit, at current year `fullYear`
      and current month `month` (1..12). */
  function ExpiryError(raw: string, fullYear: nat, month: int): string {
    ExpiryMessage(NormalizeExpiry(raw), fullYear % 100, month)
  }

  /** How the rendered expiry splits: one part while there are at most two
      digits, otherwise month digits and year digits. */
  lemma SplitNormalizedExpiry(raw: string)
    ensures var v := ExpiryDigits(raw);
      Split(NormalizeExpiry(raw), '/') == if |v| <= 2 then [v] else [v[..2], v[2..]]
  {
    var v := ExpiryDigits(raw);
    if |v| <= 2 {
      SplitWithout(v, '/');
    } else {
      var s := NormalizeExpiry(raw);
      SplitWithout(v[2..], '/');
      assert s[2..] == "/" + v[2..];
      assert Split(s[2..], '/') == [""] + [v[2..]];
      assert s[1..][1..] == s[2..];
      assert s[1..][0] == v[1] && v[1] != '/';
      assert [v[1]] + "" == [v[1]];
      assert Split(s[1..], '/') == [[v[1]], v[2..]];
      assert s[0] == v[0] && v[0] != '/';
      assert [v[0]] + [v[1]] == v[..2];
    }
  }

  /** The expiry error in terms of the digits kept: "Invalid expiry format
      (MM/YY)" when the year part is missing or the month is outside 1..12,
      else "Card has expired" when (year, month) is strictly before the
      current (year mod 100, month), else empty. */
  lemma ExpiryErrorCases(raw: string, fullYear: nat, month: int)
    ensures var v := ExpiryDigits(raw);
      ExpiryError(raw, fullYear, month) ==
        if |v| <= 2 || DecimalValue(v[..2]) < 1 || DecimalValue(v[..2]) > 12 then InvalidExpiryMessage
        else if DecimalValue(v[2..]) < fullYear % 100
             || (DecimalValue(v[2..]) == fullYear % 100 && DecimalValue(v[..2]) < month) then ExpiredMessage
        else ""
  {
    SplitNormalizedExpiry(raw);
  }

  /** Re-normalising a rendered expiry gives the same text. */
  lemma NormalizeExpiryIdempotent(raw: string)
    ensures NormalizeExpiry(NormalizeExpiry(raw)) == NormalizeExpiry(raw)
  {
    var v := ExpiryDigits(raw);
    if |v| > 2 {
      DigitsAppend(v[..2] + "/", v[2..]);
      DigitsAppend(v[..2], "/");
      assert v[..2] + v[2..] == v;
    }
    assert ExpiryDigits(NormalizeExpiry(raw)) == v;
  }

  // ---------------------------------------------------------------- CVV

  /** The text shown in the CVV field: at most 4 digits. */
  function NormalizeCvv(raw: string): string {
    DigitsUpTo(raw, 4)
  }

  /** The CVV error recorded after an edit. */
  function CvvError(raw: string): string {
    var v := NormalizeCvv(raw);
    if |v| == 3 || |v| == 4 then "" else CvvMessage
  }

  /** The CVV error is empty exactly for 3 or 4 digits, and re-normalising
      changes nothing. */
  lemma CvvProperties(raw: string)
    ensures CvvError(raw) == "" <==> 3 <= |NormalizeCvv(raw)| <= 4
    ensures NormalizeCvv(NormalizeCvv(raw)) == NormalizeCvv(raw)
  {
  }
}
