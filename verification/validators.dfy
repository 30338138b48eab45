/** The validators declared on the model fields. Django runs them in
    full_clean (forms, admin), not on a plain save. */
module FieldValidators {
  import opened Entities

  predicate IsDigit(c: char) { '0' <= c <= '9' }

  predicate AllDigits(s: string) { forall i :: 0 <= i < |s| ==> IsDigit(s[i]) }

  /** `s` splits as `s[..i]`, `s[i..j]`, `s[j..]` the way `\+?1?\d{9,15}` reads
      it: `s[..i]` is empty or "+", `s[i..j]` is empty or "1", and `s[j..]` is
      a run of 9 to 15 digits. */
  ghost predicate PhoneSplit(s: string, i: int, j: int) {
    && 0 <= i <= 1 && i <= j <= i + 1 && j <= |s|
    && (i == 1 ==> s[0] == '+')
    && (j == i + 1 ==> s[i] == '1')
    && AllDigits(s[j..]) && 9 <= |s| - j <= 15
  }

  /** The language of `\+?1?\d{9,15}` matched against the whole string. */
  ghost predicate InPhoneLanguage(s: string) {
    exists i, j :: PhoneSplit(s, i, j)
  }

  /** Whether the whole of `s` is matched by `\+?1?\d{9,15}`: after an optional
      '+', either 9 to 15 digits, or a '1' followed by 15 more digits (the
      optional '1' is needed only when the digit run is too long without it). */
  predicate MatchesPhonePattern(s: string): (ok: bool)
    ensures ok ==> 9 <= |s| <= 17
  {
    var t := if |s| > 0 && s[0] == '+' then s[1..] else s;
    AllDigits(t) && (9 <= |t| <= 15 || (|t| == 16 && t[0] == '1'))
  }

  lemma PhoneMatchInLanguage(s: string)
    requires MatchesPhonePattern(s)
    ensures InPhoneLanguage(s)
  {
    var i := if |s| > 0 && s[0] == '+' then 1 else 0;
    var j := if |s| - i == 16 then i + 1 else i;
    assert s[j..] == s[i..][j - i..];
    assert PhoneSplit(s, i, j);
  }

  lemma PhoneLanguageMatches(s: string)
    requires InPhoneLanguage(s)
    ensures MatchesPhonePattern(s)
  {
  }

  lemma PhoneMatchIsLanguage(s: string)
    ensures MatchesPhonePattern(s) <==> InPhoneLanguage(s)
  {
    if MatchesPhonePattern(s) { PhoneMatchInLanguage(s); }
    if InPhoneLanguage(s) { PhoneLanguageMatches(s); }
  }

  /** The contact-number RegexValidator: Django searches the value with
      `^\+?1?\d{9,15}$`, and Python's `$` also matches just before a final
      newline, so a valid number followed by one "\n" passes too. */
  predicate ContactNumberPatternAccepts(s: string): (ok: bool)
    ensures ok <==> (InPhoneLanguage(s) ||
                     (|s| > 0 && s[|s| - 1] == '\n' && InPhoneLanguage(s[..|s| - 1])))
  {
    var init := if |s| > 0 then s[..|s| - 1] else s;
    PhoneMatchIsLanguage(s);
    PhoneMatchIsLanguage(init);
    MatchesPhonePattern(s) || (|s| > 0 && s[|s| - 1] == '\n' && MatchesPhonePattern(init))
  }

  lemma TrailingNewlineAccepted()
    ensures ContactNumberPatternAccepts("+123456789\n") && !MatchesPhonePattern("+123456789\n")
  {
    assert "+123456789\n"[..10] == "+123456789";
    assert "+123456789"[1..] == "123456789";
    assert !AllDigits("+123456789\n"[1..]) by { assert "+123456789\n"[1..][9] == '\n'; }
  }

  /** The contact-number field: max_length=15 and the pattern above. */
  predicate ContactNumberValid(s: string): (ok: bool)
    ensures ok <==> (|s| <= 15 && (InPhoneLanguage(s) ||
                     (|s| > 0 && s[|s| - 1] == '\n' && InPhoneLanguage(s[..|s| - 1]))))
  {
    |s| <= 15 && ContactNumberPatternAccepts(s)
  }

  /** An accepted contact number is 9 to 15 characters long. */
  lemma ContactNumberLength(s: string)
    requires ContactNumberValid(s)
    ensures 9 <= |s| <= 15
  {
  }

  /** The field's length limit is tighter than the pattern: a '+', a '1' and
      fifteen digits match the pattern but are refused. */
  lemma LongestPatternRefusedByLength()
    ensures MatchesPhonePattern("+1234567890123456") && !ContactNumberValid("+1234567890123456")
  {
  }

  /** Number of decimal digits of `n` (zero has one digit, as in a Decimal's digit tuple). */
  function DigitCount(n: nat): (d: nat)
    ensures d >= 1
  {
    if n < 10 then 1 else 1 + DigitCount(n / 10)
  }

  function Pow10(k: nat): (p: nat)
    ensures p >= 1
  {
    if k == 0 then 1 else 10 * Pow10(k - 1)
  }

  lemma {:induction false} DigitCountBound(n: nat, k: nat)
    requires k >= 1
    ensures DigitCount(n) <= k <==> n < Pow10(k)
    decreases k
  {
    if k > 1 && n >= 10 {
      DigitCountBound(n / 10, k - 1);
    } else if k > 1 {
      assert Pow10(k) == 10 * Pow10(k - 1);
    }
  }

  /** Django's DecimalValidator(max_digits=10, decimal_places=2) on a price
      written with two decimal places, given in cents: the digits are those
      of `cents` but at least the two decimals, and the whole part may hold
      at most 10 - 2 digits. */
  predicate DecimalValidatorAccepts(cents: nat) {
    var digits := if DigitCount(cents) < 2 then 2 else DigitCount(cents);
    var decimals := 2;
    digits <= 10 && decimals <= 2 && digits - decimals <= 10 - 2
  }

  /** Part.price: MinValueValidator(0) and the DecimalValidator above. In
      cents that is exactly the range from 0 up to, not including, 10^10. */
  predicate PriceValid(cents: int): (ok: bool)
    ensures ok <==> 0 <= cents < 10_000_000_000
  {
    if cents < 0 then false
    else
      DigitCountBound(cents, 10);
      assert Pow10(10) == 10_000_000_000;
      DecimalValidatorAccepts(cents)
  }

  /** Vehicle: VIN of at most 17 characters, plate of at most 10, year from
      1886 to the year at which the schema was loaded (`loadYear`). */
  predicate VehicleValid(v: Vehicle, loadYear: int) {
    |v.vin| <= 17 && |v.licensePlate| <= 10 && 1886 <= v.year <= loadYear
  }

  /** PurchaseRequest.quantity: MinValueValidator(1) (the positive-integer
      field's own lower bound 0 is implied). */
  predicate PurchaseQuantityValid(q: int) { q >= 1 }

  /** Inventory.quantity: MinValueValidator(0). */
  predicate InventoryQuantityValid(q: int) { q >= 0 }
}
