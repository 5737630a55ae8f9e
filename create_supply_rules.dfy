/** The declarative field rules of a supply-creation request: numeric
    bounds, non-empty strings, and two regular expressions, for the phone
    (`^\+\d{12}$`) and the e-mail (`^\w+@\w+\.\w+$`). `\d` and `\w` are
    the ASCII classes of a regular expression without the unicode flag. */
module CreateSupplyRules {
  import opened Common

  datatype CreateSupplyDto = CreateSupplyDto(
    count: int,
    price: real,
    supplierName: string,
    supplierPhone: string,
    supplierAddress: string,
    supplierEmail: string,
    expirationDate: string,
    plantId: PlantId)

  predicate IsDigit(c: char) { '0' <= c <= '9' }

  predicate IsWordChar(c: char) {
    ('a' <= c <= 'z') || ('A' <= c <= 'Z') || IsDigit(c) || c == '_'
  }

  predicate AllDigits(t: string) { forall k :: 0 <= k < |t| ==> IsDigit(t[k]) }

  predicate AllWordChars(t: string) { forall k :: 0 <= k < |t| ==> IsWordChar(t[k]) }

  /** `^\+\d{12}$`: a plus sign and twelve digits. */
  predicate IsCreatePhone(s: string) {
    |s| == 13 && s[0] == '+' && AllDigits(s[1..])
  }

  /** `^\w+@\w+\.\w+$`: a word, '@', a word, '.', a word. Since '@' and
      '.' are not word characters, `at` and `dot` are the only places the
      two separators can be. */
  predicate IsEmail(s: string) {
    exists at, dot | 0 < at < dot < |s| - 1 ::
      && at + 1 < dot
      && s[at] == '@' && s[dot] == '.'
      && AllWordChars(s[..at]) && AllWordChars(s[at + 1..dot]) && AllWordChars(s[dot + 1..])
  }

  predicate NotEmpty(s: string) { s != "" }

  /** The whole request: `count` and `price` in [1, 10000], the supplier
      strings and the expiration date non-empty, phone and e-mail matching
      their patterns; `plantId` carries no rule. */
  predicate ValidCreateSupply(d: CreateSupplyDto) {
    && 1 <= d.count <= 10_000
    && 1.0 <= d.price <= 10_000.0
    && NotEmpty(d.supplierName)
    && NotEmpty(d.supplierPhone) && IsCreatePhone(d.supplierPhone)
    && NotEmpty(d.supplierAddress)
    && NotEmpty(d.supplierEmail) && IsEmail(d.supplierEmail)
    && NotEmpty(d.expirationDate)
  }

  /** The phone rule against its reading as a pattern: it accepts exactly
      the strings "+" followed by twelve digits. */
  lemma CreatePhoneIsPlusTwelveDigits(s: string)
    ensures IsCreatePhone(s) <==> exists digits: string :: |digits| == 12 && AllDigits(digits) && s == "+" + digits
  {
  }

  /** A valid e-mail contains exactly one '@': the separator found by the
      pattern is the only one. */
  lemma EmailHasOneAt(s: string)
    requires IsEmail(s)
    ensures exists at :: 0 <= at < |s| && s[at] == '@'
    ensures forall k, l :: 0 <= k < l < |s| && s[k] == '@' ==> s[l] != '@'
  {
  }

  /** The sample request documented on the DTO passes every rule. */
  lemma DocumentedSampleIsValid()
    ensures ValidCreateSupply(CreateSupplyDto(100, 100.0, "Supplier1", "+380123456789",
      "Supplier1 Address", "supplier@nure.ua", "2021-07-22T00:00:00.000Z", "d290f1ee-6c54-4b01-90e6-d701748f0851"))
  {
    SampleEmailIsValid();
    SamplePhoneIsValid();
  }

  lemma SampleEmailIsValid()
    ensures IsEmail("supplier@nure.ua")
  {
    var e := "supplier@nure.ua";
    assert e[8] == '@' && e[13] == '.';
    assert e[..8] == "supplier" && AllWordChars("supplier");
    assert e[9..13] == "nure" && AllWordChars("nure");
    assert e[14..] == "ua" && AllWordChars("ua");
  }

  lemma SamplePhoneIsValid()
    ensures IsCreatePhone("+380123456789")
  {
    var s := "+380123456789";
    assert s[1..] == "380123456789";
  }

  /** Strings one would call e-mail addresses fail the pattern when a part
      holds a character outside `\w`, such as a second dot or a hyphen. */
  lemma DottedDomainIsRejected()
    ensures !IsEmail("a@b.c.d")
  {
    var s := "a@b.c.d";
    forall at, dot | 0 < at < dot < |s| - 1 && at + 1 < dot && s[at] == '@' && s[dot] == '.'
      ensures !(AllWordChars(s[at + 1..dot]) && AllWordChars(s[dot + 1..]))
    {
      assert at == 1;
      assert dot == 3 || dot == 5;
      if dot == 3 {
        assert s[dot + 1..][1] == '.';
      } else {
        assert s[at + 1..dot][1] == '.';
      }
    }
  }
}
