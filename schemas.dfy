/** The request schemas of src/schemas/payment.schemas.ts: each takes the
    raw value (None for `undefined`) and returns the normalised value or the
    messages of the checks that failed. Where Zod reports several messages
    for one field, the model keeps the first one the code names. */
module Schemas {
  import opened Wrappers
  import opened JsonValues
  import opened Strings
  import opened Numbers

  const AmountRequired := "Amount is required"
  const AmountPositive := "Amount must be a positive number"
  const CurrencyRequired := "Currency is required"
  const CurrencyNonEmpty := "Currency must be a non-empty string"
  const PaymentObjectRequired := "Valid payment object is required"
  const PaymentIdRequired := "Payment ID is required"
  const PaymentIdEmpty := "Payment ID cannot be empty"
  const PaymentIdFormat := "Payment ID must be a valid UUID format"

  // Zod's own messages for failures the code does not word itself.
  const InvalidInput := "Invalid input"
  const ExpectedObject := "Expected object"
  const ExpectedString := "Expected string"
  const UnrecognizedKeys := "Unrecognized key(s) in object"

  /** The keys the strict create-payment object admits. */
  const PaymentKeys: set<string> := {"amount", "currency"}

  /** The normalised body of a create-payment request. */
  datatype PaymentInput = PaymentInput(amount: real, currency: string)

  /** A currency code as the schemas leave it: non-empty and unchanged by
      trimming and upper-casing. */
  predicate IsNormalCurrency(c: string) {
    c != [] && ToUpper(Trim(c)) == c
  }

  /** What every accepted create-payment body satisfies. */
  predicate IsValidInput(p: PaymentInput) {
    p.amount > 0.0 && IsNormalCurrency(p.currency)
  }

  // ---------------------------------------------------------------- amount

  /** `amount`: a positive number, or a string `parseFloat` reads as a
      positive number. */
  function AmountSchema(v: Option<Json>): (r: Result<real, string>)
    ensures r.Success? ==> r.value > 0.0
    ensures v.Some? && v.value.JNum? ==>
      (r.Success? <==> v.value.n > 0.0) && (r.Success? ==> r.value == v.value.n)
    ensures v.Some? && v.value.JStr? ==>
      (r.Success? <==> ParseFloat(v.value.s).Some? && ParseFloat(v.value.s).value > 0.0)
      && (r.Success? ==> Some(r.value) == ParseFloat(v.value.s))
  {
    match v
    case Some(JNum(n)) =>
      if n > 0.0 then Success(n) else Failure(AmountPositive)
    case Some(JStr(s)) =>
      (match ParseFloat(s)
       case None => Failure(AmountRequired)
       case Some(x) => if x <= 0.0 then Failure(AmountPositive) else Success(x))
    case _ => Failure(InvalidInput)
  }

  /** The message each kind of rejected amount gets. */
  lemma AmountMessages(v: Option<Json>)
    ensures v.Some? && v.value.JNum? && v.value.n <= 0.0 ==> AmountSchema(v) == Failure(AmountPositive)
    ensures v.Some? && v.value.JStr? && ParseFloat(v.value.s).None? ==> AmountSchema(v) == Failure(AmountRequired)
    ensures v.Some? && v.value.JStr? && ParseFloat(v.value.s).Some? && ParseFloat(v.value.s).value <= 0.0
            ==> AmountSchema(v) == Failure(AmountPositive)
    ensures (v.None? || !(v.value.JNum? || v.value.JStr?)) ==> AmountSchema(v) == Failure(InvalidInput)
  {
  }

  /** The schema's own example: the string "123.45" is accepted as 123.45. */
  lemma AmountStringExample(whole: string, fraction: string)
    requires whole == "123" && fraction == "45"
    ensures AmountSchema(Some(JStr(whole + "." + fraction))) == Success(123.45)
  {
    ParseExample(whole, fraction);
  }

  // -------------------------------------------------------------- currency

  /** `currency`: a string, trimmed, non-empty, then upper-cased. */
  function CurrencySchema(v: Option<Json>): (r: Result<string, string>)
    ensures r.Success? ==> IsNormalCurrency(r.value)
    ensures r.Success? ==> v.Some? && v.value.JStr? && r.value == ToUpper(Trim(v.value.s))
  {
    match v
    case Some(JStr(s)) =>
      var t := Trim(s);
      if |t| == 0 then Failure(CurrencyNonEmpty)
      else
        NormaliseIdempotent(s);
        Success(ToUpper(t))
    case _ => Failure(CurrencyRequired)
  }

  /** A missing or non-string currency, and a blank one, get their messages. */
  lemma CurrencyMessages(v: Option<Json>)
    ensures (v.None? || !v.value.JStr?) ==> CurrencySchema(v) == Failure(CurrencyRequired)
    ensures v.Some? && v.value.JStr? && IsBlank(v.value.s) ==> CurrencySchema(v) == Failure(CurrencyNonEmpty)
    ensures v.Some? && v.value.JStr? && !IsBlank(v.value.s) ==> CurrencySchema(v).Success?
  {
    if v.Some? && v.value.JStr? {
      TrimEmptyIffBlank(v.value.s);
    }
  }

  /** Validating an accepted currency again returns it unchanged. */
  lemma CurrencyIdempotent(s: string, c: string)
    requires CurrencySchema(Some(JStr(s))) == Success(c)
    ensures CurrencySchema(Some(JStr(c))) == Success(c)
  {
    TrimIsTrimmed(s);
    ToUpperKeepsTrimmed(Trim(s));
    TrimOfTrimmed(c);
  }

  // ------------------------------------------------------ create-payment body

  function Issue<T>(r: Result<T, string>): seq<string> {
    if r.Failure? then [r.error] else []
  }

  /** The aggregate refine: amount and currency are both defined and the
      currency is not the empty string. Its amount test always holds once
      the amount field has passed, so only the currency is tested. */
  predicate PaymentObjectPresent(currency: string) {
    currency != ""
  }

  /** CreatePaymentSchema: a strict object of `amount` and `currency`. Every
      field is checked; the messages come in field order, then the one for
      keys the strict object does not admit. */
  function CreatePaymentSchema(v: Option<Json>): (r: Result<PaymentInput, seq<string>>)
    ensures r.Success? ==> IsValidInput(r.value)
    ensures r.Failure? ==> |r.error| > 0
  {
    match v
    case Some(JObj(fields)) =>
      var amount := AmountSchema(Member(fields, "amount"));
      var currency := CurrencySchema(Member(fields, "currency"));
      var issues := Issue(amount) + Issue(currency)
                    + (if fields.Keys <= PaymentKeys then [] else [UnrecognizedKeys]);
      if issues != [] then Failure(issues)
      else if !PaymentObjectPresent(currency.value) then Failure([PaymentObjectRequired])
      else Success(PaymentInput(amount.value, currency.value))
    case _ => Failure([ExpectedObject])
  }

  /** The JSON object a create-payment body is, `{amount, currency}`. */
  function InputJson(p: PaymentInput): Json {
    JObj(map["amount" := JNum(p.amount), "currency" := JStr(p.currency)])
  }

  /** A body is accepted exactly when it is an object with no other keys and
      both fields pass; the accepted value is the two fields' outputs. */
  lemma CreatePaymentAccepts(fields: map<string, Json>)
    ensures CreatePaymentSchema(Some(JObj(fields))).Success? <==>
      && fields.Keys <= PaymentKeys
      && AmountSchema(Member(fields, "amount")).Success?
      && CurrencySchema(Member(fields, "currency")).Success?
    ensures CreatePaymentSchema(Some(JObj(fields))).Success? ==>
      CreatePaymentSchema(Some(JObj(fields))).value ==
        PaymentInput(AmountSchema(Member(fields, "amount")).value, CurrencySchema(Member(fields, "currency")).value)
  {
  }

  /** Strictness: any key besides `amount` and `currency` rejects the whole body. */
  lemma StrictRejectsExtraKey(fields: map<string, Json>, key: string)
    requires key in fields && key !in PaymentKeys
    ensures CreatePaymentSchema(Some(JObj(fields))).Failure?
    ensures UnrecognizedKeys in CreatePaymentSchema(Some(JObj(fields))).error
  {
  }

  /** The aggregate refine never rejects a body whose two fields passed. */
  lemma PaymentObjectRefineHolds(fields: map<string, Json>)
    requires CurrencySchema(Member(fields, "currency")).Success?
    ensures PaymentObjectPresent(CurrencySchema(Member(fields, "currency")).value)
  {
  }

  /** Round trip: a valid body, written as JSON, is accepted unchanged. So
      validation is idempotent on its own output. */
  lemma CreatePaymentRoundTrip(p: PaymentInput)
    requires IsValidInput(p)
    ensures CreatePaymentSchema(Some(InputJson(p))) == Success(p)
  {
    var fields := map["amount" := JNum(p.amount), "currency" := JStr(p.currency)];
    assert fields.Keys == PaymentKeys;
    assert Member(fields, "currency") == Some(JStr(p.currency));
    TrimIsTrimmed(p.currency);
    ToUpperKeepsTrimmed(Trim(p.currency));
    assert Trim(p.currency) == p.currency by {
      TrimOfTrimmed(ToUpper(Trim(p.currency)));
    }
    assert ToUpper(p.currency) == p.currency;
  }

  /** The handlers' test cases: an unparsable amount string, a missing
      currency and a negative amount are each rejected, and the unparsable
      amount's message mentions the amount. */
  lemma CreatePaymentRejections(word: string, code: string, n: real)
    requires ParseFloat(word).None? && n <= 0.0
    ensures CreatePaymentSchema(Some(JObj(map["amount" := JStr(word), "currency" := JStr(code)]))).Failure?
    ensures CreatePaymentSchema(Some(JObj(map["amount" := JStr(word), "currency" := JStr(code)]))).error[0] == AmountRequired
    ensures CreatePaymentSchema(Some(JObj(map["amount" := JNum(100.0)]))) == Failure([CurrencyRequired])
    ensures CreatePaymentSchema(Some(JObj(map["amount" := JNum(n), "currency" := JStr(code)]))).error[0] == AmountPositive
  {
    var f := map["amount" := JNum(100.0)];
    assert f.Keys <= PaymentKeys;
    assert "currency" != "amount" by { assert "currency"[0] != "amount"[0]; }
    assert Member(f, "currency") == None;
    assert AmountSchema(Member(f, "amount")) == Success(100.0);
    assert CurrencySchema(Member(f, "currency")) == Failure(CurrencyRequired);
    assert Issue(AmountSchema(Member(f, "amount"))) + Issue(CurrencySchema(Member(f, "currency"))) == [CurrencyRequired];
    var issues := Issue(AmountSchema(Member(f, "amount"))) + Issue(CurrencySchema(Member(f, "currency")))
                  + (if f.Keys <= PaymentKeys then [] else [UnrecognizedKeys]);
    assert issues == [CurrencyRequired];
    assert CreatePaymentSchema(Some(JObj(f))) == Failure([CurrencyRequired]);
  }

  // ------------------------------------------------------------- payment id

  predicate IsHexDigit(c: char) {
    '0' <= c <= '9' || 'a' <= c <= 'f' || 'A' <= c <= 'F'
  }

  /** What the UUID pattern of the schema, with its `i` flag, admits at
      position i: hyphens between the groups, version 1-5, variant 8, 9, a
      or b, hexadecimal digits elsewhere. */
  predicate UuidCharAt(i: int, c: char) {
    if i == 8 || i == 13 || i == 18 || i == 23 then c == '-'
    else if i == 14 then '1' <= c <= '5'
    else if i == 19 then c == '8' || c == '9' || c == 'a' || c == 'b' || c == 'A' || c == 'B'
    else IsHexDigit(c)
  }

  /** The anchored UUID pattern: 8-4-4-4-12 hexadecimal groups. */
  predicate IsUuid(s: string) {
    |s| == 36 && forall i :: 0 <= i < 36 ==> UuidCharAt(i, s[i])
  }

  /** A run of hexadecimal digits, `[0-9a-f]*` under the `i` flag. */
  predicate IsHex(s: string) {
    forall i :: 0 <= i < |s| ==> IsHexDigit(s[i])
  }

  /** The UUID pattern read group by group, as the regular expression is
      written: 8 hexadecimal digits, then 4, then a version digit 1-5 and
      3, then a variant digit 8, 9, a or b and 3, then 12, with a hyphen
      between the groups and nothing before or after. */
  predicate MatchesUuidPattern(s: string) {
    && |s| == 36
    && IsHex(s[..8]) && s[8] == '-'
    && IsHex(s[9..13]) && s[13] == '-'
    && '1' <= s[14] <= '5' && IsHex(s[15..18]) && s[18] == '-'
    && s[19] in "89abAB" && IsHex(s[20..23]) && s[23] == '-'
    && IsHex(s[24..])
  }

  /** The position-wise test IsUuid is exactly the grouped pattern. */
  lemma UuidMatchesPattern(s: string)
    ensures IsUuid(s) <==> MatchesUuidPattern(s)
  {
    if |s| == 36 {
      if IsUuid(s) {
        HexRun(s, 0, 8);
        HexRun(s, 9, 13);
        HexRun(s, 15, 18);
        HexRun(s, 20, 23);
        HexRun(s, 24, 36);
        assert UuidCharAt(8, s[8]) && UuidCharAt(13, s[13]) && UuidCharAt(18, s[18]) && UuidCharAt(23, s[23]);
        assert UuidCharAt(14, s[14]) && UuidCharAt(19, s[19]);
        assert s[..8] == s[0..8] && s[24..] == s[24..36];
      }
      if MatchesUuidPattern(s) {
        forall i | 0 <= i < 36 ensures UuidCharAt(i, s[i]) {
          if i < 8 {
            assert s[..8][i] == s[i];
          } else if 8 < i < 13 {
            assert s[9..13][i - 9] == s[i];
          } else if 14 < i < 18 {
            assert s[15..18][i - 15] == s[i];
          } else if 19 < i < 23 {
            assert s[20..23][i - 20] == s[i];
          } else if 23 < i {
            assert s[24..][i - 24] == s[i];
          }
        }
      }
    }
  }

  /** Positions lo..hi of a UUID, none of them a hyphen, version or
      variant position, are hexadecimal digits. */
  lemma HexRun(s: string, lo: nat, hi: nat)
    requires IsUuid(s) && lo <= hi <= 36
    requires forall i :: lo <= i < hi ==> HexPosition(i)
    ensures IsHex(s[lo..hi])
  {
    forall k | 0 <= k < hi - lo ensures IsHexDigit(s[lo..hi][k]) {
      assert HexPosition(lo + k);
      assert UuidCharAt(lo + k, s[lo + k]);
    }
  }

  /** A position the pattern fills with a plain hexadecimal digit. */
  predicate HexPosition(i: int) {
    i != 8 && i != 13 && i != 14 && i != 18 && i != 19 && i != 23
  }

  /** A UUID has no white space at its ends, so trimming leaves it alone. */
  lemma UuidIsTrimmed(s: string)
    requires IsUuid(s)
    ensures IsTrimmed(s) && Trim(s) == s
  {
    assert UuidCharAt(0, s[0]) && UuidCharAt(35, s[35]);
    TrimOfTrimmed(s);
  }

  /** The pattern ignores case: a string matches exactly when its
      upper-cased form does. */
  lemma UuidIgnoresCase(s: string)
    ensures IsUuid(s) <==> IsUuid(ToUpper(s))
  {
    if IsUuid(ToUpper(s)) {
      forall i | 0 <= i < 36 ensures UuidCharAt(i, s[i]) {
        assert UuidCharAt(i, ToUpper(s)[i]);
      }
    }
  }

  /** PaymentIdSchema: a string that is not blank and whose trimmed form
      is a UUID; the output is the trimmed form. (The schema's `!val` test
      for the empty string is subsumed by the blank test.) */
  function PaymentIdSchema(v: Option<Json>): (r: Result<string, seq<string>>)
    ensures r.Success? ==> IsUuid(r.value)
    ensures r.Failure? ==> |r.error| == 1
  {
    match v
    case Some(JStr(s)) =>
      var t := Trim(s);
      if t == "" then Failure([PaymentIdEmpty])
      else if !IsUuid(t) then Failure([PaymentIdFormat])
      else Success(t)
    case _ => Failure([PaymentIdRequired])
  }

  /** An id is accepted exactly when its trimmed form is a UUID, and the
      output is then that trimmed form; the failures get their own
      messages. */
  lemma PaymentIdCases(v: Option<Json>)
    ensures (v.None? || !v.value.JStr?) ==> PaymentIdSchema(v) == Failure([PaymentIdRequired])
    ensures v.Some? && v.value.JStr? && IsBlank(v.value.s) ==> PaymentIdSchema(v) == Failure([PaymentIdEmpty])
    ensures v.Some? && v.value.JStr? && !IsBlank(v.value.s) && !IsUuid(Trim(v.value.s)) ==>
      PaymentIdSchema(v) == Failure([PaymentIdFormat])
    ensures v.Some? && v.value.JStr? ==>
      (PaymentIdSchema(v).Success? <==> IsUuid(Trim(v.value.s)))
      && (PaymentIdSchema(v).Success? ==> PaymentIdSchema(v).value == Trim(v.value.s))
  {
    if v.Some? && v.value.JStr? {
      TrimEmptyIffBlank(v.value.s);
    }
  }

  /** Validating an accepted id again returns it unchanged. */
  lemma PaymentIdIdempotent(s: string, id: string)
    requires PaymentIdSchema(Some(JStr(s))) == Success(id)
    ensures PaymentIdSchema(Some(JStr(id))) == Success(id)
  {
    UuidIsTrimmed(id);
  }

  // -------------------------------------------------------- currency filter

  /** CurrencyFilterSchema: an optional string; absent, empty or blank means
      no filter, anything else is trimmed and upper-cased. */
  function CurrencyFilterSchema(v: Option<Json>): (r: Result<Option<string>, seq<string>>)
    ensures r.Success? && r.value.Some? ==> IsNormalCurrency(r.value.value)
  {
    match v
    case None => Success(None)
    case Some(JStr(s)) =>
      var t := Trim(s);
      if s == "" || t == "" then Success(None)
      else
        NormaliseIdempotent(s);
        Success(Some(ToUpper(t)))
    case Some(_) => Failure([ExpectedString])
  }

  /** The filter never fails on an absent value or a string; it is absent
      exactly for absent or blank input, and otherwise the normalised
      input. */
  lemma CurrencyFilterCases(v: Option<Json>)
    ensures v.None? ==> CurrencyFilterSchema(v) == Success(None)
    ensures v.Some? && v.value.JStr? ==>
      && CurrencyFilterSchema(v).Success?
      && (CurrencyFilterSchema(v).value.None? <==> IsBlank(v.value.s))
      && (!IsBlank(v.value.s) ==> CurrencyFilterSchema(v).value == Some(ToUpper(Trim(v.value.s))))
  {
    if v.Some? && v.value.JStr? {
      TrimEmptyIffBlank(v.value.s);
    }
  }

  /** The test case: a lower-case filter comes out upper-cased. */
  lemma CurrencyFilterUpperCases(s: string)
    requires s == "usd"
    ensures CurrencyFilterSchema(Some(JStr(s))) == Success(Some("USD"))
  {
    assert Trim(s) == s by { TrimOfTrimmed(s); }
    assert ToUpper(s) == "USD";
  }

  /** Filtering by an accepted filter value again gives the same value. */
  lemma CurrencyFilterIdempotent(s: string, c: string)
    requires CurrencyFilterSchema(Some(JStr(s))) == Success(Some(c))
    ensures CurrencyFilterSchema(Some(JStr(c))) == Success(Some(c))
  {
    TrimIsTrimmed(s);
    ToUpperKeepsTrimmed(Trim(s));
    TrimOfTrimmed(c);
  }

  // ------------------------------------------- the schemas as the middleware sees them

  /** `CreatePaymentSchema.parse`, its output handed on as a plain JSON value. */
  function ParseCreatePayment(v: Option<Json>): Result<Option<Json>, seq<string>> {
    match CreatePaymentSchema(v)
    case Success(p) => Success(Some(InputJson(p)))
    case Failure(e) => Failure(e)
  }

  /** `PaymentIdSchema.parse`, its output handed on as a JSON string. */
  function ParsePaymentId(v: Option<Json>): Result<Option<Json>, seq<string>> {
    match PaymentIdSchema(v)
    case Success(id) => Success(Some(JStr(id)))
    case Failure(e) => Failure(e)
  }

  /** `CurrencyFilterSchema.parse`: `undefined` or a JSON string. */
  function ParseCurrencyFilter(v: Option<Json>): Result<Option<Json>, seq<string>> {
    match CurrencyFilterSchema(v)
    case Success(None) => Success(None)
    case Success(Some(c)) => Success(Some(JStr(c)))
    case Failure(e) => Failure(e)
  }

  /** Reading a create-payment body back from its JSON form. */
  function InputOfJson(v: Option<Json>): (r: Option<PaymentInput>)
    ensures r.Some? ==> v == Some(InputJson(r.value))
  {
    match v
    case Some(JObj(f)) =>
      if f.Keys == PaymentKeys && f["amount"].JNum? && f["currency"].JStr? then
        var p := PaymentInput(f["amount"].n, f["currency"].s);
        assert f == map["amount" := JNum(p.amount), "currency" := JStr(p.currency)];
        Some(p)
      else None
    case _ => None
  }

  /** The JSON form of a body loses nothing. */
  lemma InputJsonRoundTrip(p: PaymentInput)
    ensures InputOfJson(Some(InputJson(p))) == Some(p)
  {
    assert InputJson(p).fields.Keys == PaymentKeys;
  }
}
