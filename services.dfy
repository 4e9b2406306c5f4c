/**
 * The request checks of `PaymentService` (`validateCreatePaymentRequest`,
 * `validateListRequest`, `isValidDate`, `isValidEmail`), its status predicates, and
 * `CurrencyService.isProcessedViaAnotherCurrency`. Each validator evaluates every field,
 * records one message per failing field, and throws a ValidationError exactly when it
 * recorded any, unless a date it checks cannot be converted to a string: that check
 * throws a TypeError first.
 */
module Services {
  import opened Base
  import opened Js
  import opened FieldChecks

  // ---------------------------------------------------------------------------
  // isValidDate

  predicate IsDigit(c: char) {
    '0' <= c <= '9'
  }

  /** `/^\d{4}-\d{2}-\d{2}$/.test(s)`. */
  predicate DateShape(s: string) {
    && |s| == 10
    && IsDigit(s[0]) && IsDigit(s[1]) && IsDigit(s[2]) && IsDigit(s[3])
    && s[4] == '-'
    && IsDigit(s[5]) && IsDigit(s[6])
    && s[7] == '-'
    && IsDigit(s[8]) && IsDigit(s[9])
  }

  /**
   * `isValidDate(date)`: the regular expression tests `String(date)`, and `new Date(date)`
   * of a value that passes it (a string, or an array whose text passes) parses that text.
   * `Err` carries the TypeError's message when `String(date)` throws.
   */
  function IsValidDate(date: Json, parseDate: DateParser): (r: Result<bool, string>)
    ensures r.Err? <==> !Convertible(date)
    ensures r.Err? ==> r.error == ConversionError
    ensures date.JStr? ==> r == Ok(DateShape(date.s) && parseDate(date.s).Some?)
  {
    match ToJsString(date)
    case None => Err(ConversionError)
    case Some(text) => Ok(DateShape(text) && parseDate(text).Some?)
  }

  /** A number is never a valid date: its text has no `-` after the first character. */
  lemma NumberNeverValidDate(n: int, parseDate: DateParser)
    ensures IsValidDate(JNum(n), parseDate) == Ok(false)
  {
    var text := IntToDecimal(n);
    if |text| == 10 {
      if n < 0 {
        assert text[0] == '-';
      } else {
        assert text == NatToDecimal(n);
        assert IsDigit(text[4]);
      }
    }
  }

  /**
   * Only a string, or an array whose text is a date, can be a valid date: numbers, the
   * literals and plain objects ("[object Object]") never are.
   */
  lemma OnlyTextDates(date: Json, parseDate: DateParser)
    ensures IsValidDate(date, parseDate) == Ok(true) ==> date.JStr? || date.JArr?
  {
    if date.JNum? {
      NumberNeverValidDate(date.n, parseDate);
    }
  }

  // ---------------------------------------------------------------------------
  // isValidEmail

  /**
   * `/^[^\s@]+@[^\s@]+\.[^\s@]+$/.test(s)`: no whitespace, one `@` preceded by something,
   * and after it a `.` that is neither its first nor the last character of the string.
   */
  ghost predicate EmailPattern(s: string) {
    && (forall k :: 0 <= k < |s| ==> !IsWhitespace(s[k]))
    && exists i, j :: 0 < i && i + 1 < j < |s| - 1 && s[i] == '@' && s[j] == '.'
                      && forall k :: 0 <= k < |s| && k != i ==> s[k] != '@'
  }

  /** The index of the first `c` in `s`. */
  function IndexOf(s: string, c: char): (r: Option<nat>)
    ensures r.Some? ==> r.value < |s| && s[r.value] == c && c !in s[..r.value]
    ensures r.None? ==> c !in s
  {
    if s == [] then None
    else if s[0] == c then Some(0)
    else match IndexOf(s[1..], c)
      case None => None
      case Some(i) => assert s[..i + 1] == [s[0]] + s[1..][..i]; Some(i + 1)
  }

  /** `isValidEmail(email)`. */
  function IsValidEmail(email: string): (r: bool)
    ensures r <==> EmailPattern(email)
  {
    EmailCorrect(email);
    EmailScan(email)
  }

  /** Finds the first `@` and checks what surrounds it. */
  predicate EmailScan(email: string) {
    var at := IndexOf(email, '@');
    && (forall k :: 0 <= k < |email| ==> !IsWhitespace(email[k]))
    && at.Some? && at.value > 0
    && '@' !in email[at.value + 1..]
    && at.value + 3 <= |email|
    && '.' in email[at.value + 2..|email| - 1]
  }

  lemma EmailCorrect(email: string)
    ensures EmailScan(email) <==> EmailPattern(email)
  {
    var at := IndexOf(email, '@');
    if EmailPattern(email) {
      var i, j :| 0 < i && i + 1 < j < |email| - 1 && email[i] == '@' && email[j] == '.'
                  && forall k :: 0 <= k < |email| && k != i ==> email[k] != '@';
      assert at.Some? && at.value == i;
      assert email[j] == email[i + 2..|email| - 1][j - i - 2];
      var rest := email[i + 1..];
      forall k | 0 <= k < |rest| ensures rest[k] != '@' {
        assert rest[k] == email[i + 1 + k];
      }
    }
    if EmailScan(email) {
      var i := at.value;
      var t := email[i + 2..|email| - 1];
      var d :| 0 <= d < |t| && t[d] == '.';
      var j := i + 2 + d;
      assert email[j] == '.';
      forall k | 0 <= k < |email| && k != i ensures email[k] != '@' {
        if k < i {
          assert email[k] == email[..i][k];
        } else {
          assert email[k] == email[i + 1..][k - i - 1];
        }
      }
    }
  }

  // ---------------------------------------------------------------------------
  // The field rules shared by the validators

  /** `v !== undefined && typeof v !== "boolean"`. */
  predicate PresentNotBoolean(v: Value) {
    v.Some? && TypeOf(v) != Boolean
  }

  /** `v && (typeof v !== "string" || v.length > max)`. */
  predicate LongOrNotString(v: Value, max: nat) {
    Truthy(v) && (TypeOf(v) != String || Utf16Length(v.value.s) > max)
  }

  /** `v && !isValidDate(v)`, when `isValidDate` returns. */
  predicate BadDate(v: Value, parseDate: DateParser) {
    Truthy(v) && IsValidDate(v.value, parseDate) == Ok(false)
  }

  /** `v && !isValidDate(v)` throws: `v` is truthy and `String(v)` throws `ConversionError`. */
  predicate DateThrows(v: Value) {
    Truthy(v) && !Convertible(v.value)
  }

  /**
   * What a request validator throws: the ValidationError it builds, or the TypeError a
   * date check raised before it got that far.
   */
  datatype Thrown = Rejected(failure: ValidationFailure) | TypeError(message: string)

  // ---------------------------------------------------------------------------
  // validateCreatePaymentRequest

  const PriceDynamicNotBoolean := "is_price_dynamic must be a boolean"
  const AmountRequired := "Amount is required"
  const AmountNotPositive := "Amount must be a positive number"
  const CurrencyRequired := "Currency is required"
  const CurrencyInvalid := "Currency must be a valid currency code"
  const TitleInvalid := "Title must be a string with maximum 255 characters"
  const DescriptionInvalid := "Description must be a string with maximum 1000 characters"
  const MultipleUseNotBoolean := "Multiple use must be a boolean"
  const CancelOnFirstFailNotBoolean := "cancel_on_first_fail must be a boolean"
  const ExpiresAtInvalid := "Expires at must be a valid date"

  /** `data.is_price_dynamic === true`: only the boolean `true` makes the price dynamic. */
  predicate IsPriceDynamic(data: Record) {
    Field(data, "is_price_dynamic") == Some(JBool(true))
  }

  /**
   * The amount rule. A fixed price needs a truthy amount (so `0` is reported as missing)
   * that is a positive number; a dynamic price only rejects an amount that is present
   * and not a positive number.
   */
  function AmountRule(data: Record): Option<string> {
    var amount := Field(data, "amount");
    if !IsPriceDynamic(data) then
      if !Truthy(amount) then Some(AmountRequired)
      else Report(!IsPositiveNumber(amount), AmountNotPositive)
    else Report(amount.Some? && !IsPositiveNumber(amount), AmountNotPositive)
  }

  /** `typeof v !== "string" || v.trim().length === 0`. */
  predicate BlankOrNotString(v: Value) {
    TypeOf(v) != String || Utf16Length(Trim(v.value.s)) == 0
  }

  /** The currency rule: a truthy value that is a string with something left after `trim`. */
  function CurrencyRule(data: Record): Option<string> {
    var currency := Field(data, "currency");
    if !Truthy(currency) then Some(CurrencyRequired)
    else Report(BlankOrNotString(currency), CurrencyInvalid)
  }

  /** The fields `validateCreatePaymentRequest` checks, in its order. */
  const CreatePaymentFields: seq<string> :=
    ["is_price_dynamic", "amount", "currency", "title", "description",
     "multiple_use", "cancel_on_first_fail", "expires_at"]

  /** The eight checks of `validateCreatePaymentRequest`, in its order. */
  function CreatePaymentChecks(data: Record, parseDate: DateParser): (checks: seq<Check>)
    ensures |checks| == 8
    ensures forall i :: 0 <= i < 8 ==> checks[i].field == CreatePaymentFields[i]
  {
    [ Check("is_price_dynamic", Report(PresentNotBoolean(Field(data, "is_price_dynamic")), PriceDynamicNotBoolean)),
      Check("amount", AmountRule(data)),
      Check("currency", CurrencyRule(data)),
      Check("title", Report(LongOrNotString(Field(data, "title"), 255), TitleInvalid)),
      Check("description", Report(LongOrNotString(Field(data, "description"), 1000), DescriptionInvalid)),
      Check("multiple_use", Report(PresentNotBoolean(Field(data, "multiple_use")), MultipleUseNotBoolean)),
      Check("cancel_on_first_fail",
            Report(PresentNotBoolean(Field(data, "cancel_on_first_fail")), CancelOnFirstFailNotBoolean)),
      Check("expires_at", Report(BadDate(Field(data, "expires_at"), parseDate), ExpiresAtInvalid)) ]
  }

  lemma CreatePaymentChecksDistinct(data: Record, parseDate: DateParser)
    ensures DistinctFields(CreatePaymentChecks(data, parseDate))
  {
    var checks := CreatePaymentChecks(data, parseDate);
    var lengths := [16, 6, 8, 5, 11, 12, 20, 10];
    assert forall i :: 0 <= i < 8 ==> |checks[i].field| == lengths[i];
  }

  /** The `errors` object `validateCreatePaymentRequest` builds for `data`. */
  function CreatePaymentErrors(data: Record, parseDate: DateParser): FieldErrors {
    Collect(CreatePaymentChecks(data, parseDate))
  }

  /** The `amount` block of `validateCreatePaymentRequest`. */
  method CheckAmount(errors: FieldErrors, data: Record) returns (next: FieldErrors)
    ensures next == Add(errors, Check("amount", AmountRule(data)))
  {
    next := errors;
    var isPriceDynamic := Field(data, "is_price_dynamic") == Some(JBool(true));
    var amount := Field(data, "amount");
    if !isPriceDynamic {
      if !Truthy(amount) {
        next := next["amount" := [AmountRequired]];
      } else if !IsPositiveNumber(amount) {
        next := next["amount" := [AmountNotPositive]];
      }
    } else if amount.Some? {
      if !IsPositiveNumber(amount) {
        next := next["amount" := [AmountNotPositive]];
      }
    }
  }

  /** The `currency` block of `validateCreatePaymentRequest`. */
  method CheckCurrency(errors: FieldErrors, data: Record) returns (next: FieldErrors)
    ensures next == Add(errors, Check("currency", CurrencyRule(data)))
  {
    next := errors;
    var currency := Field(data, "currency");
    if !Truthy(currency) {
      next := next["currency" := [CurrencyRequired]];
    } else if BlankOrNotString(currency) {
      next := next["currency" := [CurrencyInvalid]];
    }
  }

  /**
   * `validateCreatePaymentRequest(data)`: fills `errors` field by field, then throws
   * `ValidationError("Validation failed", errors)` when it is not empty.
   */
  method ValidateCreatePaymentRequest(data: Record, parseDate: DateParser) returns (r: Outcome<Thrown>)
    ensures DateThrows(Field(data, "expires_at")) ==> r == Fail(TypeError(ConversionError))
    ensures !DateThrows(Field(data, "expires_at")) ==>
      && (r.Pass? <==> CreatePaymentErrors(data, parseDate) == map[])
      && (r.Fail? ==> r.error == Rejected(ValidationFailure("Validation failed", CreatePaymentErrors(data, parseDate))))
  {
    var errors: FieldErrors := map[];
    errors := Flag(errors, "is_price_dynamic", PresentNotBoolean(Field(data, "is_price_dynamic")),
                   PriceDynamicNotBoolean);
    errors := CheckAmount(errors, data);
    errors := CheckCurrency(errors, data);
    errors := Flag(errors, "title", LongOrNotString(Field(data, "title"), 255), TitleInvalid);
    errors := Flag(errors, "description", LongOrNotString(Field(data, "description"), 1000), DescriptionInvalid);
    errors := Flag(errors, "multiple_use", PresentNotBoolean(Field(data, "multiple_use")), MultipleUseNotBoolean);
    errors := Flag(errors, "cancel_on_first_fail", PresentNotBoolean(Field(data, "cancel_on_first_fail")),
                   CancelOnFirstFailNotBoolean);
    var expiresAt := Field(data, "expires_at");
    if DateThrows(expiresAt) {
      r := Fail(TypeError(ConversionError));
      return;
    }
    errors := Flag(errors, "expires_at", BadDate(expiresAt, parseDate), ExpiresAtInvalid);
    CollectEight(
      Check("is_price_dynamic", Report(PresentNotBoolean(Field(data, "is_price_dynamic")), PriceDynamicNotBoolean)),
      Check("amount", AmountRule(data)),
      Check("currency", CurrencyRule(data)),
      Check("title", Report(LongOrNotString(Field(data, "title"), 255), TitleInvalid)),
      Check("description", Report(LongOrNotString(Field(data, "description"), 1000), DescriptionInvalid)),
      Check("multiple_use", Report(PresentNotBoolean(Field(data, "multiple_use")), MultipleUseNotBoolean)),
      Check("cancel_on_first_fail",
            Report(PresentNotBoolean(Field(data, "cancel_on_first_fail")), CancelOnFirstFailNotBoolean)),
      Check("expires_at", Report(BadDate(Field(data, "expires_at"), parseDate), ExpiresAtInvalid)));
    if errors != map[] {
      r := Fail(Rejected(ValidationFailure("Validation failed", errors)));
    } else {
      r := Pass;
    }
  }

  /** Check `i` of the create-payment request alone decides the entry of its field. */
  lemma CreatePaymentReports(data: Record, parseDate: DateParser, i: nat)
    requires i < 8
    ensures var c := CreatePaymentChecks(data, parseDate)[i];
      && (c.field in CreatePaymentErrors(data, parseDate) <==> c.failure.Some?)
      && (c.failure.Some? ==> CreatePaymentErrors(data, parseDate)[c.field] == [c.failure.value])
  {
    CreatePaymentChecksDistinct(data, parseDate);
    CollectReports(CreatePaymentChecks(data, parseDate), i);
  }

  /** Only the eight checked fields are ever reported. */
  lemma CreatePaymentFieldsOnly(data: Record, parseDate: DateParser, f: string)
    requires f in CreatePaymentErrors(data, parseDate)
    ensures f in CreatePaymentFields
  {
    var checks := CreatePaymentChecks(data, parseDate);
    CollectKeys(checks);
    var c :| c in checks && c.field == f && c.failure.Some?;
    var i :| 0 <= i < 8 && checks[i] == c;
  }

  /** With a fixed price, a falsy amount (`0`, `""`, `false`, `null`, none) is reported as missing. */
  lemma FalsyAmountIsMissing(data: Record, parseDate: DateParser)
    requires !IsPriceDynamic(data) && !Truthy(Field(data, "amount"))
    ensures "amount" in CreatePaymentErrors(data, parseDate)
    ensures CreatePaymentErrors(data, parseDate)["amount"] == [AmountRequired]
  {
    CreatePaymentReports(data, parseDate, 1);
  }

  /** The amount passes exactly when it is a positive number, or absent with a dynamic price. */
  lemma AmountAccepted(data: Record, parseDate: DateParser)
    ensures "amount" !in CreatePaymentErrors(data, parseDate) <==>
      IsPositiveNumber(Field(data, "amount")) || (IsPriceDynamic(data) && "amount" !in data)
  {
    CreatePaymentReports(data, parseDate, 1);
  }

  /**
   * A flag that is not the boolean `true` is reported and leaves the price fixed: the
   * string "true" with no amount gives both messages.
   */
  lemma StringDynamicFlag(data: Record, parseDate: DateParser)
    requires Field(data, "is_price_dynamic") == Some(JStr("true")) && "amount" !in data
    ensures "is_price_dynamic" in CreatePaymentErrors(data, parseDate) && "amount" in CreatePaymentErrors(data, parseDate)
    ensures CreatePaymentErrors(data, parseDate)["is_price_dynamic"] == [PriceDynamicNotBoolean]
    ensures CreatePaymentErrors(data, parseDate)["amount"] == [AmountRequired]
  {
    CreatePaymentReports(data, parseDate, 0);
    CreatePaymentReports(data, parseDate, 1);
  }

  /** The currency passes exactly when it is a string that is not all whitespace. */
  lemma CurrencyAccepted(data: Record, parseDate: DateParser)
    ensures "currency" !in CreatePaymentErrors(data, parseDate) <==>
      "currency" in data && data["currency"].JStr? && !AllWhitespace(data["currency"].s)
  {
    CreatePaymentReports(data, parseDate, 2);
    var currency := Field(data, "currency");
    if currency.Some? && currency.value.JStr? {
      var s := currency.value.s;
      if s == [] {
        assert AllWhitespace(s);
      }
    }
  }

  /** A non-zero number is truthy but never a valid date, so it is rejected as an expiry. */
  lemma NumericExpiryRejected(data: Record, parseDate: DateParser, n: int)
    requires Field(data, "expires_at") == Some(JNum(n)) && n != 0
    ensures "expires_at" in CreatePaymentErrors(data, parseDate)
    ensures CreatePaymentErrors(data, parseDate)["expires_at"] == [ExpiresAtInvalid]
  {
    NumberNeverValidDate(n, parseDate);
    CreatePaymentReports(data, parseDate, 7);
  }

  /** The optional fields pass when absent. */
  lemma AbsentOptionalsPass(data: Record, parseDate: DateParser)
    requires "is_price_dynamic" !in data && "title" !in data && "description" !in data
    requires "multiple_use" !in data && "cancel_on_first_fail" !in data && "expires_at" !in data
    ensures forall i :: 0 <= i < 8 && i != 1 && i != 2 ==> CreatePaymentChecks(data, parseDate)[i].failure.None?
  {
  }

  /** A request with a positive amount, a currency code and none of the optional fields passes. */
  lemma MinimalPaymentPasses(data: Record, parseDate: DateParser)
    requires IsPositiveNumber(Field(data, "amount"))
    requires "currency" in data && data["currency"].JStr? && !AllWhitespace(data["currency"].s)
    requires "is_price_dynamic" !in data && "title" !in data && "description" !in data
    requires "multiple_use" !in data && "cancel_on_first_fail" !in data && "expires_at" !in data
    ensures CreatePaymentErrors(data, parseDate) == map[]
  {
    AbsentOptionalsPass(data, parseDate);
    RequiredFieldsPass(data, parseDate);
    CollectEmpty(CreatePaymentChecks(data, parseDate));
  }

  /** A positive amount with a fixed price, and a non-blank currency code, pass. */
  lemma RequiredFieldsPass(data: Record, parseDate: DateParser)
    requires IsPositiveNumber(Field(data, "amount")) && !IsPriceDynamic(data)
    requires "currency" in data && data["currency"].JStr? && !AllWhitespace(data["currency"].s)
    ensures CreatePaymentChecks(data, parseDate)[1].failure.None?
    ensures CreatePaymentChecks(data, parseDate)[2].failure.None?
  {
    CurrencyAccepted(data, parseDate);
    CreatePaymentReports(data, parseDate, 2);
  }

  // ---------------------------------------------------------------------------
  // validateListRequest

  /** The values the `status` filter accepts, which are also the statuses a payment can have. */
  const PaymentStatuses: seq<string> :=
    ["pending", "attempting", "processing", "completed", "failed", "expired", "cancelled"]

  const LimitInvalid := "Limit must be an integer between 1 and 100"
  const PageTokenInvalid := "Page token must be a string"
  const StatusInvalid := "Status must be one of: pending, attempting, processing, completed, failed, expired, cancelled"
  const FromDateInvalid := "From date must be a valid date in YYYY-MM-DD format"
  const ToDateInvalid := "To date must be a valid date in YYYY-MM-DD format"

  /**
   * `v !== undefined && (!Number.isInteger(v) || v < 1 || v > 100)`. Numbers are
   * integers here, so `Number.isInteger` only rejects non-numbers.
   */
  predicate LimitOutOfRange(v: Value) {
    v.Some? && !(v.value.JNum? && 1 <= v.value.n <= 100)
  }

  /** `v !== undefined && typeof v !== "string"`. */
  predicate PresentNotString(v: Value) {
    v.Some? && TypeOf(v) != String
  }

  /** `v && !statuses.includes(v)`: `includes` compares strictly, so only strings match. */
  predicate UnknownStatus(v: Value) {
    Truthy(v) && !(v.value.JStr? && v.value.s in PaymentStatuses)
  }

  /** The five checks of `validateListRequest`, in its order. */
  function ListChecks(params: Record, parseDate: DateParser): (checks: seq<Check>)
    ensures |checks| == 5
  {
    [ Check("limit", Report(LimitOutOfRange(Field(params, "limit")), LimitInvalid)),
      Check("page_token", Report(PresentNotString(Field(params, "page_token")), PageTokenInvalid)),
      Check("status", Report(UnknownStatus(Field(params, "status")), StatusInvalid)),
      Check("from_date", Report(BadDate(Field(params, "from_date"), parseDate), FromDateInvalid)),
      Check("to_date", Report(BadDate(Field(params, "to_date"), parseDate), ToDateInvalid)) ]
  }

  lemma ListChecksDistinct(params: Record, parseDate: DateParser)
    ensures DistinctFields(ListChecks(params, parseDate))
  {
    var checks := ListChecks(params, parseDate);
    assert checks[3].field[0] == 'f' && checks[4].field[0] == 't';
    var lengths := [5, 10, 6, 9, 7];
    assert forall i :: 0 <= i < 5 ==> |checks[i].field| == lengths[i];
  }

  /** The `errors` object `validateListRequest` builds for `params`. */
  function ListErrors(params: Record, parseDate: DateParser): FieldErrors {
    Collect(ListChecks(params, parseDate))
  }

  /** `validateListRequest(params)`. */
  method ValidateListRequest(params: Record, parseDate: DateParser) returns (r: Outcome<Thrown>)
    ensures DateThrows(Field(params, "from_date")) || DateThrows(Field(params, "to_date")) ==>
      r == Fail(TypeError(ConversionError))
    ensures !DateThrows(Field(params, "from_date")) && !DateThrows(Field(params, "to_date")) ==>
      && (r.Pass? <==> ListErrors(params, parseDate) == map[])
      && (r.Fail? ==> r.error == Rejected(ValidationFailure("Validation failed", ListErrors(params, parseDate))))
  {
    var errors: FieldErrors := map[];
    errors := Flag(errors, "limit", LimitOutOfRange(Field(params, "limit")), LimitInvalid);
    errors := Flag(errors, "page_token", PresentNotString(Field(params, "page_token")), PageTokenInvalid);
    errors := Flag(errors, "status", UnknownStatus(Field(params, "status")), StatusInvalid);
    var fromDate := Field(params, "from_date");
    if DateThrows(fromDate) {
      r := Fail(TypeError(ConversionError));
      return;
    }
    errors := Flag(errors, "from_date", BadDate(fromDate, parseDate), FromDateInvalid);
    var toDate := Field(params, "to_date");
    if DateThrows(toDate) {
      r := Fail(TypeError(ConversionError));
      return;
    }
    errors := Flag(errors, "to_date", BadDate(toDate, parseDate), ToDateInvalid);
    CollectFive(
      Check("limit", Report(LimitOutOfRange(Field(params, "limit")), LimitInvalid)),
      Check("page_token", Report(PresentNotString(Field(params, "page_token")), PageTokenInvalid)),
      Check("status", Report(UnknownStatus(Field(params, "status")), StatusInvalid)),
      Check("from_date", Report(BadDate(Field(params, "from_date"), parseDate), FromDateInvalid)),
      Check("to_date", Report(BadDate(Field(params, "to_date"), parseDate), ToDateInvalid)));
    if errors != map[] {
      r := Fail(Rejected(ValidationFailure("Validation failed", errors)));
    } else {
      r := Pass;
    }
  }

  /** Check `i` of the list request alone decides the entry of its field. */
  lemma ListReports(params: Record, parseDate: DateParser, i: nat)
    requires i < 5
    ensures var c := ListChecks(params, parseDate)[i];
      && (c.field in ListErrors(params, parseDate) <==> c.failure.Some?)
      && (c.failure.Some? ==> ListErrors(params, parseDate)[c.field] == [c.failure.value])
  {
    ListChecksDistinct(params, parseDate);
    CollectReports(ListChecks(params, parseDate), i);
  }

  /** Listing with no filters (the default `{}`) passes. */
  lemma NoFiltersPass(parseDate: DateParser)
    ensures ListErrors(map[], parseDate) == map[]
  {
    CollectEmpty(ListChecks(map[], parseDate));
  }

  /** `limit` passes exactly when it is absent or an integer from 1 to 100. */
  lemma LimitAccepted(params: Record, parseDate: DateParser)
    ensures "limit" !in ListErrors(params, parseDate) <==>
      "limit" !in params || (params["limit"].JNum? && 1 <= params["limit"].n <= 100)
  {
    ListReports(params, parseDate, 0);
  }

  /** A `status` filter passes exactly when it is falsy or one of the seven statuses. */
  lemma StatusFilterAccepted(params: Record, parseDate: DateParser)
    ensures "status" !in ListErrors(params, parseDate) <==>
      !Truthy(Field(params, "status")) || (params["status"].JStr? && params["status"].s in PaymentStatuses)
  {
    ListReports(params, parseDate, 2);
  }

  /**
   * `from_date` and `to_date` are checked alike: each is reported exactly when it is truthy
   * and `isValidDate` returns false for it (when it throws, the validator throws instead).
   */
  lemma DateFiltersAccepted(params: Record, parseDate: DateParser)
    ensures "from_date" in ListErrors(params, parseDate) <==>
      Truthy(Field(params, "from_date")) && IsValidDate(params["from_date"], parseDate) == Ok(false)
    ensures "to_date" in ListErrors(params, parseDate) <==>
      Truthy(Field(params, "to_date")) && IsValidDate(params["to_date"], parseDate) == Ok(false)
  {
    ListReports(params, parseDate, 3);
    ListReports(params, parseDate, 4);
  }

  // ---------------------------------------------------------------------------
  // The status predicates

  /** `payment.status === status`: strict, so only the string itself matches. */
  function HasStatus(payment: Record, status: string): (b: bool)
    ensures b <==> "status" in payment && payment["status"] == JStr(status)
  {
    Field(payment, "status") == Some(JStr(status))
  }

  predicate IsPending(payment: Record) { HasStatus(payment, "pending") }
  predicate IsAttempting(payment: Record) { HasStatus(payment, "attempting") }
  predicate IsProcessing(payment: Record) { HasStatus(payment, "processing") }
  predicate IsCompleted(payment: Record) { HasStatus(payment, "completed") }
  predicate IsFailed(payment: Record) { HasStatus(payment, "failed") }
  predicate IsExpired(payment: Record) { HasStatus(payment, "expired") }
  predicate IsCancelled(payment: Record) { HasStatus(payment, "cancelled") }

  /** The seven predicates, in the order of `PaymentStatuses`. */
  function StatusTests(payment: Record): (tests: seq<bool>)
    ensures |tests| == 7
  {
    [ IsPending(payment), IsAttempting(payment), IsProcessing(payment), IsCompleted(payment),
      IsFailed(payment), IsExpired(payment), IsCancelled(payment) ]
  }

  /**
   * Predicate `i` holds exactly when the status is the `i`th of `PaymentStatuses`, so at
   * most one holds, and one does exactly when the status would pass the list filter.
   */
  lemma StatusTestsMatchStatuses(payment: Record)
    ensures forall i :: 0 <= i < 7 ==>
      (StatusTests(payment)[i] <==> Field(payment, "status") == Some(JStr(PaymentStatuses[i])))
    ensures forall i, j :: 0 <= i < j < 7 ==> !(StatusTests(payment)[i] && StatusTests(payment)[j])
    ensures (exists i :: 0 <= i < 7 && StatusTests(payment)[i]) <==>
      ("status" in payment && payment["status"].JStr? && payment["status"].s in PaymentStatuses)
  {
    var t := StatusTests(payment);
    var lengths := [7, 10, 10, 9, 6, 7, 9];
    assert forall i :: 0 <= i < 7 ==> |PaymentStatuses[i]| == lengths[i];
    assert PaymentStatuses[1][0] == 'a' && PaymentStatuses[2][0] == 'p';
    assert PaymentStatuses[0][0] == 'p' && PaymentStatuses[5][0] == 'e';
    assert PaymentStatuses[3][0] == 'c' && PaymentStatuses[6][0] == 'c' && PaymentStatuses[3][1] == 'o';
    assert PaymentStatuses[6][1] == 'a';
    if "status" in payment && payment["status"].JStr? && payment["status"].s in PaymentStatuses {
      var k :| 0 <= k < 7 && PaymentStatuses[k] == payment["status"].s;
      assert t[k];
    }
  }

  // ---------------------------------------------------------------------------
  // CurrencyService.isProcessedViaAnotherCurrency

  /** `currency.processed_via_currency_code !== null && ... !== undefined`. */
  function IsProcessedViaAnotherCurrency(currency: Record): (b: bool)
    ensures b <==> "processed_via_currency_code" in currency && currency["processed_via_currency_code"] != JNull
  {
    var code := Field(currency, "processed_via_currency_code");
    code.Some? && code.value != JNull
  }

  /** The test is presence, not truthiness: `""` and `0` count, `null` and a missing field do not. */
  lemma ProcessedViaPresence(currency: Record, v: Json)
    ensures IsProcessedViaAnotherCurrency(currency["processed_via_currency_code" := v]) <==> v != JNull
    ensures IsProcessedViaAnotherCurrency(currency) <==>
      "processed_via_currency_code" in currency && currency["processed_via_currency_code"] != JNull
  {
  }
}
