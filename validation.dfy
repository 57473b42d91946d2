/**
 * The field validators of lib/validation.py. Each takes a Python value and
 * either returns the value to store or raises; each carries a `constraints`
 * attribute, a closed list of choices or a free-text hint shown to the user.
 * Regular expressions are modelled by the character-position shapes they
 * accept, on ASCII text (`\d` and `\w` as their ASCII classes).
 */
module Validation {
  import opened Wrappers
  import opened PyValues

  /** The `constraints` attribute of a validator. */
  datatype Constraints = Choices(options: seq<string>) | Hint(text: string)

  /** A validator function together with its `__name__` and `constraints`. */
  datatype Validator = Validator(name: string, constraints: Constraints, check: Value -> Result<Value, Error>)

  /** What `re.fullmatch` raises for a value that is not a string. */
  const NotAString := TypeError("expected string or bytes-like object")

  // ---------------------------------------------------------------------
  // Free-text validators

  /** The check `name_validation` and `address_validation` share; only the message differs. */
  function NonEmptyText(v: Value, message: string): (r: Result<Value, Error>)
    ensures r.Success? <==> v.Str? && |v.s| > 0
    ensures r.Success? ==> r.value == v
    ensures r.Failure? ==> r.error == ValueError(message)
  {
    if v.Str? && |v.s| > 0 then Success(v) else Failure(ValueError(message))
  }

  function NameValidation(v: Value): (r: Result<Value, Error>)
    ensures r.Success? <==> v.Str? && |v.s| > 0
    ensures r.Success? ==> r.value == v
    ensures r.Failure? ==> r.error == ValueError("Name must be non-empty string")
  {
    NonEmptyText(v, "Name must be non-empty string")
  }

  function AddressValidation(v: Value): (r: Result<Value, Error>)
    ensures r.Success? <==> v.Str? && |v.s| > 0
    ensures r.Success? ==> r.value == v
    ensures r.Failure? ==> r.error == ValueError("Address must be non-empty string")
  {
    NonEmptyText(v, "Address must be non-empty string")
  }

  function DescrValidation(v: Value): (r: Result<Value, Error>)
    ensures r.Success? <==> v.Str? && |v.s| >= 2
    ensures r.Success? ==> r.value == v
  {
    if v.Str? && |v.s| > 1 then Success(v)
    else Failure(ValueError("Description must be string greater than one character"))
  }

  // ---------------------------------------------------------------------
  // Email: [A-z][A-z0-9._-]+@\w+\.[a-z]+ (full match)

  /** `[A-z]`: every code point from 'A' to 'z', which includes [ \ ] ^ _ and the backquote. */
  predicate AzChar(c: char) { 'A' <= c <= 'z' }

  predicate LocalChar(c: char) { AzChar(c) || IsAsciiDigit(c) || c == '.' || c == '_' || c == '-' }

  /** `\w` on ASCII text. */
  predicate WordChar(c: char) { IsAsciiLetter(c) || IsAsciiDigit(c) || c == '_' }

  predicate LowerLetter(c: char) { 'a' <= c <= 'z' }

  /** `s` read as first char, local part s[1..a], '@', domain s[a+1..d], '.', suffix s[d+1..]. */
  ghost predicate EmailParts(s: string, a: int, d: int) {
    && 2 <= a && a + 1 < d && d + 1 < |s|
    && AzChar(s[0])
    && (forall i :: 1 <= i < a ==> LocalChar(s[i]))
    && s[a] == '@'
    && (forall i :: a < i < d ==> WordChar(s[i]))
    && s[d] == '.'
    && (forall i :: d < i < |s| ==> LowerLetter(s[i]))
  }

  /** The language of the email pattern: some split of `s` fits it. */
  ghost predicate EmailShape(s: string) {
    exists a: int, d: int :: EmailParts(s, a, d)
  }

  /** The first index at or after `from` that holds `c`, or |s| when there is none. */
  function FindChar(s: string, c: char, from: nat): (k: nat)
    requires from <= |s|
    ensures from <= k <= |s|
    ensures k < |s| ==> s[k] == c
    ensures forall i :: from <= i < k ==> s[i] != c
    decreases |s| - from
  {
    if from == |s| || s[from] == c then from else FindChar(s, c, from + 1)
  }

  /** The matcher: split at the first '@' and at the first '.' after it. */
  predicate MatchesEmail(s: string) {
    var a := FindChar(s, '@', 0);
    var d := FindChar(s, '.', if a < |s| then a + 1 else |s|);
    && a < |s| && 2 <= a && a + 1 < d && d + 1 < |s|
    && AzChar(s[0])
    && (forall i :: 1 <= i < a ==> LocalChar(s[i]))
    && (forall i :: a < i < d ==> WordChar(s[i]))
    && (forall i :: d < i < |s| ==> LowerLetter(s[i]))
  }

  /** No character class before the '@' contains '@', and `\w` does not contain '.', so the split is unique. */
  lemma MatchesEmailIffShape(s: string)
    ensures MatchesEmail(s) <==> EmailShape(s)
  {
    var a := FindChar(s, '@', 0);
    var d := FindChar(s, '.', if a < |s| then a + 1 else |s|);
    if MatchesEmail(s) {
      assert EmailParts(s, a, d);
    }
    if EmailShape(s) {
      var a', d' :| EmailParts(s, a', d');
      assert forall i :: 0 <= i < a' ==> s[i] != '@';
      assert a == a';
      assert forall i :: a' + 1 <= i < d' ==> s[i] != '.';
      assert d == d';
    }
  }

  function EmailValidation(v: Value): (r: Result<Value, Error>)
    ensures r.Success? <==> v.Str? && EmailShape(v.s)
    ensures r.Success? ==> r.value == v
  {
    if !v.Str? then Failure(NotAString)
    else
      MatchesEmailIffShape(v.s);
      if MatchesEmail(v.s) then Success(v) else Failure(ValueError("Did not enter valid email address"))
  }

  /** The range [A-z] lets the six characters between 'Z' and 'a' through, and one character before '@' is too few. */
  lemma EmailPatternQuirks()
    ensures EmailValidation(Str("[^@mail.com")).Success?
    ensures EmailValidation(Str("a@mail.com")).Failure?
  {
    BracketStartsAnEmail();
    OneCharLocalPartRefused();
  }

  lemma BracketStartsAnEmail()
    ensures MatchesEmail("[^@mail.com")
  {
    var s := "[^@mail.com";
    assert FindChar(s, '@', 0) == 2 by {
      assert s[0] != '@' && s[1] != '@' && s[2] == '@';
    }
    assert FindChar(s, '.', 3) == 7 by {
      assert s[3] != '.' && s[4] != '.' && s[5] != '.' && s[6] != '.' && s[7] == '.';
    }
    assert AzChar(s[0]) && LocalChar(s[1]);
    assert forall i :: 2 < i < 7 ==> WordChar(s[i]) by {
      assert s[3..7] == "mail";
    }
    assert forall i :: 7 < i < 11 ==> LowerLetter(s[i]) by {
      assert s[8..] == "com";
    }
  }

  lemma OneCharLocalPartRefused()
    ensures !MatchesEmail("a@mail.com")
  {
    assert FindChar("a@mail.com", '@', 0) == 1;
  }

  // ---------------------------------------------------------------------
  // Phone: \([0-9]{3}\) [0-9]{3}-[0-9]{4}|[0-9]{3}-[0-9]{3}-[0-9]{4}|[0-9]{10}

  predicate DigitsAt(s: string, lo: int, hi: int)
    requires 0 <= lo <= hi <= |s|
  {
    forall i :: lo <= i < hi ==> IsAsciiDigit(s[i])
  }

  predicate PhoneShape(s: string) {
    || (&& |s| == 14 && s[0] == '(' && DigitsAt(s, 1, 4) && s[4] == ')' && s[5] == ' '
        && DigitsAt(s, 6, 9) && s[9] == '-' && DigitsAt(s, 10, 14))
    || (&& |s| == 12 && DigitsAt(s, 0, 3) && s[3] == '-' && DigitsAt(s, 4, 7) && s[7] == '-'
        && DigitsAt(s, 8, 12))
    || (|s| == 10 && DigitsAt(s, 0, 10))
  }

  function PhoneValidation(v: Value): (r: Result<Value, Error>)
    ensures r.Success? <==> v.Str? && PhoneShape(v.s)
    ensures r.Success? ==> r.value == v
  {
    if !v.Str? then Failure(NotAString)
    else if PhoneShape(v.s) then Success(v)
    else Failure(ValueError("Did not enter valid phone number"))
  }

  /** The number of ASCII digits in s[lo..hi]. */
  function DigitCount(s: string, lo: int, hi: int): (n: nat)
    requires 0 <= lo <= hi <= |s|
    decreases hi - lo
  {
    if lo == hi then 0 else DigitCount(s, lo, hi - 1) + (if IsAsciiDigit(s[hi - 1]) then 1 else 0)
  }

  lemma {:induction false} DigitCountSplit(s: string, lo: int, mid: int, hi: int)
    requires 0 <= lo <= mid <= hi <= |s|
    ensures DigitCount(s, lo, hi) == DigitCount(s, lo, mid) + DigitCount(s, mid, hi)
    decreases hi - mid
  {
    if mid < hi {
      DigitCountSplit(s, lo, mid, hi - 1);
    }
  }

  lemma {:induction false} DigitCountAllDigits(s: string, lo: int, hi: int)
    requires 0 <= lo <= hi <= |s|
    requires DigitsAt(s, lo, hi)
    ensures DigitCount(s, lo, hi) == hi - lo
    decreases hi - lo
  {
    if lo < hi {
      DigitCountAllDigits(s, lo, hi - 1);
    }
  }

  /** Every phone number the validator accepts holds exactly ten digits, whichever of the three layouts it uses. */
  lemma PhoneHasTenDigits(s: string)
    requires PhoneValidation(Str(s)).Success?
    ensures DigitCount(s, 0, |s|) == 10
  {
    if |s| == 14 {
      ParenLayoutDigits(s);
    } else if |s| == 12 {
      DashLayoutDigits(s);
    } else {
      DigitCountAllDigits(s, 0, 10);
    }
  }

  /** "(ddd) ddd-dddd" holds ten digits. */
  lemma ParenLayoutDigits(s: string)
    requires |s| == 14 && s[0] == '(' && DigitsAt(s, 1, 4) && s[4] == ')' && s[5] == ' '
    requires DigitsAt(s, 6, 9) && s[9] == '-' && DigitsAt(s, 10, 14)
    ensures DigitCount(s, 0, 14) == 10
  {
    DigitCountSplit(s, 0, 1, 14);
    DigitCountSplit(s, 1, 4, 14);
    DigitCountSplit(s, 4, 6, 14);
    DigitCountSplit(s, 6, 9, 14);
    DigitCountSplit(s, 9, 10, 14);
    DigitCountAllDigits(s, 1, 4);
    DigitCountAllDigits(s, 6, 9);
    DigitCountAllDigits(s, 10, 14);
  }

  /** "ddd-ddd-dddd" holds ten digits. */
  lemma DashLayoutDigits(s: string)
    requires |s| == 12 && DigitsAt(s, 0, 3) && s[3] == '-' && DigitsAt(s, 4, 7) && s[7] == '-' && DigitsAt(s, 8, 12)
    ensures DigitCount(s, 0, 12) == 10
  {
    DigitCountSplit(s, 0, 3, 12);
    DigitCountSplit(s, 3, 4, 12);
    DigitCountSplit(s, 4, 7, 12);
    DigitCountSplit(s, 7, 8, 12);
    DigitCountAllDigits(s, 0, 3);
    DigitCountAllDigits(s, 4, 7);
    DigitCountAllDigits(s, 8, 12);
  }

  // ---------------------------------------------------------------------
  // Dates: ^\d{4}-\d{2}-\d{2}$ (full match), no calendar check

  predicate DateShape(s: string) {
    && |s| == 10
    && DigitsAt(s, 0, 4) && s[4] == '-' && DigitsAt(s, 5, 7) && s[7] == '-' && DigitsAt(s, 8, 10)
  }

  function DateValidation(v: Value): (r: Result<Value, Error>)
    ensures r.Success? <==> v.Str? && DateShape(v.s)
    ensures r.Success? ==> r.value == v
  {
    if !v.Str? then Failure(NotAString)
    else if DateShape(v.s) then Success(v)
    else Failure(ValueError("Did not enter date in YYYY-DD-MM format"))
  }

  /** An accepted date is a four-digit part, '-', a two-digit part, '-', a two-digit part; month and day are not range-checked. */
  lemma DateParts(s: string)
    requires DateValidation(Str(s)).Success?
    ensures s == s[..4] + "-" + s[5..7] + "-" + s[8..]
    ensures |s[..4]| == 4 && |s[5..7]| == 2 && |s[8..]| == 2
  {
    assert s == s[..4] + [s[4]] + s[5..7] + [s[7]] + s[8..];
  }

  lemma DateIsNotCalendarChecked()
    ensures DateValidation(Str("2024-13-45")).Success?
  {
  }

  /** None and "" mean "no date"; anything else must be a valid date. */
  function OptionalDateValidation(v: Value): (r: Result<Value, Error>)
    ensures (v.NoneV? || v == Str("")) ==> r == Success(NoneV)
    ensures !(v.NoneV? || v == Str("")) ==> r == DateValidation(v)
  {
    if v.NoneV? || v == Str("") then Success(NoneV) else DateValidation(v)
  }

  // ---------------------------------------------------------------------
  // Amounts

  /** int or float (bool included, being an int) at least zero, returned as float. */
  function DollarAmtValidation(v: Value): (r: Result<Value, Error>)
    ensures r.Success? <==> IsNumber(v) && RealOf(v) >= 0.0
    ensures r.Success? ==> r.value == Float(RealOf(v))
  {
    if (v.Float? || IsInstanceInt(v)) && RealOf(v) >= 0.0 then Success(Float(RealOf(v)))
    else Failure(ValueError("Value must be positive number"))
  }

  // ---------------------------------------------------------------------
  // Closed choice lists

  const PaymentMethods: seq<string> := ["check", "venmo", "zelle", "cash"]
  const ExpenseCategories: seq<string> := ["mortgage", "property mgmt", "repairs", "maintenance", "rennovations", "cleaning"]
  const PaymentCategories: seq<string> := ["rent", "security deposit", "late fee"]

  /** `v in options` for a list of strings: only an equal string is a member. */
  function ChoiceValidation(v: Value, options: seq<string>, msg: string): (r: Result<Value, Error>)
    ensures r.Success? <==> v.Str? && v.s in options
    ensures r.Success? ==> r.value == v
  {
    if v.Str? && v.s in options then Success(v) else Failure(ValueError(msg))
  }

  function MethodValidation(v: Value): Result<Value, Error> {
    ChoiceValidation(v, PaymentMethods, "Payment method must match one of the following:")
  }

  function ExpCategoryValidation(v: Value): Result<Value, Error> {
    ChoiceValidation(v, ExpenseCategories, "Payment type must match one of the following:")
  }

  function PmtCategoryValidation(v: Value): Result<Value, Error> {
    ChoiceValidation(v, PaymentCategories, "Payment type must match one of the following:")
  }

  // ---------------------------------------------------------------------
  // Foreign keys

  /** Exactly an int (not a bool) naming a row the parent class can find. */
  function ParentIdValidation(v: Value, parentExists: int -> bool): (r: Result<Value, Error>)
    ensures r.Success? <==> v.Int? && parentExists(v.i)
    ensures r.Success? ==> r.value == v
  {
    if v.Int? && parentExists(v.i) then Success(v)
    else Failure(ValueError("parent_id must match an existing parent id in the database"))
  }

  // ---------------------------------------------------------------------
  // The validators with their names and constraints attributes

  const NameValidator := Validator("name_validation", Hint("non-empty string"), NameValidation)
  const AddressValidator := Validator("address_validation", Hint("non-empty string"), AddressValidation)
  const DescrValidator := Validator("descr_validation", Hint("string greater than one character"), DescrValidation)
  const EmailValidator := Validator("email_validation", Hint("valid email address"), EmailValidation)
  const PhoneValidator := Validator("phone_validation", Hint("valid 10-digit phone number"), PhoneValidation)
  const DateValidator := Validator("date_validation", Hint("YYYY-DD-MM format"), DateValidation)
  const OptionalDateValidator := Validator("optional_date_validation",
    Hint("enter date in YYYY-DD-MM format or click enter to bypass"), OptionalDateValidation)
  const DollarAmtValidator := Validator("dollar_amt_validation", Hint("positive number"), DollarAmtValidation)
  const MethodValidator := Validator("method_validation", Choices(PaymentMethods), MethodValidation)
  const ExpCategoryValidator := Validator("exp_category_validation", Choices(ExpenseCategories), ExpCategoryValidation)
  const PmtCategoryValidator := Validator("pmt_category_validation", Choices(PaymentCategories), PmtCategoryValidation)

  function ParentIdValidator(parentExists: int -> bool): Validator {
    Validator("parent_id_validation", Hint("match an existing parent id in the database"),
      v => ParentIdValidation(v, parentExists))
  }

  /** The validators of lib/validation.py (the parent-id one for a given parent table). */
  ghost predicate IsLibraryValidator(val: Validator) {
    || val == NameValidator || val == AddressValidator || val == DescrValidator
    || val == EmailValidator || val == PhoneValidator || val == DateValidator
    || val == OptionalDateValidator || val == DollarAmtValidator || val == MethodValidator
    || val == ExpCategoryValidator || val == PmtCategoryValidator
    || exists p: int -> bool :: val == ParentIdValidator(p)
  }

  /** Each choice validator accepts a string exactly when its `constraints` list holds it. */
  lemma ChoiceValidatorsMatchConstraints(s: string)
    ensures MethodValidator.check(Str(s)).Success? <==> s in MethodValidator.constraints.options
    ensures ExpCategoryValidator.check(Str(s)).Success? <==> s in ExpCategoryValidator.constraints.options
    ensures PmtCategoryValidator.check(Str(s)).Success? <==> s in PmtCategoryValidator.constraints.options
  {
  }

  /**
   * Validating an already validated value gives it back: this is why a property
   * setter that re-runs the validator on a value a prompt has just accepted
   * never raises.
   */
  lemma {:induction false} LibraryValidatorsIdempotent(val: Validator, x: Value)
    requires IsLibraryValidator(val)
    requires val.check(x).Success?
    ensures val.check(val.check(x).value) == val.check(x)
  {
    if val == DollarAmtValidator {
      var y := val.check(x).value;
      assert y == Float(RealOf(x));
      assert val.check(y) == Success(y);
    } else if val == OptionalDateValidator {
      if !(x.NoneV? || x == Str("")) {
        assert val.check(x).value == x;
      }
    } else {
      KeepsInput(val, x);
    }
  }

  /** A library validator that returns a string returns the very string it was given. */
  lemma {:induction false} LibraryValidatorsKeepText(val: Validator, x: Value)
    requires IsLibraryValidator(val)
    requires val.check(x).Success? && val.check(x).value.Str?
    ensures val.check(x).value == x
  {
    if val == OptionalDateValidator {
      assert !(x.NoneV? || x == Str(""));
    } else if val != DollarAmtValidator {
      KeepsInput(val, x);
    }
  }

  /** Every library validator except the amount and optional-date ones returns what it accepts. */
  lemma KeepsInput(val: Validator, x: Value)
    requires IsLibraryValidator(val) && val != DollarAmtValidator && val != OptionalDateValidator
    requires val.check(x).Success?
    ensures val.check(x).value == x
  {
    if val == NameValidator {
    } else if val == AddressValidator {
    } else if val == DescrValidator {
    } else if val == EmailValidator {
    } else if val == PhoneValidator {
    } else if val == DateValidator {
    } else if val == MethodValidator {
    } else if val == ExpCategoryValidator {
    } else if val == PmtCategoryValidator {
    } else {
      var p: int -> bool :| val == ParentIdValidator(p);
      assert val.check(x) == ParentIdValidation(x, p);
    }
  }
}
