/** The checks Django REST framework's serializer fields run on a request
    body before the backend's own `validate_<field>` methods: text fields
    trimmed and bounded in length, decimal fields bounded in digits, choice
    fields and primary keys looked up. Each check gives the message the
    framework reports under the field's name; a serializer collects the
    reports of all its fields, in field order. */
module FieldChecks {
  import opened Common

  // ---------------------------------------------------------------------
  // Error bodies

  /** The field names of an error body, in order. */
  function FieldsOf(errors: seq<FieldError>): (r: seq<string>)
    ensures |r| == |errors|
    ensures forall k :: 0 <= k < |r| ==> r[k] == errors[k].field
  {
    seq(|errors|, k requires 0 <= k < |errors| => errors[k].field)
  }

  /** What the body reports for a field: the first member of that name. */
  function ErrorOf(errors: seq<FieldError>, field: string): (r: Option<ErrorDetail>)
    ensures r.None? <==> field !in FieldsOf(errors)
  {
    if errors == [] then None
    else if errors[0].field == field then Some(errors[0].detail)
    else
      assert FieldsOf(errors) == [errors[0].field] + FieldsOf(errors[1..]);
      ErrorOf(errors[1..], field)
  }

  lemma {:induction false} ErrorOfAppend(a: seq<FieldError>, b: seq<FieldError>, field: string)
    ensures ErrorOf(a + b, field) == if ErrorOf(a, field).Some? then ErrorOf(a, field) else ErrorOf(b, field)
  {
    if a != [] {
      assert (a + b)[1..] == a[1..] + b;
      ErrorOfAppend(a[1..], b, field);
    } else {
      assert a + b == b;
    }
  }

  /** A field's name if its report is a failure, else nothing. */
  function Listed(report: (string, Option<ErrorDetail>)): seq<string>
  {
    if report.1.Some? then [report.0] else []
  }

  /** The fields of a list of reports that failed, in order. */
  function Failing(reports: seq<(string, Option<ErrorDetail>)>): seq<string>
  {
    if reports == [] then [] else Listed(reports[0]) + Failing(reports[1..])
  }

  /** The error body a serializer builds from its fields' reports, taken
      in field order: one member for each field that failed. */
  function Collect(reports: seq<(string, Option<ErrorDetail>)>): (r: seq<FieldError>)
    ensures r == [] <==> forall k :: 0 <= k < |reports| ==> reports[k].1.None?
  {
    if reports == [] then []
    else
      var rest := Collect(reports[1..]);
      assert (forall k :: 0 <= k < |reports| ==> reports[k].1.None?) <==>
        reports[0].1.None? && forall k :: 0 <= k < |reports[1..]| ==> reports[1..][k].1.None? by {
        if forall k :: 0 <= k < |reports[1..]| ==> reports[1..][k].1.None? {
          forall k | 1 <= k < |reports|
            ensures reports[k].1.None?
          {
            assert reports[k] == reports[1..][k - 1];
          }
        }
      }
      (if reports[0].1.Some? then [FieldError(reports[0].0, reports[0].1.value)] else []) + rest
  }

  /** The body lists exactly the failing fields, in order. */
  lemma {:induction false} CollectFields(reports: seq<(string, Option<ErrorDetail>)>)
    ensures FieldsOf(Collect(reports)) == Failing(reports)
  {
    if reports != [] {
      var rest := reports[1..];
      CollectFields(rest);
      var head := if reports[0].1.Some? then [FieldError(reports[0].0, reports[0].1.value)] else [];
      assert Collect(reports) == head + Collect(rest);
      assert FieldsOf(head) == Listed(reports[0]);
      assert FieldsOf(head + Collect(rest)) == FieldsOf(head) + FieldsOf(Collect(rest));
    }
  }

  /** With no field named twice, the body reports for a field what its
      check reported. */
  lemma {:induction false} CollectError(reports: seq<(string, Option<ErrorDetail>)>, k: nat)
    requires forall i, j :: 0 <= i < j < |reports| ==> reports[i].0 != reports[j].0
    requires k < |reports|
    ensures ErrorOf(Collect(reports), reports[k].0) == reports[k].1
  {
    var rest := reports[1..];
    var head := if reports[0].1.Some? then [FieldError(reports[0].0, reports[0].1.value)] else [];
    assert Collect(reports) == head + Collect(rest);
    ErrorOfAppend(head, Collect(rest), reports[k].0);
    if k > 0 {
      assert reports[k] == rest[k - 1];
      assert forall i, j :: 0 <= i < j < |rest| ==> rest[i].0 != rest[j].0 by {
        forall i, j | 0 <= i < j < |rest|
          ensures rest[i].0 != rest[j].0
        {
          assert rest[i] == reports[i + 1] && rest[j] == reports[j + 1];
        }
      }
      CollectError(rest, k - 1);
      assert reports[0].0 != reports[k].0;
    } else {
      assert forall j :: 0 <= j < |rest| ==> rest[j].0 != reports[0].0 by {
        forall j | 0 <= j < |rest|
          ensures rest[j].0 != reports[0].0
        {
          assert rest[j] == reports[j + 1];
        }
      }
      FailingNames(rest, reports[0].0);
      CollectFields(rest);
    }
  }

  /** With no field named twice, the body lists exactly the failing fields,
      in order, and reports for each field what its check reported. */
  lemma CollectReports(reports: seq<(string, Option<ErrorDetail>)>)
    requires forall i, j :: 0 <= i < j < |reports| ==> reports[i].0 != reports[j].0
    ensures FieldsOf(Collect(reports)) == Failing(reports)
    ensures forall k :: 0 <= k < |reports| ==> ErrorOf(Collect(reports), reports[k].0) == reports[k].1
  {
    CollectFields(reports);
    forall k | 0 <= k < |reports|
      ensures ErrorOf(Collect(reports), reports[k].0) == reports[k].1
    {
      CollectError(reports, k);
    }
  }

  /** A field none of the reports names is not among the failing ones. */
  lemma {:induction false} FailingNames(reports: seq<(string, Option<ErrorDetail>)>, field: string)
    requires forall k :: 0 <= k < |reports| ==> reports[k].0 != field
    ensures field !in Failing(reports)
  {
    if reports != [] {
      FailingNames(reports[1..], field);
    }
  }

  /** `CollectReports` for a serializer of two fields. */
  lemma CollectTwo(a: (string, Option<ErrorDetail>), b: (string, Option<ErrorDetail>))
    requires a.0 != b.0
    ensures var r := Collect([a, b]);
      && FieldsOf(r) == Listed(a) + Listed(b)
      && ErrorOf(r, a.0) == a.1 && ErrorOf(r, b.0) == b.1
  {
    var reports := [a, b];
    CollectReports(reports);
    assert reports[1..][1..] == [];
    assert Failing(reports[1..]) == Listed(b);
  }

  /** `CollectReports` for a serializer of four fields. */
  lemma CollectFour(a: (string, Option<ErrorDetail>), b: (string, Option<ErrorDetail>),
                    c: (string, Option<ErrorDetail>), d: (string, Option<ErrorDetail>))
    requires a.0 != b.0 && a.0 != c.0 && a.0 != d.0 && b.0 != c.0 && b.0 != d.0 && c.0 != d.0
    ensures var r := Collect([a, b, c, d]);
      && FieldsOf(r) == Listed(a) + Listed(b) + Listed(c) + Listed(d)
      && ErrorOf(r, a.0) == a.1 && ErrorOf(r, b.0) == b.1
      && ErrorOf(r, c.0) == c.1 && ErrorOf(r, d.0) == d.1
  {
    var reports := [a, b, c, d];
    CollectReports(reports);
    assert reports[1..][1..][1..][1..] == [];
    assert Failing(reports[1..][1..][1..]) == Listed(d);
    assert Failing(reports[1..][1..]) == Listed(c) + Listed(d);
    assert Failing(reports[1..]) == Listed(b) + (Listed(c) + Listed(d));
    AppendAssociative(Listed(a), Listed(b), Listed(c), Listed(d));
  }

  lemma AppendAssociative<T>(a: seq<T>, b: seq<T>, c: seq<T>, d: seq<T>)
    ensures a + (b + (c + d)) == a + b + c + d
  {
  }

  /** The report of a check with a single message. */
  function Report<T>(check: Result<T>): (r: Option<ErrorDetail>)
    ensures r.None? <==> check.Ok?
    ensures check.Err? ==> r == Some(Messages([check.message]))
  {
    if check.Err? then Some(Messages([check.message])) else None
  }

  /** A field check followed by the serializer's `validate_<field>`, which
      only runs on a value the field accepted. */
  function Then<T>(field: Result<T>, validator: T -> Result<T>): (r: Result<T>)
    ensures field.Err? ==> r == field
    ensures field.Ok? ==> r == validator(field.value)
  {
    if field.Err? then field else validator(field.value)
  }

  // ---------------------------------------------------------------------
  // Text fields

  /** The characters Python's `str.strip()` removes: those `str.isspace()`
      accepts. */
  predicate IsPySpace(c: char)
  {
    || ('\t' <= c <= '\r') || ('\U{001C}' <= c <= ' ') || c == '\U{0085}' || c == '\U{00A0}'
    || c == '\U{1680}' || ('\U{2000}' <= c <= '\U{200A}') || c == '\U{2028}' || c == '\U{2029}'
    || c == '\U{202F}' || c == '\U{205F}' || c == '\U{3000}'
  }

  function TrimStart(s: string): (r: string)
    ensures |r| <= |s| && r == s[|s| - |r|..]
    ensures r != [] ==> !IsPySpace(r[0])
    ensures forall k :: 0 <= k < |s| - |r| ==> IsPySpace(s[k])
  {
    if s != [] && IsPySpace(s[0]) then
      var r := TrimStart(s[1..]);
      assert forall k :: 1 <= k < |s| - |r| ==> s[k] == s[1..][k - 1];
      r
    else s
  }

  function TrimEnd(s: string): (r: string)
    ensures |r| <= |s| && r == s[..|r|]
    ensures r != [] ==> !IsPySpace(r[|r| - 1])
    ensures forall k :: |r| <= k < |s| ==> IsPySpace(s[k])
  {
    if s != [] && IsPySpace(s[|s| - 1]) then
      var r := TrimEnd(s[..|s| - 1]);
      assert forall k :: |r| <= k < |s| - 1 ==> s[k] == s[..|s| - 1][k];
      r
    else s
  }

  /** `str(s).strip()`. */
  function Strip(s: string): string
  {
    TrimEnd(TrimStart(s))
  }

  /** What `Strip` keeps: the part of `s` between its leading and trailing
      white space, empty exactly when `s` is nothing but white space. */
  lemma StripSpec(s: string)
    ensures var r := Strip(s);
      && (r != [] ==> !IsPySpace(r[0]) && !IsPySpace(r[|r| - 1]))
      && (r == [] <==> forall k :: 0 <= k < |s| ==> IsPySpace(s[k]))
      && exists i: nat, j: nat :: i <= j <= |s| && r == s[i..j]
  {
    var t := TrimStart(s);
    var r := TrimEnd(t);
    var i := |s| - |t|;
    TrimmedSlice(s, t, r, i);
    assert r == s[i..i + |r|];
  }

  /** `r` cut from `s` after the leading space `s[..i]`, before trailing
      space: the facts `StripSpec` needs, stated on plain sequences. */
  lemma TrimmedSlice(s: string, t: string, r: string, i: nat)
    requires i <= |s| && t == s[i..] && |r| <= |t| && r == t[..|r|]
    requires forall k :: 0 <= k < i ==> IsPySpace(s[k])
    requires forall k :: |r| <= k < |t| ==> IsPySpace(t[k])
    requires t != [] ==> !IsPySpace(t[0])
    requires r != [] ==> !IsPySpace(r[|r| - 1])
    ensures r != [] ==> !IsPySpace(r[0]) && !IsPySpace(r[|r| - 1])
    ensures r == [] <==> forall k :: 0 <= k < |s| ==> IsPySpace(s[k])
    ensures r == s[i..i + |r|]
  {
  }

  /** A string already without surrounding white space is its own strip. */
  lemma StripUnpadded(s: string)
    requires s != [] ==> !IsPySpace(s[0]) && !IsPySpace(s[|s| - 1])
    ensures Strip(s) == s
  {
  }

  /** Stripping twice is stripping once. */
  lemma StripIdempotent(s: string)
    ensures Strip(Strip(s)) == Strip(s)
  {
    StripSpec(s);
    StripUnpadded(Strip(s));
  }

  const BLANK_ERROR := "This field may not be blank."

  function MaxLengthError(n: nat): string
  {
    "Ensure this field has no more than " + NatToString(n) + " characters."
  }

  /** A `CharField` with the default `trim_whitespace`: a value that is
      empty once stripped is refused unless blanks are allowed (and is then
      the empty string), and the length bound, if any, applies to the
      stripped value, which is what gets stored. */
  function CheckText(s: string, allowBlank: bool, maxLength: Option<nat>): (r: Result<string>)
    ensures r.Ok? <==> (allowBlank || Strip(s) != []) && (maxLength.None? || |Strip(s)| <= maxLength.value)
    ensures r.Ok? ==> r.value == Strip(s)
    ensures r.Err? && Strip(s) == [] ==> r.message == BLANK_ERROR
    ensures r.Err? && Strip(s) != [] ==> maxLength.Some? && r.message == MaxLengthError(maxLength.value)
  {
    CheckStripped(Strip(s), allowBlank, maxLength)
  }

  /** The checks of `CheckText` on the stripped value. */
  function CheckStripped(t: string, allowBlank: bool, maxLength: Option<nat>): (r: Result<string>)
    ensures r.Ok? <==> (allowBlank || t != []) && (maxLength.None? || |t| <= maxLength.value)
    ensures r.Ok? ==> r.value == t
    ensures r.Err? && t == [] ==> r.message == BLANK_ERROR
    ensures r.Err? && t != [] ==> maxLength.Some? && r.message == MaxLengthError(maxLength.value)
  {
    if t == [] && !allowBlank then Err(BLANK_ERROR)
    else if t == [] then Ok([])
    else if maxLength.Some? && |t| > maxLength.value then Err(MaxLengthError(maxLength.value))
    else Ok(t)
  }

  // ---------------------------------------------------------------------
  // Decimal fields

  function Pow10(k: nat): (p: nat)
    ensures p >= 1
  {
    if k == 0 then 1 else 10 * Pow10(k - 1)
  }

  /** A number has at most `k` decimal digits exactly when it is below 10^k. */
  lemma {:induction false} DigitCount(n: nat, k: nat)
    requires k >= 1
    ensures |NatToString(n)| <= k <==> n < Pow10(k)
    decreases n
  {
    assert Pow10(k) == 10 * Pow10(k - 1);
    if n >= 10 && k >= 2 {
      DigitCount(n / 10, k - 1);
      assert NatToString(n) == NatToString(n / 10) + [DigitChar(n % 10)];
      assert n / 10 < Pow10(k - 1) <==> n < 10 * Pow10(k - 1);
    }
  }

  lemma Pow10Values()
    ensures Pow10(8) == 100_000_000
    ensures Pow10(9) == 1_000_000_000
    ensures Pow10(10) == 10_000_000_000
  {
    assert Pow10(1) == 10;
    assert Pow10(2) == 100;
    assert Pow10(4) == 10_000 by { assert Pow10(3) == 1000; }
    assert Pow10(6) == 1_000_000 by { assert Pow10(5) == 100_000; }
    assert Pow10(8) == 100_000_000 by { assert Pow10(7) == 10_000_000; }
  }

  /** Amounts in paise strictly between minus and plus this bound fit a
      `DecimalField(max_digits=10, decimal_places=2)`: eight digits before
      the point and two after. */
  const MONEY_BOUND := 10_000_000_000

  const MAX_DIGITS_ERROR := "Ensure that there are no more than 10 digits in total."
  const MAX_WHOLE_DIGITS_ERROR := "Ensure that there are no more than 8 digits before the decimal point."

  /** How many decimals an amount shows when written in its shortest form,
      as the app's `JSON.stringify` writes numbers: 0, 1 or 2. */
  function Places(paise: int): nat
  {
    if paise % 100 == 0 then 0 else if paise % 10 == 0 then 1 else 2
  }

  /** The written digits of an amount, as one number, sign left out. */
  function Coefficient(paise: int): nat
  {
    var a: nat := if paise < 0 then -paise else paise;
    if Places(paise) == 0 then a / 100 else if Places(paise) == 1 then a / 10 else a
  }

  /** The framework's count of digits in total: the written digits, and at
      least as many as there are decimals. */
  function TotalDigits(paise: int): nat
  {
    var d := |NatToString(Coefficient(paise))|;
    if d < Places(paise) then Places(paise) else d
  }

  /** `DecimalField(max_digits=10, decimal_places=2)` on an amount with at
      most two decimals: more than ten digits in all is refused first, then
      more than eight before the point. Whatever the written form, the
      amounts refused are exactly those of ten or more digits of paise, and
      one written with two decimals always gets the first message. */
  function CheckMoney(paise: int): (r: Result<int>)
    ensures r.Ok? <==> -MONEY_BOUND < paise < MONEY_BOUND
    ensures r.Ok? ==> r.value == paise
    ensures r.Err? ==> r.message in {MAX_DIGITS_ERROR, MAX_WHOLE_DIGITS_ERROR}
    ensures r.Err? && paise % 10 != 0 ==> r.message == MAX_DIGITS_ERROR
  {
    var total := TotalDigits(paise);
    var r := if total > 10 then Err(MAX_DIGITS_ERROR)
      else if total - Places(paise) > 8 then Err(MAX_WHOLE_DIGITS_ERROR)
      else Ok(paise);
    MoneyBound(paise);
    r
  }

  /** The digit counts behind `CheckMoney`'s bound, case by case on the
      number of decimals written. */
  lemma MoneyBound(paise: int)
    ensures (TotalDigits(paise) > 10 || TotalDigits(paise) - Places(paise) > 8)
      <==> !(-MONEY_BOUND < paise < MONEY_BOUND)
    ensures paise % 10 != 0 && !(-MONEY_BOUND < paise < MONEY_BOUND) ==> TotalDigits(paise) > 10
  {
    var a: nat := if paise < 0 then -paise else paise;
    var c := Coefficient(paise);
    Pow10Values();
    AbsDecimals(paise);
    if Places(paise) == 0 {
      DigitCount(c, 8);
      DigitCount(c, 10);
      WholeAmount(a);
    } else if Places(paise) == 1 {
      DigitCount(c, 9);
      DigitCount(c, 10);
      TenthsAmount(a);
    } else {
      DigitCount(c, 10);
    }
  }

  /** The decimals of an amount do not depend on its sign, and a whole
      number of rupees is a whole number of tens of paise. */
  lemma AbsDecimals(paise: int)
    ensures var a: nat := if paise < 0 then -paise else paise;
      && (a % 100 == 0 <==> paise % 100 == 0)
      && (a % 10 == 0 <==> paise % 10 == 0)
    ensures paise % 100 == 0 ==> paise % 10 == 0
  {
    Hundredths(paise);
    Hundredths(-paise);
    Tenths(paise);
    Tenths(-paise);
  }

  /** The negation of a multiple of 100 is one, and so is a multiple of
      10. */
  lemma Hundredths(n: int)
    ensures n % 100 == 0 ==> (-n) % 100 == 0 && n % 10 == 0
  {
    if n % 100 == 0 {
      var q := n / 100;
      assert n == 100 * q;
      TensMultiple(10 * q);
      assert n == 10 * (10 * q);
      HundredsMultiple(-q);
      assert -n == 100 * -q;
    }
  }

  lemma TensMultiple(k: int)
    ensures (10 * k) % 10 == 0
  {
  }

  lemma HundredsMultiple(k: int)
    ensures (100 * k) % 100 == 0
  {
  }

  /** The negation of a multiple of 10 is one. */
  lemma Tenths(n: int)
    ensures n % 10 == 0 ==> (-n) % 10 == 0
  {
    if n % 10 == 0 {
      assert -n == 10 * -(n / 10);
    }
  }

  /** A whole number of rupees has eight digits at most exactly when it
      is below the bound. */
  lemma WholeAmount(a: nat)
    requires a % 100 == 0
    ensures a / 100 < 100_000_000 <==> a < MONEY_BOUND
  {
  }

  /** An amount written with one decimal has nine digits at most exactly
      when it is below the bound. */
  lemma TenthsAmount(a: nat)
    requires a % 10 == 0
    ensures a / 10 < 1_000_000_000 <==> a < MONEY_BOUND
  {
  }

  // ---------------------------------------------------------------------
  // Choice and related fields

  /** The message of a `ChoiceField` for a value outside its choices. */
  function ChoiceError(s: string): string
  {
    "\"" + s + "\" is not a valid choice."
  }

  /** The message of a `PrimaryKeyRelatedField` for an id its queryset
      does not hold. */
  function InvalidPkError(id: nat): string
  {
    "Invalid pk \"" + NatToString(id) + "\" - object does not exist."
  }
}
