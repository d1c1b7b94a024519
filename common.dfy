/** Shared vocabulary of the shop model: optional values, backend replies,
    user roles, and the sequence, number and string helpers that the
    Django views and the React Native screens both rely on. */
module Common {

  datatype Option<T> = None | Some(value: T)

  /** A validator's verdict: the (possibly unchanged) value, or the message
      of the validation error it raises. */
  datatype Result<T> = Ok(value: T) | Err(message: string)

  /** What one failing field reports in a validation error body: its list
      of messages, or, for a list of nested objects, one error object per
      element (empty for the elements that passed). */
  datatype ErrorDetail = Messages(messages: seq<string>) | PerItem(items: seq<ItemErrors>)

  /** The error object of one element of a nested list. */
  datatype ItemErrors = ItemErrors(errors: seq<FieldError>)

  /** One member of a validation error body, keyed by the field's name, or
      by `non_field_errors` for what the serializer's own `validate` raises. */
  datatype FieldError = FieldError(field: string, detail: ErrorDetail)

  /** A serializer's verdict on a request body: the validated data, or the
      errors of every failing field, in the serializer's field order. */
  datatype Validated<T> = Valid(value: T) | Invalid(errors: seq<FieldError>)

  /** The answer of a backend view: a status code with a body; a status
      code with the `error` text (or `detail` text, for the framework's own
      refusals) that the view puts in its JSON body; a status code with the
      field-keyed error body of a failed `is_valid(raise_exception=True)`;
      or the status of an unhandled exception, whose body is the server's
      error page rather than JSON. */
  datatype Reply<T> =
    | Success(code: int, body: T)
    | Failure(code: int, error: string)
    | Rejected(code: int, errors: seq<FieldError>)
    | Crashed(code: int)

  const OK := 200
  const CREATED := 201
  const BAD_REQUEST := 400
  const UNAUTHORIZED := 401
  const FORBIDDEN := 403
  const NOT_FOUND := 404
  const SERVER_ERROR := 500

  /** `user_type` of the backend's user model; accounts of any other type
      (an administrator, say) fall through every role test. */
  datatype UserType = Customer | Shopkeeper | OtherType

  /** The authenticated user making a request. */
  datatype User = User(id: nat, userType: UserType)

  // ---------------------------------------------------------------------
  // Sequences

  /** `list.filter(p)` / `queryset.filter(...)`: the elements satisfying
      `p`, in their original order. */
  function Filter<T(!new)>(s: seq<T>, p: T -> bool): (r: seq<T>)
    ensures |r| <= |s|
    ensures forall x :: x in r <==> x in s && p(x)
    ensures forall k :: 0 <= k < |r| ==> p(r[k])
  {
    if s == [] then []
    else if p(s[0]) then [s[0]] + Filter(s[1..], p)
    else Filter(s[1..], p)
  }

  lemma {:induction false} FilterAll<T(!new)>(s: seq<T>, p: T -> bool)
    requires forall k :: 0 <= k < |s| ==> p(s[k])
    ensures Filter(s, p) == s
  {
    if s != [] {
      FilterAll(s[1..], p);
    }
  }

  lemma {:induction false} FilterAppend<T(!new)>(a: seq<T>, b: seq<T>, p: T -> bool)
    ensures Filter(a + b, p) == Filter(a, p) + Filter(b, p)
  {
    if a == [] {
      assert a + b == b;
    } else {
      assert (a + b)[1..] == a[1..] + b;
      FilterAppend(a[1..], b, p);
    }
  }

  /** `findIndex(p)`: the first position whose element satisfies `p`, or
      -1 when there is none. */
  function FirstIndex<T>(s: seq<T>, p: T -> bool): (r: int)
    ensures -1 <= r < |s|
    ensures r >= 0 ==> p(s[r]) && forall k :: 0 <= k < r ==> !p(s[k])
    ensures r == -1 <==> forall k :: 0 <= k < |s| ==> !p(s[k])
  {
    if s == [] then -1
    else if p(s[0]) then 0
    else
      var r := FirstIndex(s[1..], p);
      if r == -1 then -1 else r + 1
  }

  /** `reduce((total, x) => total + f(x), 0)`: a left fold, so the last
      element is added last. */
  function SumOf<T>(s: seq<T>, f: T -> int): int
  {
    if s == [] then 0 else SumOf(s[..|s| - 1], f) + f(s[|s| - 1])
  }

  lemma {:induction false} SumOfAppend<T>(a: seq<T>, b: seq<T>, f: T -> int)
    ensures SumOf(a + b, f) == SumOf(a, f) + SumOf(b, f)
  {
    if b != [] {
      var b' := b[..|b| - 1];
      assert (a + b)[..|a + b| - 1] == a + b';
      SumOfAppend(a, b', f);
    } else {
      assert a + b == a;
    }
  }

  /** Replacing one element changes the sum by the difference. */
  lemma {:induction false} SumOfUpdate<T>(s: seq<T>, i: nat, x: T, f: T -> int)
    requires i < |s|
    ensures SumOf(s[i := x], f) == SumOf(s, f) - f(s[i]) + f(x)
  {
    var n := |s| - 1;
    if i < n {
      assert s[i := x][..n] == s[..n][i := x];
      SumOfUpdate(s[..n], i, x, f);
    } else {
      assert s[i := x][..n] == s[..n];
    }
  }

  lemma {:induction false} SumOfNonNegative<T>(s: seq<T>, f: T -> int)
    requires forall k :: 0 <= k < |s| ==> f(s[k]) >= 0
    ensures SumOf(s, f) >= 0
  {
    if s != [] {
      SumOfNonNegative(s[..|s| - 1], f);
    }
  }

  // ---------------------------------------------------------------------
  // Numbers as text

  function DigitChar(d: nat): (c: char)
    requires d < 10
    ensures '0' <= c <= '9'
  {
    "0123456789"[d]
  }

  function DigitValue(c: char): nat
    requires '0' <= c <= '9'
  {
    c as nat - '0' as nat
  }

  predicate AllDigits(s: string)
  {
    forall i :: 0 <= i < |s| ==> '0' <= s[i] <= '9'
  }

  /** Decimal rendering of a natural number (`n.toString()`, `str(n)`). */
  function NatToString(n: nat): (s: string)
    ensures |s| >= 1 && AllDigits(s)
    ensures n < 10 <==> |s| == 1
    decreases n
  {
    if n < 10 then [DigitChar(n)] else NatToString(n / 10) + [DigitChar(n % 10)]
  }

  /** Reads a non-empty string of decimal digits back as a number. */
  function ParseNat(s: string): nat
    requires AllDigits(s)
  {
    if s == [] then 0 else 10 * ParseNat(s[..|s| - 1]) + DigitValue(s[|s| - 1])
  }

  lemma {:induction false} ParseNatToString(n: nat)
    ensures ParseNat(NatToString(n)) == n
    decreases n
  {
    var s := NatToString(n);
    if n < 10 {
      assert s[..|s| - 1] == [];
    } else {
      ParseNatToString(n / 10);
      assert s[..|s| - 1] == NatToString(n / 10);
    }
  }

  /** Decimal rendering of any integer, with a leading '-' when negative. */
  function IntText(n: int): (s: string)
    ensures n >= 0 ==> s == NatToString(n)
    ensures n < 0 ==> s == "-" + NatToString(-n)
  {
    if n < 0 then "-" + NatToString(-n) else NatToString(n)
  }

  /** `str()` of an amount held by a `DecimalField(decimal_places=2)`,
      given in paise: "300.00", "0.05", "-12.50". */
  function MoneyText(paise: int): string
  {
    var a: nat := if paise < 0 then -paise else paise;
    (if paise < 0 then "-" else "")
      + NatToString(a / 100) + "." + [DigitChar(a % 100 / 10), DigitChar(a % 10)]
  }

  // ---------------------------------------------------------------------
  // Strings

  predicate OccursAt(needle: string, hay: string, i: nat)
  {
    i + |needle| <= |hay| && hay[i..i + |needle|] == needle
  }

  /** JavaScript's `hay.includes(needle)` and Python's `needle in hay`. */
  predicate Contains(hay: string, needle: string)
  {
    exists i: nat :: i <= |hay| && OccursAt(needle, hay, i)
  }

  lemma ContainsWitness(hay: string, needle: string, i: nat)
    requires i + |needle| <= |hay| && hay[i..i + |needle|] == needle
    ensures Contains(hay, needle)
  {
    assert OccursAt(needle, hay, i);
  }

  /** The needle is found inside a concatenation `a + needle + b`. */
  lemma ContainsMiddle(a: string, needle: string, b: string)
    ensures Contains(a + needle + b, needle)
  {
    var hay := a + needle + b;
    assert hay[|a|..|a| + |needle|] == needle;
    ContainsWitness(hay, needle, |a|);
  }

  /** The needle ends `a + needle`. */
  lemma ContainsSuffix(a: string, needle: string)
    ensures Contains(a + needle, needle)
  {
    assert (a + needle)[|a|..|a| + |needle|] == needle;
    ContainsWitness(a + needle, needle, |a|);
  }

  /** Text appended after an occurrence does not remove it. */
  lemma ContainsExtend(a: string, b: string, needle: string)
    requires Contains(a, needle)
    ensures Contains(a + b, needle)
  {
    var i: nat :| i <= |a| && OccursAt(needle, a, i);
    assert (a + b)[i..i + |needle|] == a[i..i + |needle|];
    ContainsWitness(a + b, needle, i);
  }

  /** The characters that JavaScript's `String.prototype.trim` removes:
      white space (category Zs, tab, vertical tab, form feed, no-break
      space, byte-order mark) and line terminators. */
  predicate IsJsSpace(c: char)
  {
    || c == ' ' || c == '\t' || c == '\n' || c == '\r'
    || c == '\U{000B}' || c == '\U{000C}' || c == '\U{00A0}' || c == '\U{FEFF}'
    || c == '\U{1680}' || ('\U{2000}' <= c <= '\U{200A}') || c == '\U{2028}'
    || c == '\U{2029}' || c == '\U{202F}' || c == '\U{205F}' || c == '\U{3000}'
  }

  /** `!s.trim()`: the string is empty once surrounding white space is cut,
      i.e. it holds nothing but white space. */
  predicate IsBlank(s: string)
  {
    forall i :: 0 <= i < |s| ==> IsJsSpace(s[i])
  }

  /** `toLowerCase()`, restricted to the ASCII letters. */
  function LowerChar(c: char): char
  {
    if 'A' <= c <= 'Z' then (c as int - 'A' as int + 'a' as int) as char else c
  }

  function Lower(s: string): (r: string)
    ensures |r| == |s|
    ensures forall i :: 0 <= i < |s| ==> r[i] == LowerChar(s[i])
  {
    if s == [] then [] else [LowerChar(s[0])] + Lower(s[1..])
  }

  /** `parts.join(sep)`. */
  function Join(parts: seq<string>, sep: string): string
  {
    if parts == [] then ""
    else if |parts| == 1 then parts[0]
    else parts[0] + sep + Join(parts[1..], sep)
  }
}
