/** The client's two error-message formatters, which turn the JSON body of
    a failed backend response into the text of the error the screens show,
    and the query string that the product listing request carries. */
module ErrorFormat {
  import opened Common

  /** A parsed JSON value. Numbers are integers here; an object's members
      are listed in `Object.keys` order, and a parsed object never repeats
      a key. */
  datatype Json =
    | JString(s: string)
    | JNumber(n: int)
    | JBool(b: bool)
    | JNull
    | JArray(items: seq<Json>)
    | JObject(members: seq<(string, Json)>)

  /** JavaScript truthiness; a missing property (`undefined`) is falsy too. */
  predicate Truthy(v: Option<Json>)
  {
    match v
    case None => false
    case Some(JString(s)) => s != ""
    case Some(JNumber(n)) => n != 0
    case Some(JBool(b)) => b
    case Some(JNull) => false
    case Some(JArray(_)) => true
    case Some(JObject(_)) => true
  }

  /** `Object.keys` paired with the values: an object's members, an array's
      indices as decimal strings, and nothing for a number or a boolean. */
  function Entries(body: Json): (r: seq<(string, Json)>)
    ensures body.JObject? ==> r == body.members
    ensures body.JArray? ==> (|r| == |body.items|
      && forall i :: 0 <= i < |r| ==> r[i] == (NatToString(i), body.items[i]))
    ensures !body.JObject? && !body.JArray? ==> r == []
  {
    match body
    case JObject(members) => members
    case JArray(items) => seq(|items|, i requires 0 <= i < |items| => (NatToString(i), items[i]))
    case _ => []
  }

  /** `body[key]` for a property that no prototype supplies: the first
      member of that name, if any. */
  function Property(body: Json, key: string): (r: Option<Json>)
    ensures r.Some? <==> exists k :: 0 <= k < |Entries(body)| && Entries(body)[k].0 == key
    ensures r.Some? ==> exists k :: 0 <= k < |Entries(body)| && Entries(body)[k] == (key, r.value)
  {
    var entries := Entries(body);
    var i := FirstIndex(entries, (e: (string, Json)) => e.0 == key);
    if i < 0 then None else Some(entries[i].1)
  }

  /** `String(v)`, as a template literal renders a value: an array is its
      elements' texts joined by commas (null as the empty text), any other
      object is "[object Object]". */
  function Text(v: Json): string
    decreases v, 0
  {
    match v
    case JString(s) => s
    case JNumber(n) => IntText(n)
    case JBool(b) => if b then "true" else "false"
    case JNull => "null"
    case JArray(items) =>
      Join(seq(|items|, i requires 0 <= i < |items| => ElementText(items[i])), ",")
    case JObject(_) => "[object Object]"
  }

  /** How `Array.prototype.join` renders one element. */
  function ElementText(v: Json): string
    decreases v, 1
  {
    if v.JNull? then "" else Text(v)
  }

  /** `items.join(sep)`. */
  function JoinItems(items: seq<Json>, sep: string): string
  {
    Join(seq(|items|, i requires 0 <= i < |items| => ElementText(items[i])), sep)
  }

  /** The outcome of formatting: the message, or the `TypeError` that
      reading `detail` off a null body throws. */
  datatype Formatted = Message(text: string) | Throws

  /** The line one member contributes: arrays joined with ", "; in the API
      client's formatter (`stringifyObjects`) an object or null rendered by
      `JSON.stringify`; anything else rendered as text. */
  function FieldLine(key: string, v: Json, stringifyObjects: bool, stringify: Json -> string): (r: string)
    ensures |r| >= |key| + 2 && r[..|key| + 2] == key + ": "
  {
    var rest :=
      if v.JArray? then JoinItems(v.items, ", ")
      else if stringifyObjects && (v.JObject? || v.JNull?) then stringify(v)
      else Text(v);
    key + ": " + rest
  }

  /** The field lines, one per entry, in entry order. */
  function FieldLines(entries: seq<(string, Json)>, stringifyObjects: bool, stringify: Json -> string): (r: seq<string>)
    ensures |r| == |entries|
    ensures forall k :: 0 <= k < |r| ==> r[k] == FieldLine(entries[k].0, entries[k].1, stringifyObjects, stringify)
  {
    seq(|entries|, k requires 0 <= k < |entries| => FieldLine(entries[k].0, entries[k].1, stringifyObjects, stringify))
  }

  /** The API client's fallback when the body gives nothing to show. */
  function StatusMessage(status: int): string
  {
    if status == 400 then "Invalid request. Please check your input."
    else if status == 401 then "Unauthorized. Please login again."
    else if status == 403 then "You do not have permission to perform this action."
    else if status == 404 then "Resource not found."
    else if status == 500 then "Server error. Please try again later."
    else "An error occurred. Please try again."
  }

  /** What both formatters do before their fallback: a string body as it
      is, then a truthy `detail`, then a truthy `error`, then the field
      lines; `None` when there are no field lines. */
  function BodyMessage(body: Json, stringifyObjects: bool, stringify: Json -> string): Option<Formatted>
  {
    if body.JString? then Some(Message(body.s))
    else if body.JNull? then Some(Throws)
    else if Truthy(Property(body, "detail")) then Some(Message(Text(Property(body, "detail").value)))
    else if Truthy(Property(body, "error")) then Some(Message(Text(Property(body, "error").value)))
    else
      var lines := FieldLines(Entries(body), stringifyObjects, stringify);
      if lines == [] then None else Some(Message(Join(lines, "\n")))
  }

  /** The API client's `formatErrorMessage`. */
  function ApiMessage(body: Json, status: int, stringify: Json -> string): Formatted
  {
    var m := BodyMessage(body, true, stringify);
    if m.Some? then m.value else Message(StatusMessage(status))
  }

  /** The authentication client's `formatErrorMessage`. */
  function AuthMessage(body: Json, stringify: Json -> string): Formatted
  {
    var m := BodyMessage(body, false, stringify);
    if m.Some? then m.value else Message("An error occurred")
  }

  /** The loop both formatters run: one line per entry, pushed in order. */
  method CollectFieldLines(entries: seq<(string, Json)>, stringifyObjects: bool, stringify: Json -> string)
    returns (errors: seq<string>)
    ensures errors == FieldLines(entries, stringifyObjects, stringify)
  {
    errors := [];
    var i := 0;
    while i < |entries|
      invariant 0 <= i <= |entries|
      invariant |errors| == i
      invariant forall k :: 0 <= k < i ==>
        errors[k] == FieldLine(entries[k].0, entries[k].1, stringifyObjects, stringify)
    {
      var key := entries[i].0;
      var value := entries[i].1;
      var line: string;
      if value.JArray? {
        line := key + ": " + JoinItems(value.items, ", ");
      } else if stringifyObjects && (value.JObject? || value.JNull?) {
        line := key + ": " + stringify(value);
      } else {
        line := key + ": " + Text(value);
      }
      errors := errors + [line];
      i := i + 1;
    }
  }

  /** `ApiService.formatErrorMessage`, step by step. */
  method FormatApiError(body: Json, status: int, stringify: Json -> string) returns (r: Formatted)
    ensures r == ApiMessage(body, status, stringify)
  {
    if body.JString? {
      return Message(body.s);
    }
    if body.JNull? {
      return Throws;
    }
    var detail := Property(body, "detail");
    if Truthy(detail) {
      return Message(Text(detail.value));
    }
    var error := Property(body, "error");
    if Truthy(error) {
      return Message(Text(error.value));
    }
    var errors := CollectFieldLines(Entries(body), true, stringify);
    if |errors| > 0 {
      return Message(Join(errors, "\n"));
    }
    r := Message(StatusMessage(status));
  }

  /** `AuthService.formatErrorMessage`, step by step. */
  method FormatAuthError(body: Json, stringify: Json -> string) returns (r: Formatted)
    ensures r == AuthMessage(body, stringify)
  {
    if body.JString? {
      return Message(body.s);
    }
    if body.JNull? {
      return Throws;
    }
    var detail := Property(body, "detail");
    if Truthy(detail) {
      return Message(Text(detail.value));
    }
    var error := Property(body, "error");
    if Truthy(error) {
      return Message(Text(error.value));
    }
    var errors := CollectFieldLines(Entries(body), false, stringify);
    r := if |errors| > 0 then Message(Join(errors, "\n")) else Message("An error occurred");
  }

  // ---------------------------------------------------------------------
  // Properties of the formatters

  /** A string body is the message, verbatim, in both formatters. */
  lemma StringBodyVerbatim(s: string, status: int, stringify: Json -> string)
    ensures ApiMessage(JString(s), status, stringify) == Message(s)
    ensures AuthMessage(JString(s), stringify) == Message(s)
  {
  }

  /** A truthy `detail` wins over `error` and over every field; a truthy
      `error` wins over the fields. */
  lemma DetailBeforeError(members: seq<(string, Json)>, status: int, stringify: Json -> string)
    ensures var body := JObject(members);
      Truthy(Property(body, "detail")) ==>
        ApiMessage(body, status, stringify) == Message(Text(Property(body, "detail").value))
        && AuthMessage(body, stringify) == Message(Text(Property(body, "detail").value))
    ensures var body := JObject(members);
      !Truthy(Property(body, "detail")) && Truthy(Property(body, "error")) ==>
        ApiMessage(body, status, stringify) == Message(Text(Property(body, "error").value))
        && AuthMessage(body, stringify) == Message(Text(Property(body, "error").value))
  {
  }

  /** `Join` keeps each part: every part occurs in the joined text. */
  lemma {:induction false} JoinContains(parts: seq<string>, sep: string, k: nat)
    requires k < |parts|
    ensures Contains(Join(parts, sep), parts[k])
    decreases |parts|
  {
    if |parts| == 1 {
      assert Join(parts, sep) == parts[0];
      ContainsWitness(parts[0], parts[0], 0);
    } else if k == 0 {
      assert Join(parts, sep) == parts[0] + (sep + Join(parts[1..], sep));
      assert Join(parts, sep)[0..|parts[0]|] == parts[0];
      ContainsWitness(Join(parts, sep), parts[0], 0);
    } else {
      JoinContains(parts[1..], sep, k - 1);
      var rest := Join(parts[1..], sep);
      var i: nat :| i <= |rest| && OccursAt(parts[k], rest, i);
      var head := parts[0] + sep;
      assert Join(parts, sep) == head + rest;
      assert (head + rest)[|head| + i..|head| + i + |parts[k]|] == rest[i..i + |parts[k]|];
      ContainsWitness(Join(parts, sep), parts[k], |head| + i);
    }
  }

  /** With neither `detail` nor `error` to show, an object body with members
      gives one line per member, each beginning with the member's key, and
      the message holds every one of them. */
  lemma FieldErrorsListed(members: seq<(string, Json)>, status: int, stringify: Json -> string)
    requires |members| > 0
    requires !Truthy(Property(JObject(members), "detail")) && !Truthy(Property(JObject(members), "error"))
    ensures var lines := FieldLines(members, true, stringify);
      && ApiMessage(JObject(members), status, stringify) == Message(Join(lines, "\n"))
      && (forall k :: 0 <= k < |members| ==>
            Contains(Join(lines, "\n"), lines[k])
            && exists rest :: lines[k] == members[k].0 + ": " + rest)
  {
    var body := JObject(members);
    var lines := FieldLines(members, true, stringify);
    assert Entries(body) == members;
    assert BodyMessage(body, true, stringify) == Some(Message(Join(lines, "\n")));
    forall k | 0 <= k < |members|
      ensures Contains(Join(lines, "\n"), lines[k])
      ensures exists rest :: lines[k] == members[k].0 + ": " + rest
    {
      JoinContains(lines, "\n", k);
      assert lines[k] == FieldLine(members[k].0, members[k].1, true, stringify);
    }
  }

  /** An object with no members, or a number or boolean body, falls back
      to the status code's message in the API client and to the fixed
      "An error occurred" in the authentication client. */
  lemma EmptyBodyFallback(body: Json, status: int, stringify: Json -> string)
    requires body == JObject([]) || body.JNumber? || body.JBool? || body == JArray([])
    ensures ApiMessage(body, status, stringify) == Message(StatusMessage(status))
    ensures AuthMessage(body, stringify) == Message("An error occurred")
  {
    assert Entries(body) == [];
  }

  /** The JSON body of a rejected request: one member per failing field,
      in field order; a list of messages is an array of strings, a report
      per list element an array of error objects. */
  function ErrorBody(errors: seq<FieldError>): (r: Json)
    ensures r.JObject? && |r.members| == |errors|
    ensures forall k :: 0 <= k < |errors| ==> r.members[k] == (errors[k].field, DetailJson(errors[k].detail))
  {
    JObject(seq(|errors|, k requires 0 <= k < |errors| => (errors[k].field, DetailJson(errors[k].detail))))
  }

  function DetailJson(d: ErrorDetail): Json
    decreases d
  {
    match d
    case Messages(ms) => JArray(seq(|ms|, k requires 0 <= k < |ms| => JString(ms[k])))
    case PerItem(items) =>
      JArray(seq(|items|, k requires 0 <= k < |items| =>
        var errors := items[k].errors;
        JObject(seq(|errors|, j requires 0 <= j < |errors| => (errors[j].field, DetailJson(errors[j].detail))))))
  }

  /** The line the client shows for one field of a rejected body whose
      detail is a list of messages. */
  function RejectionLine(e: FieldError): string
    requires e.detail.Messages?
  {
    e.field + ": " + Join(e.detail.messages, ", ")
  }

  /** A rejected body of message lists, none under `detail` or `error`,
      reaches either client's screens as one line per failing field, in
      field order, each listing that field's messages. */
  lemma RejectedBodyMessage(errors: seq<FieldError>, status: int, stringify: Json -> string)
    requires |errors| > 0
    requires forall k :: 0 <= k < |errors| ==>
      errors[k].detail.Messages? && errors[k].field != "detail" && errors[k].field != "error"
    ensures var text := Join(seq(|errors|, k requires 0 <= k < |errors| => RejectionLine(errors[k])), "\n");
      ApiMessage(ErrorBody(errors), status, stringify) == Message(text)
      && AuthMessage(ErrorBody(errors), stringify) == Message(text)
  {
    var body := ErrorBody(errors);
    assert Entries(body) == body.members;
    assert Property(body, "detail").None?;
    assert Property(body, "error").None?;
    var lines := seq(|errors|, k requires 0 <= k < |errors| => RejectionLine(errors[k]));
    forall k | 0 <= k < |errors|
      ensures FieldLine(body.members[k].0, body.members[k].1, true, stringify) == lines[k]
      ensures FieldLine(body.members[k].0, body.members[k].1, false, stringify) == lines[k]
    {
      var ms := errors[k].detail.messages;
      var items := seq(|ms|, i requires 0 <= i < |ms| => JString(ms[i]));
      assert body.members[k].1 == JArray(items);
      assert forall i :: 0 <= i < |items| ==> ElementText(items[i]) == ms[i];
      assert seq(|items|, i requires 0 <= i < |items| => ElementText(items[i])) == ms;
    }
    assert FieldLines(Entries(body), true, stringify) == lines;
    assert FieldLines(Entries(body), false, stringify) == lines;
  }

  /** The fallback covers the five statuses the backend answers with and
      gives one generic text for every other status. */
  lemma StatusMessages(status: int)
    ensures status == 400 ==> StatusMessage(status) == "Invalid request. Please check your input."
    ensures status == 401 ==> StatusMessage(status) == "Unauthorized. Please login again."
    ensures status == 403 ==> StatusMessage(status) == "You do not have permission to perform this action."
    ensures status == 404 ==> StatusMessage(status) == "Resource not found."
    ensures status == 500 ==> StatusMessage(status) == "Server error. Please try again later."
    ensures status !in {400, 401, 403, 404, 500} ==> StatusMessage(status) == "An error occurred. Please try again."
  {
  }

  /** The two formatters differ only in the `JSON.stringify` branch and in
      their fallback: on a body with at least one entry, none of whose
      values is a non-array object or null, they give the same message. */
  lemma {:induction false} FormattersAgree(body: Json, status: int, stringify: Json -> string)
    requires |Entries(body)| > 0
    requires forall k :: 0 <= k < |Entries(body)| ==>
      !Entries(body)[k].1.JObject? && !Entries(body)[k].1.JNull?
    ensures ApiMessage(body, status, stringify) == AuthMessage(body, stringify)
  {
    var entries := Entries(body);
    assert FieldLines(entries, true, stringify) == FieldLines(entries, false, stringify);
  }

  /** A nested object in a field is where the formatters part: the API
      client shows its JSON text, the authentication client
      "[object Object]". */
  lemma NestedObjectDiffers(key: string, inner: seq<(string, Json)>, stringify: Json -> string)
    requires key != "detail" && key != "error"
    ensures var body := JObject([(key, JObject(inner))]);
      && ApiMessage(body, 400, stringify) == Message(key + ": " + stringify(JObject(inner)))
      && AuthMessage(body, stringify) == Message(key + ": [object Object]")
  {
    var body := JObject([(key, JObject(inner))]);
    assert Property(body, "detail").None?;
    assert Property(body, "error").None?;
    assert FieldLines(Entries(body), true, stringify) == [key + ": " + stringify(JObject(inner))];
    assert key + ": " + "[object Object]" == key + ": [object Object]";
    assert FieldLines(Entries(body), false, stringify) == [key + ": [object Object]"];
  }

  // ---------------------------------------------------------------------
  // The product listing's query string

  /** The optional filters of `getProducts`. */
  datatype ProductQuery = ProductQuery(
    category: Option<string>, shopkeeper: Option<int>, search: Option<string>, ordering: Option<string>)

  predicate PresentText(v: Option<string>)
  {
    v.Some? && v.value != ""
  }

  predicate PresentNumber(v: Option<int>)
  {
    v.Some? && v.value != 0
  }

  const PRODUCTS_PATH := "/products/"

  /** `URLSearchParams.toString`: each pair as encoded name '=' encoded
      value, joined with '&'. */
  function QueryString(pairs: seq<(string, string)>, encode: string -> string): string
  {
    Join(seq(|pairs|, i requires 0 <= i < |pairs| => encode(pairs[i].0) + "=" + encode(pairs[i].1)), "&")
  }

  /** The parameters `getProducts` sends: each filter that is present (a
      non-empty text, a non-zero shopkeeper id), in the order category,
      shopkeeper, search, ordering. */
  function QueryPairs(q: ProductQuery): seq<(string, string)>
  {
    (if PresentText(q.category) then [("category", q.category.value)] else [])
    + (if PresentNumber(q.shopkeeper) then [("shopkeeper", IntText(q.shopkeeper.value))] else [])
    + (if PresentText(q.search) then [("search", q.search.value)] else [])
    + (if PresentText(q.ordering) then [("ordering", q.ordering.value)] else [])
  }

  const PARAMETER_NAMES := ["category", "shopkeeper", "search", "ordering"]

  /** The endpoint path with its query, or the bare path when no filter is
      present. `encode` is the form encoding of a name or a value. */
  function ProductsEndpoint(q: ProductQuery, encode: string -> string): string
  {
    var pairs := QueryPairs(q);
    if pairs == [] then PRODUCTS_PATH else PRODUCTS_PATH + "?" + QueryString(pairs, encode)
  }

  /** The query-building steps of `getProducts`: a builder appended to,
      filter by filter. */
  method BuildProductsEndpoint(q: ProductQuery, encode: string -> string) returns (endpoint: string)
    ensures endpoint == ProductsEndpoint(q, encode)
  {
    var params: seq<(string, string)> := [];
    if PresentText(q.category) {
      params := params + [("category", q.category.value)];
    }
    if PresentNumber(q.shopkeeper) {
      params := params + [("shopkeeper", IntText(q.shopkeeper.value))];
    }
    if PresentText(q.search) {
      params := params + [("search", q.search.value)];
    }
    if PresentText(q.ordering) {
      params := params + [("ordering", q.ordering.value)];
    }
    assert params == QueryPairs(q);
    if params == [] {
      endpoint := PRODUCTS_PATH;
    } else {
      endpoint := PRODUCTS_PATH + "?" + QueryString(params, encode);
    }
  }

  /** Whether `getProducts` sends the parameter of this name. */
  predicate Present(q: ProductQuery, name: string)
  {
    || (name == "category" && PresentText(q.category))
    || (name == "shopkeeper" && PresentNumber(q.shopkeeper))
    || (name == "search" && PresentText(q.search))
    || (name == "ordering" && PresentText(q.ordering))
  }

  /** The text sent for a present parameter. */
  function ValueOf(q: ProductQuery, name: string): string
    requires Present(q, name)
  {
    if name == "category" then q.category.value
    else if name == "shopkeeper" then IntText(q.shopkeeper.value)
    else if name == "search" then q.search.value
    else q.ordering.value
  }

  function NamesOf(pairs: seq<(string, string)>): (r: seq<string>)
    ensures |r| == |pairs| && forall i :: 0 <= i < |pairs| ==> r[i] == pairs[i].0
  {
    seq(|pairs|, i requires 0 <= i < |pairs| => pairs[i].0)
  }

  /** The pairs for the present names among `names`, in their order. */
  function PairsFor(q: ProductQuery, names: seq<string>): seq<(string, string)>
  {
    if names == [] then []
    else (if Present(q, names[0]) then [(names[0], ValueOf(q, names[0]))] else []) + PairsFor(q, names[1..])
  }

  lemma {:induction false} PairsForNames(q: ProductQuery, names: seq<string>)
    ensures NamesOf(PairsFor(q, names)) == Filter(names, (n: string) => Present(q, n))
  {
    if names != [] {
      PairsForNames(q, names[1..]);
      var head: seq<(string, string)> := if Present(q, names[0]) then [(names[0], ValueOf(q, names[0]))] else [];
      var tail := PairsFor(q, names[1..]);
      var p := (n: string) => Present(q, n);
      assert PairsFor(q, names) == head + tail;
      assert NamesOf(head + tail) == NamesOf(head) + NamesOf(tail);
      assert NamesOf(head) == if p(names[0]) then [names[0]] else [];
      assert Filter(names, p) == (if p(names[0]) then [names[0]] else []) + Filter(names[1..], p);
    }
  }

  lemma {:induction false} PairsForValues(q: ProductQuery, names: seq<string>)
    ensures forall i :: 0 <= i < |PairsFor(q, names)| ==>
      Present(q, PairsFor(q, names)[i].0) && PairsFor(q, names)[i].1 == ValueOf(q, PairsFor(q, names)[i].0)
  {
    if names != [] {
      PairsForValues(q, names[1..]);
      var head: seq<(string, string)> := if Present(q, names[0]) then [(names[0], ValueOf(q, names[0]))] else [];
      var tail := PairsFor(q, names[1..]);
      var pairs := head + tail;
      assert PairsFor(q, names) == pairs;
      forall i | 0 <= i < |pairs|
        ensures Present(q, pairs[i].0) && pairs[i].1 == ValueOf(q, pairs[i].0)
      {
        if i >= |head| {
          assert pairs[i] == tail[i - |head|];
        }
      }
    }
  }

  /** The four tests of `getProducts` visit the names in the fixed order. */
  lemma QueryPairsInOrder(q: ProductQuery)
    ensures QueryPairs(q) == PairsFor(q, PARAMETER_NAMES)
  {
    var names := PARAMETER_NAMES;
    assert names[1..] == ["shopkeeper", "search", "ordering"];
    assert names[1..][1..] == ["search", "ordering"];
    assert names[1..][1..][1..] == ["ordering"];
    assert names[1..][1..][1..][1..] == [];
  }

  /** The names sent are exactly the present filters, in the fixed order
      category, shopkeeper, search, ordering, each with its filter's
      value; the '?' appears only when something is sent. */
  lemma QueryPairsSpec(q: ProductQuery, encode: string -> string)
    ensures NamesOf(QueryPairs(q)) == Filter(PARAMETER_NAMES, (n: string) => Present(q, n))
    ensures forall i :: 0 <= i < |QueryPairs(q)| ==>
      Present(q, QueryPairs(q)[i].0) && QueryPairs(q)[i].1 == ValueOf(q, QueryPairs(q)[i].0)
    ensures ProductsEndpoint(q, encode) == PRODUCTS_PATH <==>
      forall n :: n in PARAMETER_NAMES ==> !Present(q, n)
  {
    QueryPairsInOrder(q);
    PairsForNames(q, PARAMETER_NAMES);
    PairsForValues(q, PARAMETER_NAMES);
    var pairs := QueryPairs(q);
    if pairs == [] {
      assert Filter(PARAMETER_NAMES, (n: string) => Present(q, n)) == [];
    } else {
      assert pairs[0].0 in NamesOf(pairs);
    }
  }
}
