/** How submission.py decides whether the exchange accepted a close. */
module Response {
  import opened Prelude
  import opened Json

  predicate IsErrorStatus(status: string) {
    || status == "error"
    || status == "err"
    || status == "rejected"
    || status == "failed"
    || status == "failure"
  }

  /** The first error a depth-first walk of the response meets. */
  function FindResponseError(py: Python, value: Json): Option<string> {
    match value
    case JObject(fields) => FindInFields(py, fields)
    case JArray(items) => FindInItems(py, items)
    case _ => None
  }

  function FindInFields(py: Python, fields: seq<Field>): Option<string> {
    if fields == [] then None
    else
      var key, item := Lower(py, fields[0].key), fields[0].value;
      if key == "error" && Truthy(item) then Some(Str(py, item))
      else if key == "status" && IsErrorStatus(Lower(py, Str(py, item))) then Some(Str(py, item))
      else
        var nested := FindResponseError(py, item);
        if nested.Some? then nested else FindInFields(py, fields[1..])
  }

  function FindInItems(py: Python, items: seq<Json>): Option<string> {
    if items == [] then None
    else
      var nested := FindResponseError(py, items[0]);
      if nested.Some? then nested else FindInItems(py, items[1..])
  }

  function StatusOf(py: Python, response: seq<Field>): string {
    Lower(py, Str(py, GetOr(response, "status", JString(""))))
  }

  /** None when the response counts as an acceptance. */
  function ExchangeResponseError(py: Python, response: seq<Field>): Option<string> {
    var status := StatusOf(py, response);
    if IsErrorStatus(status) then
      var body := GetOr(response, "response", JNull);
      var message := GetOr(response, "message", JNull);
      Some(if Truthy(body) then Str(py, body) else if Truthy(message) then Str(py, message) else status)
    else
      var nested := FindResponseError(py, JObject(response));
      if nested.Some? then nested
      else if status == "" then Some("missing exchange status")
      else if status != "ok" then Some("unexpected exchange status: " + status)
      else None
  }

  /** A dict entry that reports a failure. */
  predicate Reports(py: Python, field: Field) {
    || (Lower(py, field.key) == "error" && Truthy(field.value))
    || (Lower(py, field.key) == "status" && IsErrorStatus(Lower(py, Str(py, field.value))))
  }

  /** `field` is an entry of some dict in `nodes`. */
  predicate EntryIn(nodes: set<Json>, field: Field) {
    exists node :: node in nodes && node.JObject? && field in node.fields
  }

  ghost predicate SomeEntryReports(py: Python, nodes: set<Json>) {
    exists field :: EntryIn(nodes, field) && Reports(py, field)
  }

  lemma EntryInUnion(a: set<Json>, b: set<Json>)
    ensures forall field :: EntryIn(a + b, field) <==> EntryIn(a, field) || EntryIn(b, field)
  {
  }

  /** The walk finds an error exactly when some dict at some depth holds one,
      and what it returns is the text of such an entry. */
  lemma {:induction false} FindIsSoundAndComplete(py: Python, value: Json)
    ensures FindResponseError(py, value).Some? <==> SomeEntryReports(py, Nodes(value))
    ensures FindResponseError(py, value).Some? ==>
      exists field :: EntryIn(Nodes(value), field) && Reports(py, field)
                   && FindResponseError(py, value).value == Str(py, field.value)
  {
    match value
    case JObject(fields) =>
      FindInFieldsIsSoundAndComplete(py, fields);
      EntryInUnion({value}, NodesOfFields(fields));
      assert forall field :: EntryIn({value}, field) <==> field in fields;
    case JArray(items) =>
      FindInItemsIsSoundAndComplete(py, items);
      EntryInUnion({value}, NodesOfItems(items));
      assert forall field :: !EntryIn({value}, field);
    case _ =>
      assert Nodes(value) == {value};
      assert forall field :: !EntryIn({value}, field);
  }

  lemma {:induction false} FindInItemsIsSoundAndComplete(py: Python, items: seq<Json>)
    ensures FindInItems(py, items).Some? <==> SomeEntryReports(py, NodesOfItems(items))
    ensures FindInItems(py, items).Some? ==>
      exists field :: EntryIn(NodesOfItems(items), field) && Reports(py, field)
                   && FindInItems(py, items).value == Str(py, field.value)
  {
    if items != [] {
      FindIsSoundAndComplete(py, items[0]);
      FindInItemsIsSoundAndComplete(py, items[1..]);
      EntryInUnion(Nodes(items[0]), NodesOfItems(items[1..]));
    }
  }

  /** A dict's own entries and those below its values. */
  ghost predicate FieldOrBelow(fields: seq<Field>, field: Field) {
    field in fields || EntryIn(NodesOfFields(fields), field)
  }

  lemma {:induction false} FindInFieldsIsSoundAndComplete(py: Python, fields: seq<Field>)
    ensures FindInFields(py, fields).Some? <==> exists field :: FieldOrBelow(fields, field) && Reports(py, field)
    ensures FindInFields(py, fields).Some? ==>
      exists field :: FieldOrBelow(fields, field) && Reports(py, field)
                   && FindInFields(py, fields).value == Str(py, field.value)
  {
    if fields != [] {
      FindIsSoundAndComplete(py, fields[0].value);
      FindInFieldsIsSoundAndComplete(py, fields[1..]);
      EntryInUnion(Nodes(fields[0].value), NodesOfFields(fields[1..]));
      assert fields == [fields[0]] + fields[1..];
      assert forall field :: (FieldOrBelow(fields, field)
        <==> field == fields[0] || EntryIn(Nodes(fields[0].value), field) || FieldOrBelow(fields[1..], field));
      if FindInFields(py, fields).None? {
        forall field | FieldOrBelow(fields, field) ensures !Reports(py, field) {
          assert field == fields[0] || EntryIn(Nodes(fields[0].value), field) || FieldOrBelow(fields[1..], field);
        }
      } else if Reports(py, fields[0]) {
        assert FieldOrBelow(fields, fields[0]);
      }
    }
  }

  /** The dict has a status, and that reads "ok" in any case. */
  predicate SaysOk(py: Python, response: seq<Field>) {
    match Get(response, "status")
    case Some(status) => Lower(py, Str(py, status)) == "ok"
    case None => false
  }

  /** A response counts as accepted exactly when its top-level status reads
      "ok" in any case and no dict at any depth reports a failure. */
  lemma AcceptedIffClean(py: Python, response: seq<Field>)
    ensures ExchangeResponseError(py, response) == None
       <==> SaysOk(py, response) && !SomeEntryReports(py, Nodes(JObject(response)))
  {
    FindIsSoundAndComplete(py, JObject(response));
    assert Lower(py, "") == "";
  }

  // ---------------------------------------------------------------------
  // Which words and values decide
  // ---------------------------------------------------------------------

  /** The two texts agree up to the case of ASCII letters. */
  predicate SameUpToCase(a: string, b: string) {
    |a| == |b| && forall i :: 0 <= i < |a| ==>
      || a[i] == b[i]
      || ('A' <= a[i] <= 'Z' && b[i] as int == a[i] as int + 32)
      || ('A' <= b[i] <= 'Z' && a[i] as int == b[i] as int + 32)
  }

  predicate HasNoCapitals(s: string) {
    forall i :: 0 <= i < |s| ==> !('A' <= s[i] <= 'Z')
  }

  /** An ASCII text lower-cases to a given text without capitals exactly when the
      two agree up to case. */
  lemma LowerForgetsCase(py: Python, s: string, t: string)
    requires IsAscii(s) && HasNoCapitals(t)
    ensures Lower(py, s) == t <==> SameUpToCase(s, t)
  {
    assert |Lower(py, s)| == |s| && forall i :: 0 <= i < |s| ==> Lower(py, s)[i] == LowerChar(s[i]);
    if SameUpToCase(s, t) {
      assert forall i :: 0 <= i < |s| ==> Lower(py, s)[i] == t[i];
    }
  }

  /** A response that starts with its status, a text. */
  lemma FirstIsStatus(py: Python, text: string, rest: seq<Field>)
    ensures var fields := [Field("status", JString(text))] + rest;
      && StatusOf(py, fields) == Lower(py, text)
      && FindResponseError(py, JObject(fields))
         == if IsErrorStatus(Lower(py, text)) then Some(text) else FindInFields(py, rest)
  {
    var fields := [Field("status", JString(text))] + rest;
    assert fields[0] == Field("status", JString(text)) && fields[1..] == rest;
    assert Get(fields, "status") == Some(JString(text));
    assert Lower(py, "status") == "status";
    assert FindResponseError(py, JString(text)) == None;
  }

  /** A response that is nothing but a status text. */
  lemma StatusTextDecides(py: Python, text: string)
    requires IsAscii(text)
    ensures ExchangeResponseError(py, [Field("status", JString(text))]) == None <==> SameUpToCase(text, "ok")
  {
    var fields := [Field("status", JString(text))];
    LowerForgetsCase(py, text, "ok");
    FirstIsStatus(py, text, []);
    assert fields + [] == fields && FindInFields(py, []) == None;
  }

  /** An accepted status with one more entry, in the response or nested in it. */
  lemma OneMoreEntry(py: Python, key: string, value: Json)
    requires key != "status"
    ensures ExchangeResponseError(py, [Field("status", JString("ok")), Field(key, value)])
         == FindInFields(py, [Field(key, value)])
  {
    var status := Field("status", JString("ok"));
    assert [status, Field(key, value)] == [status] + [Field(key, value)];
    FirstIsStatus(py, "ok", [Field(key, value)]);
    assert Lower(py, "ok") == "ok";
  }

  predicate IsFailureWord(text: string) {
    || SameUpToCase(text, "error") || SameUpToCase(text, "err") || SameUpToCase(text, "rejected")
    || SameUpToCase(text, "failed") || SameUpToCase(text, "failure")
  }

  lemma FailureWords(py: Python, text: string)
    requires IsAscii(text)
    ensures IsErrorStatus(Lower(py, text)) <==> IsFailureWord(text)
  {
    LowerForgetsCase(py, text, "error");
    LowerForgetsCase(py, text, "err");
    LowerForgetsCase(py, text, "rejected");
    LowerForgetsCase(py, text, "failed");
    LowerForgetsCase(py, text, "failure");
  }

  /** A nested status is a failure exactly when it is one of the five words, in
      any case. */
  lemma NestedStatusDecides(py: Python, key: string, text: string)
    requires IsAscii(text) && Lower(py, key) != "status" && Lower(py, key) != "error" && key != "status"
    ensures var response := [Field("status", JString("ok")), Field(key, JObject([Field("status", JString(text))]))];
      ExchangeResponseError(py, response) == None <==> !IsFailureWord(text)
  {
    var inner := [Field("status", JString(text))];
    var outer := [Field(key, JObject(inner))];
    OneMoreEntry(py, key, JObject(inner));
    FirstIsStatus(py, text, []);
    assert inner + [] == inner && outer[1..] == [] && FindInFields(py, []) == None;
    FailureWords(py, text);
  }

  /** An `error` entry is harmless exactly when it is null, false, zero or empty. */
  lemma ErrorValueDecides(py: Python, value: Json)
    ensures ExchangeResponseError(py, [Field("status", JString("ok")), Field("error", value)]) == None
       <==> IsFalsy(value)
  {
    var last := [Field("error", value)];
    OneMoreEntry(py, "error", value);
    assert Lower(py, "error") == "error" && last[1..] == [];
    assert FindInFields(py, []) == None && FindInItems(py, []) == None;
  }

  predicate Tells(response: seq<Field>, key: string) {
    Get(response, key).Some? && !IsFalsy(Get(response, key).value)
  }

  /** What a failing status is reported as: the response's body if it has one, or
      else its message, or else the status in lower case. */
  lemma FailureMessages(py: Python, response: seq<Field>, text: string)
    requires Get(response, "status") == Some(JString(text)) && IsAscii(text) && IsFailureWord(text)
    ensures ExchangeResponseError(py, response) == Some(
      if Tells(response, "response") then Str(py, Get(response, "response").value)
      else if Tells(response, "message") then Str(py, Get(response, "message").value)
      else Lower(py, text))
  {
    FailureWords(py, text);
  }

  /** Without a nested failure, a missing or empty status and one that is neither
      "ok" nor a failure word have reports of their own. */
  lemma OtherMessages(py: Python, response: seq<Field>)
    requires FindResponseError(py, JObject(response)) == None
    ensures Get(response, "status") == None || Get(response, "status") == Some(JString("")) ==>
      ExchangeResponseError(py, response) == Some("missing exchange status")
    ensures forall text :: Get(response, "status") == Some(JString(text)) && text != "" && IsAscii(text)
                           && !IsFailureWord(text) && !SameUpToCase(text, "ok") ==>
      ExchangeResponseError(py, response) == Some("unexpected exchange status: " + Lower(py, text))
  {
    assert Lower(py, "") == "";
    forall text | Get(response, "status") == Some(JString(text)) && text != "" && IsAscii(text)
                  && !IsFailureWord(text) && !SameUpToCase(text, "ok")
      ensures ExchangeResponseError(py, response) == Some("unexpected exchange status: " + Lower(py, text))
    {
      FailureWords(py, text);
      LowerForgetsCase(py, text, "ok");
      assert |Lower(py, text)| == |text|;
    }
  }
}
