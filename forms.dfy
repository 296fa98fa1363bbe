/** The form layer the components use: SimpleSchema validation of the submitted values, the
    submit gate that calls `onSubmit` only for valid values, and what a handler does once its
    flow's promise has settled. */
module Forms {
  import opened Js
  import opened Promises

  /** The values of a form. A key is absent when its input holds no value (never filled, or
      emptied: the input then reports null). */
  type Form = map<string, string>

  /** One key of a SimpleSchema of type String: required unless `optional`, and at least
      `min` long when present (`min` 0 when the schema gives none). */
  datatype Rule = Rule(key: string, optional: bool, min: nat)

  datatype FieldError = Required(key: string) | MinString(key: string, min: nat)

  /** JavaScript's `.length`, which SimpleSchema's `min` compares: UTF-16 code units, so a
      character outside the Basic Multilingual Plane counts twice. */
  function JsLength(s: string): (n: nat)
    ensures |s| <= n <= 2 * |s|
    ensures (forall i | 0 <= i < |s| :: s[i] as int <= 0xFFFF) ==> n == |s|
  {
    if s == [] then 0
    else (if s[0] as int > 0xFFFF then 2 else 1) + JsLength(s[1..])
  }

  /** Three emoji make a JavaScript string of length 6. */
  lemma {:induction false} JsLengthCountsSurrogates()
    ensures JsLength("\U{1F600}\U{1F600}\U{1F600}") == 6
  {
    var s := "\U{1F600}\U{1F600}\U{1F600}";
    assert s[1..][1..][1..] == [];
  }

  predicate Satisfies(rule: Rule, form: Form)
  {
    if rule.key in form then JsLength(form[rule.key]) >= rule.min else rule.optional
  }

  /** The error SimpleSchema reports for one key: `required` for a missing value, `minString`
      for a short one. */
  function Check(rule: Rule, form: Form): (e: Option<FieldError>)
    ensures e.Some? <==> !Satisfies(rule, form)
    ensures e.Some? ==> e.value.key == rule.key
    ensures e.Some? ==> (e.value.Required? <==> rule.key !in form)
    ensures e.Some? && e.value.MinString? ==> e.value.min == rule.min
  {
    if rule.key !in form then (if rule.optional then None else Some(Required(rule.key)))
    else if JsLength(form[rule.key]) < rule.min then Some(MinString(rule.key, rule.min))
    else None
  }

  /** The errors of `formSchema.getFormValidator()`, in schema order. */
  function Validate(schema: seq<Rule>, form: Form): (errors: seq<FieldError>)
    ensures |errors| <= |schema|
    decreases |schema|
  {
    if schema == [] then []
    else
      (match Check(schema[0], form)
       case Some(e) => [e]
       case None => [])
      + Validate(schema[1..], form)
  }

  /** The validator reports exactly the errors of the failing keys. */
  lemma {:induction false} ValidateReportsFailingKeys(schema: seq<Rule>, form: Form)
    ensures forall e | e in Validate(schema, form) :: exists r | r in schema :: Check(r, form) == Some(e)
    ensures forall r | r in schema && Check(r, form).Some? :: Check(r, form).value in Validate(schema, form)
    decreases |schema|
  {
    if schema != [] {
      ValidateReportsFailingKeys(schema[1..], form);
      assert forall r | r in schema[1..] :: r in schema;
      assert forall r | r in schema :: r == schema[0] || r in schema[1..];
    }
  }

  predicate DistinctRuleKeys(schema: seq<Rule>)
  {
    forall i, j | 0 <= i < j < |schema| :: schema[i].key != schema[j].key
  }

  predicate DistinctErrorKeys(errors: seq<FieldError>)
  {
    forall i, j | 0 <= i < j < |errors| :: errors[i].key != errors[j].key
  }

  /** With distinct keys in the schema, the validator reports at most one error per key. */
  lemma {:induction false} ValidateOnePerKey(schema: seq<Rule>, form: Form)
    requires DistinctRuleKeys(schema)
    ensures DistinctErrorKeys(Validate(schema, form))
    decreases |schema|
  {
    if schema != [] {
      var tail := schema[1..];
      forall i, j | 0 <= i < j < |tail|
        ensures tail[i].key != tail[j].key
      {
        assert tail[i] == schema[i + 1] && tail[j] == schema[j + 1];
      }
      ValidateOnePerKey(tail, form);
      TailAvoidsHeadKey(schema, form);
      ConsDistinct(Check(schema[0], form), Validate(tail, form));
    }
  }

  /** The errors of the later keys never carry the first key. */
  lemma TailAvoidsHeadKey(schema: seq<Rule>, form: Form)
    requires schema != [] && DistinctRuleKeys(schema)
    ensures forall e | e in Validate(schema[1..], form) :: e.key != schema[0].key
  {
    forall e | e in Validate(schema[1..], form)
      ensures e.key != schema[0].key
    {
      ValidateReportsFailingKeys(schema[1..], form);
      var r :| r in schema[1..] && Check(r, form) == Some(e);
      var k :| 0 <= k < |schema[1..]| && schema[1..][k] == r;
      assert schema[k + 1] == r;
    }
  }

  lemma ConsDistinct(first: Option<FieldError>, rest: seq<FieldError>)
    requires DistinctErrorKeys(rest)
    requires first.Some? ==> forall e | e in rest :: e.key != first.value.key
    ensures DistinctErrorKeys((match first case Some(e) => [e] case None => []) + rest)
  {
    var errors := (match first case Some(e) => [e] case None => []) + rest;
    if first.Some? {
      forall i, j | 0 <= i < j < |errors|
        ensures errors[i].key != errors[j].key
      {
        assert errors[j] == rest[j - 1];
        if i > 0 {
          assert errors[i] == rest[i - 1];
        }
      }
    } else {
      assert errors == rest;
    }
  }

  /** A form is valid exactly when every key of the schema is satisfied. */
  lemma {:induction false} ValidIff(schema: seq<Rule>, form: Form)
    ensures Validate(schema, form) == [] <==> forall i | 0 <= i < |schema| :: Satisfies(schema[i], form)
    decreases |schema|
  {
    if schema != [] {
      ValidIff(schema[1..], form);
      assert forall i | 1 <= i < |schema| :: schema[i] == schema[1..][i - 1];
    }
  }

  /** Where a handler sends the browser: nowhere, `window.location.href = url`, or
      `history.push(path)`. */
  datatype Navigation = Stay | Redirect(url: string) | Push(path: string)

  /** What a handler returns (`{ ok }`), where it navigates, and the error it shows. */
  datatype HandlerResult = HandlerResult(ok: bool, navigation: Navigation, submitError: Option<Error>)

  /** The outcome of submitting a form: the validator's errors, or what `onSubmit` returned. */
  datatype Submission = Invalid(errors: seq<FieldError>) | Submitted(result: HandlerResult)

  /** The tail every handler whose flow resolves with a redirect URL (or nothing) shares: an
      error gives `{ ok: false }` and is shown; otherwise `{ ok: true }`, and the browser goes
      to the URL only when it is truthy. */
  function AfterSettle(p: Promise<Option<string>>): (r: HandlerResult)
    requires !p.Pending?
    ensures r.ok <==> p.Fulfilled?
    ensures r.submitError == (if p.Rejected? then Some(p.error) else None)
    ensures !r.navigation.Push?
    ensures r.navigation.Redirect? <==> p.Fulfilled? && p.value.Some? && p.value.value != ""
    ensures r.navigation.Redirect? ==> r.navigation.url == p.value.value
  {
    match p
    case Rejected(e) => HandlerResult(false, Stay, Some(e))
    case Fulfilled(url) =>
      HandlerResult(true, if url.Some? && url.value != "" then Redirect(url.value) else Stay, None)
  }
}
