/** Input validation (src/utils/validation.ts): the field rules of each
    schema, the errors a validator reports for them, and the folding of those
    errors into one message per field. */
module Validation {
  import opened Wrappers

  /** The rule a schema attaches to one field. */
  datatype Rule =
    | NameRule(title: string)           // `generateNameSchema(title)`
    | EmailRule                         // `generateEmailSchema()`
    | PasswordRule                      // `generatePasswordSchema()`
    | TextRule(title: string, max: nat) // the `subject` and `message` rules

  /** One reported error: the field and its message. */
  datatype FieldError = FieldError(field: string, message: string)

  type Schema = seq<(string, Rule)>

  const NAME_MAX := 50
  const EMAIL_MAX := 255
  const PASSWORD_MIN := 12
  const SUBJECT_MAX := 255
  const MESSAGE_MAX := 1024

  const EMAIL_MESSAGE := "Email is not a valid email address"
  const EMAIL_MAX_MESSAGE := "Email should not be more than 255 characters"
  const PASSWORD_MESSAGE := "Password should not be up to 12 characters"

  function NameRequired(title: string): string { title + " is required" }
  function NameTooLong(title: string): string { title + " should not be more than 50 characters" }
  function NamePattern(title: string): string { title + " should contain letters or ,.'-" }
  function TextTooLong(title: string, max: nat): string {
    if max == SUBJECT_MAX then title + " should not be more than 255 characters"
    else title + " should not be more than 1024 characters"
  }

  /** A character of the class `[a-z ,.'-]` under the `i` flag. */
  predicate NameChar(c: char) {
    ('a' <= c <= 'z') || ('A' <= c <= 'Z') || c in {' ', ',', '.', '\'', '-'}
  }

  /** `/^[a-z ,.'-]+$/i.test(s)` */
  predicate MatchesNamePattern(s: string) {
    |s| > 0 && forall i :: 0 <= i < |s| ==> NameChar(s[i])
  }

  /** The messages a rule reports for a field's value, in the validator's
      order: a missing value stops at `required`; a string rule then checks
      emptiness, length bounds and pattern in turn, each independently; the
      e-mail rule checks its length bound before the format. `isEmail` is
      the validator's e-mail format test. */
  function RuleMessages(rule: Rule, value: Option<string>, isEmail: string -> bool): (ms: seq<string>)
  {
    match value
    case None =>
      (match rule
       case NameRule(title) => [NameRequired(title)]
       case EmailRule => [EMAIL_MESSAGE]
       case PasswordRule => [PASSWORD_MESSAGE]
       case TextRule(title, _) => [title + " is required"])
    case Some(s) =>
      match rule
      case NameRule(title) =>
        (if |s| == 0 then [NameRequired(title)] else [])
        + (if |s| > NAME_MAX then [NameTooLong(title)] else [])
        + (if !MatchesNamePattern(s) then [NamePattern(title)] else [])
      case EmailRule =>
        (if |s| > EMAIL_MAX then [EMAIL_MAX_MESSAGE] else [])
        + (if !isEmail(s) then [EMAIL_MESSAGE] else [])
      case PasswordRule =>
        if |s| < PASSWORD_MIN then [PASSWORD_MESSAGE] else []
      case TextRule(title, max) =>
        (if |s| == 0 then [title + " is required"] else [])
        + (if |s| > max then [TextTooLong(title, max)] else [])
  }

  /** What each rule accepts, stated on its own. */
  predicate Accepts(rule: Rule, value: Option<string>, isEmail: string -> bool) {
    value.Some? &&
    match rule
    case NameRule(_) => 0 < |value.value| <= NAME_MAX && MatchesNamePattern(value.value)
    case EmailRule => isEmail(value.value) && |value.value| <= EMAIL_MAX
    case PasswordRule => |value.value| >= PASSWORD_MIN
    case TextRule(_, max) => 0 < |value.value| <= max
  }

  /** A rule reports nothing exactly when it accepts the value. */
  lemma RuleMessagesEmptyIffAccepted(rule: Rule, value: Option<string>, isEmail: string -> bool)
    ensures RuleMessages(rule, value, isEmail) == [] <==> Accepts(rule, value, isEmail)
  {
  }

  /** The value a request carries for a field; non-string values are not modelled. */
  function Field(input: map<string, string>, name: string): Option<string> {
    if name in input then Some(input[name]) else None
  }

  /** The errors of one field, tagged with its name. */
  function Tag(field: string, ms: seq<string>): (es: seq<FieldError>)
    ensures |es| == |ms|
    ensures forall i :: 0 <= i < |ms| ==> es[i] == FieldError(field, ms[i])
  {
    if ms == [] then [] else [FieldError(field, ms[0])] + Tag(field, ms[1..])
  }

  /** `validator.validate(value, schema)` as a list of errors, field by
      field in schema order; the empty list is `true`. */
  function Validate(schema: Schema, input: map<string, string>, isEmail: string -> bool): seq<FieldError> {
    if schema == [] then []
    else
      Tag(schema[0].0, RuleMessages(schema[0].1, Field(input, schema[0].0), isEmail))
      + Validate(schema[1..], input, isEmail)
  }

  /** Validation of a concatenated schema is the concatenation of the two. */
  lemma {:induction false} ValidateAppend(s1: Schema, s2: Schema, input: map<string, string>, isEmail: string -> bool)
    ensures Validate(s1 + s2, input, isEmail) == Validate(s1, input, isEmail) + Validate(s2, input, isEmail)
  {
    if s1 != [] {
      assert (s1 + s2)[0] == s1[0] && (s1 + s2)[1..] == s1[1..] + s2;
      ValidateAppend(s1[1..], s2, input, isEmail);
      var head := Tag(s1[0].0, RuleMessages(s1[0].1, Field(input, s1[0].0), isEmail));
      assert Validate(s1 + s2, input, isEmail) == head + Validate(s1[1..] + s2, input, isEmail);
      assert Validate(s1, input, isEmail) == head + Validate(s1[1..], input, isEmail);
    } else {
      assert s1 + s2 == s2;
    }
  }

  /** A schema reports nothing exactly when each of its rules accepts its field. */
  lemma {:induction false} ValidateEmptyIffAllAccepted(schema: Schema, input: map<string, string>, isEmail: string -> bool)
    ensures Validate(schema, input, isEmail) == [] <==>
      forall i :: 0 <= i < |schema| ==> Accepts(schema[i].1, Field(input, schema[i].0), isEmail)
  {
    if schema != [] {
      ValidateEmptyIffAllAccepted(schema[1..], input, isEmail);
      RuleMessagesEmptyIffAccepted(schema[0].1, Field(input, schema[0].0), isEmail);
      if Validate(schema, input, isEmail) == [] {
        forall i | 0 <= i < |schema|
          ensures Accepts(schema[i].1, Field(input, schema[i].0), isEmail)
        {
          if i > 0 { assert schema[i] == schema[1..][i - 1]; }
        }
      }
    }
  }

  /** The fields of a schema whose rule rejects the input. */
  function FailingFields(schema: Schema, input: map<string, string>, isEmail: string -> bool): set<string> {
    set i | 0 <= i < |schema| && !Accepts(schema[i].1, Field(input, schema[i].0), isEmail) :: schema[i].0
  }

  // ---------------------------------------------------------------------------
  // Schemas

  const LOGIN_SCHEMA: Schema := [("email", EmailRule), ("password", PasswordRule)]
  const NAMES: Schema := [("firstname", NameRule("Firstname")), ("lastname", NameRule("Lastname"))]
  const REGISTER_SCHEMA: Schema := [("email", EmailRule), ("password", PasswordRule),
                                   ("firstname", NameRule("Firstname")), ("lastname", NameRule("Lastname"))]
  const EDIT_PROFILE_SCHEMA: Schema := [("email", EmailRule),
                                       ("firstname", NameRule("Firstname")), ("lastname", NameRule("Lastname"))]
  const CHANGE_PASSWORD_SCHEMA: Schema := [("password", PasswordRule), ("newPassword", PasswordRule)]
  const REQUEST_SCHEMA: Schema := [("email", EmailRule),
                                  ("subject", TextRule("Subject", SUBJECT_MAX)),
                                  ("message", TextRule("Message", MESSAGE_MAX))]

  /** The register schema is the login schema followed by both names, so a
      registration reports every login error first; the profile schema is
      the e-mail followed by both names. */
  lemma SchemaComposition(input: map<string, string>, isEmail: string -> bool)
    ensures REGISTER_SCHEMA == LOGIN_SCHEMA + NAMES
    ensures EDIT_PROFILE_SCHEMA == LOGIN_SCHEMA[..1] + NAMES
    ensures Validate(REGISTER_SCHEMA, input, isEmail) == Validate(LOGIN_SCHEMA, input, isEmail) + Validate(NAMES, input, isEmail)
  {
    var login, names := LOGIN_SCHEMA, NAMES;
    assert REGISTER_SCHEMA == login + names;
    assert login[..1] == [("email", EmailRule)];
    ValidateAppend(login, names, input, isEmail);
  }

  // ---------------------------------------------------------------------------
  // getValidationErrors

  /** The record the errors are folded into: each field maps to the message
      of its last error. */
  function FoldErrors(errors: seq<FieldError>): (m: map<string, string>)
    ensures forall k :: k in m <==> exists i :: 0 <= i < |errors| && errors[i].field == k
  {
    if errors == [] then map[]
    else
      var last := errors[|errors| - 1];
      var m := FoldErrors(errors[..|errors| - 1]);
      assert forall i :: 0 <= i < |errors| - 1 ==> errors[..|errors| - 1][i] == errors[i];
      m[last.field := last.message]
  }

  /** The index of the last error of a field. */
  predicate IsLastFor(errors: seq<FieldError>, k: string, i: int) {
    0 <= i < |errors| && errors[i].field == k && forall j :: i < j < |errors| ==> errors[j].field != k
  }

  /** A later error of a field overwrites an earlier one. */
  lemma {:induction false} FoldKeepsLast(errors: seq<FieldError>, k: string)
    requires k in FoldErrors(errors)
    ensures exists i :: IsLastFor(errors, k, i) && FoldErrors(errors)[k] == errors[i].message
  {
    var n := |errors|;
    assert n > 0;
    var init, last := errors[..n - 1], errors[n - 1];
    assert FoldErrors(errors) == FoldErrors(init)[last.field := last.message];
    if last.field == k {
      assert IsLastFor(errors, k, n - 1);
    } else {
      assert k in FoldErrors(init);
      FoldKeepsLast(init, k);
      var i :| IsLastFor(init, k, i) && FoldErrors(init)[k] == init[i].message;
      assert errors[i] == init[i];
      assert IsLastFor(errors, k, i);
    }
  }

  /** `getValidationErrors(value, schema)`: null when the validator passes,
      otherwise the record of field messages, filled error by error. */
  method GetValidationErrors(schema: Schema, input: map<string, string>, isEmail: string -> bool)
    returns (r: Option<map<string, string>>)
    ensures r.None? <==> Validate(schema, input, isEmail) == []
    ensures r.Some? ==> r.value == FoldErrors(Validate(schema, input, isEmail))
  {
    var validationErrors := Validate(schema, input, isEmail);
    if validationErrors == [] {
      return None;
    }
    var formattedErrors: map<string, string> := map[];
    for i := 0 to |validationErrors|
      invariant formattedErrors == FoldErrors(validationErrors[..i])
    {
      var error := validationErrors[i];
      assert validationErrors[..i + 1][..i] == validationErrors[..i];
      formattedErrors := formattedErrors[error.field := error.message];
    }
    assert validationErrors[..|validationErrors|] == validationErrors;
    return Some(formattedErrors);
  }

  /** Some error in `es` is about field `k`. */
  predicate Reports(es: seq<FieldError>, k: string) {
    exists i :: 0 <= i < |es| && es[i].field == k
  }

  /** Some rule of the schema for field `k` rejects the input. */
  predicate Fails(schema: Schema, input: map<string, string>, isEmail: string -> bool, k: string) {
    exists j :: 0 <= j < |schema| && schema[j].0 == k && !Accepts(schema[j].1, Field(input, schema[j].0), isEmail)
  }

  lemma ReportsTag(f: string, ms: seq<string>, k: string)
    ensures Reports(Tag(f, ms), k) <==> ms != [] && f == k
  {
    if ms != [] && f == k {
      assert Tag(f, ms)[0].field == k;
    }
  }

  lemma ReportsAppend(a: seq<FieldError>, b: seq<FieldError>, k: string)
    ensures Reports(a + b, k) <==> Reports(a, k) || Reports(b, k)
  {
    if Reports(a + b, k) {
      var i :| 0 <= i < |a + b| && (a + b)[i].field == k;
      if i >= |a| {
        assert b[i - |a|].field == k;
      }
    }
    if Reports(a, k) {
      var i :| 0 <= i < |a| && a[i].field == k;
      assert (a + b)[i].field == k;
    }
    if Reports(b, k) {
      var i :| 0 <= i < |b| && b[i].field == k;
      assert (a + b)[|a| + i].field == k;
    }
  }

  lemma FailsCons(schema: Schema, input: map<string, string>, isEmail: string -> bool, k: string)
    requires schema != []
    ensures Fails(schema, input, isEmail, k) <==>
      (schema[0].0 == k && !Accepts(schema[0].1, Field(input, schema[0].0), isEmail)) || Fails(schema[1..], input, isEmail, k)
  {
    if Fails(schema, input, isEmail, k) {
      var j :| 0 <= j < |schema| && schema[j].0 == k && !Accepts(schema[j].1, Field(input, schema[j].0), isEmail);
      if j > 0 {
        assert schema[1..][j - 1] == schema[j];
      }
    }
    if Fails(schema[1..], input, isEmail, k) {
      var j :| 0 <= j < |schema[1..]| && schema[1..][j].0 == k && !Accepts(schema[1..][j].1, Field(input, schema[1..][j].0), isEmail);
      assert schema[j + 1] == schema[1..][j];
    }
  }

  /** A field is reported exactly when one of its rules rejects the input. */
  lemma {:induction false} ReportedIffFails(schema: Schema, input: map<string, string>, isEmail: string -> bool, k: string)
    ensures Reports(Validate(schema, input, isEmail), k) <==> Fails(schema, input, isEmail, k)
  {
    if schema != [] {
      ReportedIffFails(schema[1..], input, isEmail, k);
      var ms := RuleMessages(schema[0].1, Field(input, schema[0].0), isEmail);
      RuleMessagesEmptyIffAccepted(schema[0].1, Field(input, schema[0].0), isEmail);
      ReportsTag(schema[0].0, ms, k);
      ReportsAppend(Tag(schema[0].0, ms), Validate(schema[1..], input, isEmail), k);
      FailsCons(schema, input, isEmail, k);
    }
  }

  /** The fields of the folded errors are exactly the failing fields. */
  lemma ErrorFieldsAreFailingFields(schema: Schema, input: map<string, string>, isEmail: string -> bool)
    ensures FoldErrors(Validate(schema, input, isEmail)).Keys == FailingFields(schema, input, isEmail)
  {
    forall k
      ensures k in FoldErrors(Validate(schema, input, isEmail)) <==> k in FailingFields(schema, input, isEmail)
    {
      ReportedIffFails(schema, input, isEmail, k);
    }
  }

  /** An empty name fails both the emptiness and the pattern check, so the
      message the record keeps for it is the pattern message. */
  lemma EmptyNameReportsPattern(title: string, field: string, input: map<string, string>, isEmail: string -> bool)
    requires field in input && input[field] == ""
    ensures FoldErrors(Validate([(field, NameRule(title))], input, isEmail)) == map[field := NamePattern(title)]
  {
    var es := Validate([(field, NameRule(title))], input, isEmail);
    assert es == [FieldError(field, NameRequired(title)), FieldError(field, NamePattern(title))];
    assert es[..1][..0] == [];
  }
}
