/** The form validator: per-field rules checked in a fixed order, at most one
    message per field, default messages built from the camel-case field name. */
module Validation {
  import opened Base
  import opened Text
  import opened Js

  /** A field's rule. `pattern` stands for a regular expression's `test`;
      `custom` returns an error text or `null` (`None`). */
  datatype Rule = Rule(
    required: bool,
    minLength: Option<int>,
    maxLength: Option<int>,
    pattern: Option<string -> bool>,
    message: Option<string>,
    custom: Option<string -> Option<string>>)

  /** The checks, in the order the validator applies them. */
  datatype Check = Required | MinLength | MaxLength | Pattern | Custom

  const CheckOrder: seq<Check> := [Required, MinLength, MaxLength, Pattern, Custom]

  /** A length bound takes part only when it is truthy: absent and 0 are not. */
  predicate BoundSet(b: Option<int>) { b.Some? && b.value != 0 }

  /** `formData[field]`: a missing key reads as `undefined`. */
  function ValueOf(data: map<string, JsValue>, field: string): JsValue {
    if field in data then data[field] else Undefined
  }

  /** `value === null || value === undefined || String(value).trim() === ""` */
  predicate Blank(value: JsValue) {
    value.Null? || value.Undefined? || Trim(ToJsString(value)) == ""
  }

  /** The custom check's error, when it returns a truthy string. */
  predicate CustomRejects(rule: Rule, text: string) {
    rule.custom.Some? && var e := rule.custom.value(text); e.Some? && e.value != ""
  }

  predicate Fails(c: Check, value: JsValue, rule: Rule) {
    var text := ToJsString(value);
    match c
    case Required => rule.required && Blank(value)
    case MinLength => BoundSet(rule.minLength) && |text| < rule.minLength.value
    case MaxLength => BoundSet(rule.maxLength) && |text| > rule.maxLength.value
    case Pattern => rule.pattern.Some? && !rule.pattern.value(text)
    case Custom => CustomRejects(rule, text)
  }

  // ---------------------------------------------------------------- messages

  /** `field.replace(/([A-Z])/g, " $1").toLowerCase()`: a space before every
      upper-case letter, then everything in lower case. */
  function Label(field: string): string
    decreases |field|
  {
    if field == [] then []
    else
      (if IsUpper(field[0]) then [' ', ToLowerChar(field[0])] else [field[0]]) + Label(field[1..])
  }

  /** `rule.message || generated` */
  function Msg(rule: Rule, generated: string): string {
    if rule.message.Some? && rule.message.value != "" then rule.message.value else generated
  }

  /** The message recorded when check `c` is the one that fails. */
  function MessageFor(c: Check, field: string, value: JsValue, rule: Rule): string
    requires Fails(c, value, rule)
  {
    match c
    case Required => Msg(rule, Label(field) + " is required.")
    case MinLength =>
      Msg(rule, Label(field) + " must be at least " + IntToString(rule.minLength.value) + " characters.")
    case MaxLength =>
      Msg(rule, Label(field) + " must be no more than " + IntToString(rule.maxLength.value) + " characters.")
    case Pattern => Msg(rule, "Please enter a valid " + Label(field) + ".")
    case Custom => rule.custom.value(ToJsString(value)).value
  }

  // ---------------------------------------------------------------- specification

  /** The first check of `cs` that fails, if any. */
  function FirstFailing(cs: seq<Check>, value: JsValue, rule: Rule): (r: Option<Check>)
    ensures r.Some? ==> Fails(r.value, value, rule) && r.value in cs
    decreases |cs|
  {
    if cs == [] then None
    else if Fails(cs[0], value, rule) then Some(cs[0])
    else FirstFailing(cs[1..], value, rule)
  }

  /** The error recorded for one field: the message of its first failing check. */
  function FieldError(field: string, value: JsValue, rule: Rule): Option<string> {
    match FirstFailing(CheckOrder, value, rule)
    case None => None
    case Some(c) => Some(MessageFor(c, field, value, rule))
  }

  /** The whole result: one entry for every ruled field that has an error. */
  function Errors(data: map<string, JsValue>, rules: map<string, Rule>): map<string, string> {
    ErrorsOn(data, rules, rules.Keys)
  }

  /** The entries of `Errors` for the fields in `done`. */
  function ErrorsOn(data: map<string, JsValue>, rules: map<string, Rule>, done: set<string>): map<string, string>
    requires done <= rules.Keys
  {
    map f | f in done && FieldError(f, ValueOf(data, f), rules[f]).Some?
      :: FieldError(f, ValueOf(data, f), rules[f]).value
  }

  /** Visiting one more field adds its error, if it has one, and nothing else. */
  lemma ErrorsOnStep(data: map<string, JsValue>, rules: map<string, Rule>, done: set<string>, field: string)
    requires done <= rules.Keys && field in rules && field !in done
    ensures var e := FieldError(field, ValueOf(data, field), rules[field]);
      ErrorsOn(data, rules, done + {field})
        == if e.Some? then ErrorsOn(data, rules, done)[field := e.value] else ErrorsOn(data, rules, done)
  {
  }

  // ---------------------------------------------------------------- the validator

  /** `validateForm`: visits each ruled field once and records the message of
      its first failing check. */
  method ValidateForm(data: map<string, JsValue>, rules: map<string, Rule>)
    returns (errors: map<string, string>)
    ensures errors == Errors(data, rules)
  {
    errors := map[];
    var pending := rules.Keys;
    while pending != {}
      invariant pending <= rules.Keys
      invariant errors == ErrorsOn(data, rules, rules.Keys - pending)
      decreases |pending|
    {
      var field :| field in pending;
      ghost var done := rules.Keys - pending;
      pending := pending - {field};
      assert rules.Keys - pending == done + {field};
      ErrorsOnStep(data, rules, done, field);
      var error := CheckField(field, ValueOf(data, field), rules[field]);
      if error.Some? {
        errors := errors[field := error.value];
      }
    }
    assert rules.Keys - pending == rules.Keys;
  }

  /** The body of the validator's loop for one field: the checks in order,
      the first that fails giving the field's message. */
  method CheckField(field: string, value: JsValue, rule: Rule) returns (error: Option<string>)
    ensures error == FieldError(field, value, rule)
  {
    var text := ToJsString(value);
    FieldErrorChain(field, value, rule);
    if rule.required && (value.Null? || value.Undefined? || Trim(text) == "") {
      assert Fails(Required, value, rule);
      return Some(Msg(rule, Label(field) + " is required."));
    }
    assert !Fails(Required, value, rule);
    if BoundSet(rule.minLength) && |text| < rule.minLength.value {
      assert Fails(MinLength, value, rule);
      return Some(Msg(rule, Label(field) + " must be at least "
        + IntToString(rule.minLength.value) + " characters."));
    }
    assert !Fails(MinLength, value, rule);
    if BoundSet(rule.maxLength) && |text| > rule.maxLength.value {
      assert Fails(MaxLength, value, rule);
      return Some(Msg(rule, Label(field) + " must be no more than "
        + IntToString(rule.maxLength.value) + " characters."));
    }
    assert !Fails(MaxLength, value, rule);
    if rule.pattern.Some? && !rule.pattern.value(text) {
      assert Fails(Pattern, value, rule);
      return Some(Msg(rule, "Please enter a valid " + Label(field) + "."));
    }
    assert !Fails(Pattern, value, rule);
    if rule.custom.Some? {
      var customError := rule.custom.value(text);
      if customError.Some? && customError.value != "" {
        return Some(customError.value);
      }
    }
    return None;
  }

  /** The order-based definition spelled out as the chain of tests the
      validator runs. */
  lemma FieldErrorChain(field: string, value: JsValue, rule: Rule)
    ensures Fails(Required, value, rule) ==>
      FieldError(field, value, rule) == Some(MessageFor(Required, field, value, rule))
    ensures (!Fails(Required, value, rule) && Fails(MinLength, value, rule)) ==>
      FieldError(field, value, rule) == Some(MessageFor(MinLength, field, value, rule))
    ensures (!Fails(Required, value, rule) && !Fails(MinLength, value, rule)
             && Fails(MaxLength, value, rule)) ==>
      FieldError(field, value, rule) == Some(MessageFor(MaxLength, field, value, rule))
    ensures (!Fails(Required, value, rule) && !Fails(MinLength, value, rule)
             && !Fails(MaxLength, value, rule) && Fails(Pattern, value, rule)) ==>
      FieldError(field, value, rule) == Some(MessageFor(Pattern, field, value, rule))
    ensures (!Fails(Required, value, rule) && !Fails(MinLength, value, rule)
             && !Fails(MaxLength, value, rule) && !Fails(Pattern, value, rule)
             && Fails(Custom, value, rule)) ==>
      FieldError(field, value, rule) == Some(MessageFor(Custom, field, value, rule))
    ensures (!Fails(Required, value, rule) && !Fails(MinLength, value, rule)
             && !Fails(MaxLength, value, rule) && !Fails(Pattern, value, rule)
             && !Fails(Custom, value, rule)) ==>
      FieldError(field, value, rule) == None
  {
    assert CheckOrder[1..] == [MinLength, MaxLength, Pattern, Custom];
    assert CheckOrder[1..][1..] == [MaxLength, Pattern, Custom];
    assert CheckOrder[1..][1..][1..] == [Pattern, Custom];
    assert CheckOrder[1..][1..][1..][1..] == [Custom];
    assert CheckOrder[1..][1..][1..][1..][1..] == [];
  }

  // ---------------------------------------------------------------- properties

  /** The first failing check: it fails, and every check listed before it passes;
      no result means every check passes. */
  lemma {:induction false} FirstFailingIsFirst(cs: seq<Check>, value: JsValue, rule: Rule)
    ensures FirstFailing(cs, value, rule).None? <==>
      forall i | 0 <= i < |cs| :: !Fails(cs[i], value, rule)
    ensures FirstFailing(cs, value, rule).Some? ==>
      exists k | 0 <= k < |cs| :: cs[k] == FirstFailing(cs, value, rule).value
        && forall j | 0 <= j < k :: !Fails(cs[j], value, rule)
    decreases |cs|
  {
    if cs != [] && !Fails(cs[0], value, rule) {
      FirstFailingIsFirst(cs[1..], value, rule);
      var r := FirstFailing(cs, value, rule);
      if r.Some? {
        var k :| 0 <= k < |cs[1..]| && cs[1..][k] == r.value
          && forall j | 0 <= j < k :: !Fails(cs[1..][j], value, rule);
        assert cs[k + 1] == r.value;
        forall j | 0 <= j < k + 1 ensures !Fails(cs[j], value, rule) {
          if j > 0 { assert cs[j] == cs[1..][j - 1]; }
        }
      } else {
        forall i | 0 <= i < |cs| ensures !Fails(cs[i], value, rule) {
          if i > 0 { assert cs[i] == cs[1..][i - 1]; }
        }
      }
    } else if cs != [] {
      assert cs[0] == FirstFailing(cs, value, rule).value;
    }
  }

  /** Only fields named in the rules can carry an error; a data field without
      a rule never does. */
  lemma OnlyRuledFields(data: map<string, JsValue>, rules: map<string, Rule>, f: string)
    requires f !in rules
    ensures f !in Errors(data, rules)
  {
  }

  /** The result is empty exactly when every check passes for every ruled field. */
  lemma {:induction false} EmptyIffAllPass(data: map<string, JsValue>, rules: map<string, Rule>)
    ensures Errors(data, rules) == map[] <==>
      forall f, c | f in rules && c in CheckOrder :: !Fails(c, ValueOf(data, f), rules[f])
  {
    var errors := Errors(data, rules);
    if errors == map[] {
      forall f, c | f in rules && c in CheckOrder ensures !Fails(c, ValueOf(data, f), rules[f]) {
        assert f !in errors;
        FirstFailingIsFirst(CheckOrder, ValueOf(data, f), rules[f]);
      }
    } else {
      var f :| f in errors;
      var c := FirstFailing(CheckOrder, ValueOf(data, f), rules[f]).value;
      assert Fails(c, ValueOf(data, f), rules[f]) && c in CheckOrder;
    }
  }

  /** A required field that is null, undefined or blank gets the required
      message, and no later check is consulted. */
  lemma RequiredShortCircuits(field: string, value: JsValue, rule: Rule)
    requires rule.required
    requires value.Null? || value.Undefined? || AllWhite(ToJsString(value))
    ensures FieldError(field, value, rule) == Some(Msg(rule, Label(field) + " is required."))
  {
    if !value.Null? && !value.Undefined? {
      TrimEmptyIffAllWhite(ToJsString(value));
    }
    assert Fails(Required, value, rule);
    FieldErrorChain(field, value, rule);
  }

  /** The length checks compare the length of `String(value)`, and a bound of 0
      never takes part. */
  lemma LengthChecks(value: JsValue, rule: Rule)
    ensures Fails(MinLength, value, rule) <==>
      rule.minLength.Some? && rule.minLength.value != 0 && |ToJsString(value)| < rule.minLength.value
    ensures Fails(MaxLength, value, rule) <==>
      rule.maxLength.Some? && rule.maxLength.value != 0 && |ToJsString(value)| > rule.maxLength.value
  {
  }

  /** A set, non-empty `message` replaces the generated text of the first four
      checks; a custom failure always reports the custom function's text. */
  lemma MessageOverride(c: Check, field: string, value: JsValue, rule: Rule)
    requires Fails(c, value, rule)
    ensures c != Custom && rule.message.Some? && rule.message.value != "" ==>
      MessageFor(c, field, value, rule) == rule.message.value
    ensures c == Custom ==>
      MessageFor(c, field, value, rule) == rule.custom.value(ToJsString(value)).value
  {
  }

  function CountUpper(s: string): nat
    decreases |s|
  {
    if s == [] then 0 else (if IsUpper(s[0]) then 1 else 0) + CountUpper(s[1..])
  }

  /** The label has no upper-case letter and is one character longer per
      upper-case letter of the field name. */
  lemma {:induction false} LabelShape(field: string)
    ensures forall i | 0 <= i < |Label(field)| :: !IsUpper(Label(field)[i])
    ensures |Label(field)| == |field| + CountUpper(field)
    decreases |field|
  {
    if field != [] {
      LabelShape(field[1..]);
    }
  }

  lemma {:induction false} LabelAppend(a: string, b: string)
    ensures Label(a + b) == Label(a) + Label(b)
    decreases |a|
  {
    if a != [] {
      assert (a + b)[0] == a[0];
      assert (a + b)[1..] == a[1..] + b;
      LabelAppend(a[1..], b);
    } else {
      assert a + b == b;
    }
  }

  /** A name with no upper-case letter is its own label. */
  lemma {:induction false} LabelLowerName(field: string)
    requires forall i | 0 <= i < |field| :: !IsUpper(field[i])
    ensures Label(field) == field
    decreases |field|
  {
    if field != [] {
      LabelLowerName(field[1..]);
    }
  }

  /** Two lower-case words joined camel-case (`confirmPassword`) are labelled
      as the two words separated by a space (`confirm password`). */
  lemma CamelPairLabel(head: string, cap: char, tail: string)
    requires forall i | 0 <= i < |head| :: !IsUpper(head[i])
    requires forall i | 0 <= i < |tail| :: !IsUpper(tail[i])
    requires IsUpper(cap)
    ensures Label(head + [cap] + tail) == head + [' ', ToLowerChar(cap)] + tail
  {
    LabelAppend(head + [cap], tail);
    LabelAppend(head, [cap]);
    LabelLowerName(head);
    LabelLowerName(tail);
    LabelUpper(cap);
  }

  /** An upper-case letter alone is labelled as a space and its lower case. */
  lemma LabelUpper(cap: char)
    requires IsUpper(cap)
    ensures Label([cap]) == [' ', ToLowerChar(cap)]
  {
    assert [cap][1..] == [];
  }

  // ---------------------------------------------------------------- common rules

  /** Characters that `[^\s@]` accepts. */
  predicate PlainAddressChar(c: char) { !IsWhite(c) && c != '@' }

  /** `/^[^\s@]+@[^\s@]+\.[^\s@]+$/.test(s)` */
  predicate EmailPattern(s: string) {
    exists k | 0 < k < |s| :: s[k] == '@'
      && (forall i | 0 <= i < |s| && i != k :: PlainAddressChar(s[i]))
      && (exists j | k + 1 < j < |s| - 1 :: s[j] == '.')
  }

  /** Characters that `[0-9\s\-()]` accepts. */
  predicate PhoneChar(c: char) { IsDigit(c) || IsWhite(c) || c == '-' || c == '(' || c == ')' }

  /** `/^\+?[0-9\s\-()]{7,20}$/.test(s)` */
  predicate PhonePattern(s: string) {
    7 <= |PhoneBody(s)| <= 20 && forall i | 0 <= i < |PhoneBody(s)| :: PhoneChar(PhoneBody(s)[i])
  }

  /** The text after an optional leading `+`. */
  function PhoneBody(s: string): string {
    if s != [] && s[0] == '+' then s[1..] else s
  }

  function EmailRule(): Rule {
    Rule(true, None, None, Some(EmailPattern), Some("Please enter a valid email address."), None)
  }

  function PasswordRule(): Rule {
    Rule(true, Some(6), None, None, Some("Password must be at least 6 characters long."), None)
  }

  function PhoneRule(): Rule {
    Rule(false, None, None, Some(PhonePattern), Some("Please enter a valid phone number."), None)
  }

  /** The phone rule is not required, yet an empty phone still fails its
      pattern, which needs 7 to 20 characters. */
  lemma OptionalPhoneStillChecked()
    ensures FieldError("phone", Str(""), PhoneRule()) == Some("Please enter a valid phone number.")
  {
    PhonePatternFirst(Str(""));
  }

  /** An absent phone reads as the text `undefined`, which fails the pattern too. */
  lemma AbsentPhoneStillChecked()
    ensures FieldError("phone", Undefined, PhoneRule()) == Some("Please enter a valid phone number.")
  {
    var u := "undefined";
    assert u[0] == 'u' && |u| == 9;
    assert PhoneBody(u) == u;
    assert !PhoneChar(u[0]);
    PhonePatternFirst(Undefined);
  }

  /** Under the phone rule only the pattern can fail, and its failure gives
      the rule's message. */
  lemma PhonePatternFirst(value: JsValue)
    requires !PhonePattern(ToJsString(value))
    ensures FieldError("phone", value, PhoneRule()) == Some("Please enter a valid phone number.")
  {
    var rule := PhoneRule();
    assert !Fails(Required, value, rule) && !Fails(MinLength, value, rule) && !Fails(MaxLength, value, rule);
    assert Fails(Pattern, value, rule);
    var rest := CheckOrder[1..][1..][1..];
    assert rest[0] == Pattern;
    assert FirstFailing(rest, value, rule) == Some(Pattern);
    assert FirstFailing(CheckOrder, value, rule) == Some(Pattern);
  }

  /** A missing email reports the rule's own message, not the generated one. */
  lemma MissingEmailUsesRuleMessage()
    ensures FieldError("email", Undefined, EmailRule()) == Some("Please enter a valid email address.")
  {
  }

  /** A five-character password fails the length check with the rule's message. */
  lemma ShortPasswordRejected()
    ensures FieldError("password", Str("abcde"), PasswordRule())
      == Some("Password must be at least 6 characters long.")
  {
    var rule, value := PasswordRule(), Str("abcde");
    assert !Fails(Required, value, rule) by {
      TrimNoWhite("abcde");
    }
    assert Fails(MinLength, value, rule);
    assert CheckOrder[0] == Required && CheckOrder[1..][0] == MinLength;
    assert FirstFailing(CheckOrder, value, rule) == Some(MinLength);
  }
}
