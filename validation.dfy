/**
 * Validation-rule selection of service.js: each field kind has a fixed rule
 * template; the rules other than `required` keep their declared order and the
 * template's first rule is appended at the end when the input is required.
 */
module Validation {
  import opened Wrappers
  import opened JsText

  datatype FieldKind = NameField | PhoneField | EmailField | TextField | CheckboxField | RadioField

  datatype RuleKind = Required | MinLength | MaxLength | CustomRegexp | EmailRule

  /** The `value` of a rule: a length bound or one of the two patterns. */
  datatype RuleValue = NoValue | Length(n: nat) | NamePattern(locale: string) | EmailPattern

  datatype FieldRule = FieldRule(rule: RuleKind, value: RuleValue, errorMessage: string)

  datatype ValidationError = UnknownField(field: string)

  /** The `data-field` attribute names a key of the `fields` object. */
  function ParseFieldKind(field: string): (r: Option<FieldKind>)
    ensures r.None? <==> field !in {"name", "phone", "email", "text", "checkbox", "radio"}
  {
    match field
    case "name" => Some(NameField)
    case "phone" => Some(PhoneField)
    case "email" => Some(EmailField)
    case "text" => Some(TextField)
    case "checkbox" => Some(CheckboxField)
    case "radio" => Some(RadioField)
    case _ => None
  }

  const MinLength2 := FieldRule(MinLength, Length(2), "The field must contain a minimum of 2 characters")
  const MaxLength30 := FieldRule(MaxLength, Length(30), "The field must contain a maximum of 30 characters")
  const MinLength3 := FieldRule(MinLength, Length(3), "The field must contain a minimum of 3 characters")
  const MaxLength100 := FieldRule(MaxLength, Length(100), "The field must contain a maximum of 100 characters")
  const EmailFormat := FieldRule(EmailRule, NoValue, "Email is invalid!")
  const EmailRegexp := FieldRule(CustomRegexp, EmailPattern, "Email is invalid!")

  function NameRegexp(locale: string): FieldRule {
    FieldRule(CustomRegexp, NamePattern(locale), "Name is invalid")
  }

  function RequiredRule(kind: FieldKind): FieldRule {
    var message := match kind
      case NameField => "Name is required"
      case PhoneField => "Phone number is required"
      case EmailField => "Email is required"
      case _ => "The field is required";
    FieldRule(Required, NoValue, message)
  }

  /** The `fields` object; the name pattern is chosen by the page locale. */
  function Template(kind: FieldKind, locale: string): (t: seq<FieldRule>)
    ensures |t| >= 1
  {
    match kind
    case NameField => [RequiredRule(NameField), MinLength2, MaxLength30, NameRegexp(locale)]
    case PhoneField => [RequiredRule(PhoneField)]
    case EmailField => [RequiredRule(EmailField), EmailFormat, EmailRegexp]
    case TextField => [MinLength3, MaxLength100]
    case CheckboxField => [RequiredRule(CheckboxField)]
    case RadioField => [RequiredRule(RadioField)]
  }

  /** `rules.filter(({rule}) => rule !== "required")`. */
  function WithoutRequired(rules: seq<FieldRule>): (r: seq<FieldRule>)
    ensures |r| <= |rules|
    ensures forall i :: 0 <= i < |r| ==> r[i].rule != Required
    decreases |rules|
  {
    if rules == [] then []
    else (if rules[0].rule == Required then [] else [rules[0]]) + WithoutRequired(rules[1..])
  }

  /** The filter keeps exactly the rules other than `required`. */
  lemma {:induction false} WithoutRequiredMembers(rules: seq<FieldRule>, x: FieldRule)
    ensures x in WithoutRequired(rules) <==> x in rules && x.rule != Required
    decreases |rules|
  {
    if rules != [] {
      WithoutRequiredMembers(rules[1..], x);
      assert rules == [rules[0]] + rules[1..];
    }
  }

  /** The filter distributes over concatenation, so it keeps the declared order. */
  lemma {:induction false} WithoutRequiredAppend(a: seq<FieldRule>, b: seq<FieldRule>)
    ensures WithoutRequired(a + b) == WithoutRequired(a) + WithoutRequired(b)
    decreases |a|
  {
    if a != [] {
      var head := if a[0].rule == Required then [] else [a[0]];
      assert (a + b)[0] == a[0] && (a + b)[1..] == a[1..] + b;
      WithoutRequiredAppend(a[1..], b);
      calc {
        WithoutRequired(a + b);
        head + WithoutRequired(a[1..] + b);
        head + (WithoutRequired(a[1..]) + WithoutRequired(b));
        (head + WithoutRequired(a[1..])) + WithoutRequired(b);
      }
    } else {
      assert a + b == b;
    }
  }

  /** Rules without `required` pass the filter unchanged. */
  lemma {:induction false} WithoutRequiredKeeps(rules: seq<FieldRule>)
    requires forall i :: 0 <= i < |rules| ==> rules[i].rule != Required
    ensures WithoutRequired(rules) == rules
    decreases |rules|
  {
    if rules != [] {
      WithoutRequiredKeeps(rules[1..]);
    }
  }

  /** The rules chosen for a known field kind. */
  function RulesFor(kind: FieldKind, required: bool, locale: string): seq<FieldRule> {
    var t := Template(kind, locale);
    WithoutRequired(t) + (if required then [t[0]] else [])
  }

  /**
   * `getValidationFields(input)`: the template's rules other than `required`
   * in declared order, then `fields[field][0]` when the input is required;
   * an unknown `data-field` throws (`fields[field]` is undefined).
   */
  function GetValidationFields(field: string, required: bool, locale: string): (r: Result<seq<FieldRule>, ValidationError>)
    ensures r.Err? <==> ParseFieldKind(field).None?
    ensures r.Err? ==> r.error == UnknownField(field)
    ensures r.Ok? ==> var t := Template(ParseFieldKind(field).value, locale);
                      && |r.value| == |WithoutRequired(t)| + (if required then 1 else 0)
                      && (forall i :: 0 <= i < |WithoutRequired(t)| ==> r.value[i].rule != Required)
                      && (required ==> r.value[|r.value| - 1] == t[0])
  {
    match ParseFieldKind(field)
    case None => Err(UnknownField(field))
    case Some(kind) => Ok(RulesFor(kind, required, locale))
  }

  lemma RequiredHeadDropped(head: FieldRule, rest: seq<FieldRule>)
    requires head.rule == Required
    requires forall i :: 0 <= i < |rest| ==> rest[i].rule != Required
    ensures WithoutRequired([head] + rest) == rest
  {
    assert ([head] + rest)[1..] == rest;
    WithoutRequiredKeeps(rest);
  }

  /** The rule list each field kind ends up with. */
  lemma RulesByKind(kind: FieldKind, required: bool, locale: string)
    ensures var r := RulesFor(kind, required, locale);
            var req := if required then [RequiredRule(kind)] else [];
            match kind
            case NameField => r == [MinLength2, MaxLength30, NameRegexp(locale)] + req
            case PhoneField => r == req
            case EmailField => r == [EmailFormat, EmailRegexp] + req
            case TextField => r == [MinLength3, MaxLength100] + (if required then [MinLength3] else [])
            case CheckboxField => r == req
            case RadioField => r == req
  {
    var t := Template(kind, locale);
    match kind
    case NameField => RequiredHeadDropped(t[0], [MinLength2, MaxLength30, NameRegexp(locale)]);
    case PhoneField => RequiredHeadDropped(t[0], []);
    case EmailField => RequiredHeadDropped(t[0], [EmailFormat, EmailRegexp]);
    case TextField => WithoutRequiredKeeps(t);
    case CheckboxField => RequiredHeadDropped(t[0], []);
    case RadioField => RequiredHeadDropped(t[0], []);
  }

  function CountRequired(rules: seq<FieldRule>): nat
    decreases |rules|
  {
    if rules == [] then 0 else (if rules[0].rule == Required then 1 else 0) + CountRequired(rules[1..])
  }

  lemma {:induction false} CountRequiredAppend(a: seq<FieldRule>, b: seq<FieldRule>)
    ensures CountRequired(a + b) == CountRequired(a) + CountRequired(b)
    decreases |a|
  {
    if a != [] {
      assert (a + b)[0] == a[0] && (a + b)[1..] == a[1..] + b;
      CountRequiredAppend(a[1..], b);
    } else {
      assert a + b == b;
    }
  }

  lemma {:induction false} CountRequiredNone(rules: seq<FieldRule>)
    requires forall i :: 0 <= i < |rules| ==> rules[i].rule != Required
    ensures CountRequired(rules) == 0
    decreases |rules|
  {
    if rules != [] {
      CountRequiredNone(rules[1..]);
    }
  }

  /**
   * For every kind with a `required` rule (all but text), a required input
   * gets that rule exactly once and last; an optional input does not get it.
   */
  lemma RequiredRuleLast(kind: FieldKind, required: bool, locale: string)
    requires kind != TextField
    ensures var r := RulesFor(kind, required, locale);
            && CountRequired(r) == (if required then 1 else 0)
            && (required ==> r[|r| - 1].rule == Required)
  {
    var t := Template(kind, locale);
    var kept := WithoutRequired(t);
    var req := if required then [t[0]] else [];
    assert t[0].rule == Required;
    CountRequiredNone(kept);
    CountRequiredAppend(kept, req);
  }

  /** Line terminators, which the pattern's leading `.` does not accept. */
  predicate IsLineTerminator(c: char) {
    c == '\n' || c == '\r' || c == '\U{2028}' || c == '\U{2029}'
  }

  /** The characters `getNameRegex(locale)` accepts after the first one. */
  predicate NameCharAllowed(locale: string, c: char) {
    || ('a' <= c <= 'z') || ('A' <= c <= 'Z')
    || c in " '`-" || c == '\U{02BC}'
    || match locale
       case "pl" => c in "ĄąĆćĘęŁłŃńÓóŚśŹźŻż"
       case "en" => false
       case "ro" => c in "ĂăÂâÎîȘșȚț"
       case "es" => c in "áéíÑñóúü"
       case "tr" => c in "ÇçĞğÖöŞşÜü"
       case _ => ('а' <= c <= 'я') || ('А' <= c <= 'Я') || c in "ёЁЇїІіЄєҐґ"
  }

  /** The name pattern `^.[set]{1,}$`: one arbitrary character, then at least one from the locale's set. */
  predicate MatchesNamePattern(locale: string, s: string) {
    && |s| >= 2
    && !IsLineTerminator(s[0])
    && forall i :: 1 <= i < |s| ==> NameCharAllowed(locale, s[i])
  }

  /** The Polish pattern accepts a hyphenated Polish name and rejects digits. */
  lemma PolishNameExamples()
    ensures MatchesNamePattern("pl", "Łukasz-Marek")
    ensures !MatchesNamePattern("pl", "Lukas123")
  {
    assert !NameCharAllowed("pl", "Lukas123"[5]);
  }
}
