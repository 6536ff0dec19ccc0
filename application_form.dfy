/** The application-form schema of packages/shared/validation/application-form.ts:
    seven sections of fields, each field a combination of empty-to-absent
    preprocessing, trimming, numeric coercion and range, length or option
    checks. The schema is data here (`Schema`), and parsing a submission
    collects every failing field's issues, as zod does, instead of stopping
    at the first. */
module ApplicationForm {
  import opened Common

  const ContentTypeOptions := [
    "Long-form video", "Short-form video", "Livestreams", "Podcasts",
    "Blog articles", "Social posts", "Newsletters", "Events / IRL activations"]
  const PrimaryPlatformOptions := [
    "Instagram", "YouTube", "TikTok", "LinkedIn", "Twitch", "Podcast", "Blog", "Other"]
  const CollaborationPreferenceOptions := [
    "Sponsored content", "Product collaborations", "Affiliate / performance", "Licensing",
    "Speaking engagements"]
  const ReferralSourceOptions := [
    "Existing creator", "Brand partner", "Social media", "Press / PR", "Conference", "Other"]
  const BrandStageOptions := ["Pre-launch", "Early", "Growth", "Established", "Other"]
  const DecisionTimelineOptions := ["Immediately", "1-3 months", "3-6 months", "6+ months"]
  const ContactMethodOptions := ["Email", "Phone", "Text", "WhatsApp", "Other"]

  const MustBeText := "Must be text"
  const MustBeUrl := "Must be a URL"
  const MustBeValidUrl := "Must be a valid URL"
  const MustBeNumber := "Must be a number"
  const MustBePercentage := "Provide a number between 0 and 100"

  /** `emptyToUndefined`: "", null and undefined become undefined; every
      other value passes through unchanged. */
  function EmptyToUndefined(v: Value): (r: Value)
    ensures r.Undefined? <==> (v == Str("") || v.Null? || v.Undefined?)
    ensures !r.Undefined? ==> r == v
  {
    if v == Str("") || v.Null? || v.Undefined? then Undefined else v
  }

  /** Preprocessing twice is preprocessing once. */
  lemma EmptyToUndefinedIdempotent(v: Value)
    ensures EmptyToUndefined(EmptyToUndefined(v)) == EmptyToUndefined(v)
  {
  }

  /** ---------------- numeric coercion (`z.coerce.number`) ---------------- */

  predicate AllDigits(s: string) {
    forall i :: 0 <= i < |s| ==> IsAsciiDigit(s[i])
  }

  /** The value of a string of decimal digits. */
  function DigitsValue(s: string): nat
    requires AllDigits(s)
  {
    if s == [] then 0 else 10 * DigitsValue(s[..|s| - 1]) + (s[|s| - 1] - '0') as nat
  }

  function Pow10(n: nat): (r: nat)
    ensures r >= 1
  {
    if n == 0 then 1 else 10 * Pow10(n - 1)
  }

  /** The first position of `c` in `s`, if any. */
  function IndexOf(s: string, c: char): (r: Option<nat>)
    ensures r.None? <==> c !in s
    ensures r.Some? ==> r.value < |s| && s[r.value] == c && c !in s[..r.value]
  {
    if s == [] then None
    else if s[0] == c then Some(0)
    else
      var rest := IndexOf(s[1..], c);
      assert s[1..][..0] == [];
      if rest.None? then None
      else
        assert s[..rest.value + 1] == [s[0]] + s[1..][..rest.value];
        Some(rest.value + 1)
  }

  /** Digits with at most one decimal point and at least one digit. */
  function ParseUnsignedDecimal(s: string): (r: Option<real>)
    ensures r.Some? ==> r.value >= 0.0
  {
    match IndexOf(s, '.')
    case None =>
      if s != [] && AllDigits(s) then Some(DigitsValue(s) as real) else None
    case Some(k) =>
      var whole := s[..k];
      var fraction := s[k + 1..];
      if |whole| + |fraction| >= 1 && AllDigits(whole) && AllDigits(fraction)
      then Some(DigitsValue(whole) as real + DigitsValue(fraction) as real / Pow10(|fraction|) as real)
      else None
  }

  /** `Number(s)` for a string: surrounding whitespace is ignored, a blank
      string is 0, and otherwise an optional sign followed by a plain
      decimal; anything else is NaN (None). */
  function ParseNumericString(s: string): (r: Option<real>)
    ensures AllWhitespace(s) ==> r == Some(0.0)
  {
    var t := Trim(s);
    TrimEmptyIffAllWhitespace(s);
    if t == "" then Some(0.0)
    else if t[0] == '-' then
      match ParseUnsignedDecimal(t[1..])
      case None => None
      case Some(x) => Some(-x)
    else if t[0] == '+' then ParseUnsignedDecimal(t[1..])
    else ParseUnsignedDecimal(t)
  }

  /** `Number(v)`: None stands for NaN. */
  function ToNumber(v: Value): Option<real> {
    match v
    case Undefined => None
    case Null => Some(0.0)
    case Bool(b) => Some(if b then 1.0 else 0.0)
    case Num(n) => Some(n)
    case Str(s) => ParseNumericString(s)
    case List(_) => None
  }

  predicate IsInteger(x: real) { x == x.Floor as real }

  /** The decimal digits of a natural number. */
  function NatToString(n: nat): (r: string)
    ensures r != [] && AllDigits(r)
    decreases n
  {
    if n < 10 then ['0' + n as char] else NatToString(n / 10) + ['0' + (n % 10) as char]
  }

  lemma {:induction false} DigitsValueOfNatToString(n: nat)
    ensures DigitsValue(NatToString(n)) == n
    decreases n
  {
    if n >= 10 {
      var s := NatToString(n / 10) + ['0' + (n % 10) as char];
      assert s[..|s| - 1] == NatToString(n / 10);
      DigitsValueOfNatToString(n / 10);
    }
  }

  /** A number typed as its decimal digits coerces back to itself. */
  lemma {:induction false} NumericStringRoundTrip(n: nat)
    ensures ParseNumericString(NatToString(n)) == Some(n as real)
  {
    var s := NatToString(n);
    DigitsNotSpecial(s);
    TrimUnpadded(s);
    DigitsValueOfNatToString(n);
  }

  /** A digit string is no whitespace at either end, carries no sign and
      no decimal point, and so is read as its digits. */
  lemma {:induction false} DigitsNotSpecial(s: string)
    requires s != [] && AllDigits(s)
    ensures !IsJsWhitespace(s[0]) && !IsJsWhitespace(s[|s| - 1])
    ensures s[0] != '-' && s[0] != '+'
    ensures ParseUnsignedDecimal(s) == Some(DigitsValue(s) as real)
  {
    assert IsAsciiDigit(s[0]) && IsAsciiDigit(s[|s| - 1]);
    forall i | 0 <= i < |s| ensures s[i] != '.' {
      assert IsAsciiDigit(s[i]);
    }
  }

  /** ---------------- issues ---------------- */

  datatype PathPart = Key(key: string) | Index(index: nat)

  /** What a check reports; the schema's own messages are `Custom`. */
  datatype IssueKind =
    | Custom(message: string)
    | Required
    | InvalidType(expected: string, received: string)
    | InvalidEnumValue(received: string)
    | TooSmall
    | TooBig

  function Message(k: IssueKind): string {
    match k
    case Custom(m) => m
    case Required => "Required"
    case InvalidType(e, r) => "Expected " + e + ", received " + r
    case InvalidEnumValue(r) => "Invalid enum value, received '" + r + "'"
    case TooSmall => "Number must be greater than or equal to 0"
    case TooBig => "Number must be less than or equal to 100"
  }

  function TypeName(v: Value): string {
    match v
    case Undefined => "undefined"
    case Null => "null"
    case Str(_) => "string"
    case Num(_) => "number"
    case Bool(_) => "boolean"
    case List(_) => "array"
  }

  /** An issue within one field: `element` is the array index for a
      multi-select's element. */
  datatype FieldIssue = FieldIssue(element: Option<nat>, kind: IssueKind)

  /** An issue of the whole form, with its path from the root. */
  datatype Issue = Issue(path: seq<PathPart>, kind: IssueKind)

  /** ---------------- field rules ---------------- */

  function One(kind: IssueKind): seq<FieldIssue> { [FieldIssue(None, kind)] }

  /** A value that is not a string: "Required" when missing, else a type
      issue. */
  function NotAString(v: Value): (r: seq<FieldIssue>)
    ensures |r| == 1 && r[0].element.None?
    ensures r[0].kind == Required <==> v.Undefined?
  {
    if v.Undefined? then One(Required) else One(InvalidType("string", TypeName(v)))
  }

  /** `z.string().trim().min(minLength, message)`: a string, trimmed, at
      least `minLength` long after trimming. */
  function ParseRequiredText(v: Value, minLength: nat, message: string): (r: Result<Value, seq<FieldIssue>>)
    ensures r.Ok? <==> v.Str? && |Trim(v.s)| >= minLength
    ensures r.Ok? ==> r.value == Str(Trim(v.s))
    ensures r.Err? && v.Str? ==> r.error == One(Custom(message))
    ensures r.Err? && !v.Str? ==> r.error == NotAString(v)
  {
    if !v.Str? then Err(NotAString(v))
    else
      var t := Trim(v.s);
      if |t| < minLength then Err(One(Custom(message))) else Ok(Str(t))
  }

  /** `z.string().trim().email(message)`. */
  function ParseRequiredEmail(v: Value, message: string): (r: Result<Value, seq<FieldIssue>>)
    ensures r.Ok? <==> v.Str? && WellFormedEmail(Trim(v.s))
    ensures r.Ok? ==> r.value == Str(Trim(v.s))
    ensures r.Err? && v.Str? ==> r.error == One(Custom(message))
    ensures r.Err? && !v.Str? ==> r.error == NotAString(v)
  {
    if !v.Str? then Err(NotAString(v))
    else
      var t := Trim(v.s);
      if !WellFormedEmail(t) then Err(One(Custom(message))) else Ok(Str(t))
  }

  /** `optionalString`: "", null and undefined are absent; any other string
      is trimmed, so whitespace-only text becomes "" and not absent; anything
      else is "Must be text". */
  function ParseOptionalText(v: Value): (r: Result<Value, seq<FieldIssue>>)
    ensures r.Ok? <==> EmptyToUndefined(v).Undefined? || v.Str?
    ensures r.Ok? ==> r.value == (if EmptyToUndefined(v).Undefined? then Undefined else Str(Trim(v.s)))
    ensures r.Err? ==> r.error == One(Custom(MustBeText))
  {
    var p := EmptyToUndefined(v);
    if p.Undefined? then Ok(Undefined)
    else if !p.Str? then Err(One(Custom(MustBeText)))
    else Ok(Str(Trim(p.s)))
  }

  /** `optionalUrl`: like `optionalString`, and a present value must be a
      URL once trimmed. */
  function ParseOptionalUrl(v: Value): (r: Result<Value, seq<FieldIssue>>)
    ensures r.Ok? <==> EmptyToUndefined(v).Undefined? || (v.Str? && WellFormedUrl(Trim(v.s)))
    ensures r.Ok? ==> r.value == (if EmptyToUndefined(v).Undefined? then Undefined else Str(Trim(v.s)))
    ensures r.Err? ==> r.error == One(Custom(if v.Str? then MustBeValidUrl else MustBeUrl))
  {
    var p := EmptyToUndefined(v);
    if p.Undefined? then Ok(Undefined)
    else if !p.Str? then Err(One(Custom(MustBeUrl)))
    else
      var t := Trim(p.s);
      if !WellFormedUrl(t) then Err(One(Custom(MustBeValidUrl))) else Ok(Str(t))
  }

  /** One enum check: a string among the options passes, else one issue. */
  function ChoiceIssues(v: Value, options: seq<string>): (r: seq<IssueKind>)
    ensures r == [] <==> v.Str? && v.s in options
    ensures |r| <= 1
    ensures r != [] ==> (r[0] == Required <==> v.Undefined?)
  {
    if v.Undefined? then [Required]
    else if !v.Str? then [InvalidType("enum", TypeName(v))]
    else if v.s in options then []
    else [InvalidEnumValue(v.s)]
  }

  function Lift(kinds: seq<IssueKind>): (r: seq<FieldIssue>)
    ensures |r| == |kinds|
    ensures forall k :: 0 <= k < |r| ==> r[k] == FieldIssue(None, kinds[k])
  {
    if kinds == [] then [] else [FieldIssue(None, kinds[0])] + Lift(kinds[1..])
  }

  /** `z.enum(options)`, or `optionalEnum(options)` when `optional`: one of
      the options, unchanged; the optional form also takes "", null and
      undefined as absent. */
  function ParseChoice(v: Value, options: seq<string>, optional: bool): (r: Result<Value, seq<FieldIssue>>)
    ensures r.Ok? <==> (optional && EmptyToUndefined(v).Undefined?) || (v.Str? && v.s in options)
    ensures r.Ok? ==> r.value == (if optional && EmptyToUndefined(v).Undefined? then Undefined else v)
    ensures r.Err? ==> |r.error| == 1 && r.error[0].element.None?
  {
    var p := if optional then EmptyToUndefined(v) else v;
    if optional && p.Undefined? then Ok(Undefined)
    else
      var issues := ChoiceIssues(p, options);
      if issues == [] then Ok(p) else Err(Lift(issues))
  }

  /** One of an enum's options. */
  predicate IsOption(v: Value, options: seq<string>) {
    v.Str? && v.s in options
  }

  /** The issues of a multi-select's elements from index `from` on, one
      for each element that is not an option. */
  function ElementIssues(items: seq<Value>, options: seq<string>, from: nat): (r: seq<FieldIssue>)
    requires from <= |items|
    ensures r == [] <==> forall i :: from <= i < |items| ==> IsOption(items[i], options)
    decreases |items| - from
  {
    if from == |items| then []
    else
      var here := ChoiceIssues(items[from], options);
      var rest := ElementIssues(items, options, from + 1);
      assert here == [] <==> IsOption(items[from], options);
      (if here == [] then [] else [FieldIssue(Some(from), here[0])]) + rest
  }

  /** An issue at the index, from `from` on, of an element that is not an
      option. */
  predicate AtBadElement(issue: FieldIssue, items: seq<Value>, options: seq<string>, from: nat) {
    issue.element.Some? && from <= issue.element.value < |items| && !IsOption(items[issue.element.value], options)
  }

  /** Each element issue carries the index of an element that is not an
      option. */
  lemma {:induction false} ElementIssuesAtBadElements(items: seq<Value>, options: seq<string>, from: nat)
    requires from <= |items|
    ensures forall k :: 0 <= k < |ElementIssues(items, options, from)| ==>
              AtBadElement(ElementIssues(items, options, from)[k], items, options, from)
    decreases |items| - from
  {
    if from < |items| {
      var here := ChoiceIssues(items[from], options);
      var rest := ElementIssues(items, options, from + 1);
      ElementIssuesAtBadElements(items, options, from + 1);
      var own: seq<FieldIssue> := if here == [] then [] else [FieldIssue(Some(from), here[0])];
      var r := own + rest;
      assert ElementIssues(items, options, from) == r;
      forall k | 0 <= k < |r|
        ensures AtBadElement(r[k], items, options, from)
      {
        if k < |own| {
          assert r[k] == FieldIssue(Some(from), here[0]);
        } else {
          assert r[k] == rest[k - |own|];
          assert AtBadElement(rest[k - |own|], items, options, from + 1);
        }
      }
    }
  }

  /** `z.array(z.enum(options)).min(1, message)`: a non-empty list of
      options, unchanged; an empty list fails with `message` (it has no
      elements to report), and each bad element is reported at its index. */
  function ParseMultiChoice(v: Value, options: seq<string>, message: string): (r: Result<Value, seq<FieldIssue>>)
    ensures r.Ok? <==> v.List? && |v.items| >= 1
                       && forall i :: 0 <= i < |v.items| ==> v.items[i].Str? && v.items[i].s in options
    ensures r.Ok? ==> r.value == v
    ensures v == List([]) ==> r == Err(One(Custom(message)))
    ensures r.Err? && v.List? ==> forall k :: 0 <= k < |r.error| ==>
              r.error[k] == FieldIssue(None, Custom(message)) || r.error[k].element.Some?
  {
    if v.Undefined? then Err(One(Required))
    else if !v.List? then Err(One(InvalidType("array", TypeName(v))))
    else
      var elementIssues := ElementIssues(v.items, options, 0);
      ElementIssuesAtBadElements(v.items, options, 0);
      if v.items == [] then Err(One(Custom(message)))
      else if elementIssues == [] then Ok(v)
      else Err(elementIssues)
  }

  /** The checks of `.int().min(0)`, both made. A fraction fails `.int()`
      with an `invalid_type` issue, which the schema's `invalid_type_error`
      words as "Must be a number"; `.min(0)` keeps zod's own wording. */
  function WholeNumberIssues(x: real): (r: seq<IssueKind>)
    ensures r == [] <==> IsInteger(x) && x >= 0.0
    ensures Custom(MustBeNumber) in r <==> !IsInteger(x)
    ensures TooSmall in r <==> x < 0.0
  {
    (if IsInteger(x) then [] else [Custom(MustBeNumber)]) + (if x >= 0.0 then [] else [TooSmall])
  }

  /** The checks of `.min(0).max(100)`. */
  function PercentageIssues(x: real): (r: seq<IssueKind>)
    ensures r == [] <==> 0.0 <= x <= 100.0
  {
    (if x >= 0.0 then [] else [TooSmall]) + (if x <= 100.0 then [] else [TooBig])
  }

  /** `requiredPositiveInteger`, or `optionalPositiveInteger` when
      `optional`: the value coerced by `Number`, which must be a whole
      number >= 0. The optional form takes "", null and undefined as
      absent; the required one coerces undefined to NaN and reports
      "Must be a number". */
  function ParseWholeNumber(v: Value, optional: bool): (r: Result<Value, seq<FieldIssue>>)
    ensures r.Ok? <==> (optional && EmptyToUndefined(v).Undefined?)
                       || (ToNumber(EmptyToUndefined(v)).Some? && IsInteger(ToNumber(EmptyToUndefined(v)).value)
                           && ToNumber(EmptyToUndefined(v)).value >= 0.0)
    ensures r.Ok? ==> r.value == (if optional && EmptyToUndefined(v).Undefined? then Undefined
                                  else Num(ToNumber(EmptyToUndefined(v)).value))
    ensures r.Err? && ToNumber(EmptyToUndefined(v)).None? ==> r.error == One(Custom(MustBeNumber))
  {
    var p := EmptyToUndefined(v);
    if optional && p.Undefined? then Ok(Undefined)
    else
      match ToNumber(p)
      case None => Err(One(Custom(MustBeNumber)))
      case Some(x) =>
        var issues := WholeNumberIssues(x);
        if issues == [] then Ok(Num(x)) else Err(Lift(issues))
  }

  /** `percentageSchema`: absent for "", null and undefined, else the value
      coerced by `Number`, within [0, 100], fractions allowed. */
  function ParsePercentage(v: Value): (r: Result<Value, seq<FieldIssue>>)
    ensures r.Ok? <==> EmptyToUndefined(v).Undefined?
                       || (ToNumber(EmptyToUndefined(v)).Some? && 0.0 <= ToNumber(EmptyToUndefined(v)).value <= 100.0)
    ensures r.Ok? ==> r.value == (if EmptyToUndefined(v).Undefined? then Undefined
                                  else Num(ToNumber(EmptyToUndefined(v)).value))
    ensures r.Err? && ToNumber(EmptyToUndefined(v)).None? ==> r.error == One(Custom(MustBePercentage))
  {
    var p := EmptyToUndefined(v);
    if p.Undefined? then Ok(Undefined)
    else
      match ToNumber(p)
      case None => Err(One(Custom(MustBePercentage)))
      case Some(x) =>
        var issues := PercentageIssues(x);
        if issues == [] then Ok(Num(x)) else Err(Lift(issues))
  }

  /** The field combinators of the schema. */
  datatype FieldRule =
    | RequiredText(minLength: nat, message: string)
    | RequiredEmail(message: string)
    | OptionalText
    | OptionalUrl
    | OptionalChoice(options: seq<string>)
    | RequiredChoice(options: seq<string>)
    | MultiChoice(options: seq<string>, message: string)
    | WholeNumber(optional: bool)
    | Percentage

  /** A rule that is not wrapped in `.optional()`. */
  predicate IsRequired(rule: FieldRule) {
    match rule
    case RequiredText(_, _) => true
    case RequiredEmail(_) => true
    case RequiredChoice(_) => true
    case MultiChoice(_, _) => true
    case WholeNumber(optional) => !optional
    case _ => false
  }

  /** Parsing one field's raw value by its rule: the output value
      (undefined for an absent optional field) or every issue found. */
  function ParseField(rule: FieldRule, v: Value): (r: Result<Value, seq<FieldIssue>>)
    ensures r.Err? ==> r.error != []
  {
    match rule
    case RequiredText(minLength, message) => ParseRequiredText(v, minLength, message)
    case RequiredEmail(message) => ParseRequiredEmail(v, message)
    case OptionalText => ParseOptionalText(v)
    case OptionalUrl => ParseOptionalUrl(v)
    case OptionalChoice(options) => ParseChoice(v, options, true)
    case RequiredChoice(options) => ParseChoice(v, options, false)
    case MultiChoice(options, message) => ParseMultiChoice(v, options, message)
    case WholeNumber(optional) => ParseWholeNumber(v, optional)
    case Percentage => ParsePercentage(v)
  }

  /** A missing value is accepted exactly by the optional rules, and stays
      missing. */
  lemma {:induction false} MissingAcceptedIffOptional(rule: FieldRule)
    ensures ParseField(rule, Undefined).Ok? <==> !IsRequired(rule)
    ensures ParseField(rule, Undefined).Ok? ==> ParseField(rule, Undefined).value == Undefined
  {
    match rule
    case RequiredText(_, _) =>
    case RequiredEmail(_) =>
    case OptionalText =>
    case OptionalUrl =>
    case OptionalChoice(_) =>
    case RequiredChoice(_) =>
    case MultiChoice(_, _) =>
    case WholeNumber(optional) =>
      assert ToNumber(Undefined).None?;
    case Percentage =>
  }

  lemma {:induction false} RequiredTextStable(v: Value, minLength: nat, message: string)
    requires ParseRequiredText(v, minLength, message).Ok?
    ensures var out := ParseRequiredText(v, minLength, message).value;
      ParseRequiredText(out, minLength, message) == Ok(out)
  {
    TrimIdempotent(v.s);
  }

  lemma {:induction false} RequiredEmailStable(v: Value, message: string)
    requires ParseRequiredEmail(v, message).Ok?
    ensures var out := ParseRequiredEmail(v, message).value;
      ParseRequiredEmail(out, message) == Ok(out)
  {
    TrimIdempotent(v.s);
  }

  lemma {:induction false} OptionalTextStable(v: Value)
    requires ParseOptionalText(v).Ok?
    ensures var out := ParseOptionalText(v).value;
      out == Str("") ==> ParseOptionalText(out) == Ok(Undefined)
    ensures var out := ParseOptionalText(v).value;
      out != Str("") ==> ParseOptionalText(out) == Ok(out)
  {
    if v.Str? { TrimIdempotent(v.s); }
  }

  lemma {:induction false} OptionalUrlStable(v: Value)
    requires ParseOptionalUrl(v).Ok?
    ensures var out := ParseOptionalUrl(v).value;
      out == Str("") ==> ParseOptionalUrl(out) == Ok(Undefined)
    ensures var out := ParseOptionalUrl(v).value;
      out != Str("") ==> ParseOptionalUrl(out) == Ok(out)
  {
    if v.Str? { TrimIdempotent(v.s); }
  }

  lemma {:induction false} ChoiceStable(v: Value, options: seq<string>, optional: bool)
    requires ParseChoice(v, options, optional).Ok?
    ensures var out := ParseChoice(v, options, optional).value;
      ParseChoice(out, options, optional) == Ok(out)
  {
  }

  lemma {:induction false} NumberStable(v: Value, optional: bool)
    requires ParseWholeNumber(v, optional).Ok?
    ensures var out := ParseWholeNumber(v, optional).value;
      ParseWholeNumber(out, optional) == Ok(out)
  {
  }

  lemma {:induction false} PercentageStable(v: Value)
    requires ParsePercentage(v).Ok?
    ensures var out := ParsePercentage(v).value;
      ParsePercentage(out) == Ok(out)
  {
  }

  /** Parsing what a field parsed to accepts it again and gives it back,
      except that an optional field's "" (from whitespace-only input) turns
      absent on the second pass. */
  lemma {:induction false} ParseFieldIdempotent(rule: FieldRule, v: Value)
    requires ParseField(rule, v).Ok?
    ensures var out := ParseField(rule, v).value;
      out != Str("") || IsRequired(rule) ==> ParseField(rule, out) == Ok(out)
    ensures var out := ParseField(rule, v).value;
      out == Str("") && !IsRequired(rule) ==> ParseField(rule, out) == Ok(Undefined)
  {
    var out := ParseField(rule, v).value;
    match rule {
      case RequiredText(minLength, message) =>
        RequiredTextStable(v, minLength, message);
        assert ParseField(rule, out) == ParseRequiredText(out, minLength, message);
      case RequiredEmail(message) =>
        RequiredEmailStable(v, message);
        assert ParseField(rule, out) == ParseRequiredEmail(out, message);
      case OptionalText =>
        OptionalTextStable(v);
        assert ParseField(rule, out) == ParseOptionalText(out);
      case OptionalUrl =>
        OptionalUrlStable(v);
        assert ParseField(rule, out) == ParseOptionalUrl(out);
      case OptionalChoice(options) =>
        ChoiceStable(v, options, true);
        assert ParseField(rule, out) == ParseChoice(out, options, true);
      case RequiredChoice(options) =>
        ChoiceStable(v, options, false);
        assert ParseField(rule, out) == ParseChoice(out, options, false);
      case MultiChoice(options, message) =>
        assert ParseField(rule, out) == ParseMultiChoice(out, options, message);
      case WholeNumber(optional) =>
        NumberStable(v, optional);
        assert ParseField(rule, out) == ParseWholeNumber(out, optional);
      case Percentage =>
        PercentageStable(v);
        assert ParseField(rule, out) == ParsePercentage(out);
    }
  }

  /** ---------------- the schema ---------------- */

  datatype FieldSpec = FieldSpec(name: string, rule: FieldRule)
  datatype SectionSpec = SectionSpec(id: string, fields: seq<FieldSpec>)

  /** `applicationFormSchema`, section by section and field by field. */
  const ApplicantSpec: SectionSpec := SectionSpec("applicant", [
    FieldSpec("fullName", RequiredText(1, "Full name is required")),
    FieldSpec("email", RequiredEmail("Provide a valid email")),
    FieldSpec("phoneNumber", OptionalText),
    FieldSpec("locationCity", OptionalText),
    FieldSpec("locationCountry", RequiredText(1, "Country is required")),
    FieldSpec("timezone", RequiredText(1, "Timezone is required")),
    FieldSpec("portfolioUrl", OptionalUrl),
    FieldSpec("referralSource", OptionalChoice(ReferralSourceOptions))])
  const BrandSpec: SectionSpec := SectionSpec("brand", [
    FieldSpec("brandName", OptionalText),
    FieldSpec("brandWebsite", OptionalUrl),
    FieldSpec("industry", RequiredText(1, "Industry is required")),
    FieldSpec("brandStage", OptionalChoice(BrandStageOptions)),
    FieldSpec("brandDescription", OptionalText)])
  const SocialSpec: SectionSpec := SectionSpec("social", [
    FieldSpec("instagramHandle", OptionalText),
    FieldSpec("instagramFollowers", WholeNumber(true)),
    FieldSpec("youtubeChannelUrl", OptionalUrl),
    FieldSpec("youtubeSubscribers", WholeNumber(true)),
    FieldSpec("tiktokHandle", OptionalText),
    FieldSpec("tiktokFollowers", WholeNumber(true)),
    FieldSpec("newsletterSubscribers", WholeNumber(true)),
    FieldSpec("otherAudienceChannels", OptionalText)])
  const AudienceSpec: SectionSpec := SectionSpec("audience", [
    FieldSpec("primaryPlatform", RequiredChoice(PrimaryPlatformOptions)),
    FieldSpec("contentTypes", MultiChoice(ContentTypeOptions, "Select at least one content type")),
    FieldSpec("audienceSize", WholeNumber(false)),
    FieldSpec("audienceRegions", OptionalText),
    FieldSpec("audienceAgeBrackets", OptionalText),
    FieldSpec("audienceGenderSplit", Percentage),
    FieldSpec("engagementRate", Percentage)])
  const ContentSpec: SectionSpec := SectionSpec("content", [
    FieldSpec("averageMonthlyContent", WholeNumber(true)),
    FieldSpec("collaborationHistory", OptionalText),
    FieldSpec("brandSafetyConsiderations", OptionalText),
    FieldSpec("toolsAndSoftware", OptionalText),
    FieldSpec("languages", OptionalText)])
  const GoalsSpec: SectionSpec := SectionSpec("goals", [
    FieldSpec("shortTermGoals", RequiredText(10, "Share at least one short-term goal")),
    FieldSpec("longTermGoals", OptionalText),
    FieldSpec("collaborationPreferences",
              MultiChoice(CollaborationPreferenceOptions, "Select at least one collaboration preference")),
    FieldSpec("preferredBrands", OptionalText)])
  const LogisticsSpec: SectionSpec := SectionSpec("logistics", [
    FieldSpec("availabilityStartDate", RequiredText(1, "Availability date required")),
    FieldSpec("decisionTimeline", OptionalChoice(DecisionTimelineOptions)),
    FieldSpec("budgetRange", OptionalText),
    FieldSpec("preferredContactMethod", OptionalChoice(ContactMethodOptions)),
    FieldSpec("additionalNotes", OptionalText)])

  const Schema: seq<SectionSpec> := [ApplicantSpec, BrandSpec, SocialSpec, AudienceSpec, ContentSpec, GoalsSpec, LogisticsSpec]

  /** A submission: each section's raw values by field name. A missing key
      reads as undefined. */
  type Section = map<string, Value>
  type FormData = map<string, Section>

  function Lookup(data: Section, name: string): Value {
    if name in data then data[name] else Undefined
  }

  /** A field parser: the raw value of a field, parsed by its rule. The
      walkers below work for any parser that reports at least one issue
      whenever it fails; the application form's is `ParseField`. */
  type FieldParser = (FieldRule, Value) -> Result<Value, seq<FieldIssue>>

  ghost predicate ReportsIssues(parse: FieldParser) {
    forall rule, v :: parse(rule, v).Err? ==> parse(rule, v).error != []
  }

  /** Where a field's issue lies: under the section and the field, and
      under the element's index for an element of a multi-select. */
  function IssuePath(sectionId: string, name: string, issue: FieldIssue): (r: seq<PathPart>)
    ensures |r| >= 2 && r[..2] == [Key(sectionId), Key(name)]
  {
    [Key(sectionId), Key(name)] + (if issue.element.Some? then [Index(issue.element.value)] else [])
  }

  /** A field's issues, each placed at its full path. */
  function AtPaths(sectionId: string, name: string, issues: seq<FieldIssue>): (r: seq<Issue>)
    ensures |r| == |issues|
    ensures forall k :: 0 <= k < |r| ==> r[k] == Issue(IssuePath(sectionId, name, issues[k]), issues[k].kind)
  {
    if issues == [] then []
    else [Issue(IssuePath(sectionId, name, issues[0]), issues[0].kind)] + AtPaths(sectionId, name, issues[1..])
  }

  /** A field's issues with their full paths. */
  function FieldPathIssues(parse: FieldParser, sectionId: string, f: FieldSpec, data: Section): (r: seq<Issue>)
    requires ReportsIssues(parse)
    ensures r == [] <==> parse(f.rule, Lookup(data, f.name)).Ok?
    ensures forall k :: 0 <= k < |r| ==> |r[k].path| >= 2 && r[k].path[..2] == [Key(sectionId), Key(f.name)]
  {
    match parse(f.rule, Lookup(data, f.name))
    case Ok(_) => []
    case Err(issues) => AtPaths(sectionId, f.name, issues)
  }

  /** The issues of `fields` from index `from` on, in field order. */
  function FieldsIssues(parse: FieldParser, sectionId: string, fields: seq<FieldSpec>, data: Section, from: nat)
    : (r: seq<Issue>)
    requires ReportsIssues(parse) && from <= |fields|
    ensures r == [] <==> forall i :: from <= i < |fields| ==> parse(fields[i].rule, Lookup(data, fields[i].name)).Ok?
    decreases |fields| - from
  {
    if from == |fields| then []
    else FieldPathIssues(parse, sectionId, fields[from], data) + FieldsIssues(parse, sectionId, fields, data, from + 1)
  }

  /** A field that fails, from index `from` on, with the name `name`. */
  predicate FailsUnder(parse: FieldParser, fields: seq<FieldSpec>, data: Section, from: nat, name: string) {
    exists i :: from <= i < |fields| && fields[i].name == name && parse(fields[i].rule, Lookup(data, fields[i].name)).Err?
  }

  /** An issue under the section's key and then the name of a field, from
      index `from` on, that fails. */
  predicate UnderFailingField(issue: Issue, parse: FieldParser, sectionId: string, fields: seq<FieldSpec>, data: Section,
                              from: nat) {
    && |issue.path| >= 2 && issue.path[0] == Key(sectionId) && issue.path[1].Key?
    && FailsUnder(parse, fields, data, from, issue.path[1].key)
  }

  /** The issue at index `k` of a section's field issues lies under the
      section and under the name of a field that failed. */
  lemma {:induction false} FieldIssueAt(parse: FieldParser, sectionId: string, fields: seq<FieldSpec>, data: Section,
                                        from: nat, k: nat)
    requires ReportsIssues(parse) && from <= |fields| && k < |FieldsIssues(parse, sectionId, fields, data, from)|
    ensures UnderFailingField(FieldsIssues(parse, sectionId, fields, data, from)[k], parse, sectionId, fields, data, from)
    decreases |fields| - from
  {
    assert from < |fields|;
    var here := FieldPathIssues(parse, sectionId, fields[from], data);
    var rest := FieldsIssues(parse, sectionId, fields, data, from + 1);
    var r: seq<Issue> := here + rest;
    assert FieldsIssues(parse, sectionId, fields, data, from) == r;
    if k < |here| {
      assert r[k] == here[k];
      assert here[k].path[..2] == [Key(sectionId), Key(fields[from].name)];
      assert here[k].path[1] == Key(fields[from].name);
      assert parse(fields[from].rule, Lookup(data, fields[from].name)).Err?;
    } else {
      var j := k - |here|;
      assert r[k] == rest[j];
      FieldIssueAt(parse, sectionId, fields, data, from + 1, j);
      var i :| from + 1 <= i < |fields| && fields[i].name == rest[j].path[1].key
               && parse(fields[i].rule, Lookup(data, fields[i].name)).Err?;
    }
  }

  /** Every issue of a section's fields lies under the section and under
      the name of a field that failed. */
  lemma FieldsIssuesUnderFields(parse: FieldParser, sectionId: string, fields: seq<FieldSpec>, data: Section, from: nat)
    requires ReportsIssues(parse) && from <= |fields|
    ensures forall k :: 0 <= k < |FieldsIssues(parse, sectionId, fields, data, from)| ==>
              UnderFailingField(FieldsIssues(parse, sectionId, fields, data, from)[k], parse, sectionId, fields, data, from)
  {
    forall k | 0 <= k < |FieldsIssues(parse, sectionId, fields, data, from)|
      ensures UnderFailingField(FieldsIssues(parse, sectionId, fields, data, from)[k], parse, sectionId, fields, data, from)
    {
      FieldIssueAt(parse, sectionId, fields, data, from, k);
    }
  }

  /** A section's issues: "Required" at the section when it is missing,
      else its fields' issues. */
  function SectionIssues(parse: FieldParser, spec: SectionSpec, form: FormData): (r: seq<Issue>)
    requires ReportsIssues(parse)
    ensures r == [] <==> SectionValid(parse, spec, form)
  {
    if spec.id !in form then [Issue([Key(spec.id)], Required)]
    else FieldsIssues(parse, spec.id, spec.fields, form[spec.id], 0)
  }

  /** Every issue of a section lies under its key. */
  lemma SectionIssuesUnderSection(parse: FieldParser, spec: SectionSpec, form: FormData)
    requires ReportsIssues(parse)
    ensures forall k :: 0 <= k < |SectionIssues(parse, spec, form)| ==>
              |SectionIssues(parse, spec, form)[k].path| >= 1 && SectionIssues(parse, spec, form)[k].path[0] == Key(spec.id)
  {
    if spec.id in form {
      FieldsIssuesUnderFields(parse, spec.id, spec.fields, form[spec.id], 0);
    }
  }

  predicate SectionValid(parse: FieldParser, spec: SectionSpec, form: FormData) {
    spec.id in form
    && forall i :: 0 <= i < |spec.fields| ==>
         parse(spec.fields[i].rule, Lookup(form[spec.id], spec.fields[i].name)).Ok?
  }

  function SectionsIssues(parse: FieldParser, sections: seq<SectionSpec>, form: FormData, from: nat): (r: seq<Issue>)
    requires ReportsIssues(parse) && from <= |sections|
    ensures r == [] <==> SectionsValid(parse, sections, form, from)
    decreases |sections| - from
  {
    if from == |sections| then []
    else
      assert SectionsValid(parse, sections, form, from)
             <==> SectionValid(parse, sections[from], form) && SectionsValid(parse, sections, form, from + 1);
      SectionIssues(parse, sections[from], form) + SectionsIssues(parse, sections, form, from + 1)
  }

  /** Some section from index `from` on has the id `id`. */
  predicate HasId(sections: seq<SectionSpec>, from: nat, id: string) {
    exists s :: from <= s < |sections| && sections[s].id == id
  }

  /** An issue whose path starts at the key of a section from `from` on. */
  predicate UnderSection(issue: Issue, sections: seq<SectionSpec>, from: nat) {
    |issue.path| >= 1 && issue.path[0].Key? && HasId(sections, from, issue.path[0].key)
  }

  /** Every issue of a form lies under one of its sections' keys. */
  lemma {:induction false} SectionsIssuesUnderSections(parse: FieldParser, sections: seq<SectionSpec>, form: FormData, from: nat)
    requires ReportsIssues(parse) && from <= |sections|
    ensures forall k :: 0 <= k < |SectionsIssues(parse, sections, form, from)| ==>
              UnderSection(SectionsIssues(parse, sections, form, from)[k], sections, from)
    decreases |sections| - from
  {
    if from < |sections| {
      var here := SectionIssues(parse, sections[from], form);
      var rest := SectionsIssues(parse, sections, form, from + 1);
      SectionIssuesUnderSection(parse, sections[from], form);
      SectionsIssuesUnderSections(parse, sections, form, from + 1);
      var r: seq<Issue> := here + rest;
      assert SectionsIssues(parse, sections, form, from) == r;
      forall k | 0 <= k < |r|
        ensures UnderSection(r[k], sections, from)
      {
        if k < |here| {
          assert r[k] == here[k];
          assert here[k].path[0] == Key(sections[from].id);
        } else {
          var j := k - |here|;
          assert r[k] == rest[j];
          assert UnderSection(rest[j], sections, from + 1);
          var s :| from + 1 <= s < |sections| && sections[s].id == rest[j].path[0].key;
        }
      }
    }
  }

  /** No field before `i` (from `from` on) shares field `i`'s name. */
  predicate FirstOfName(fields: seq<FieldSpec>, from: nat, i: nat)
    requires i < |fields|
  {
    forall j :: from <= j < i ==> fields[j].name != fields[i].name
  }

  /** A parsed section: each field's output under its name; keys the
      schema does not name are dropped. */
  function ParsedFields(parse: FieldParser, fields: seq<FieldSpec>, data: Section, from: nat): (r: Section)
    requires from <= |fields|
    requires forall i :: from <= i < |fields| ==> parse(fields[i].rule, Lookup(data, fields[i].name)).Ok?
    decreases |fields| - from
  {
    if from == |fields| then map[]
    else ParsedFields(parse, fields, data, from + 1)[fields[from].name := parse(fields[from].rule, Lookup(data, fields[from].name)).value]
  }

  /** The parsed section's keys are exactly the names of the fields. */
  lemma {:induction false} ParsedFieldsKeys(parse: FieldParser, fields: seq<FieldSpec>, data: Section, from: nat)
    requires from <= |fields|
    requires forall i :: from <= i < |fields| ==> parse(fields[i].rule, Lookup(data, fields[i].name)).Ok?
    ensures forall name :: name in ParsedFields(parse, fields, data, from) <==> exists i :: from <= i < |fields| && fields[i].name == name
    decreases |fields| - from
  {
    if from < |fields| {
      ParsedFieldsKeys(parse, fields, data, from + 1);
    }
  }

  /** A field's key in the parsed section holds its parsed value (the
      first field of that name wins). */
  lemma {:induction false} ParsedFieldAt(parse: FieldParser, fields: seq<FieldSpec>, data: Section, from: nat, i: nat)
    requires from <= i < |fields|
    requires forall j :: from <= j < |fields| ==> parse(fields[j].rule, Lookup(data, fields[j].name)).Ok?
    requires FirstOfName(fields, from, i)
    ensures fields[i].name in ParsedFields(parse, fields, data, from)
    ensures ParsedFields(parse, fields, data, from)[fields[i].name] == parse(fields[i].rule, Lookup(data, fields[i].name)).value
    decreases |fields| - from
  {
    if i > from {
      assert fields[from].name != fields[i].name;
      ParsedFieldAt(parse, fields, data, from + 1, i);
    }
  }

  predicate SectionsValid(parse: FieldParser, sections: seq<SectionSpec>, form: FormData, from: nat)
    requires from <= |sections|
  {
    forall s :: from <= s < |sections| ==> SectionValid(parse, sections[s], form)
  }

  /** No section before `s` (from `from` on) shares section `s`'s id. */
  predicate FirstOfId(sections: seq<SectionSpec>, from: nat, s: nat)
    requires s < |sections|
  {
    forall t :: from <= t < s ==> sections[t].id != sections[s].id
  }

  /** The parsed form: each section's parsed fields under its id. */
  function ParsedSections(parse: FieldParser, sections: seq<SectionSpec>, form: FormData, from: nat): (r: FormData)
    requires from <= |sections| && SectionsValid(parse, sections, form, from)
    decreases |sections| - from
  {
    if from == |sections| then map[]
    else ParsedSections(parse, sections, form, from + 1)[sections[from].id := ParsedFields(parse, sections[from].fields, form[sections[from].id], 0)]
  }

  /** The parsed form's keys are exactly the ids of the sections. */
  lemma {:induction false} ParsedSectionsKeys(parse: FieldParser, sections: seq<SectionSpec>, form: FormData, from: nat)
    requires from <= |sections| && SectionsValid(parse, sections, form, from)
    ensures forall id :: id in ParsedSections(parse, sections, form, from) <==> HasId(sections, from, id)
    decreases |sections| - from
  {
    if from < |sections| {
      ParsedSectionsKeys(parse, sections, form, from + 1);
    }
  }

  /** A section's key in the parsed form holds its parsed fields (the
      first section of that id wins). */
  lemma {:induction false} ParsedSectionAt(parse: FieldParser, sections: seq<SectionSpec>, form: FormData, from: nat, s: nat)
    requires from <= s < |sections| && SectionsValid(parse, sections, form, from)
    requires FirstOfId(sections, from, s)
    ensures sections[s].id in ParsedSections(parse, sections, form, from)
    ensures sections[s].id in form && SectionValid(parse, sections[s], form)
    ensures ParsedSections(parse, sections, form, from)[sections[s].id]
            == ParsedFields(parse, sections[s].fields, form[sections[s].id], 0)
    decreases |sections| - from
  {
    assert SectionValid(parse, sections[s], form);
    var here := ParsedFields(parse, sections[from].fields, form[sections[from].id], 0);
    var all := ParsedSections(parse, sections, form, from);
    if s == from {
      assert all == ParsedSections(parse, sections, form, from + 1)[sections[from].id := here];
    } else {
      assert sections[from].id != sections[s].id;
      assert SectionsValid(parse, sections, form, from + 1);
      assert FirstOfId(sections, from + 1, s);
      ParsedSectionAt(parse, sections, form, from + 1, s);
      var rest := ParsedSections(parse, sections, form, from + 1);
      assert all == rest[sections[from].id := here];
      assert all[sections[s].id] == rest[sections[s].id];
    }
  }

  predicate DistinctIds(sections: seq<SectionSpec>) {
    forall s, t :: 0 <= t < s < |sections| ==> sections[t].id != sections[s].id
  }

  lemma SchemaIdsDistinct()
    ensures DistinctIds(Schema)
  {
    assert Schema[0].id[1] != Schema[3].id[1];
  }

  /** `safeParse` of an object of sections: success exactly when every
      section is present and every field passes its rule, with the
      sections' ids as keys and nothing else; otherwise every issue, each
      under one of the sections. */
  function ParseForm(parse: FieldParser, sections: seq<SectionSpec>, form: FormData): (r: Result<FormData, seq<Issue>>)
    requires ReportsIssues(parse) && DistinctIds(sections)
    ensures r.Ok? <==> SectionsValid(parse, sections, form, 0)
    ensures r.Ok? ==> forall id :: id in r.value <==> HasId(sections, 0, id)
    ensures r.Err? ==> r.error != []
    ensures r.Err? ==> forall k :: 0 <= k < |r.error| ==> UnderSection(r.error[k], sections, 0)
  {
    var issues := SectionsIssues(parse, sections, form, 0);
    SectionsIssuesUnderSections(parse, sections, form, 0);
    if issues == [] then ParsedSectionsKeys(parse, sections, form, 0); Ok(ParsedSections(parse, sections, form, 0))
    else Err(issues)
  }

  /** The schema's field parser fails only with issues to report. */
  lemma ParseFieldReportsIssues()
    ensures ReportsIssues(ParseField)
  {
  }

  /** `applicationFormSchema.safeParse`. */
  function ParseApplicationForm(form: FormData): (r: Result<FormData, seq<Issue>>)
    ensures r.Ok? <==> SectionsValid(ParseField, Schema, form, 0)
    ensures r.Err? ==> r.error != []
  {
    SchemaIdsDistinct();
    ParseFieldReportsIssues();
    ParseForm(ParseField, Schema, form)
  }

  /** On success, each section is present in the input and the output
      holds its parsed fields under its id. */
  lemma ParsedSectionOf(parse: FieldParser, sections: seq<SectionSpec>, form: FormData, s: nat)
    requires ReportsIssues(parse) && DistinctIds(sections) && ParseForm(parse, sections, form).Ok? && s < |sections|
    ensures sections[s].id in form && SectionValid(parse, sections[s], form)
    ensures sections[s].id in ParseForm(parse, sections, form).value
    ensures ParseForm(parse, sections, form).value[sections[s].id]
            == ParsedFields(parse, sections[s].fields, form[sections[s].id], 0)
  {
    ParsedSectionAt(parse, sections, form, 0, s);
  }

  /** ---------------- behaviour the tests pin down ---------------- */

  /** A blank required name fails with the schema's message. */
  lemma BlankFullNameRejected()
    ensures ParseField(Schema[0].fields[0].rule, Str("")) == Err([FieldIssue(None, Custom("Full name is required"))])
  {
  }

  /** An empty content-type list fails with the minimum-selection message. */
  lemma NoContentTypeRejected()
    ensures ParseField(Schema[3].fields[1].rule, List([])) == Err([FieldIssue(None, Custom("Select at least one content type"))])
  {
  }

  /** Any natural number typed as its digits is a valid whole-number
      answer and coerces to that number. */
  lemma {:induction false} WholeNumberDigitsAccepted(n: nat, optional: bool)
    ensures ParseWholeNumber(Str(NatToString(n)), optional) == Ok(Num(n as real))
  {
    NumericStringRoundTrip(n);
  }

  /** A value that coerces to a non-negative fraction fails only `.int()`,
      and so is reported with the schema's own "Must be a number", not
      zod's default wording. */
  lemma FractionIsNotAWholeNumber(v: Value, x: real, optional: bool)
    requires EmptyToUndefined(v) == v && ToNumber(v) == Some(x)
    requires x >= 0.0 && !IsInteger(x)
    ensures ParseWholeNumber(v, optional) == Err(One(Custom(MustBeNumber)))
  {
    assert WholeNumberIssues(x) == [Custom(MustBeNumber)];
    assert Lift([Custom(MustBeNumber)]) == One(Custom(MustBeNumber));
  }

  /** The digits of `n` stay below the next power of ten. */
  lemma {:induction false} NatToStringBelowPow10(n: nat)
    ensures n < Pow10(|NatToString(n)|)
    decreases n
  {
    if n >= 10 {
      NatToStringBelowPow10(n / 10);
    }
  }

  /** A whole number typed with a non-zero fraction, such as "2.5", is
      rejected with "Must be a number". */
  lemma FractionDigitsAreNotAWholeNumber(whole: nat, fraction: nat, optional: bool)
    requires fraction > 0
    ensures ParseWholeNumber(Str(NatToString(whole) + "." + NatToString(fraction)), optional)
      == Err(One(Custom(MustBeNumber)))
  {
    var x := FractionalDecimal(whole, fraction);
    var s := NatToString(whole) + "." + NatToString(fraction);
    assert s != "";
    FractionIsNotAWholeNumber(Str(s), x, optional);
  }

  /** "w.f" with a non-zero fraction part coerces to a non-negative number
      that is not an integer. */
  lemma FractionalDecimal(whole: nat, fraction: nat) returns (x: real)
    requires fraction > 0
    ensures ToNumber(Str(NatToString(whole) + "." + NatToString(fraction))) == Some(x)
    ensures x >= 0.0 && !IsInteger(x)
  {
    var p := Pow10(|NatToString(fraction)|);
    x := whole as real + fraction as real / p as real;
    DecimalValue(whole, fraction);
    NatToStringBelowPow10(fraction);
    BetweenWholesIsNotInteger(whole, fraction, p);
  }

  /** `DecimalDigits`, as the coercion `Number` of a string value. */
  lemma DecimalValue(whole: nat, fraction: nat)
    ensures var f := NatToString(fraction);
      ToNumber(Str(NatToString(whole) + "." + f)) == Some(whole as real + fraction as real / Pow10(|f|) as real)
  {
    DecimalDigits(whole, fraction);
  }

  /** A whole number plus a proper fraction is not an integer. */
  lemma BetweenWholesIsNotInteger(whole: nat, num: nat, den: nat)
    requires 0 < num < den
    ensures whole as real + num as real / den as real > 0.0
    ensures !IsInteger(whole as real + num as real / den as real)
  {
    var q := num as real / den as real;
    assert q * den as real == num as real;
    assert 0.0 < q < 1.0;
    var x := whole as real + q;
    assert x.Floor == whole;
  }

  /** A percentage typed as digits is accepted exactly up to 100. */
  lemma {:induction false} PercentageDigits(n: nat)
    ensures ParsePercentage(Str(NatToString(n))).Ok? <==> n <= 100
    ensures n <= 100 ==> ParsePercentage(Str(NatToString(n))) == Ok(Num(n as real))
  {
    NumericStringRoundTrip(n);
  }

  lemma {:induction false} IndexOfAfter(s: string, c: char, t: string)
    requires c !in s
    ensures IndexOf(s + [c] + t, c) == Some(|s|)
    decreases |s|
  {
    if s != [] {
      assert (s + [c] + t)[1..] == s[1..] + [c] + t;
      IndexOfAfter(s[1..], c, t);
    }
  }

  /** The digits of `whole`, a point and the digits of `fraction` read as
      the whole part plus the fraction's digits over the matching power of
      ten. */
  lemma {:induction false} UnsignedDecimalDigits(whole: nat, fraction: nat)
    ensures var f := NatToString(fraction);
      ParseUnsignedDecimal(NatToString(whole) + "." + f)
        == Some(whole as real + fraction as real / Pow10(|f|) as real)
  {
    var w := NatToString(whole);
    var f := NatToString(fraction);
    var s := w + "." + f;
    DigitsNotSpecial(w);
    DigitsNotSpecial(f);
    IndexOfAfter(w, '.', f);
    assert s[..|w|] == w && s[|w| + 1..] == f;
    DigitsValueOfNatToString(whole);
    DigitsValueOfNatToString(fraction);
  }

  /** A decimal with a fraction, such as "4.5", is read as the whole part
      plus the fraction's digits over the matching power of ten. */
  lemma {:induction false} DecimalDigits(whole: nat, fraction: nat)
    ensures var f := NatToString(fraction);
      ParseNumericString(NatToString(whole) + "." + f)
        == Some(whole as real + fraction as real / Pow10(|f|) as real)
  {
    var w := NatToString(whole);
    var f := NatToString(fraction);
    var s := w + "." + f;
    DigitsNotSpecial(w);
    DigitsNotSpecial(f);
    assert s[0] == w[0] && s[|s| - 1] == f[|f| - 1];
    TrimUnpadded(s);
    UnsignedDecimalDigits(whole, fraction);
  }

  /** "" is absent for every optional rule, but the required audience size
      rejects it as not a number. */
  lemma EmptyStringAbsentOrRejected(rule: FieldRule)
    ensures !IsRequired(rule) ==> ParseField(rule, Str("")) == Ok(Undefined)
    ensures ParseField(WholeNumber(false), Str("")) == Err([FieldIssue(None, Custom(MustBeNumber))])
  {
  }

  /** The empty check runs before the trim: whitespace-only optional text
      is kept as "", not made absent, and a whitespace-only number is 0. */
  lemma WhitespaceOnlyIsNotAbsent()
    ensures ParseOptionalText(Str("   ")) == Ok(Str(""))
    ensures ParseWholeNumber(Str("   "), false) == Ok(Num(0.0))
  {
    assert AllWhitespace("   ");
    TrimEmptyIffAllWhitespace("   ");
  }
}
