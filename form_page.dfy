/** The multi-step application page of
    apps/application-form/src/app/apply/form/page.tsx: the form values, the
    field errors the schema resolver leaves behind, the current step, and
    the submission flags, updated by "Continue", "Back" and "Submit". The
    network reply, the build flag that turns the submission API on, and the
    navigation target are parameters and fields of the model. */
module FormPage {
  import opened Common
  import opened ApplicationForm
  import opened FormSections

  const TotalSteps := |Sections|

  const DefaultSubmitError := "We couldn\U{2019}t submit your application. Please try again."
  const UnknownSubmitError := "Something went wrong while submitting. Please try again."
  const SubmittingCaption := "Submitting your application\U{2026}"
  const SubmitCaption := "Submit application"
  const SuccessPath := "/apply/success"
  const MockSuccessPath := "/apply/success?mode=mock"

  /** ---------------- field paths ---------------- */

  /** The path "sectionId.fieldName" the form library addresses a field by. */
  function FieldPath(sectionId: string, fieldName: string): string {
    sectionId + "." + fieldName
  }

  /** How the form library reads a two-level path back: the part before the
      first dot names the section, the rest the field. */
  function SplitPath(path: string): (r: (string, string))
    ensures '.' !in path ==> r == (path, "")
  {
    match IndexOf(path, '.')
    case None => (path, "")
    case Some(k) => (path[..k], path[k + 1..])
  }

  /** A path names its section and field again whenever the section id has
      no dot in it. */
  lemma {:induction false} PathRoundTrip(sectionId: string, fieldName: string)
    requires '.' !in sectionId
    ensures SplitPath(FieldPath(sectionId, fieldName)) == (sectionId, fieldName)
  {
    var p := FieldPath(sectionId, fieldName);
    IndexOfAfter(sectionId, '.', fieldName);
    assert p[..|sectionId|] == sectionId && p[|sectionId| + 1..] == fieldName;
  }

  /** `sectionFieldPaths`: one path per field of the section, in field order,
      each naming that section and field. */
  function SectionFieldPaths(section: SectionMeta): (r: seq<string>)
    ensures |r| == |section.fields|
    ensures '.' !in section.id ==> forall i :: 0 <= i < |r| ==> SplitPath(r[i]) == (section.id, section.fields[i].name)
  {
    var r := seq(|section.fields|, i requires 0 <= i < |section.fields| => FieldPath(section.id, section.fields[i].name));
    assert '.' !in section.id ==> forall i :: 0 <= i < |r| ==> SplitPath(r[i]) == (section.id, section.fields[i].name) by {
      if '.' !in section.id {
        forall i | 0 <= i < |r| ensures SplitPath(r[i]) == (section.id, section.fields[i].name) {
          PathRoundTrip(section.id, section.fields[i].name);
        }
      }
    }
    r
  }

  lemma SectionIdsHaveNoDot()
    ensures forall s :: 0 <= s < |Sections| ==> '.' !in Sections[s].id
  {
    var ids := Ids(Sections);
    SectionIdsInOrder();
    IdNamesHaveNoDot();
    assert NoDot(ids);
  }

  predicate NoDot(ids: seq<string>) {
    forall s :: 0 <= s < |ids| ==> '.' !in ids[s]
  }

  /** None of the seven section names contains a dot. */
  lemma IdNamesHaveNoDot()
    ensures NoDot(["applicant", "brand", "social", "audience", "content", "goals", "logistics"])
  {
  }

  /** The paths "Continue" validates at step `step` name exactly the fields
      of the schema's section at that step, in order. */
  lemma StepPathsNameSchemaFields(step: nat)
    requires step < TotalSteps
    ensures |SectionFieldPaths(Sections[step])| == |Schema[step].fields|
    ensures forall i :: 0 <= i < |Schema[step].fields| ==>
              SplitPath(SectionFieldPaths(Sections[step])[i]) == (Schema[step].id, Schema[step].fields[i].name)
  {
    MetadataMatchesSchema();
    SectionIdsHaveNoDot();
    assert SectionAgrees(Sections[step], Schema[step]);
  }

  /** ---------------- field errors ---------------- */

  /** The error the resolver leaves at a field: present whenever the field
      has any issue. Its message is that of the first issue about the field
      itself; a multi-select whose only issues are about its elements has
      an entry without a message. */
  datatype FieldError = FieldError(message: Option<string>)

  /** The message of the first issue that is about the field itself. */
  function FirstOwnMessage(issues: seq<FieldIssue>): (r: Option<string>)
    ensures r.None? <==> forall i :: 0 <= i < |issues| ==> issues[i].element.Some?
    ensures r.Some? ==> exists i :: 0 <= i < |issues| && issues[i].element.None? && r.value == Message(issues[i].kind)
  {
    if issues == [] then None
    else if issues[0].element.None? then Some(Message(issues[0].kind))
    else
      var rest := FirstOwnMessage(issues[1..]);
      assert forall i :: 1 <= i < |issues| ==> issues[i] == issues[1..][i - 1];
      rest
  }

  /** The error at one field of a section. A missing section is reported
      at the section itself, so none of its fields carries an error. */
  function FieldErrorOf(parse: FieldParser, values: FormData, section: SectionSpec, field: FieldSpec): (r: Option<FieldError>)
    ensures r.Some? <==> section.id in values && parse(field.rule, Lookup(values[section.id], field.name)).Err?
  {
    if section.id !in values then None
    else
      match parse(field.rule, Lookup(values[section.id], field.name))
      case Ok(_) => None
      case Err(issues) => Some(FieldError(FirstOwnMessage(issues)))
  }

  /** The error map after validating the fields of `section` from index
      `from` on: each such field's entry is replaced by its fresh error, or
      removed; entries of other fields are kept. */
  function Revalidated(parse: FieldParser, errors: map<(string, string), FieldError>, values: FormData, section: SectionSpec, from: nat)
    : (r: map<(string, string), FieldError>)
    requires from <= |section.fields|
    ensures forall i :: from <= i < |section.fields| && FirstOfName(section.fields, from, i) ==>
              && ((section.id, section.fields[i].name) in r
                  <==> FieldErrorOf(parse, values, section, section.fields[i]).Some?)
              && ((section.id, section.fields[i].name) in r
                  ==> r[(section.id, section.fields[i].name)] == FieldErrorOf(parse, values, section, section.fields[i]).value)
    ensures forall k :: k in errors && k !in r ==>
              k.0 == section.id && exists i :: from <= i < |section.fields| && section.fields[i].name == k.1
    ensures forall k :: k in r && (k !in errors || r[k] != errors[k]) ==>
              k.0 == section.id && exists i :: from <= i < |section.fields| && section.fields[i].name == k.1
    decreases |section.fields| - from
  {
    if from == |section.fields| then errors
    else
      var rest := Revalidated(parse, errors, values, section, from + 1);
      var key := (section.id, section.fields[from].name);
      assert forall i :: from + 1 <= i < |section.fields| && FirstOfName(section.fields, from, i) ==>
               FirstOfName(section.fields, from + 1, i);
      match FieldErrorOf(parse, values, section, section.fields[from])
      case None => rest - {key}
      case Some(e) => rest[key := e]
  }

  /** What `trigger` reports for the step's paths: no field of the step's
      section has an error. */
  predicate StepValid(parse: FieldParser, values: FormData, section: SectionSpec) {
    forall i :: 0 <= i < |section.fields| ==> FieldErrorOf(parse, values, section, section.fields[i]).None?
  }

  /** With its section present, a step is valid exactly when the section
      passes the schema; a missing section (reported only at the section
      itself) does not hold "Continue" back. */
  lemma {:induction false} StepValidIffSectionValid(parse: FieldParser, values: FormData, section: SectionSpec)
    ensures section.id in values ==> (StepValid(parse, values, section) <==> SectionValid(parse, section, values))
    ensures section.id !in values ==> StepValid(parse, values, section)
  {
    if section.id in values && StepValid(parse, values, section) {
      forall i | 0 <= i < |section.fields|
        ensures parse(section.fields[i].rule, Lookup(values[section.id], section.fields[i].name)).Ok?
      {
        assert FieldErrorOf(parse, values, section, section.fields[i]).None?;
      }
    }
  }

  /** The field an issue is about, if it lies within a field: its path
      starts with a section key and a field key. */
  function IssueField(issue: Issue): (r: Option<(string, string)>)
    ensures r.Some? <==> |issue.path| >= 2 && issue.path[0].Key? && issue.path[1].Key?
  {
    if |issue.path| >= 2 && issue.path[0].Key? && issue.path[1].Key?
    then Some((issue.path[0].key, issue.path[1].key))
    else None
  }

  /** The resolver's field errors for the issues from index `from` on: an
      entry for every field some issue lies within, carrying the message
      of the first issue about the field itself (none when every issue is
      about an element). Issues about a whole section give no field entry. */
  function IssueErrors(issues: seq<Issue>, from: nat): (r: map<(string, string), FieldError>)
    requires from <= |issues|
    ensures forall key :: key in r <==> exists i :: from <= i < |issues| && IssueField(issues[i]) == Some(key)
    ensures forall i :: from <= i < |issues| && IssueField(issues[i]).Some? && |issues[i].path| == 2
                        && (forall j :: from <= j < i ==> IssueField(issues[j]) != IssueField(issues[i]) || |issues[j].path| != 2)
              ==> r[IssueField(issues[i]).value].message == Some(Message(issues[i].kind))
    decreases |issues| - from
  {
    if from == |issues| then map[]
    else
      var rest := IssueErrors(issues, from + 1);
      match IssueField(issues[from])
      case None => rest
      case Some(key) =>
        if |issues[from].path| == 2 then rest[key := FieldError(Some(Message(issues[from].kind)))]
        else if key in rest then rest
        else rest[key := FieldError(None)]
  }

  /** What `handleSubmit` learns from the resolver: whether the schema
      accepts the submission (every section present, every field passing),
      and otherwise the field errors of its issues. */
  datatype Resolution = Resolution(accepted: bool, errors: map<(string, string), FieldError>)

  function Resolve(parse: FieldParser, schema: seq<SectionSpec>, values: FormData): (r: Resolution)
    requires ReportsIssues(parse) && DistinctIds(schema)
    ensures r.accepted <==> SectionsValid(parse, schema, values, 0)
    ensures r.accepted ==> r.errors == map[]
    ensures !r.accepted ==> r.errors == IssueErrors(ParseForm(parse, schema, values).error, 0)
  {
    match ParseForm(parse, schema, values)
    case Ok(_) => Resolution(true, map[])
    case Err(issues) => Resolution(false, IssueErrors(issues, 0))
  }

  /** Over the application-form schema, the resolver accepts exactly what
      `applicationFormSchema` accepts. */
  lemma ResolveIsApplicationForm(values: FormData)
    ensures ReportsIssues(ParseField) && DistinctIds(Schema)
    ensures Resolve(ParseField, Schema, values).accepted <==> ParseApplicationForm(values).Ok?
  {
    SchemaIdsDistinct();
    ParseFieldReportsIssues();
  }

  /** ---------------- what the page shows ---------------- */

  /** The button beside "Back": "Continue" before the last step, then the
      submit button, disabled and relabelled while a submission runs. */
  datatype PrimaryButton = ContinueButton | SubmitButton(disabled: bool, caption: string)

  function PrimaryButtonAt(step: nat, totalSteps: nat, isSubmitting: bool): (r: PrimaryButton)
    ensures r.SubmitButton? <==> step + 1 >= totalSteps
    ensures r.SubmitButton? ==> r.disabled == isSubmitting
    ensures r.SubmitButton? ==> (r.caption == SubmittingCaption <==> isSubmitting)
  {
    if step < totalSteps - 1 then ContinueButton
    else SubmitButton(isSubmitting, if isSubmitting then SubmittingCaption else SubmitCaption)
  }

  /** "Back" is hidden on the first step. */
  predicate BackVisible(step: nat) { step != 0 }

  /** How a submission to the API ended: accepted, refused with the
      reply's `message` (if its body had one), or failed with a thrown
      value (an `Error`'s message, or None for anything else thrown). */
  datatype SubmitOutcome = Accepted | Refused(message: Option<string>) | Threw(errorMessage: Option<string>)

  /** The message shown after a failed submission. */
  function FailureMessage(outcome: SubmitOutcome): (r: string)
    requires !outcome.Accepted?
    ensures outcome.Refused? ==> r == outcome.message.GetOr(DefaultSubmitError)
    ensures outcome.Threw? ==> r == outcome.errorMessage.GetOr(UnknownSubmitError)
  {
    match outcome
    case Refused(message) => message.GetOr(DefaultSubmitError)
    case Threw(errorMessage) => errorMessage.GetOr(UnknownSubmitError)
  }

  /** ---------------- the page state ---------------- */

  /** The page over its section metadata and the schema its resolver
      checks; the constructor fixes both to the application form's. */
  class ApplicationPage {
    const sections: seq<SectionMeta>
    const schema: seq<SectionSpec>
    const parse: FieldParser
    var values: FormData
    var errors: map<(string, string), FieldError>
    var currentStep: nat
    var isSubmitting: bool
    var submissionError: Option<string>
    /** Where the router was sent, once it was. */
    var location: Option<string>

    /** The metadata and the schema list the same sections, and the step
      always names one of them. */
    ghost predicate Valid()
      reads this
    {
      && |sections| == |schema| && DistinctIds(schema) && ReportsIssues(parse)
      && (forall s :: 0 <= s < |sections| ==> SectionAgrees(sections[s], schema[s]))
      && currentStep < |sections|
    }

    /** The page as first rendered, on the default values. */
    constructor(defaults: FormData)
      ensures Valid()
      ensures sections == Sections && schema == Schema && parse == ParseField
      ensures values == defaults && errors == map[] && currentStep == 0
      ensures !isSubmitting && submissionError.None? && location.None?
    {
      sections := Sections;
      schema := Schema;
      parse := ParseField;
      values := defaults;
      errors := map[];
      currentStep := 0;
      isSubmitting := false;
      submissionError := None;
      location := None;
      MetadataMatchesSchema();
      SchemaIdsDistinct();
      ParseFieldReportsIssues();
    }

    /** `getFieldError`: the message recorded for that field, if any. */
    function GetFieldError(sectionId: string, fieldName: string): (r: Option<string>)
      reads this
      ensures (sectionId, fieldName) !in errors ==> r.None?
      ensures (sectionId, fieldName) in errors ==> r == errors[(sectionId, fieldName)].message
      ensures r.Some? ==> (sectionId, fieldName) in errors && errors[(sectionId, fieldName)].message == r
    {
      if (sectionId, fieldName) in errors then errors[(sectionId, fieldName)].message else None
    }

    /** `goNext`: validates the current section's fields only, records
      their errors, and moves one step on (never past the last) exactly
      when none of them has an error. */
    method GoNext()
      requires Valid()
      modifies this
      ensures Valid()
      ensures errors == Revalidated(parse, old(errors), old(values), schema[old(currentStep)], 0)
      ensures StepValid(parse, old(values), schema[old(currentStep)]) ==>
                currentStep == (if old(currentStep) + 1 < |sections| then old(currentStep) + 1 else |sections| - 1)
      ensures !StepValid(parse, old(values), schema[old(currentStep)]) ==> currentStep == old(currentStep)
      ensures values == old(values) && isSubmitting == old(isSubmitting)
      ensures submissionError == old(submissionError) && location == old(location)
    {
      var section := schema[currentStep];
      errors := Revalidated(parse, errors, values, section, 0);
      var isStepValid := forall i :: 0 <= i < |section.fields| ==> FieldErrorOf(parse, values, section, section.fields[i]).None?;
      if isStepValid {
        currentStep := if currentStep + 1 < |sections| then currentStep + 1 else |sections| - 1;
      }
    }

    /** `goBack`: one step back, never before the first, with no validation. */
    method GoBack()
      requires Valid()
      modifies this
      ensures Valid()
      ensures currentStep == (if old(currentStep) == 0 then 0 else old(currentStep) - 1)
      ensures values == old(values) && errors == old(errors) && isSubmitting == old(isSubmitting)
      ensures submissionError == old(submissionError) && location == old(location)
    {
      currentStep := if currentStep == 0 then 0 else currentStep - 1;
    }

    /** `submitForm` up to the request: the whole schema is checked; a form
      it rejects gets the resolver's field errors and is not sent; an
      accepted one clears the errors and the last failure message and is
      marked as submitting. */
    method SubmitForm() returns (started: bool)
      requires Valid()
      modifies this
      ensures Valid()
      ensures started <==> SectionsValid(parse, schema, old(values), 0)
      ensures errors == Resolve(parse, schema, old(values)).errors
      ensures started ==> errors == map[] && isSubmitting && submissionError.None?
      ensures !started ==> isSubmitting == old(isSubmitting) && submissionError == old(submissionError)
      ensures values == old(values) && currentStep == old(currentStep) && location == old(location)
    {
      var resolution := Resolve(parse, schema, values);
      started := resolution.accepted;
      errors := resolution.errors;
      if started {
        submissionError := None;
        isSubmitting := true;
      }
    }

    /** The rest of `submitForm`, once the request (or, with the API
      switched off, the simulated delay) is over: success navigates to the
      success page, marked as a mock when the API is off, and leaves the
      page submitting; failure shows a message, stops submitting and stays
      on the same step. */
    method CompleteSubmission(apiEnabled: bool, outcome: SubmitOutcome)
      requires Valid() && isSubmitting
      modifies this
      ensures Valid()
      ensures (!apiEnabled || outcome.Accepted?) ==>
                && location == Some(if apiEnabled then SuccessPath else MockSuccessPath)
                && isSubmitting && submissionError == old(submissionError)
      ensures (apiEnabled && !outcome.Accepted?) ==>
                && submissionError == Some(FailureMessage(outcome))
                && !isSubmitting && location == old(location)
      ensures values == old(values) && errors == old(errors) && currentStep == old(currentStep)
    {
      if !apiEnabled || outcome.Accepted? {
        location := Some(SuccessPath + (if apiEnabled then "" else "?mode=mock"));
        assert SuccessPath + "" == SuccessPath && SuccessPath + "?mode=mock" == MockSuccessPath;
      } else {
        submissionError := Some(FailureMessage(outcome));
        isSubmitting := false;
      }
    }
  }

  /** There are seven steps, one per section, and the submit button shows
      only on the last. */
  lemma SubmitOnlyOnLastStep(step: nat, isSubmitting: bool)
    requires step < TotalSteps
    ensures TotalSteps == 7
    ensures PrimaryButtonAt(step, TotalSteps, isSubmitting).SubmitButton? <==> step == 6
  {
    MetadataMatchesSchema();
  }

  /** A submission the schema accepts passes "Continue" at every step, so
      it reaches the last step, where the submit button is. */
  lemma {:induction false} AcceptedFormPassesEveryStep(parse: FieldParser, schema: seq<SectionSpec>, values: FormData, step: nat)
    requires step < |schema| && SectionsValid(parse, schema, values, 0)
    ensures StepValid(parse, values, schema[step])
  {
    assert SectionValid(parse, schema[step], values);
    StepValidIffSectionValid(parse, values, schema[step]);
  }
}
