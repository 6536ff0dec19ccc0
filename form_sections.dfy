/** `applicationFormSections` of packages/shared/validation/application-form.ts:
    the metadata the form page renders from (titles, labels, input kinds,
    required flags, option lists), kept beside the schema and required to
    agree with it section by section and field by field. */
module FormSections {
  import opened Common
  import opened ApplicationForm

  datatype FieldType = Text | Textarea | Email | NumberInput | Url | Select | MultiSelect | Date

  datatype FieldMeta = FieldMeta(
    name: string,
    caption: string,
    kind: FieldType,
    required: bool,
    helperText: Option<string>,
    options: Option<seq<string>>)

  datatype SectionMeta = SectionMeta(
    id: string,
    title: string,
    description: Option<string>,
    fields: seq<FieldMeta>)

  /** `textField`: a plain text input, optional unless said otherwise. */
  function TextField(name: string, caption: string, required: bool := false, helperText: Option<string> := None): (r: FieldMeta)
    ensures r.name == name && r.caption == caption && r.kind == Text && r.required == required
    ensures r.options.None?
  {
    FieldMeta(name, caption, Text, required, helperText, None)
  }

  function Field(name: string, caption: string, kind: FieldType, required: bool): FieldMeta {
    FieldMeta(name, caption, kind, required, None, None)
  }

  function Described(name: string, caption: string, kind: FieldType, required: bool, helperText: string): FieldMeta {
    FieldMeta(name, caption, kind, required, Some(helperText), None)
  }

  function Choices(name: string, caption: string, kind: FieldType, required: bool, options: seq<string>): FieldMeta {
    FieldMeta(name, caption, kind, required, None, Some(options))
  }

  const ApplicantMeta: SectionMeta := SectionMeta("applicant", "Applicant Details", Some("Tell us who you are and how to reach you."), [
    TextField("fullName", "Full name", true),
    Field("email", "Email", Email, true),
    TextField("phoneNumber", "Phone number"),
    TextField("locationCity", "City"),
    TextField("locationCountry", "Country", true),
    TextField("timezone", "Time zone", true),
    Field("portfolioUrl", "Portfolio URL", Url, false),
    Choices("referralSource", "How did you hear about us?", Select, false, ReferralSourceOptions)])
  const BrandMeta: SectionMeta := SectionMeta("brand", "Brand Overview", Some("Share high-level information about your brand or company."), [
    TextField("brandName", "Brand name"),
    Field("brandWebsite", "Brand website", Url, false),
    TextField("industry", "Industry", true),
    Choices("brandStage", "Brand stage", Select, false, BrandStageOptions),
    Described("brandDescription", "Brand description", Textarea, false, "Tell us what makes the brand unique")])
  const SocialMeta: SectionMeta := SectionMeta("social", "Social & Audience Channels", Some("Help us understand your current reach across key channels."), [
    TextField("instagramHandle", "Instagram handle"),
    Field("instagramFollowers", "Instagram followers", NumberInput, false),
    Field("youtubeChannelUrl", "YouTube channel URL", Url, false),
    Field("youtubeSubscribers", "YouTube subscribers", NumberInput, false),
    TextField("tiktokHandle", "TikTok handle"),
    Field("tiktokFollowers", "TikTok followers", NumberInput, false),
    Field("newsletterSubscribers", "Newsletter subscribers", NumberInput, false),
    Field("otherAudienceChannels", "Other audience channels", Textarea, false)])
  const AudienceMeta: SectionMeta := SectionMeta("audience", "Audience Profile", Some("Describe who your audience is and how they engage with you."), [
    Choices("primaryPlatform", "Primary platform", Select, true, PrimaryPlatformOptions),
    Choices("contentTypes", "Content types", MultiSelect, true, ContentTypeOptions),
    Field("audienceSize", "Audience size", NumberInput, true),
    TextField("audienceRegions", "Key regions"),
    TextField("audienceAgeBrackets", "Age brackets"),
    Described("audienceGenderSplit", "Gender split (%)", NumberInput, false, "Estimate if available"),
    Described("engagementRate", "Engagement rate (%)", NumberInput, false,
              "Average engagement across your primary platform")])
  const ContentMeta: SectionMeta := SectionMeta("content", "Content Operations", Some("Outline your content cadence and working style."), [
    Field("averageMonthlyContent", "Average content pieces per month", NumberInput, false),
    Field("collaborationHistory", "Recent brand collaborations", Textarea, false),
    Field("brandSafetyConsiderations", "Brand safety considerations", Textarea, false),
    Field("toolsAndSoftware", "Key tools & software", Textarea, false),
    Field("languages", "Languages spoken", Text, false)])
  const GoalsMeta: SectionMeta := SectionMeta("goals", "Goals & Collaboration Preferences", None, [
    Field("shortTermGoals", "Short-term goals", Textarea, true),
    Field("longTermGoals", "Long-term goals", Textarea, false),
    Choices("collaborationPreferences", "Preferred collaboration types", MultiSelect, true,
            CollaborationPreferenceOptions),
    Field("preferredBrands", "Brands you'd love to work with", Textarea, false)])
  const LogisticsMeta: SectionMeta := SectionMeta("logistics", "Logistics & Operations", None, [
    Field("availabilityStartDate", "Availability start date", Date, true),
    Choices("decisionTimeline", "Decision timeline", Select, false, DecisionTimelineOptions),
    TextField("budgetRange", "Budget / compensation range"),
    Choices("preferredContactMethod", "Preferred contact method", Select, false, ContactMethodOptions),
    Field("additionalNotes", "Additional notes", Textarea, false)])

  const Sections: seq<SectionMeta> := [ApplicantMeta, BrandMeta, SocialMeta, AudienceMeta, ContentMeta, GoalsMeta, LogisticsMeta]

  /** The option list a rule checks against, if it is an enum. */
  function RuleOptions(rule: FieldRule): (r: Option<seq<string>>)
    ensures r.Some? <==> rule.OptionalChoice? || rule.RequiredChoice? || rule.MultiChoice?
  {
    match rule
    case OptionalChoice(options) => Some(options)
    case RequiredChoice(options) => Some(options)
    case MultiChoice(options, _) => Some(options)
    case _ => None
  }

  /** The input kinds that can feed a rule: text for text rules (a date is
      text to the schema), one choice for an enum, several for an array. */
  predicate KindFits(kind: FieldType, rule: FieldRule) {
    match rule
    case RequiredText(_, _) => kind == Text || kind == Textarea || kind == Date
    case OptionalText => kind == Text || kind == Textarea || kind == Date
    case RequiredEmail(_) => kind == Email
    case OptionalUrl => kind == Url
    case OptionalChoice(_) => kind == Select
    case RequiredChoice(_) => kind == Select
    case MultiChoice(_, _) => kind == MultiSelect
    case WholeNumber(_) => kind == NumberInput
    case Percentage => kind == NumberInput
  }

  /** A field's metadata agrees with its schema entry. */
  predicate FieldAgrees(meta: FieldMeta, spec: FieldSpec) {
    && meta.name == spec.name
    && meta.required == IsRequired(spec.rule)
    && meta.options == RuleOptions(spec.rule)
    && KindFits(meta.kind, spec.rule)
  }

  predicate SectionAgrees(meta: SectionMeta, spec: SectionSpec) {
    && meta.id == spec.id
    && |meta.fields| == |spec.fields|
    && forall i :: 0 <= i < |meta.fields| ==> FieldAgrees(meta.fields[i], spec.fields[i])
  }

  lemma ApplicantAgrees()
    ensures SectionAgrees(ApplicantMeta, ApplicantSpec)
  {
  }

  lemma BrandAgrees()
    ensures SectionAgrees(BrandMeta, BrandSpec)
  {
  }

  lemma SocialAgrees()
    ensures SectionAgrees(SocialMeta, SocialSpec)
  {
  }

  lemma AudienceAgrees()
    ensures SectionAgrees(AudienceMeta, AudienceSpec)
  {
  }

  lemma ContentAgrees()
    ensures SectionAgrees(ContentMeta, ContentSpec)
  {
  }

  lemma GoalsAgrees()
    ensures SectionAgrees(GoalsMeta, GoalsSpec)
  {
  }

  lemma LogisticsAgrees()
    ensures SectionAgrees(LogisticsMeta, LogisticsSpec)
  {
  }

  /** The metadata lists the schema's sections in the schema's order, and
      every field agrees with the schema on name, required flag, option
      list and input kind. */
  lemma MetadataMatchesSchema()
    ensures |Sections| == |Schema| == 7
    ensures forall s :: 0 <= s < |Sections| ==> SectionAgrees(Sections[s], Schema[s])
  {
    ApplicantAgrees();
    BrandAgrees();
    SocialAgrees();
    AudienceAgrees();
    ContentAgrees();
    GoalsAgrees();
    LogisticsAgrees();
  }

  /** The ids of `sections`, in order. */
  function Ids(sections: seq<SectionMeta>): (r: seq<string>)
    ensures |r| == |sections|
    ensures forall s :: 0 <= s < |sections| ==> r[s] == sections[s].id
  {
    if sections == [] then [] else [sections[0].id] + Ids(sections[1..])
  }

  /** The section ids, in order. They are the schema's top-level keys
      (`MetadataMatchesSchema`), and distinct (`SchemaIdsDistinct`). */
  lemma SectionIdsInOrder()
    ensures Ids(Sections) == ["applicant", "brand", "social", "audience", "content", "goals", "logistics"]
  {
  }
}
