/** The entity schema catalogue, the prompt templates and the per-entity
    extraction operations (app/llm.py). The completion service together with
    its JSON output parser, and the parser's rendered format instructions, are
    foreign and enter as parameters (`Completion`). */
module Llm {
  import opened Values

  /** The completion model every chain and every response names. */
  const ModelName := "gpt-4o"

  // ================================================================ enumerations

  /** `EmploymentType`: a `str` enum whose members' values are their names
      (FullTime is `full_time`, and so on). */
  datatype EmploymentType = FullTime | PartTime | Freelance | Internship | Own

  const EmploymentTypeValues: set<string> := {"full_time", "part_time", "freelance", "internship", "own"}

  /** The string value of an `EmploymentType` member. */
  function EmploymentTypeValue(t: EmploymentType): (v: string)
    ensures v in EmploymentTypeValues
  {
    match t
    case FullTime => "full_time"
    case PartTime => "part_time"
    case Freelance => "freelance"
    case Internship => "internship"
    case Own => "own"
  }

  /** `EmploymentType(v)`: the member with value `v`, if there is one. */
  function EmploymentTypeOf(v: string): (r: Option<EmploymentType>)
    ensures r.Some? <==> v in EmploymentTypeValues
    ensures r.Some? ==> EmploymentTypeValue(r.value) == v
  {
    if v == "full_time" then Some(FullTime)
    else if v == "part_time" then Some(PartTime)
    else if v == "freelance" then Some(Freelance)
    else if v == "internship" then Some(Internship)
    else if v == "own" then Some(Own)
    else None
  }

  /** The values are exactly the five listed, one per member, and looking a
      member up by its value gives it back. */
  lemma EmploymentTypeExact()
    ensures forall t :: EmploymentTypeOf(EmploymentTypeValue(t)) == Some(t)
    ensures forall s, t :: EmploymentTypeValue(s) == EmploymentTypeValue(t) ==> s == t
    ensures forall v :: v in EmploymentTypeValues ==> exists t :: EmploymentTypeValue(t) == v
  {
    forall v | v in EmploymentTypeValues
      ensures exists t :: EmploymentTypeValue(t) == v
    {
      assert EmploymentTypeValue(EmploymentTypeOf(v).value) == v;
    }
  }

  /** `ProjectType`: a `str` enum whose members' values are their names. */
  datatype ProjectType = OwnProject | Employment | Academic

  const ProjectTypeValues: set<string> := {"own", "employment", "academic"}

  /** The string value of a `ProjectType` member. */
  function ProjectTypeValue(t: ProjectType): (v: string)
    ensures v in ProjectTypeValues
  {
    match t
    case OwnProject => "own"
    case Employment => "employment"
    case Academic => "academic"
  }

  /** `ProjectType(v)`: the member with value `v`, if there is one. */
  function ProjectTypeOf(v: string): (r: Option<ProjectType>)
    ensures r.Some? <==> v in ProjectTypeValues
    ensures r.Some? ==> ProjectTypeValue(r.value) == v
  {
    if v == "own" then Some(OwnProject)
    else if v == "employment" then Some(Employment)
    else if v == "academic" then Some(Academic)
    else None
  }

  /** The values are exactly the three listed, one per member, and looking a
      member up by its value gives it back. */
  lemma ProjectTypeExact()
    ensures forall t :: ProjectTypeOf(ProjectTypeValue(t)) == Some(t)
    ensures forall s, t :: ProjectTypeValue(s) == ProjectTypeValue(t) ==> s == t
    ensures forall v :: v in ProjectTypeValues ==> exists t :: ProjectTypeValue(t) == v
  {
    forall v | v in ProjectTypeValues
      ensures exists t :: ProjectTypeValue(t) == v
    {
      assert ProjectTypeValue(ProjectTypeOf(v).value) == v;
    }
  }

  // ================================================================ record shapes

  /** `DateObject`: a loose date, each part an optional string. */
  datatype DateObject = DateObject(date: Option<string>, month: Option<string>, year: Option<string>)

  /** `DateOfBirth` has the same three optional parts as `DateObject`. */
  type DateOfBirth = DateObject

  datatype SocialUrls = SocialUrls(linkedin: Option<string>, github: Option<string>)

  datatype MobileNumber = MobileNumber(countryCode: Option<string>, number: Option<string>)

  datatype PersonalInfo = PersonalInfo(
    firstName: Option<string>, lastName: Option<string>, email: Option<string>,
    mobileNumber: Option<MobileNumber>, dateOfBirth: Option<DateOfBirth>,
    address: Option<string>, country: Option<string>, state: Option<string>,
    city: Option<string>, postalCode: Option<string>, about: Option<string>,
    socialUrls: Option<SocialUrls>)

  datatype SkillsItem = SkillsItem(skill: string, occupation: string)

  datatype EducationItem = EducationItem(
    institution: string, course: string, location: Option<string>,
    startDate: Option<DateObject>, endDate: Option<DateObject>, description: Option<string>)

  /** The JSON key of `employmentType` is "type" (a keyword in Dafny). */
  datatype EmploymentItem = EmploymentItem(
    organizationName: string, durationInMonths: Option<int>, employmentType: EmploymentType,
    location: Option<string>, startDate: Option<DateObject>, endDate: Option<DateObject>,
    jobTitle: Option<string>)

  /** The JSON key of `projectType` is "type". */
  datatype ProjectItem = ProjectItem(
    projectName: string, startDate: Option<DateObject>, endDate: Option<DateObject>,
    durationInMonths: Option<int>, description: Option<string>,
    organizationName: Option<string>, location: Option<string>, projectType: ProjectType)

  datatype CertificationItem = CertificationItem(
    certificationName: string, organizationName: Option<string>, location: Option<string>,
    startDate: Option<DateObject>, endDate: Option<DateObject>, durationInMonths: Option<int>,
    description: Option<string>)

  datatype AwardItem = AwardItem(
    awardName: string, location: Option<string>, givenDate: Option<DateObject>,
    description: Option<string>)

  datatype LanguageItem = LanguageItem(
    language: string, read: Option<bool>, write: Option<bool>, speak: Option<bool>)

  datatype MembershipItem = MembershipItem(
    organization: string, durationInMonths: Option<int>, location: Option<string>,
    description: Option<string>)

  datatype TrainingItem = TrainingItem(
    trainingName: string, organization: Option<string>, location: Option<string>,
    startDate: Option<DateObject>, endDate: Option<DateObject>)

  datatype SkillingItem = SkillingItem(
    skillingName: string, organization: Option<string>, location: Option<string>,
    startDate: Option<DateObject>, endDate: Option<DateObject>, description: Option<string>,
    durationInMonths: Option<int>)

  datatype ConferenceItem = ConferenceItem(
    conferenceName: string, organization: Option<string>, location: Option<string>,
    startDate: Option<DateObject>, endDate: Option<DateObject>, description: Option<string>,
    durationInMonths: Option<int>)

  /** The twelve extractable entity kinds, one per `extract_*` function. */
  datatype EntityKind =
    | Personal | Skills | Education | EmploymentHistory | Projects | Certifications
    | Awards | Languages | Memberships | Training | Skilling | Conferences

  /** One record of any kind, as an extractor's JSON output should describe it. */
  datatype Record =
    | PersonalRecord(personal: PersonalInfo)
    | SkillsRecord(skills: SkillsItem)
    | EducationRecord(education: EducationItem)
    | EmploymentRecord(employment: EmploymentItem)
    | ProjectRecord(project: ProjectItem)
    | CertificationRecord(certification: CertificationItem)
    | AwardRecord(award: AwardItem)
    | LanguageRecord(language: LanguageItem)
    | MembershipRecord(membership: MembershipItem)
    | TrainingRecord(training: TrainingItem)
    | SkillingRecord(skilling: SkillingItem)
    | ConferenceRecord(conference: ConferenceItem)

  function KindOf(r: Record): EntityKind {
    match r
    case PersonalRecord(_) => Personal
    case SkillsRecord(_) => Skills
    case EducationRecord(_) => Education
    case EmploymentRecord(_) => EmploymentHistory
    case ProjectRecord(_) => Projects
    case CertificationRecord(_) => Certifications
    case AwardRecord(_) => Awards
    case LanguageRecord(_) => Languages
    case MembershipRecord(_) => Memberships
    case TrainingRecord(_) => Training
    case SkillingRecord(_) => Skilling
    case ConferenceRecord(_) => Conferences
  }

  // ================================================================ field catalogue

  /** The type a declared field holds. Every nested sub-model (`DateObject`,
      `DateOfBirth`, `MobileNumber`, `SocialUrls`) has only optional string
      fields, so a nested object is described by its keys. */
  datatype FieldType =
    | StrField
    | IntField
    | BoolField
    | EnumField(values: set<string>)
    | ObjectField(keys: seq<string>)

  /** A declared field: its name, its type, and whether it is `Optional`
      (may hold null). */
  datatype Field = Field(name: string, ty: FieldType, nullable: bool)

  const DateKeys: seq<string> := ["date", "month", "year"]
  const MobileKeys: seq<string> := ["countryCode", "number"]
  const SocialKeys: seq<string> := ["linkedin", "github"]

  /** The fields each schema class declares, in declaration order. */
  function Schema(kind: EntityKind): seq<Field> {
    match kind
    case Personal => [
      Field("firstName", StrField, true), Field("lastName", StrField, true),
      Field("email", StrField, true), Field("mobileNumber", ObjectField(MobileKeys), true),
      Field("dateOfBirth", ObjectField(DateKeys), true), Field("address", StrField, true),
      Field("country", StrField, true), Field("state", StrField, true),
      Field("city", StrField, true), Field("postalCode", StrField, true),
      Field("about", StrField, true), Field("socialUrls", ObjectField(SocialKeys), true)]
    case Skills => [Field("skill", StrField, false), Field("occupation", StrField, false)]
    case Education => [
      Field("institution", StrField, false), Field("course", StrField, false),
      Field("location", StrField, true), Field("startDate", ObjectField(DateKeys), true),
      Field("endDate", ObjectField(DateKeys), true), Field("description", StrField, true)]
    case EmploymentHistory => [
      Field("organizationName", StrField, false), Field("durationInMonths", IntField, true),
      Field("type", EnumField(EmploymentTypeValues), false), Field("location", StrField, true),
      Field("startDate", ObjectField(DateKeys), true), Field("endDate", ObjectField(DateKeys), true),
      Field("jobTitle", StrField, true)]
    case Projects => [
      Field("projectName", StrField, false), Field("startDate", ObjectField(DateKeys), true),
      Field("endDate", ObjectField(DateKeys), true), Field("durationInMonths", IntField, true),
      Field("description", StrField, true), Field("organizationName", StrField, true),
      Field("location", StrField, true), Field("type", EnumField(ProjectTypeValues), false)]
    case Certifications => [
      Field("certificationName", StrField, false), Field("organizationName", StrField, true),
      Field("location", StrField, true), Field("startDate", ObjectField(DateKeys), true),
      Field("endDate", ObjectField(DateKeys), true), Field("durationInMonths", IntField, true),
      Field("description", StrField, true)]
    case Awards => [
      Field("awardName", StrField, false), Field("location", StrField, true),
      Field("givenDate", ObjectField(DateKeys), true), Field("description", StrField, true)]
    case Languages => [
      Field("language", StrField, false), Field("read", BoolField, true),
      Field("write", BoolField, true), Field("speak", BoolField, true)]
    case Memberships => [
      Field("organization", StrField, false), Field("durationInMonths", IntField, true),
      Field("location", StrField, true), Field("description", StrField, true)]
    case Training => [
      Field("trainingName", StrField, false), Field("organization", StrField, true),
      Field("location", StrField, true), Field("startDate", ObjectField(DateKeys), true),
      Field("endDate", ObjectField(DateKeys), true)]
    case Skilling => [
      Field("skillingName", StrField, false), Field("organization", StrField, true),
      Field("location", StrField, true), Field("startDate", ObjectField(DateKeys), true),
      Field("endDate", ObjectField(DateKeys), true), Field("description", StrField, true),
      Field("durationInMonths", IntField, true)]
    case Conferences => [
      Field("conferenceName", StrField, false), Field("organization", StrField, true),
      Field("location", StrField, true), Field("startDate", ObjectField(DateKeys), true),
      Field("endDate", ObjectField(DateKeys), true), Field("description", StrField, true),
      Field("durationInMonths", IntField, true)]
  }

  /** The names of the given fields, in order. */
  function NamesOf(fields: seq<Field>): seq<string> {
    seq(|fields|, i requires 0 <= i < |fields| => fields[i].name)
  }

  /** The names, in declaration order, of the fields from index `i` on
      that are not `Optional`. */
  function RequiredNamesFrom(fields: seq<Field>, i: nat): (names: seq<string>)
    requires i <= |fields|
    decreases |fields| - i
  {
    if i == |fields| then []
    else (if fields[i].nullable then [] else [fields[i].name]) + RequiredNamesFrom(fields, i + 1)
  }

  /** The names of the fields a kind declares, in declaration order. */
  function SchemaNames(kind: EntityKind): seq<string> {
    NamesOf(Schema(kind))
  }

  /** No name occurs twice. */
  predicate Distinct(names: seq<string>) {
    forall i, j :: 0 <= i < j < |names| ==> names[i] != names[j]
  }

  lemma PersonalNamesDistinct()
    ensures Distinct(SchemaNames(Personal))
  {
  }

  lemma MainNamesDistinct()
    ensures Distinct(SchemaNames(Skills))
    ensures Distinct(SchemaNames(Education))
  {
  }

  lemma WorkNamesDistinct()
    ensures Distinct(SchemaNames(EmploymentHistory))
    ensures Distinct(SchemaNames(Projects))
  {
  }

  lemma NamedNamesDistinct()
    ensures Distinct(SchemaNames(Certifications))
    ensures Distinct(SchemaNames(Awards))
    ensures Distinct(SchemaNames(Languages))
    ensures Distinct(SchemaNames(Memberships))
  {
  }

  lemma CourseNamesDistinct()
    ensures Distinct(SchemaNames(Training))
    ensures Distinct(SchemaNames(Skilling))
    ensures Distinct(SchemaNames(Conferences))
  {
  }

  /** A class never declares the same field name twice, so each name of a
      kind's catalogue entry picks out one field. */
  lemma SchemaNamesDistinct(kind: EntityKind)
    ensures Distinct(SchemaNames(kind))
  {
    match kind {
      case Personal => PersonalNamesDistinct();
      case Skills | Education => MainNamesDistinct();
      case EmploymentHistory | Projects => WorkNamesDistinct();
      case Certifications | Awards | Languages | Memberships => NamedNamesDistinct();
      case Training | Skilling | Conferences => CourseNamesDistinct();
    }
  }

  /** The names, in declaration order, of the fields a kind declares
      without `Optional`. */
  function RequiredNames(kind: EntityKind): seq<string> {
    RequiredNamesFrom(Schema(kind), 0)
  }

  /** When every field from index `i` on is `Optional`, none of them is
      required. */
  lemma {:induction false} AllOptionalNoneRequired(fields: seq<Field>, i: nat)
    requires i <= |fields|
    requires forall j :: i <= j < |fields| ==> fields[j].nullable
    ensures RequiredNamesFrom(fields, i) == []
    decreases |fields| - i
  {
    if i < |fields| {
      AllOptionalNoneRequired(fields, i + 1);
    }
  }

  /** Personal info has no required field; skills and education each
      require two. */
  lemma RequiredFieldsOfMainKinds()
    ensures RequiredNames(Personal) == []
    ensures RequiredNames(Skills) == ["skill", "occupation"]
    ensures RequiredNames(Education) == ["institution", "course"]
  {
    AllOptionalNoneRequired(Schema(Personal), 0);
  }

  /** Employment and projects each require a name and a type. */
  lemma RequiredFieldsOfWorkKinds()
    ensures RequiredNames(EmploymentHistory) == ["organizationName", "type"]
    ensures RequiredNames(Projects) == ["projectName", "type"]
  {
  }

  /** Certifications, awards, languages and memberships each require their
      name field and nothing else. */
  lemma RequiredFieldsOfNamedKinds()
    ensures RequiredNames(Certifications) == ["certificationName"]
    ensures RequiredNames(Awards) == ["awardName"]
    ensures RequiredNames(Languages) == ["language"]
    ensures RequiredNames(Memberships) == ["organization"]
  {
  }

  /** Training, skilling and conferences each require their name field and
      nothing else. */
  lemma RequiredFieldsOfCourseKinds()
    ensures RequiredNames(Training) == ["trainingName"]
    ensures RequiredNames(Skilling) == ["skillingName"]
    ensures RequiredNames(Conferences) == ["conferenceName"]
  {
  }

  /** A JSON value fits a declared field: null where the field is optional,
      otherwise a value of the declared type (an enumeration value from its
      literal set; a nested object with each of its keys null or a string). */
  predicate FieldConforms(v: Json, f: Field) {
    (f.nullable && v == JNull) ||
    match f.ty
    case StrField => v.JString?
    case IntField => v.JInt?
    case BoolField => v.JBool?
    case EnumField(values) => v.JString? && v.s in values
    case ObjectField(keys) =>
      v.JObject? && forall k :: k in keys ==> k in v.fields && (v.fields[k] == JNull || v.fields[k].JString?)
  }

  /** Field values, in declaration order, have the declared shape of a
      kind: one per declared field, each fitting its field. This is the shape
      the format instructions describe; nothing in the extraction checks it. */
  predicate FitsSchema(kind: EntityKind, values: seq<Json>) {
    var fields := Schema(kind);
    |values| == |fields| && forall i :: 0 <= i < |fields| ==> FieldConforms(values[i], fields[i])
  }

  // ================================================================ records as JSON

  function StrJson(o: Option<string>): Json {
    match o
    case None => JNull
    case Some(s) => JString(s)
  }

  function IntJson(o: Option<int>): Json {
    match o
    case None => JNull
    case Some(i) => JInt(i)
  }

  function BoolJson(o: Option<bool>): Json {
    match o
    case None => JNull
    case Some(b) => JBool(b)
  }

  function DateJson(o: Option<DateObject>): Json {
    match o
    case None => JNull
    case Some(d) => JObject(map["date" := StrJson(d.date), "month" := StrJson(d.month), "year" := StrJson(d.year)])
  }

  function MobileJson(o: Option<MobileNumber>): Json {
    match o
    case None => JNull
    case Some(m) => JObject(map["countryCode" := StrJson(m.countryCode), "number" := StrJson(m.number)])
  }

  function SocialJson(o: Option<SocialUrls>): Json {
    match o
    case None => JNull
    case Some(u) => JObject(map["linkedin" := StrJson(u.linkedin), "github" := StrJson(u.github)])
  }

  /** The JSON values of a record's fields in declaration order: `None` as
      null, enumerations by their value. */
  function FieldValues(r: Record): (values: seq<Json>)
    ensures |values| == |Schema(KindOf(r))|
  {
    match r
    case PersonalRecord(p) => [
      StrJson(p.firstName), StrJson(p.lastName), StrJson(p.email), MobileJson(p.mobileNumber),
      DateJson(p.dateOfBirth), StrJson(p.address), StrJson(p.country), StrJson(p.state),
      StrJson(p.city), StrJson(p.postalCode), StrJson(p.about), SocialJson(p.socialUrls)]
    case SkillsRecord(s) => [JString(s.skill), JString(s.occupation)]
    case EducationRecord(e) => [
      JString(e.institution), JString(e.course), StrJson(e.location),
      DateJson(e.startDate), DateJson(e.endDate), StrJson(e.description)]
    case EmploymentRecord(e) => [
      JString(e.organizationName), IntJson(e.durationInMonths), JString(EmploymentTypeValue(e.employmentType)),
      StrJson(e.location), DateJson(e.startDate), DateJson(e.endDate), StrJson(e.jobTitle)]
    case ProjectRecord(p) => [
      JString(p.projectName), DateJson(p.startDate), DateJson(p.endDate), IntJson(p.durationInMonths),
      StrJson(p.description), StrJson(p.organizationName), StrJson(p.location),
      JString(ProjectTypeValue(p.projectType))]
    case CertificationRecord(c) => [
      JString(c.certificationName), StrJson(c.organizationName), StrJson(c.location),
      DateJson(c.startDate), DateJson(c.endDate), IntJson(c.durationInMonths), StrJson(c.description)]
    case AwardRecord(a) => [
      JString(a.awardName), StrJson(a.location), DateJson(a.givenDate), StrJson(a.description)]
    case LanguageRecord(l) => [JString(l.language), BoolJson(l.read), BoolJson(l.write), BoolJson(l.speak)]
    case MembershipRecord(m) => [
      JString(m.organization), IntJson(m.durationInMonths), StrJson(m.location), StrJson(m.description)]
    case TrainingRecord(t) => [
      JString(t.trainingName), StrJson(t.organization), StrJson(t.location),
      DateJson(t.startDate), DateJson(t.endDate)]
    case SkillingRecord(s) => [
      JString(s.skillingName), StrJson(s.organization), StrJson(s.location), DateJson(s.startDate),
      DateJson(s.endDate), StrJson(s.description), IntJson(s.durationInMonths)]
    case ConferenceRecord(c) => [
      JString(c.conferenceName), StrJson(c.organization), StrJson(c.location), DateJson(c.startDate),
      DateJson(c.endDate), StrJson(c.description), IntJson(c.durationInMonths)]
  }

  /** The object with `names[i]` bound to `values[i]`. */
  function ObjectOf(names: seq<string>, values: seq<Json>): map<string, Json>
    requires |names| == |values|
  {
    if names == [] then map[]
    else ObjectOf(names[..|names| - 1], values[..|values| - 1])[names[|names| - 1] := values[|values| - 1]]
  }

  /** The object has exactly the given names as keys. */
  lemma {:induction false} ObjectOfKeys(names: seq<string>, values: seq<Json>)
    requires |names| == |values|
    ensures forall k :: k in ObjectOf(names, values) <==> k in names
  {
    if names != [] {
      var n := |names| - 1;
      ObjectOfKeys(names[..n], values[..n]);
      assert names == names[..n] + [names[n]];
    }
  }

  /** With distinct names, `names[i]` is bound to `values[i]`. */
  lemma {:induction false} ObjectOfBinds(names: seq<string>, values: seq<Json>, i: nat)
    requires |names| == |values| && Distinct(names) && i < |names|
    ensures names[i] in ObjectOf(names, values)
    ensures ObjectOf(names, values)[names[i]] == values[i]
  {
    var n := |names| - 1;
    if i < n {
      ObjectOfBinds(names[..n], values[..n], i);
    }
  }

  /** The JSON object the format instructions describe for a record: each
      declared field name bound to that field's value. */
  function ToJson(r: Record): Json {
    JObject(ObjectOf(SchemaNames(KindOf(r)), FieldValues(r)))
  }

  /** Each declared name of a record's kind is a key of its JSON object,
      bound to the value of that field. */
  lemma ToJsonBinds(r: Record)
    ensures forall i :: 0 <= i < |Schema(KindOf(r))| ==>
      SchemaNames(KindOf(r))[i] in ToJson(r).fields &&
      ToJson(r).fields[SchemaNames(KindOf(r))[i]] == FieldValues(r)[i]
  {
    var names, values := SchemaNames(KindOf(r)), FieldValues(r);
    SchemaNamesDistinct(KindOf(r));
    forall i | 0 <= i < |names| {
      ObjectOfBinds(names, values, i);
    }
  }

  // One lemma per schema class: its field values fit the catalogue.

  lemma PersonalInfoFits(x: PersonalInfo)
    ensures FitsSchema(KindOf(PersonalRecord(x)), FieldValues(PersonalRecord(x)))
  {
  }

  lemma SkillsItemFits(x: SkillsItem)
    ensures FitsSchema(KindOf(SkillsRecord(x)), FieldValues(SkillsRecord(x)))
  {
  }

  lemma EducationItemFits(x: EducationItem)
    ensures FitsSchema(KindOf(EducationRecord(x)), FieldValues(EducationRecord(x)))
  {
  }

  lemma EmploymentItemFits(x: EmploymentItem)
    ensures FitsSchema(KindOf(EmploymentRecord(x)), FieldValues(EmploymentRecord(x)))
  {
  }

  lemma ProjectItemFits(x: ProjectItem)
    ensures FitsSchema(KindOf(ProjectRecord(x)), FieldValues(ProjectRecord(x)))
  {
  }

  lemma CertificationItemFits(x: CertificationItem)
    ensures FitsSchema(KindOf(CertificationRecord(x)), FieldValues(CertificationRecord(x)))
  {
  }

  lemma AwardItemFits(x: AwardItem)
    ensures FitsSchema(KindOf(AwardRecord(x)), FieldValues(AwardRecord(x)))
  {
  }

  lemma LanguageItemFits(x: LanguageItem)
    ensures FitsSchema(KindOf(LanguageRecord(x)), FieldValues(LanguageRecord(x)))
  {
  }

  lemma MembershipItemFits(x: MembershipItem)
    ensures FitsSchema(KindOf(MembershipRecord(x)), FieldValues(MembershipRecord(x)))
  {
  }

  lemma TrainingItemFits(x: TrainingItem)
    ensures FitsSchema(KindOf(TrainingRecord(x)), FieldValues(TrainingRecord(x)))
  {
  }

  lemma SkillingItemFits(x: SkillingItem)
    ensures FitsSchema(KindOf(SkillingRecord(x)), FieldValues(SkillingRecord(x)))
  {
  }

  lemma ConferenceItemFits(x: ConferenceItem)
    ensures FitsSchema(KindOf(ConferenceRecord(x)), FieldValues(ConferenceRecord(x)))
  {
  }

  /** Every record is written as a JSON object whose keys are exactly its
      kind's declared field names, each bound to a value that fits its
      field: the typed records and the field catalogue describe the same
      shapes. */
  lemma RecordConforms(r: Record)
    ensures FitsSchema(KindOf(r), FieldValues(r))
    ensures forall k :: k in ToJson(r).fields <==> k in SchemaNames(KindOf(r))
    ensures forall i :: 0 <= i < |Schema(KindOf(r))| ==>
      FieldConforms(ToJson(r).fields[SchemaNames(KindOf(r))[i]], Schema(KindOf(r))[i])
  {
    ObjectOfKeys(SchemaNames(KindOf(r)), FieldValues(r));
    ToJsonBinds(r);
    match r {
      case PersonalRecord(x) => PersonalInfoFits(x);
      case SkillsRecord(x) => SkillsItemFits(x);
      case EducationRecord(x) => EducationItemFits(x);
      case EmploymentRecord(x) => EmploymentItemFits(x);
      case ProjectRecord(x) => ProjectItemFits(x);
      case CertificationRecord(x) => CertificationItemFits(x);
      case AwardRecord(x) => AwardItemFits(x);
      case LanguageRecord(x) => LanguageItemFits(x);
      case MembershipRecord(x) => MembershipItemFits(x);
      case TrainingRecord(x) => TrainingItemFits(x);
      case SkillingRecord(x) => SkillingItemFits(x);
      case ConferenceRecord(x) => ConferenceItemFits(x);
    }
  }

  // ================================================================ prompts

  /** The opening every template shares. */
  const RoleLine := "You are a resume parser.\n\n"

  /** What every template puts between the format instructions and the
      résumé text. */
  const ResumeTextMarker := "\n\nResume text:\n"

  /** The fixed text of each module-level template between the role line
      and `{format_instructions}`. */
  function TemplateBody(kind: EntityKind): string {
    match kind
    case Personal =>
      "Extract the following personal information from the resume text:\n"
      + "- firstName, lastName\n- email\n- mobileNumber (as object: countryCode, number)\n"
      + "- dateOfBirth (as object: date, month, year)\n- address, country, state, city, postalCode\n"
      + "- about\n- socialUrls (as object: linkedin, github)\n\n"
    case Skills =>
      "From the resume text, extract a list of skills and their corresponding occupations.\n"
      + "Each item should be a pair of:\n- skill (e.g., Python)\n- occupation (e.g., Software Developer)\n\n"
    case Education =>
      "From the resume text, extract all education details. For each entry, provide:\n"
      + "- institution\n- course (degree or program)\n- location\n- startDate (object: date, month, year)\n"
      + "- endDate (object: date, month, year)\n- description\n\nFormat output as a JSON list.\n\n"
    case EmploymentHistory =>
      "From the resume text, extract the employment history. For each job, provide:\n"
      + "- organizationName\n- durationInMonths\n- type (only one of: full_time, part_time, freelance, internship, own)\n"
      + "- location\n- startDate (object: date, month, year)\n- endDate (object: date, month, year)\n"
      + "- jobTitle\n\nFormat output as a JSON list.\n\n"
    case Projects =>
      "From the resume text, extract details about projects. For each project, return:\n"
      + "- projectName\n- startDate (object: date, month, year)\n- endDate (object: date, month, year)\n"
      + "- durationInMonths\n- description\n- organizationName\n- location\n"
      + "- type (only one of: own, employment, academic)\n\nReturn a JSON list of such objects.\n\n"
    case Certifications =>
      "From the resume text, extract certification details. For each certification, return:\n"
      + "- certificationName\n- organizationName\n- location\n- startDate (object: date, month, year)\n"
      + "- endDate (object: date, month, year)\n- durationInMonths\n- description\n\n"
      + "Return a JSON list of such objects.\n\n"
    case Awards =>
      "From the resume text, extract a list of awards or honors received by the person. For each award, include:\n"
      + "- awardName\n- location\n- givenDate (object: date, month, year)\n- description\n\n"
      + "Format the output as a JSON list.\n\n"
    case Languages =>
      "From the resume text, extract languages the person knows. For each language, return:\n"
      + "- language\n- read (true/false)\n- write (true/false)\n- speak (true/false)\n\n"
    case Memberships =>
      "Extract details about professional or academic memberships. For each, include:\n"
      + "- organization\n- durationInMonths\n- location\n- description\n\n"
    case Training =>
      "Extract training programs attended. For each one, return:\n"
      + "- trainingName\n- organization\n- location\n- startDate (date/month/year)\n- endDate (date/month/year)\n\n"
    case Skilling =>
      "From the resume text, extract skills learned through training. For each skill, include:\n"
      + "- skillingName\n- organization\n- location\n- startDate\n- endDate\n- description\n- durationInMonths\n\n"
    case Conferences =>
      "Extract all conferences attended. For each, include:\n"
      + "- conferenceName\n- organization\n- location\n- startDate\n- endDate\n- description\n- durationInMonths\n\n"
  }

  /** A module-level `PromptTemplate` filled in: the role line, the kind's
      instructions, the format instructions, the résumé-text marker, then the
      résumé text. */
  function TemplatePrompt(kind: EntityKind, formatInstructions: string, resumeText: string): string {
    RoleLine + TemplateBody(kind) + formatInstructions + ResumeTextMarker + resumeText
  }

  /** The prompt an extractor actually sends. `extract_skills` does not use
      the module-level skills template (nor the O*NET prompt it builds and
      drops): it sends the format instructions, a blank line, and the text. */
  function SentPrompt(kind: EntityKind, formatInstructions: string, resumeText: string): string {
    if kind == Skills then formatInstructions + "\n\n" + resumeText
    else TemplatePrompt(kind, formatInstructions, resumeText)
  }

  /** `head + text` splits back into `head` and `text`. */
  lemma SplitAt(head: string, text: string)
    ensures (head + text)[..|head|] == head
    ensures (head + text)[|head|..] == text
    ensures head + "" == head
  {
  }

  /** The part of the prompt that comes before the résumé text. */
  function PromptHead(kind: EntityKind, formatInstructions: string): string {
    if kind == Skills then formatInstructions + "\n\n"
    else RoleLine + TemplateBody(kind) + formatInstructions + ResumeTextMarker
  }

  /** The résumé text is a verbatim suffix of every prompt, and what precedes
      it does not depend on the text: it is the prompt for the empty text. */
  lemma PromptEndsWithText(kind: EntityKind, formatInstructions: string, resumeText: string)
    ensures SentPrompt(kind, formatInstructions, resumeText)
      == SentPrompt(kind, formatInstructions, "") + resumeText
    ensures EndsWith(SentPrompt(kind, formatInstructions, resumeText), resumeText)
  {
    var head := PromptHead(kind, formatInstructions);
    SplitAt(head, resumeText);
    SplitAt(head, "");
  }

  /** No truncation: different résumé texts always give different prompts. */
  lemma PromptInjective(kind: EntityKind, formatInstructions: string, t1: string, t2: string)
    requires SentPrompt(kind, formatInstructions, t1) == SentPrompt(kind, formatInstructions, t2)
    ensures t1 == t2
  {
    var p0 := SentPrompt(kind, formatInstructions, "");
    PromptEndsWithText(kind, formatInstructions, t1);
    PromptEndsWithText(kind, formatInstructions, t2);
    SplitAt(p0, t1);
    SplitAt(p0, t2);
  }

  /** A five-part concatenation starts with its first part and ends with
      its last three. */
  lemma FivePartShape(a: string, b: string, c: string, d: string, e: string)
    ensures StartsWith(a + b + c + d + e, a)
    ensures EndsWith(a + b + c + d + e, c + d + e)
  {
    var s := a + b + c + d + e;
    assert s == a + (b + (c + d + e));
    assert s == (a + b) + (c + d + e);
    SplitAt(a, b + (c + d + e));
    SplitAt(a + b, c + d + e);
  }

  /** A five-part concatenation is as long as its parts together. */
  lemma FivePartLength(a: string, b: string, c: string, d: string, e: string)
    ensures |a + b + c + d + e| == |a| + |b| + |c| + |d| + |e|
  {
  }

  /** Every template-built prompt opens with the role line and ends with
      the format instructions, the résumé-text marker and the text. */
  lemma TemplatePromptShape(kind: EntityKind, formatInstructions: string, resumeText: string)
    requires kind != Skills
    ensures StartsWith(SentPrompt(kind, formatInstructions, resumeText), RoleLine)
    ensures EndsWith(SentPrompt(kind, formatInstructions, resumeText), formatInstructions + ResumeTextMarker + resumeText)
  {
    FivePartShape(RoleLine, TemplateBody(kind), formatInstructions, ResumeTextMarker, resumeText);
  }

  /** The skills prompt carries no instruction text of its own: it is the
      format instructions, a blank line and the résumé text, and so it is
      shorter than the unused skills template would have been. */
  lemma SkillsPromptBare(formatInstructions: string, resumeText: string)
    ensures StartsWith(SentPrompt(Skills, formatInstructions, resumeText), formatInstructions + "\n\n")
    ensures |SentPrompt(Skills, formatInstructions, resumeText)| == |formatInstructions| + 2 + |resumeText|
    ensures SentPrompt(Skills, formatInstructions, resumeText) != TemplatePrompt(Skills, formatInstructions, resumeText)
  {
    SplitAt(formatInstructions + "\n\n", resumeText);
    FivePartLength(RoleLine, TemplateBody(Skills), formatInstructions, ResumeTextMarker, resumeText);
  }

  // ================================================================ extraction

  /** The foreign part of each chain: the completion service followed by
      `JsonOutputParser`, taking a prompt to the parsed JSON or to the
      message of what was raised; and each parser's rendered format
      instructions. */
  datatype Completion = Completion(complete: string -> Result<Json>, formatInstructions: EntityKind -> string)

  /** Every kind but personal info is extracted as a list. */
  predicate IsListKind(kind: EntityKind) {
    kind != Personal
  }

  /** `[result] if isinstance(result, dict) else result`: a single object
      is wrapped into a one-element list; anything else is passed through. */
  function Normalize(parsed: Json): (r: Json)
    ensures parsed.JObject? ==> r.JArray? && |r.items| == 1 && r.items[0] == parsed
    ensures !parsed.JObject? ==> r == parsed
    ensures !r.JObject?
  {
    if parsed.JObject? then JArray([parsed]) else parsed
  }

  /** Wrapping once is enough; and a bare object cannot be told apart from
      the one-element list holding it. */
  lemma NormalizeIdempotent(parsed: Json)
    ensures Normalize(Normalize(parsed)) == Normalize(parsed)
    ensures parsed.JObject? ==> Normalize(parsed) == Normalize(JArray([parsed]))
  {
  }

  /** `extract_<kind>`: send the kind's prompt through the chain; a raised
      exception propagates, personal info is returned as parsed, and every
      list kind's result is normalised. Nothing checks the parsed value
      against the kind's schema. */
  function Extract(kind: EntityKind, chain: Completion, resumeText: string): (r: Result<Json>)
    ensures
      var answer := chain.complete(SentPrompt(kind, chain.formatInstructions(kind), resumeText));
      && (answer.Failure? ==> r == answer)
      && (answer.Success? && kind == Personal ==> r == answer)
      && (answer.Success? && answer.value.JObject? && IsListKind(kind) ==> r == Success(JArray([answer.value])))
      && (answer.Success? && !answer.value.JObject? && IsListKind(kind) ==> r == answer)
  {
    var answer := chain.complete(SentPrompt(kind, chain.formatInstructions(kind), resumeText));
    match answer
    case Failure(e) => Failure(e)
    case Success(parsed) => if IsListKind(kind) then Success(Normalize(parsed)) else Success(parsed)
  }

  /** A list kind never returns a single object. */
  lemma ExtractListKindNeverObject(kind: EntityKind, chain: Completion, resumeText: string)
    requires IsListKind(kind)
    requires Extract(kind, chain, resumeText).Success?
    ensures !Extract(kind, chain, resumeText).value.JObject?
  {
  }
}
