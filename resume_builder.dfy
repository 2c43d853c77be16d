/** The resume builder page: personal details, an experience sublist and an
    education sublist edited in place, and a preview computed from them. */
module ResumeBuilder {
  import opened Wrappers
  import opened Seqs
  import opened Strings
  import opened EntryList

  datatype ExperienceFields = ExperienceFields(title: string, company: string, duration: string, description: string)

  /** The experience fields the form edits. */
  datatype ExperienceField = Title | Company | Duration | Description

  type Experience = Entry<ExperienceFields>

  const BlankExperience := ExperienceFields("", "", "", "")

  function ExperienceValue(e: ExperienceFields, f: ExperienceField): string {
    match f
    case Title => e.title
    case Company => e.company
    case Duration => e.duration
    case Description => e.description
  }

  /** `{ ...e, [field]: value }` on an experience. */
  function WithExperienceValue(e: ExperienceFields, f: ExperienceField, v: string): (r: ExperienceFields)
    ensures ExperienceValue(r, f) == v
    ensures forall g :: g != f ==> ExperienceValue(r, g) == ExperienceValue(e, g)
  {
    match f
    case Title => e.(title := v)
    case Company => e.(company := v)
    case Duration => e.(duration := v)
    case Description => e.(description := v)
  }

  datatype EducationFields = EducationFields(degree: string, institution: string, year: string)

  /** The education fields the form edits. */
  datatype EducationField = Degree | Institution | Year

  type Education = Entry<EducationFields>

  const BlankEducation := EducationFields("", "", "")

  function EducationValue(e: EducationFields, f: EducationField): string {
    match f
    case Degree => e.degree
    case Institution => e.institution
    case Year => e.year
  }

  /** `{ ...e, [field]: value }` on an education entry. */
  function WithEducationValue(e: EducationFields, f: EducationField, v: string): (r: EducationFields)
    ensures EducationValue(r, f) == v
    ensures forall g :: g != f ==> EducationValue(r, g) == EducationValue(e, g)
  {
    match f
    case Degree => e.(degree := v)
    case Institution => e.(institution := v)
    case Year => e.(year := v)
  }

  /** The experience list after `updateExperience(id, field, v)`: `field`
      becomes `v` on the entries with that id; their other fields, every other
      entry, the ids and the order are untouched. */
  function UpdatedExperiences(s: seq<Experience>, id: string, f: ExperienceField, v: string): (r: seq<Experience>)
    ensures |r| == |s|
    ensures forall i :: 0 <= i < |s| ==> r[i].id == s[i].id
    ensures forall i :: 0 <= i < |s| && s[i].id == id ==> ExperienceValue(r[i].data, f) == v
    ensures forall i, g :: 0 <= i < |s| && (s[i].id != id || g != f) ==>
              ExperienceValue(r[i].data, g) == ExperienceValue(s[i].data, g)
    ensures DistinctIds(s) ==> DistinctIds(r)
  {
    UpdateWhere(s, id, (e: ExperienceFields) => WithExperienceValue(e, f, v))
  }

  /** The education list after `updateEducation(id, field, v)`, with the same
      one-field, one-id guarantee as for experiences. */
  function UpdatedEducation(s: seq<Education>, id: string, f: EducationField, v: string): (r: seq<Education>)
    ensures |r| == |s|
    ensures forall i :: 0 <= i < |s| ==> r[i].id == s[i].id
    ensures forall i :: 0 <= i < |s| && s[i].id == id ==> EducationValue(r[i].data, f) == v
    ensures forall i, g :: 0 <= i < |s| && (s[i].id != id || g != f) ==>
              EducationValue(r[i].data, g) == EducationValue(s[i].data, g)
    ensures DistinctIds(s) ==> DistinctIds(r)
  {
    UpdateWhere(s, id, (e: EducationFields) => WithEducationValue(e, f, v))
  }

  /** The personal-details part of the form. */
  datatype FormData = FormData(fullName: string, email: string, phone: string, summary: string, skills: string)

  datatype PersonalField = FullName | Email | Phone | Summary | Skills

  const EmptyForm := FormData("", "", "", "", "")

  function FormValue(d: FormData, f: PersonalField): string {
    match f
    case FullName => d.fullName
    case Email => d.email
    case Phone => d.phone
    case Summary => d.summary
    case Skills => d.skills
  }

  /** `{ ...formData, [field]: value }`. */
  function WithFormValue(d: FormData, f: PersonalField, v: string): (r: FormData)
    ensures FormValue(r, f) == v
    ensures forall g :: g != f ==> FormValue(r, g) == FormValue(d, g)
  {
    match f
    case FullName => d.(fullName := v)
    case Email => d.(email := v)
    case Phone => d.(phone := v)
    case Summary => d.(summary := v)
    case Skills => d.(skills := v)
  }

  // ---------------------------------------------------------------- preview

  const NamePlaceholder := "Your Name"

  /** What the preview shows. An absent optional part is not rendered. */
  datatype Preview = Preview(
    heading: string,
    email: string,
    phone: Option<string>,
    summary: Option<string>,
    skills: Option<seq<string>>,
    experiences: seq<Experience>,
    education: seq<Education>)

  /** `skills.split(",").map(s => s.trim())`: one chip per comma-separated
      piece, each trimmed. */
  function SkillChips(skills: string): (chips: seq<string>)
    ensures |chips| == Occurrences(skills, ',') + 1
    ensures forall i :: 0 <= i < |chips| ==> Trimmed(chips[i]) && ',' !in chips[i]
    ensures forall i :: 0 <= i < |chips| ==> chips[i] == Trim(Split(skills, ',')[i])
  {
    var pieces := Split(skills, ',');
    seq(|pieces|, i requires 0 <= i < |pieces| => Trim(pieces[i]))
  }

  /** `experiences.filter(e => e.title)`: the entries whose title is not the
      empty string (a title of spaces counts as given), in list order. */
  function VisibleExperiences(s: seq<Experience>): (r: seq<Experience>)
    ensures forall i :: 0 <= i < |r| ==> r[i] in s && r[i].data.title != ""
    ensures forall i :: 0 <= i < |s| && s[i].data.title != "" ==> s[i] in r
  {
    Filter(s, (e: Experience) => e.data.title != "")
  }

  /** `education.filter(e => e.degree)`. */
  function VisibleEducation(s: seq<Education>): (r: seq<Education>)
    ensures forall i :: 0 <= i < |r| ==> r[i] in s && r[i].data.degree != ""
    ensures forall i :: 0 <= i < |s| && s[i].data.degree != "" ==> s[i] in r
  {
    Filter(s, (e: Education) => e.data.degree != "")
  }

  /** The preview of the current form. */
  function RenderPreview(d: FormData, exps: seq<Experience>, edus: seq<Education>): (p: Preview)
    ensures p.heading != ""
    ensures d.fullName != "" ==> p.heading == d.fullName
    ensures d.fullName == "" ==> p.heading == NamePlaceholder
    ensures p.email == d.email
    ensures p.phone.Some? <==> d.phone != ""
    ensures p.phone.Some? ==> p.phone.value == d.phone
    ensures p.summary.Some? <==> d.summary != ""
    ensures p.summary.Some? ==> p.summary.value == d.summary
    ensures p.skills.Some? <==> d.skills != ""
    ensures p.skills.Some? ==> |p.skills.value| == Occurrences(d.skills, ',') + 1
    ensures p.skills.Some? ==> p.skills.value == SkillChips(d.skills)
    ensures p.experiences == VisibleExperiences(exps)
    ensures p.education == VisibleEducation(edus)
  {
    Preview(
      if d.fullName == "" then NamePlaceholder else d.fullName,
      d.email,
      if d.phone == "" then None else Some(d.phone),
      if d.summary == "" then None else Some(d.summary),
      if d.skills == "" then None else Some(SkillChips(d.skills)),
      VisibleExperiences(exps),
      VisibleEducation(edus))
  }

  /** A freshly added, still blank experience never shows in the preview. */
  lemma AddedExperienceHidden(s: seq<Experience>, id: string)
    ensures VisibleExperiences(Add(s, id, BlankExperience)) == VisibleExperiences(s)
  {
    var p := (e: Experience) => e.data.title != "";
    FilterAppend(s, [Entry(id, BlankExperience)], p);
    assert Filter([Entry(id, BlankExperience)], p) == [];
  }

  /** A freshly added, still blank education entry never shows in the preview. */
  lemma AddedEducationHidden(s: seq<Education>, id: string)
    ensures VisibleEducation(Add(s, id, BlankEducation)) == VisibleEducation(s)
  {
    var p := (e: Education) => e.data.degree != "";
    FilterAppend(s, [Entry(id, BlankEducation)], p);
    assert Filter([Entry(id, BlankEducation)], p) == [];
  }

  /** Editing a field other than the title never changes which experiences
      the preview lists, nor their order. */
  lemma {:induction false} NonTitleEditKeepsVisibility(s: seq<Experience>, id: string, f: ExperienceField, v: string)
    requires f != Title
    ensures |VisibleExperiences(UpdatedExperiences(s, id, f, v))| == |VisibleExperiences(s)|
    ensures Ids(VisibleExperiences(UpdatedExperiences(s, id, f, v))) == Ids(VisibleExperiences(s))
  {
    var r := UpdatedExperiences(s, id, f, v);
    if s != [] {
      NonTitleEditKeepsVisibility(s[1..], id, f, v);
      assert r[1..] == UpdatedExperiences(s[1..], id, f, v);
      assert ExperienceValue(r[0].data, Title) == ExperienceValue(s[0].data, Title);
    }
  }

  // ------------------------------------------------------------- the page

  /** The page's state: `formData`, `experiences`, `education`, `showPreview`. */
  class Builder {
    var formData: FormData
    var experiences: seq<Experience>
    var education: seq<Education>
    var showPreview: bool

    /** Both sublists are non-empty and their ids are distinct. */
    ghost predicate Valid()
      reads this
    {
      |experiences| >= 1 && DistinctIds(experiences) &&
      |education| >= 1 && DistinctIds(education)
    }

    constructor ()
      ensures Valid()
      ensures formData == EmptyForm && !showPreview
      ensures experiences == [Entry("1", BlankExperience)]
      ensures education == [Entry("1", BlankEducation)]
    {
      formData := EmptyForm;
      experiences := [Entry("1", BlankExperience)];
      education := [Entry("1", BlankEducation)];
      showPreview := false;
    }

    /** The preview shown when `showPreview` is on. */
    function Render(): (p: Preview)
      reads this
      ensures p == RenderPreview(formData, experiences, education)
    {
      RenderPreview(formData, experiences, education)
    }

    /** The "Preview"/"Edit" button: flips the view, nothing else. */
    method TogglePreview()
      modifies this`showPreview
      ensures showPreview == !old(showPreview)
    {
      showPreview := !showPreview;
    }

    /** An `onChange` handler of a personal-details input. */
    method SetFormField(f: PersonalField, v: string)
      requires Valid()
      modifies this`formData
      ensures Valid()
      ensures formData == WithFormValue(old(formData), f, v)
    {
      formData := WithFormValue(formData, f, v);
    }

    /** `addExperience`, with the id `Date.now()` would produce passed in;
        the id must not already be in use. */
    method AddExperience(freshId: string)
      requires Valid() && !HasId(experiences, freshId)
      modifies this`experiences
      ensures Valid()
      ensures experiences == Add(old(experiences), freshId, BlankExperience)
    {
      experiences := Add(experiences, freshId, BlankExperience);
    }

    method RemoveExperience(id: string)
      requires Valid()
      modifies this`experiences
      ensures Valid()
      ensures experiences == Remove(old(experiences), id)
    {
      experiences := Remove(experiences, id);
    }

    method UpdateExperience(id: string, f: ExperienceField, v: string)
      requires Valid()
      modifies this`experiences
      ensures Valid()
      ensures experiences == UpdatedExperiences(old(experiences), id, f, v)
    {
      experiences := UpdatedExperiences(experiences, id, f, v);
    }

    method AddEducation(freshId: string)
      requires Valid() && !HasId(education, freshId)
      modifies this`education
      ensures Valid()
      ensures education == Add(old(education), freshId, BlankEducation)
    {
      education := Add(education, freshId, BlankEducation);
    }

    method RemoveEducation(id: string)
      requires Valid()
      modifies this`education
      ensures Valid()
      ensures education == Remove(old(education), id)
    {
      education := Remove(education, id);
    }

    method UpdateEducation(id: string, f: EducationField, v: string)
      requires Valid()
      modifies this`education
      ensures Valid()
      ensures education == UpdatedEducation(old(education), id, f, v)
    {
      education := UpdatedEducation(education, id, f, v);
    }
  }
}
