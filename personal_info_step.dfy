/**
 * The personal-information step of the builder: typing into a field, which
 * also clears that field's error, and the GitHub auto-fill, which merges the
 * fetched profile into the form and replaces summary, projects and
 * technical skills only with non-empty GitHub values.
 */
module PersonalInfoStep {
  import opened Wrappers
  import opened Js
  import opened ResumeModel
  import opened GitHubService
  import opened ResumeContext

  datatype PersonalField = FullName | Email | Phone | Location | Portfolio | LinkedIn | GitHub

  /** The value of one field of the form. */
  function Get(p: PersonalInfo, field: PersonalField): OptStr {
    match field
    case FullName => p.fullName
    case Email => p.email
    case Phone => p.phone
    case Location => p.location
    case Portfolio => p.portfolio
    case LinkedIn => p.linkedin
    case GitHub => p.github
  }

  /** `{ ...prev, [name]: value }` on the form. */
  function SetField(p: PersonalInfo, field: PersonalField, value: string): (r: PersonalInfo)
    ensures forall g :: Get(r, g) == if g == field then Some(value) else Get(p, g)
  {
    match field
    case FullName => p.(fullName := Some(value))
    case Email => p.(email := Some(value))
    case Phone => p.(phone := Some(value))
    case Location => p.(location := Some(value))
    case Portfolio => p.(portfolio := Some(value))
    case LinkedIn => p.(linkedin := Some(value))
    case GitHub => p.(github := Some(value))
  }

  /** The form and the per-field error messages. */
  datatype PersonalForm = PersonalForm(data: PersonalInfo, errors: map<PersonalField, string>)

  /**
   * Typing `value` into `field`: only that field changes, and only that
   * field's error is cleared, and only when it had a non-empty one.
   */
  function HandleChange(f: PersonalForm, field: PersonalField, value: string): (r: PersonalForm)
    ensures forall g :: Get(r.data, g) == if g == field then Some(value) else Get(f.data, g)
    ensures field in f.errors && f.errors[field] != "" ==> r.errors == f.errors[field := ""]
    ensures !(field in f.errors && f.errors[field] != "") ==> r.errors == f.errors
  {
    var errors := if field in f.errors && f.errors[field] != "" then f.errors[field := ""] else f.errors;
    PersonalForm(SetField(f.data, field, value), errors)
  }

  /** Typing never creates an error and never changes another field's error. */
  lemma ChangeKeepsOtherErrors(f: PersonalForm, field: PersonalField, value: string)
    ensures HandleChange(f, field, value).errors.Keys == f.errors.Keys
    ensures forall g :: g in f.errors && g != field ==> HandleChange(f, field, value).errors[g] == f.errors[g]
  {
  }

  /** The outcome of an auto-fill: the form and the builder's resume. */
  datatype AutoFilled = AutoFilled(form: PersonalInfo, draft: Draft)

  /**
   * The auto-fill merge. No data changes nothing. Otherwise name, location,
   * portfolio and GitHub link take the GitHub value when it is non-empty;
   * email, phone and LinkedIn are kept; summary, projects and technical
   * skills are replaced only by a non-empty GitHub value, and the soft
   * skills are kept.
   */
  function GitHubAutoFill(form: PersonalInfo, draft: Draft, data: Option<GitHubData>): (r: AutoFilled)
    ensures data.None? ==> r == AutoFilled(form, draft)
    ensures data.Some? ==>
      && r.form.fullName == OrElse(data.value.personalInfo.fullName, form.fullName)
      && r.form.location == OrElse(data.value.personalInfo.location, form.location)
      && r.form.portfolio == OrElse(data.value.personalInfo.portfolio, form.portfolio)
      && r.form.github == OrElse(data.value.personalInfo.github, form.github)
    ensures r.form.email == form.email && r.form.phone == form.phone && r.form.linkedin == form.linkedin
    ensures data.Some? && data.value.summary != "" ==> r.draft.summary == Some(data.value.summary)
    ensures data.Some? && |data.value.projects| > 0 ==> r.draft.projects == data.value.projects
    ensures data.Some? && |data.value.technical| > 0 ==> r.draft.skills.technical == data.value.technical
    ensures r.draft.skills.soft == draft.skills.soft
    ensures data.None? || data.value.summary == "" ==> r.draft.summary == draft.summary
    ensures data.None? || |data.value.projects| == 0 ==> r.draft.projects == draft.projects
    ensures data.None? || |data.value.technical| == 0 ==> r.draft.skills == draft.skills
    ensures r.draft.(summary := draft.summary, projects := draft.projects, skills := draft.skills) == draft
  {
    if data.None? then AutoFilled(form, draft)
    else
      var d := data.value;
      var merged := form.(
        fullName := OrElse(d.personalInfo.fullName, form.fullName),
        location := OrElse(d.personalInfo.location, form.location),
        portfolio := OrElse(d.personalInfo.portfolio, form.portfolio),
        github := OrElse(d.personalInfo.github, form.github));
      var withSummary := if d.summary != "" then WithSection(draft, SummaryData(Some(d.summary))) else draft;
      var withProjects := if |d.projects| > 0 then WithSection(withSummary, ProjectsData(d.projects)) else withSummary;
      var withSkills := if |d.technical| > 0 then WithSection(withProjects, SkillsData(Skills(d.technical, draft.skills.soft)))
                        else withProjects;
      AutoFilled(merged, withSkills)
  }

  /**
   * Auto-filling from a profile without a display name, location, blog or
   * bio, and without repositories: the typed name is replaced by the login,
   * the link is set, and the typed location and portfolio, the summary, the
   * projects and the skills are all kept.
   */
  lemma NamelessProfileUsesLogin(form: PersonalInfo, draft: Draft, profile: Profile)
    requires profile.name.None? && profile.login != ""
    requires profile.location.None? && profile.blog.None? && profile.bio.None?
    ensures var r := GitHubAutoFill(form, draft, Some(ParseGitHubData(profile, [])));
      && r.form == form.(fullName := Some(profile.login), github := OrElse(Some(profile.htmlUrl), form.github))
      && r.draft == draft
  {
    var d := ParseGitHubData(profile, []);
    assert d.projects == [];
    assert d.technical == [];
  }
}
