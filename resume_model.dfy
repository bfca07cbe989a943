/**
 * The resume document: its entry types, the layout enumeration with its
 * default, the stored document (owner, timestamps) and the partial field set
 * that request bodies and inline render data carry.
 */
module ResumeModel {
  import opened Wrappers
  import opened Js

  /** The authenticated caller, and the owner of a stored resume. */
  type UserId = string

  /** A stored resume's identifier, assigned by the store. */
  type ResumeId = nat

  /** The four layouts the schema admits. */
  datatype LayoutType = Modern | Classic | Minimal | Creative

  /** The schema's default layout. */
  const DefaultLayout: LayoutType := Modern

  /** The name under which a layout is stored and requested. */
  function LayoutName(l: LayoutType): (name: string)
    ensures ParseLayout(name) == Some(l)
  {
    match l
    case Modern => "modern"
    case Classic => "classic"
    case Minimal => "minimal"
    case Creative => "creative"
  }

  /** The schema's enum check: a name is accepted exactly when it is one of the four. */
  function ParseLayout(name: string): (r: Option<LayoutType>)
    ensures r.Some? <==> name in ["modern", "classic", "minimal", "creative"]
  {
    if name == "modern" then Some(Modern)
    else if name == "classic" then Some(Classic)
    else if name == "minimal" then Some(Minimal)
    else if name == "creative" then Some(Creative)
    else None
  }

  /** A `technologies` value: an array of strings as stored, or the single string a form sends. */
  datatype TextOrList = Text(text: string) | List(items: seq<string>)

  /** JavaScript truthiness of a `technologies` value: any array, or a non-empty string. */
  predicate TechTruthy(t: Option<TextOrList>) {
    match t
    case None => false
    case Some(Text(s)) => s != ""
    case Some(List(_)) => true
  }

  /**
   * A plain text field viewed as a value of the `technologies` field's type,
   * so that an editor can read every field of an entry the same way.
   */
  function AsText(s: OptStr): (t: Option<TextOrList>)
    ensures t.Some? <==> s.Some?
    ensures s.Some? ==> t.value == Text(s.value)
  {
    if s.Some? then Some(Text(s.value)) else None
  }

  /** `${technologies}`: an array prints its items joined by "," without spaces. */
  function TechText(t: Option<TextOrList>): string {
    match t
    case None => "undefined"
    case Some(Text(s)) => s
    case Some(List(items)) => Join(items, ",")
  }

  datatype PersonalInfo = PersonalInfo(
    fullName: OptStr, email: OptStr, phone: OptStr, location: OptStr,
    portfolio: OptStr, linkedin: OptStr, github: OptStr)

  /** The personal information of a document created without any. */
  const NoPersonalInfo := PersonalInfo(None, None, None, None, None, None, None)

  datatype Experience = Experience(
    company: OptStr, position: OptStr, duration: OptStr, description: OptStr,
    technologies: Option<TextOrList>)

  datatype Education = Education(
    institution: OptStr, degree: OptStr, field: OptStr, graduationYear: OptStr)

  datatype Project = Project(
    name: OptStr, description: OptStr, technologies: Option<TextOrList>,
    link: OptStr, github: OptStr)

  datatype Certification = Certification(name: OptStr, issuer: OptStr, date: OptStr)

  /** Both skill lists; an absent list is the empty one. */
  datatype Skills = Skills(technical: seq<string>, soft: seq<string>)

  const NoSkills := Skills([], [])

  /** A stored resume document. `updatedAt` is a logical clock, not a time. */
  datatype Resume = Resume(
    id: ResumeId,
    userId: UserId,
    personalInfo: PersonalInfo,
    summary: OptStr,
    experience: seq<Experience>,
    education: seq<Education>,
    skills: Skills,
    projects: seq<Project>,
    certifications: seq<Certification>,
    layoutType: LayoutType,
    createdAt: nat,
    updatedAt: nat)

  /** The document fields as a request body or inline render data carries them: any may be absent. */
  datatype ResumeFields = ResumeFields(
    personalInfo: Option<PersonalInfo>,
    summary: OptStr,
    experience: Option<seq<Experience>>,
    education: Option<seq<Education>>,
    skills: Option<Skills>,
    projects: Option<seq<Project>>,
    certifications: Option<seq<Certification>>,
    layoutType: OptStr)

  /** A body with no fields at all. */
  const NoFields := ResumeFields(None, None, None, None, None, None, None, None)

  /** A stored document as the renderer reads it: every field present. */
  function AsFields(r: Resume): ResumeFields {
    ResumeFields(Some(r.personalInfo), r.summary, Some(r.experience), Some(r.education),
      Some(r.skills), Some(r.projects), Some(r.certifications), Some(LayoutName(r.layoutType)))
  }

  // -----------------------------------------------------------------------
  // Casting to the schema's `[String]` arrays

  /** The schema's cast of `technologies`: a string becomes a one-item array, a missing one the empty array. */
  function CastTechnologies(t: Option<TextOrList>): (r: TextOrList)
    ensures r.List?
    ensures t.Some? && t.value.List? ==> r == t.value
    ensures t.Some? && t.value.Text? ==> r.items == [t.value.text]
    ensures t.None? ==> r.items == []
  {
    match t
    case None => List([])
    case Some(Text(s)) => List([s])
    case Some(List(items)) => List(items)
  }

  function CastExperience(e: Experience): Experience {
    e.(technologies := Some(CastTechnologies(e.technologies)))
  }

  function CastProject(p: Project): Project {
    p.(technologies := Some(CastTechnologies(p.technologies)))
  }

  /** Every experience and project entry holds its technologies as an array of strings. */
  predicate SchemaShaped(experience: seq<Experience>, projects: seq<Project>) {
    && (forall i :: 0 <= i < |experience| ==>
          experience[i].technologies.Some? && experience[i].technologies.value.List?)
    && (forall i :: 0 <= i < |projects| ==>
          projects[i].technologies.Some? && projects[i].technologies.value.List?)
  }

  /** Casts every experience entry; no other entry field changes and the order is kept. */
  function CastExperienceList(xs: seq<Experience>): (r: seq<Experience>)
    ensures SchemaShaped(r, [])
    ensures |r| == |xs|
    ensures forall i :: 0 <= i < |xs| ==> r[i].(technologies := xs[i].technologies) == xs[i]
  {
    seq(|xs|, i requires 0 <= i < |xs| => CastExperience(xs[i]))
  }

  /** Casts every project entry; no other entry field changes and the order is kept. */
  function CastProjectList(xs: seq<Project>): (r: seq<Project>)
    ensures SchemaShaped([], r)
    ensures |r| == |xs|
    ensures forall i :: 0 <= i < |xs| ==> r[i].(technologies := xs[i].technologies) == xs[i]
  {
    seq(|xs|, i requires 0 <= i < |xs| => CastProject(xs[i]))
  }

  /** Casting entries that are already arrays changes nothing. */
  lemma CastIdempotent(experience: seq<Experience>, projects: seq<Project>)
    requires SchemaShaped(experience, projects)
    ensures CastExperienceList(experience) == experience
    ensures CastProjectList(projects) == projects
  {
    assert CastExperienceList(experience) == experience;
    assert CastProjectList(projects) == projects;
  }
}
