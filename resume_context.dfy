/**
 * The resume builder's shared state: the step the user is on (0 to 7) and
 * the resume being edited, with the operations the steps call to move
 * between steps, replace one section, and save.
 */
module ResumeContext {
  import opened Wrappers
  import opened Js
  import opened ResumeModel
  import ResumeStore

  /** The resume as the builder holds it; `id` is present once the resume has been stored. */
  datatype Draft = Draft(
    id: Option<ResumeId>,
    personalInfo: PersonalInfo,
    summary: OptStr,
    experience: seq<Experience>,
    education: seq<Education>,
    skills: Skills,
    projects: seq<Project>,
    certifications: seq<Certification>,
    layoutType: string)

  /** The empty resume the builder starts from: empty strings and lists, and the modern layout. */
  const InitialDraft := Draft(
    None,
    PersonalInfo(Some(""), Some(""), Some(""), Some(""), Some(""), Some(""), Some("")),
    Some(""), [], [], NoSkills, [], [], "modern")

  // -----------------------------------------------------------------------
  // Sections

  datatype SectionName =
    | PersonalInfoSection | SummarySection | ExperienceSection | EducationSection
    | SkillsSection | ProjectsSection | CertificationsSection | LayoutSection

  /** A top-level section together with its new content. */
  datatype Section =
    | PersonalInfoData(personalInfo: PersonalInfo)
    | SummaryData(summary: OptStr)
    | ExperienceData(experience: seq<Experience>)
    | EducationData(education: seq<Education>)
    | SkillsData(skills: Skills)
    | ProjectsData(projects: seq<Project>)
    | CertificationsData(certifications: seq<Certification>)
    | LayoutData(layoutType: string)

  function NameOf(s: Section): SectionName {
    match s
    case PersonalInfoData(_) => PersonalInfoSection
    case SummaryData(_) => SummarySection
    case ExperienceData(_) => ExperienceSection
    case EducationData(_) => EducationSection
    case SkillsData(_) => SkillsSection
    case ProjectsData(_) => ProjectsSection
    case CertificationsData(_) => CertificationsSection
    case LayoutData(_) => LayoutSection
  }

  /** The content of one section of a draft. */
  function SectionOf(d: Draft, n: SectionName): (s: Section)
    ensures NameOf(s) == n
  {
    match n
    case PersonalInfoSection => PersonalInfoData(d.personalInfo)
    case SummarySection => SummaryData(d.summary)
    case ExperienceSection => ExperienceData(d.experience)
    case EducationSection => EducationData(d.education)
    case SkillsSection => SkillsData(d.skills)
    case ProjectsSection => ProjectsData(d.projects)
    case CertificationsSection => CertificationsData(d.certifications)
    case LayoutSection => LayoutData(d.layoutType)
  }

  /** Drafts with the same identifier and the same content in every section are the same draft. */
  lemma {:induction false} SectionsDetermineDraft(a: Draft, b: Draft)
    requires a.id == b.id
    requires forall n :: SectionOf(a, n) == SectionOf(b, n)
    ensures a == b
  {
    assert SectionOf(a, PersonalInfoSection) == SectionOf(b, PersonalInfoSection);
    assert SectionOf(a, SummarySection) == SectionOf(b, SummarySection);
    assert SectionOf(a, ExperienceSection) == SectionOf(b, ExperienceSection);
    assert SectionOf(a, EducationSection) == SectionOf(b, EducationSection);
    assert SectionOf(a, SkillsSection) == SectionOf(b, SkillsSection);
    assert SectionOf(a, ProjectsSection) == SectionOf(b, ProjectsSection);
    assert SectionOf(a, CertificationsSection) == SectionOf(b, CertificationsSection);
    assert SectionOf(a, LayoutSection) == SectionOf(b, LayoutSection);
  }

  /** `{ ...prev, [section]: data }`: the named section holds the new content, every other section and the identifier are kept. */
  function WithSection(d: Draft, s: Section): (r: Draft)
    ensures r.id == d.id
    ensures forall n :: SectionOf(r, n) == if n == NameOf(s) then s else SectionOf(d, n)
  {
    match s
    case PersonalInfoData(p) => d.(personalInfo := p)
    case SummaryData(x) => d.(summary := x)
    case ExperienceData(x) => d.(experience := x)
    case EducationData(x) => d.(education := x)
    case SkillsData(x) => d.(skills := x)
    case ProjectsData(x) => d.(projects := x)
    case CertificationsData(x) => d.(certifications := x)
    case LayoutData(x) => d.(layoutType := x)
  }

  /** Writing back a section's own content changes nothing. */
  lemma WithOwnSection(d: Draft, n: SectionName)
    ensures WithSection(d, SectionOf(d, n)) == d
  {
    SectionsDetermineDraft(WithSection(d, SectionOf(d, n)), d);
  }

  // -----------------------------------------------------------------------
  // Steps

  /** The last of the eight steps, numbered from 0. */
  const LastStep := 7

  datatype StepMove = Next | Prev | GoTo(target: int)

  /** The step after a move: forward until the last, back until the first, and a jump only to a step that exists. */
  function StepAfter(step: int, move: StepMove): (next: int)
    ensures 0 <= step <= LastStep ==> 0 <= next <= LastStep
    ensures move.Next? ==> next == step + 1 || (next == step && step >= LastStep)
    ensures move.Prev? ==> next == step - 1 || (next == step && step <= 0)
    ensures move.GoTo? && 0 <= move.target <= LastStep ==> next == move.target
    ensures move.GoTo? && !(0 <= move.target <= LastStep) ==> next == step
  {
    match move
    case Next => if step < LastStep then step + 1 else step
    case Prev => if step > 0 then step - 1 else step
    case GoTo(target) => if 0 <= target <= LastStep then target else step
  }

  /** The step after a sequence of moves. */
  function StepAfterAll(step: int, moves: seq<StepMove>): int
    decreases |moves|
  {
    if moves == [] then step else StepAfterAll(StepAfter(step, moves[0]), moves[1..])
  }

  /** Whatever the user clicks, the step stays between the first and the last. */
  lemma {:induction false} StepStaysInRange(step: int, moves: seq<StepMove>)
    requires 0 <= step <= LastStep
    ensures 0 <= StepAfterAll(step, moves) <= LastStep
    decreases |moves|
  {
    if moves != [] {
      StepStaysInRange(StepAfter(step, moves[0]), moves[1..]);
    }
  }

  /** `n` presses of the next button. */
  function Forward(n: nat): (moves: seq<StepMove>)
    ensures |moves| == n && forall i :: 0 <= i < n ==> moves[i] == Next
  {
    seq(n, _ => Next)
  }

  /**
   * From any step, enough forward moves reach the last step and further
   * ones stay there; fewer move forward by exactly one step each.
   */
  lemma {:induction false} ForwardToLast(step: int, n: nat)
    requires 0 <= step <= LastStep
    ensures n >= LastStep - step ==> StepAfterAll(step, Forward(n)) == LastStep
    ensures n < LastStep - step ==> StepAfterAll(step, Forward(n)) == step + n
    decreases n
  {
    if n > 0 {
      assert Forward(n)[1..] == Forward(n - 1);
      ForwardToLast(StepAfter(step, Next), n - 1);
    }
  }

  // -----------------------------------------------------------------------
  // Saving

  datatype SaveKind = SaveDraft | SaveResume

  /** The message a failed save reports when the server sent none. */
  function SaveFallback(kind: SaveKind): string {
    match kind
    case SaveDraft => "Failed to save draft"
    case SaveResume => "Failed to save resume"
  }

  /** The request a save sends: an update of the stored resume, or a creation. */
  datatype SaveRequest = UpdateRequest(id: ResumeId, body: Draft) | CreateRequest(body: Draft)

  datatype SaveOutcome = Saved(data: Resume) | SaveFailed(message: string)

  /** A stored resume as the builder holds it after adopting it. */
  function FromStored(r: Resume): (d: Draft)
    ensures d.id == Some(r.id)
  {
    Draft(Some(r.id), r.personalInfo, r.summary, r.experience, r.education, r.skills,
      r.projects, r.certifications, LayoutName(r.layoutType))
  }

  /** The body a save sends: every section of the draft. */
  function AsBody(d: Draft): ResumeFields {
    ResumeFields(Some(d.personalInfo), d.summary, Some(d.experience), Some(d.education),
      Some(d.skills), Some(d.projects), Some(d.certifications), Some(d.layoutType))
  }

  /**
   * Creating a resume from a draft in stored form and adopting the answer
   * gives back the draft, now carrying the new identifier.
   */
  lemma CreateThenAdopt(d: Draft, id: ResumeId, owner: UserId, now: nat)
    requires ParseLayout(d.layoutType).Some?
    requires SchemaShaped(d.experience, d.projects)
    ensures ResumeStore.LayoutAccepted(AsBody(d))
    ensures FromStored(ResumeStore.NewResume(id, owner, AsBody(d), now)) == d.(id := Some(id))
  {
    CastIdempotent(d.experience, d.projects);
  }

  class ResumeBuilder {
    /** The step the user is on. */
    var currentStep: int
    /** The resume being edited. */
    var resumeData: Draft

    predicate Valid()
      reads this
    {
      0 <= currentStep <= LastStep
    }

    constructor ()
      ensures Valid()
      ensures currentStep == 0 && resumeData == InitialDraft
    {
      currentStep := 0;
      resumeData := InitialDraft;
    }

    /** Moves forward one step unless on the last. */
    method NextStep()
      requires Valid()
      modifies this
      ensures Valid()
      ensures currentStep == StepAfter(old(currentStep), Next)
      ensures resumeData == old(resumeData)
    {
      if currentStep < LastStep {
        currentStep := currentStep + 1;
      }
    }

    /** Moves back one step unless on the first. */
    method PrevStep()
      requires Valid()
      modifies this
      ensures Valid()
      ensures currentStep == StepAfter(old(currentStep), Prev)
      ensures resumeData == old(resumeData)
    {
      if currentStep > 0 {
        currentStep := currentStep - 1;
      }
    }

    /** Jumps to `step` when it is one of the eight steps, and otherwise stays. */
    method GoToStep(step: int)
      requires Valid()
      modifies this
      ensures Valid()
      ensures currentStep == StepAfter(old(currentStep), GoTo(step))
      ensures resumeData == old(resumeData)
    {
      if step >= 0 && step <= LastStep {
        currentStep := step;
      }
    }

    /** Replaces one top-level section of the resume. */
    method UpdateResumeData(section: Section)
      modifies this
      ensures resumeData == WithSection(old(resumeData), section)
      ensures currentStep == old(currentStep)
    {
      resumeData := WithSection(resumeData, section);
    }

    /**
     * Saves the resume: an update when it already has an identifier,
     * otherwise a creation whose answer, identifier included, becomes the
     * resume being edited. `response` is the server's answer, or the message
     * of its error body when there is one.
     */
    method Save(kind: SaveKind, response: Result<Resume, OptStr>) returns (request: SaveRequest, outcome: SaveOutcome)
      modifies this
      ensures old(resumeData).id.Some? ==> request == UpdateRequest(old(resumeData).id.value, old(resumeData))
      ensures old(resumeData).id.None? ==> request == CreateRequest(old(resumeData))
      ensures response.Ok? ==> outcome == Saved(response.value)
      ensures response.Err? ==> outcome == SaveFailed(Or(response.error, SaveFallback(kind)))
      ensures old(resumeData).id.None? && response.Ok? ==> resumeData == FromStored(response.value)
      ensures old(resumeData).id.Some? || response.Err? ==> resumeData == old(resumeData)
      ensures currentStep == old(currentStep)
    {
      if resumeData.id.Some? {
        request := UpdateRequest(resumeData.id.value, resumeData);
      } else {
        request := CreateRequest(resumeData);
      }
      match response {
        case Ok(data) =>
          if request.CreateRequest? {
            resumeData := FromStored(data);
          }
          outcome := Saved(data);
        case Err(message) =>
          outcome := SaveFailed(Or(message, SaveFallback(kind)));
      }
    }
  }

  /** A successful first save turns every later save into an update of the resume it created. */
  method SaveTwice(builder: ResumeBuilder, kind: SaveKind, first: Result<Resume, OptStr>, second: Result<Resume, OptStr>)
    returns (r1: SaveRequest, r2: SaveRequest)
    requires builder.resumeData.id.None?
    modifies builder
    ensures r1.CreateRequest?
    ensures first.Ok? ==> r2 == UpdateRequest(first.value.id, FromStored(first.value))
  {
    var o1, o2;
    r1, o1 := builder.Save(kind, first);
    r2, o2 := builder.Save(kind, second);
  }
}
