/**
 * The PDF renderer, abstracted to the ordered sequence of text lines it
 * writes. Fonts, colours, spacing, the rule under the header and the byte
 * stream are drawing-library calls and are not modelled. The specification
 * functions say what the lines are; GenerateResumePdf writes them section
 * by section with loops over the entries, as the renderer does.
 */
module PdfService {
  import opened Wrappers
  import opened Js
  import opened ResumeModel

  /** `doc.text(x)`: the drawing library prints an absent value as empty text. */
  function TextOf(s: OptStr): string {
    if s.Some? then s.value else ""
  }

  const NamePlaceholder := "Your Name"

  /** How the drawing library failed, if it did; this is the library's business, so it is an input here. */
  datatype EngineFault =
    | NoFault
      /** thrown while the page is being laid out */
    | Throws(message: string)
      /** reported on the output stream's 'error' event */
    | StreamError(message: string)

  // -----------------------------------------------------------------------
  // Header

  /** The name line: `fullName`, or the placeholder when it or the whole personal information is missing or empty. */
  function NameLine(p: Option<PersonalInfo>): (line: string)
    ensures p.Some? && Truthy(p.value.fullName) ==> line == p.value.fullName.value
    ensures !(p.Some? && Truthy(p.value.fullName)) ==> line == NamePlaceholder
  {
    if p.Some? then Or(p.value.fullName, NamePlaceholder) else NamePlaceholder
  }

  /** The three contact values as the renderer lists them, absent ones as empty text. */
  function ContactValues(q: PersonalInfo): seq<string> {
    [TextOf(q.email), TextOf(q.phone), TextOf(q.location)]
  }

  /** `[email, phone, location].filter(Boolean)` */
  function ContactParts(p: Option<PersonalInfo>): (parts: seq<string>)
    ensures p.Some? ==> parts == NonEmpty(ContactValues(p.value))
    ensures |parts| <= 3
    ensures forall i :: 0 <= i < |parts| ==> parts[i] != ""
    ensures parts == [] <==>
      (p.None? || (!Truthy(p.value.email) && !Truthy(p.value.phone) && !Truthy(p.value.location)))
  {
    if p.None? then []
    else
      var q := p.value;
      var vs := ContactValues(q);
      assert NonEmpty(vs[1..][1..]) == (if Truthy(q.location) then [q.location.value] else []) by {
        assert vs[1..][1..][1..] == [];
      }
      assert NonEmpty(vs[1..]) == (if Truthy(q.phone) then [q.phone.value] else []) + NonEmpty(vs[1..][1..]);
      assert NonEmpty(vs) == (if Truthy(q.email) then [q.email.value] else []) + NonEmpty(vs[1..]);
      (if Truthy(q.email) then [q.email.value] else [])
      + (if Truthy(q.phone) then [q.phone.value] else [])
      + (if Truthy(q.location) then [q.location.value] else [])
  }

  /** The name line, then the contact line when any of email, phone and location is non-empty. */
  function HeaderLines(p: Option<PersonalInfo>): seq<string> {
    var parts := ContactParts(p);
    [NameLine(p)] + (if parts != [] then [Join(parts, " | ")] else [])
  }

  /**
   * The header is the name line, then the non-empty values among email,
   * phone and location, in that order, separated by " | " — or nothing
   * when all three are empty. The three- and two-value cases are spelled out.
   */
  lemma ContactLine(p: PersonalInfo)
    ensures var parts := NonEmpty(ContactValues(p));
      HeaderLines(Some(p)) == [NameLine(Some(p))] + (if parts == [] then [] else [Join(parts, " | ")])
    ensures Truthy(p.email) && Truthy(p.phone) && Truthy(p.location) ==>
      HeaderLines(Some(p)) == [NameLine(Some(p)), p.email.value + " | " + p.phone.value + " | " + p.location.value]
    ensures Truthy(p.email) && Truthy(p.phone) && !Truthy(p.location) ==>
      HeaderLines(Some(p)) == [NameLine(Some(p)), p.email.value + " | " + p.phone.value]
    ensures Truthy(p.email) && !Truthy(p.phone) && Truthy(p.location) ==>
      HeaderLines(Some(p)) == [NameLine(Some(p)), p.email.value + " | " + p.location.value]
    ensures !Truthy(p.email) && Truthy(p.phone) && Truthy(p.location) ==>
      HeaderLines(Some(p)) == [NameLine(Some(p)), p.phone.value + " | " + p.location.value]
    ensures Truthy(p.email) && !Truthy(p.phone) && !Truthy(p.location) ==>
      HeaderLines(Some(p)) == [NameLine(Some(p)), p.email.value]
    ensures !Truthy(p.email) && Truthy(p.phone) && !Truthy(p.location) ==>
      HeaderLines(Some(p)) == [NameLine(Some(p)), p.phone.value]
    ensures !Truthy(p.email) && !Truthy(p.phone) && Truthy(p.location) ==>
      HeaderLines(Some(p)) == [NameLine(Some(p)), p.location.value]
    ensures !Truthy(p.email) && !Truthy(p.phone) && !Truthy(p.location) ==>
      HeaderLines(Some(p)) == [NameLine(Some(p))]
  {
    var parts := ContactParts(Some(p));
    if |parts| == 3 {
      assert parts[1..][1..] == [parts[2]];
      assert Join(parts[1..], " | ") == parts[1] + " | " + parts[2];
      assert Join(parts, " | ") == parts[0] + " | " + (parts[1] + " | " + parts[2]);
      assert parts[0] + " | " + (parts[1] + " | " + parts[2]) == parts[0] + " | " + parts[1] + " | " + parts[2];
    } else if |parts| == 2 {
      assert parts[1..] == [parts[1]];
      assert Join(parts, " | ") == parts[0] + " | " + parts[1];
    } else if |parts| == 1 {
      assert Join(parts, " | ") == parts[0];
    }
  }

  // -----------------------------------------------------------------------
  // Entries

  /** Position; `company | duration`; description; and the technologies line only when technologies is truthy. */
  function ExperienceLines(e: Experience): seq<string> {
    [TextOf(e.position), Interpolate(e.company) + " | " + Interpolate(e.duration), TextOf(e.description)]
    + (if TechTruthy(e.technologies) then ["Technologies: " + TechText(e.technologies)] else [])
  }

  /** `degree in field`, then `institution | graduationYear`. */
  function EducationLines(e: Education): seq<string> {
    [Interpolate(e.degree) + " in " + Interpolate(e.field),
     Interpolate(e.institution) + " | " + Interpolate(e.graduationYear)]
  }

  /** Name; description; and the technologies line only when technologies is truthy. */
  function ProjectLines(p: Project): seq<string> {
    [TextOf(p.name), TextOf(p.description)]
    + (if TechTruthy(p.technologies) then ["Technologies: " + TechText(p.technologies)] else [])
  }

  /** Name, then `issuer | date`. */
  function CertificationLines(c: Certification): seq<string> {
    [TextOf(c.name), Interpolate(c.issuer) + " | " + Interpolate(c.date)]
  }

  /** The lines of every entry, one entry after the other. */
  function Flatten<T>(xs: seq<T>, f: T -> seq<string>): seq<string>
    decreases |xs|
  {
    if xs == [] then [] else Flatten(xs[..|xs| - 1], f) + f(xs[|xs| - 1])
  }

  /** The lines of two lists of entries are the lines of the first followed by those of the second. */
  lemma {:induction false} FlattenAppend<T>(xs: seq<T>, ys: seq<T>, f: T -> seq<string>)
    ensures Flatten(xs + ys, f) == Flatten(xs, f) + Flatten(ys, f)
    decreases |ys|
  {
    if ys == [] {
      assert xs + ys == xs;
    } else {
      var n := |ys| - 1;
      FlattenAppend(xs, ys[..n], f);
      assert (xs + ys)[..|xs + ys| - 1] == xs + ys[..n];
      assert (xs + ys)[|xs + ys| - 1] == ys[n];
    }
  }

  /** One more entry adds its lines at the end. */
  lemma FlattenStep<T>(xs: seq<T>, i: nat, f: T -> seq<string>)
    requires i < |xs|
    ensures Flatten(xs[..i + 1], f) == Flatten(xs[..i], f) + f(xs[i])
  {
    assert xs[..i + 1][..i] == xs[..i];
  }

  /** Entries are emitted in list order: entry i's lines stand between those of the entries before and after it. */
  lemma {:induction false} EntriesInOrder<T>(xs: seq<T>, i: nat, f: T -> seq<string>)
    requires i < |xs|
    ensures Flatten(xs, f) == Flatten(xs[..i], f) + f(xs[i]) + Flatten(xs[i + 1..], f)
  {
    var left, right := xs[..i], [xs[i]] + xs[i + 1..];
    assert xs == left + right;
    FlattenAppend(left, right, f);
    FlattenAppend([xs[i]], xs[i + 1..], f);
    assert [xs[i]][..0] == [];
    assert Flatten([xs[i]], f) == f(xs[i]);
  }

  // -----------------------------------------------------------------------
  // Sections

  /** The summary heading and text, only when the summary is non-empty. */
  function SummarySection(s: OptStr): (lines: seq<string>)
    ensures lines == [] <==> !Truthy(s)
  {
    if Truthy(s) then ["Professional Summary", s.value] else []
  }

  /** A list section: its heading and its entries' lines, or nothing at all when the list is absent or empty. */
  function ListSection<T>(heading: string, xs: Option<seq<T>>, f: T -> seq<string>): (lines: seq<string>)
    ensures lines == [] <==> xs.None? || |xs.value| == 0
    ensures lines != [] ==> lines == [heading] + Flatten(xs.value, f)
  {
    if xs.Some? && |xs.value| > 0 then [heading] + Flatten(xs.value, f) else []
  }

  /** The skills section: present when either list is non-empty; each non-empty list after its label, joined by ", ". */
  function SkillsSection(sk: Option<Skills>): (lines: seq<string>)
    ensures lines == [] <==> sk.None? || (|sk.value.technical| == 0 && |sk.value.soft| == 0)
    ensures lines != [] ==> lines[0] == "Skills"
  {
    if sk.Some? && (|sk.value.technical| > 0 || |sk.value.soft| > 0) then
      ["Skills"]
      + (if |sk.value.technical| > 0 then ["Technical: " + Join(sk.value.technical, ", ")] else [])
      + (if |sk.value.soft| > 0 then ["Soft Skills: " + Join(sk.value.soft, ", ")] else [])
    else []
  }

  /** Every line the renderer writes, in order: header, summary, experience, education, skills, projects, certifications. */
  function ResumeLines(d: ResumeFields): (lines: seq<string>)
    ensures |lines| >= 1 && lines[0] == NameLine(d.personalInfo)
  {
    HeaderLines(d.personalInfo)
    + SummarySection(d.summary)
    + ListSection("Experience", d.experience, ExperienceLines)
    + ListSection("Education", d.education, EducationLines)
    + SkillsSection(d.skills)
    + ListSection("Projects", d.projects, ProjectLines)
    + ListSection("Certifications", d.certifications, CertificationLines)
  }

  /** A document whose sections are all empty renders as its header alone. */
  lemma HeaderOnly(d: ResumeFields)
    requires !Truthy(d.summary)
    requires d.experience.None? || d.experience.value == []
    requires d.education.None? || d.education.value == []
    requires d.skills.None? || d.skills.value == NoSkills
    requires d.projects.None? || d.projects.value == []
    requires d.certifications.None? || d.certifications.value == []
    ensures ResumeLines(d) == HeaderLines(d.personalInfo)
    ensures |ResumeLines(d)| <= 2
  {
  }

  /**
   * The sections come in a fixed order: header, summary, experience,
   * education, skills, projects, certifications. Each section that is present
   * starts with its heading exactly where the header and every earlier
   * section end, and takes at least that one line.
   */
  lemma SectionOrder(d: ResumeFields)
    ensures
      var lines := ResumeLines(d);
      var summaryAt := |HeaderLines(d.personalInfo)|;
      var experienceAt := summaryAt + |SummarySection(d.summary)|;
      var educationAt := experienceAt + |ListSection("Experience", d.experience, ExperienceLines)|;
      var skillsAt := educationAt + |ListSection("Education", d.education, EducationLines)|;
      var projectsAt := skillsAt + |SkillsSection(d.skills)|;
      var certificationsAt := projectsAt + |ListSection("Projects", d.projects, ProjectLines)|;
      && summaryAt <= experienceAt <= educationAt <= skillsAt <= projectsAt <= certificationsAt <= |lines|
      && (Truthy(d.summary) ==>
            summaryAt < experienceAt && lines[summaryAt] == "Professional Summary")
      && (d.experience.Some? && d.experience.value != [] ==>
            experienceAt < educationAt && lines[experienceAt] == "Experience")
      && (d.education.Some? && d.education.value != [] ==>
            educationAt < skillsAt && lines[educationAt] == "Education")
      && (SkillsSection(d.skills) != [] ==>
            skillsAt < projectsAt && lines[skillsAt] == "Skills")
      && (d.projects.Some? && d.projects.value != [] ==>
            projectsAt < certificationsAt && lines[projectsAt] == "Projects")
      && (d.certifications.Some? && d.certifications.value != [] ==>
            certificationsAt < |lines| && lines[certificationsAt] == "Certifications")
  {
    var header := HeaderLines(d.personalInfo);
    var summary := SummarySection(d.summary);
    var experience := ListSection("Experience", d.experience, ExperienceLines);
    var education := ListSection("Education", d.education, EducationLines);
    var skills := SkillsSection(d.skills);
    var projects := ListSection("Projects", d.projects, ProjectLines);
    var certifications := ListSection("Certifications", d.certifications, CertificationLines);
    var lines := ResumeLines(d);
    var s1 := header;
    var s2 := s1 + summary;
    var s3 := s2 + experience;
    var s4 := s3 + education;
    var s5 := s4 + skills;
    var s6 := s5 + projects;
    assert lines == s6 + certifications;
    StartsAt(lines, s6, certifications);
    StartsAt(s6 + certifications, s5, projects);
    StartsAt(s6 + certifications, s4, skills);
    StartsAt(s6 + certifications, s3, education);
    StartsAt(s6 + certifications, s2, experience);
    StartsAt(s6 + certifications, s1, summary);
  }

  /** When `lines` begins with `before + section`, a non-empty section's first line stands at index |before|. */
  lemma StartsAt(lines: seq<string>, before: seq<string>, section: seq<string>)
    requires before + section <= lines
    ensures section != [] ==> |before| < |lines| && lines[|before|] == section[0]
  {
    if section != [] {
      assert (before + section)[|before|] == section[0];
    }
  }

  // -----------------------------------------------------------------------
  // The renderer

  /** Appends the lines of a list of experience entries, one entry at a time. */
  method WriteExperienceEntries(lines: seq<string>, xs: seq<Experience>) returns (out: seq<string>)
    ensures out == lines + Flatten(xs, ExperienceLines)
  {
    out := lines;
    for i := 0 to |xs|
      invariant out == lines + Flatten(xs[..i], ExperienceLines)
    {
      out := out + ExperienceLines(xs[i]);
      FlattenStep(xs, i, ExperienceLines);
    }
    assert xs[..|xs|] == xs;
  }

  /** Appends the experience section: nothing when the list is absent or empty, else the heading and every entry. */
  method WriteExperience(lines: seq<string>, section: Option<seq<Experience>>) returns (out: seq<string>)
    ensures out == lines + ListSection("Experience", section, ExperienceLines)
  {
    if section.Some? && |section.value| > 0 {
      out := WriteExperienceEntries(lines + ["Experience"], section.value);
    } else {
      out := lines;
    }
  }


  /** Appends the lines of a list of education entries, one entry at a time. */
  method WriteEducationEntries(lines: seq<string>, xs: seq<Education>) returns (out: seq<string>)
    ensures out == lines + Flatten(xs, EducationLines)
  {
    out := lines;
    for i := 0 to |xs|
      invariant out == lines + Flatten(xs[..i], EducationLines)
    {
      var e := xs[i];
      out := out + [Interpolate(e.degree) + " in " + Interpolate(e.field)];
      out := out + [Interpolate(e.institution) + " | " + Interpolate(e.graduationYear)];
      FlattenStep(xs, i, EducationLines);
    }
    assert xs[..|xs|] == xs;
  }

  /** Appends the education section: nothing when the list is absent or empty, else the heading and every entry. */
  method WriteEducation(lines: seq<string>, section: Option<seq<Education>>) returns (out: seq<string>)
    ensures out == lines + ListSection("Education", section, EducationLines)
  {
    if section.Some? && |section.value| > 0 {
      out := WriteEducationEntries(lines + ["Education"], section.value);
    } else {
      out := lines;
    }
  }


  /** Appends the lines of a list of projects, one entry at a time. */
  method WriteProjectsEntries(lines: seq<string>, xs: seq<Project>) returns (out: seq<string>)
    ensures out == lines + Flatten(xs, ProjectLines)
  {
    out := lines;
    for i := 0 to |xs|
      invariant out == lines + Flatten(xs[..i], ProjectLines)
    {
      var p := xs[i];
      out := out + [TextOf(p.name)];
      out := out + [TextOf(p.description)];
      if TechTruthy(p.technologies) {
        out := out + ["Technologies: " + TechText(p.technologies)];
      }
      FlattenStep(xs, i, ProjectLines);
    }
    assert xs[..|xs|] == xs;
  }

  /** Appends the projects section: nothing when the list is absent or empty, else the heading and every entry. */
  method WriteProjects(lines: seq<string>, section: Option<seq<Project>>) returns (out: seq<string>)
    ensures out == lines + ListSection("Projects", section, ProjectLines)
  {
    if section.Some? && |section.value| > 0 {
      out := WriteProjectsEntries(lines + ["Projects"], section.value);
    } else {
      out := lines;
    }
  }


  /** Appends the lines of a list of certifications, one entry at a time. */
  method WriteCertificationsEntries(lines: seq<string>, xs: seq<Certification>) returns (out: seq<string>)
    ensures out == lines + Flatten(xs, CertificationLines)
  {
    out := lines;
    for i := 0 to |xs|
      invariant out == lines + Flatten(xs[..i], CertificationLines)
    {
      var c := xs[i];
      out := out + [TextOf(c.name)];
      out := out + [Interpolate(c.issuer) + " | " + Interpolate(c.date)];
      FlattenStep(xs, i, CertificationLines);
    }
    assert xs[..|xs|] == xs;
  }

  /** Appends the certifications section: nothing when the list is absent or empty, else the heading and every entry. */
  method WriteCertifications(lines: seq<string>, section: Option<seq<Certification>>) returns (out: seq<string>)
    ensures out == lines + ListSection("Certifications", section, CertificationLines)
  {
    if section.Some? && |section.value| > 0 {
      out := WriteCertificationsEntries(lines + ["Certifications"], section.value);
    } else {
      out := lines;
    }
  }


  /**
   * Renders a resume. The lines never depend on `layoutType`, which the
   * renderer does not read. A failure thrown while drawing is reported with
   * the prefix "PDF generation failed: "; a stream error is passed on as is.
   */
  method GenerateResumePdf(d: ResumeFields, layoutType: string, fault: EngineFault)
    returns (r: Result<seq<string>, string>)
    ensures fault.NoFault? ==> r == Ok(ResumeLines(d))
    ensures fault.Throws? ==> r == Err("PDF generation failed: " + fault.message)
    ensures fault.StreamError? ==> r == Err(fault.message)
  {
    var lines := [NameLine(d.personalInfo)];
    var contact := ContactParts(d.personalInfo);
    if contact != [] {
      lines := lines + [Join(contact, " | ")];
    }
    if Truthy(d.summary) {
      lines := lines + ["Professional Summary", d.summary.value];
    }
    assert lines == HeaderLines(d.personalInfo) + SummarySection(d.summary);
    lines := WriteExperience(lines, d.experience);
    lines := WriteEducation(lines, d.education);
    lines := lines + SkillsSection(d.skills);
    lines := WriteProjects(lines, d.projects);
    lines := WriteCertifications(lines, d.certifications);
    match fault {
      case NoFault => r := Ok(lines);
      case Throws(m) => r := Err("PDF generation failed: " + m);
      case StreamError(m) => r := Err(m);
    }
  }
}
