/**
 * The projects step of the builder: a list of project entries the user
 * extends, shortens and edits field by field.
 */
module ProjectsStep {
  import opened Wrappers
  import opened Js
  import opened ResumeModel
  import EntryList

  /** A new project entry: every field empty, technologies as the empty string the form holds. */
  const BlankProject: Project := Project(Some(""), Some(""), Some(Text("")), Some(""), Some(""))

  /** The fields the form edits. */
  datatype ProjectField = Name | Description | Technologies | Link | GitHub

  /** The value of one field of an entry. */
  function Get(e: Project, field: ProjectField): Option<TextOrList> {
    match field
    case Name => AsText(e.name)
    case Description => AsText(e.description)
    case Technologies => e.technologies
    case Link => AsText(e.link)
    case GitHub => AsText(e.github)
  }

  /** Two entries agreeing on every field are the same entry: the fields cover the whole entry. */
  lemma {:induction false} FieldsDetermineEntry(a: Project, b: Project)
    requires forall g :: Get(a, g) == Get(b, g)
    ensures a == b
  {
    assert Get(a, Name) == Get(b, Name);
    assert Get(a, Description) == Get(b, Description);
    assert Get(a, Technologies) == Get(b, Technologies);
    assert Get(a, Link) == Get(b, Link);
    assert Get(a, GitHub) == Get(b, GitHub);
  }

  /** `{ ...entry, [field]: value }`: the named field holds the typed text and every other field is as it was. */
  function SetField(e: Project, field: ProjectField, value: string): (r: Project)
    ensures forall g :: Get(r, g) == if g == field then Some(Text(value)) else Get(e, g)
  {
    match field
    case Name => e.(name := Some(value))
    case Description => e.(description := Some(value))
    case Technologies => e.(technologies := Some(Text(value)))
    case Link => e.(link := Some(value))
    case GitHub => e.(github := Some(value))
  }

  /** The editor's starting list: the stored entries, or one blank entry. */
  function InitialProjects(stored: seq<Project>): (xs: seq<Project>)
    ensures |xs| >= 1
    ensures |stored| > 0 ==> xs == stored
    ensures |stored| == 0 ==> xs == [BlankProject]
  {
    EntryList.Initial(stored, BlankProject)
  }

  /** Appends one blank entry. */
  function AddProject(xs: seq<Project>): (r: seq<Project>)
    ensures |r| == |xs| + 1 && r[..|xs|] == xs && r[|xs|] == BlankProject
  {
    EntryList.Append(xs, BlankProject)
  }

  /** Removes the entry at `index` unless it is the only one; an index matching no entry removes nothing. */
  function RemoveProject(xs: seq<Project>, index: int): (r: seq<Project>)
    ensures |xs| > 1 && 0 <= index < |xs| ==> r == xs[..index] + xs[index + 1..]
    ensures |xs| <= 1 || !(0 <= index < |xs|) ==> r == xs
    ensures |xs| >= 1 ==> |r| >= 1
  {
    EntryList.RemoveAt(xs, index)
  }

  /**
   * Sets one field of the entry at `index`: every other entry, and every other
   * field of that entry, is unchanged; an index matching no entry changes nothing.
   */
  function UpdateProject(xs: seq<Project>, index: int, field: ProjectField, value: string): (r: seq<Project>)
    ensures |r| == |xs|
    ensures forall j :: 0 <= j < |xs| && j != index ==> r[j] == xs[j]
    ensures 0 <= index < |xs| ==>
      forall g :: Get(r[index], g) == if g == field then Some(Text(value)) else Get(xs[index], g)
    ensures !(0 <= index < |xs|) ==> r == xs
  {
    EntryList.UpdateAt(xs, index, e => SetField(e, field, value))
  }

  /** Setting a field to the value it already holds changes nothing. */
  lemma {:induction false} UpdateWithSameValue(xs: seq<Project>, index: int, field: ProjectField, value: string)
    requires 0 <= index < |xs| && Get(xs[index], field) == Some(Text(value))
    ensures UpdateProject(xs, index, field, value) == xs
  {
    var r := UpdateProject(xs, index, field, value);
    FieldsDetermineEntry(r[index], xs[index]);
    assert forall j :: 0 <= j < |xs| ==> r[j] == xs[j];
  }
}
