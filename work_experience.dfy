/**
 * The work-experience step of the builder: a list of experience entries the
 * user extends, shortens and edits field by field.
 */
module WorkExperienceStep {
  import opened Wrappers
  import opened Js
  import opened ResumeModel
  import EntryList

  /** A new experience entry: every field empty, technologies as the empty string the form holds. */
  const BlankExperience: Experience := Experience(Some(""), Some(""), Some(""), Some(""), Some(Text("")))

  /** The fields the form edits. */
  datatype ExperienceField = Company | Position | Duration | Description | Technologies

  /** The value of one field of an entry. */
  function Get(e: Experience, field: ExperienceField): Option<TextOrList> {
    match field
    case Company => AsText(e.company)
    case Position => AsText(e.position)
    case Duration => AsText(e.duration)
    case Description => AsText(e.description)
    case Technologies => e.technologies
  }

  /** Two entries agreeing on every field are the same entry: the fields cover the whole entry. */
  lemma {:induction false} FieldsDetermineEntry(a: Experience, b: Experience)
    requires forall g :: Get(a, g) == Get(b, g)
    ensures a == b
  {
    assert Get(a, Company) == Get(b, Company);
    assert Get(a, Position) == Get(b, Position);
    assert Get(a, Duration) == Get(b, Duration);
    assert Get(a, Description) == Get(b, Description);
    assert Get(a, Technologies) == Get(b, Technologies);
  }

  /** `{ ...entry, [field]: value }`: the named field holds the typed text and every other field is as it was. */
  function SetField(e: Experience, field: ExperienceField, value: string): (r: Experience)
    ensures forall g :: Get(r, g) == if g == field then Some(Text(value)) else Get(e, g)
  {
    match field
    case Company => e.(company := Some(value))
    case Position => e.(position := Some(value))
    case Duration => e.(duration := Some(value))
    case Description => e.(description := Some(value))
    case Technologies => e.(technologies := Some(Text(value)))
  }

  /** The editor's starting list: the stored entries, or one blank entry. */
  function InitialExperiences(stored: seq<Experience>): (xs: seq<Experience>)
    ensures |xs| >= 1
    ensures |stored| > 0 ==> xs == stored
    ensures |stored| == 0 ==> xs == [BlankExperience]
  {
    EntryList.Initial(stored, BlankExperience)
  }

  /** Appends one blank entry. */
  function AddExperience(xs: seq<Experience>): (r: seq<Experience>)
    ensures |r| == |xs| + 1 && r[..|xs|] == xs && r[|xs|] == BlankExperience
  {
    EntryList.Append(xs, BlankExperience)
  }

  /** Removes the entry at `index` unless it is the only one; an index matching no entry removes nothing. */
  function RemoveExperience(xs: seq<Experience>, index: int): (r: seq<Experience>)
    ensures |xs| > 1 && 0 <= index < |xs| ==> r == xs[..index] + xs[index + 1..]
    ensures |xs| <= 1 || !(0 <= index < |xs|) ==> r == xs
    ensures |xs| >= 1 ==> |r| >= 1
  {
    EntryList.RemoveAt(xs, index)
  }

  /**
   * Sets one field of the entry at `index`: every other entry, and every other
   * field of that entry, is unchanged; an index matching no entry changes nothing.
   */
  function UpdateExperience(xs: seq<Experience>, index: int, field: ExperienceField, value: string): (r: seq<Experience>)
    ensures |r| == |xs|
    ensures forall j :: 0 <= j < |xs| && j != index ==> r[j] == xs[j]
    ensures 0 <= index < |xs| ==>
      forall g :: Get(r[index], g) == if g == field then Some(Text(value)) else Get(xs[index], g)
    ensures !(0 <= index < |xs|) ==> r == xs
  {
    EntryList.UpdateAt(xs, index, e => SetField(e, field, value))
  }

  /** Setting a field to the value it already holds changes nothing. */
  lemma {:induction false} UpdateWithSameValue(xs: seq<Experience>, index: int, field: ExperienceField, value: string)
    requires 0 <= index < |xs| && Get(xs[index], field) == Some(Text(value))
    ensures UpdateExperience(xs, index, field, value) == xs
  {
    var r := UpdateExperience(xs, index, field, value);
    FieldsDetermineEntry(r[index], xs[index]);
    assert forall j :: 0 <= j < |xs| ==> r[j] == xs[j];
  }
}
