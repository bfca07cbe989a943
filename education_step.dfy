/**
 * The education step of the builder: a list of education entries the user
 * extends, shortens and edits field by field.
 */
module EducationStep {
  import opened Wrappers
  import opened Js
  import opened ResumeModel
  import EntryList

  /** A new education entry: every field empty. */
  const BlankEducation: Education := Education(Some(""), Some(""), Some(""), Some(""))

  /** The fields the form edits. */
  datatype EducationField = Institution | Degree | FieldOfStudy | GraduationYear

  /** The value of one field of an entry. */
  function Get(e: Education, field: EducationField): OptStr {
    match field
    case Institution => e.institution
    case Degree => e.degree
    case FieldOfStudy => e.field
    case GraduationYear => e.graduationYear
  }

  /** Two entries agreeing on every field are the same entry: the fields cover the whole entry. */
  lemma {:induction false} FieldsDetermineEntry(a: Education, b: Education)
    requires forall g :: Get(a, g) == Get(b, g)
    ensures a == b
  {
    assert Get(a, Institution) == Get(b, Institution);
    assert Get(a, Degree) == Get(b, Degree);
    assert Get(a, FieldOfStudy) == Get(b, FieldOfStudy);
    assert Get(a, GraduationYear) == Get(b, GraduationYear);
  }

  /** `{ ...entry, [field]: value }`: the named field holds the typed text and every other field is as it was. */
  function SetField(e: Education, field: EducationField, value: string): (r: Education)
    ensures forall g :: Get(r, g) == if g == field then Some(value) else Get(e, g)
  {
    match field
    case Institution => e.(institution := Some(value))
    case Degree => e.(degree := Some(value))
    case FieldOfStudy => e.(field := Some(value))
    case GraduationYear => e.(graduationYear := Some(value))
  }

  /** The editor's starting list: the stored entries, or one blank entry. */
  function InitialEducationList(stored: seq<Education>): (xs: seq<Education>)
    ensures |xs| >= 1
    ensures |stored| > 0 ==> xs == stored
    ensures |stored| == 0 ==> xs == [BlankEducation]
  {
    EntryList.Initial(stored, BlankEducation)
  }

  /** Appends one blank entry. */
  function AddEducation(xs: seq<Education>): (r: seq<Education>)
    ensures |r| == |xs| + 1 && r[..|xs|] == xs && r[|xs|] == BlankEducation
  {
    EntryList.Append(xs, BlankEducation)
  }

  /** Removes the entry at `index` unless it is the only one; an index matching no entry removes nothing. */
  function RemoveEducation(xs: seq<Education>, index: int): (r: seq<Education>)
    ensures |xs| > 1 && 0 <= index < |xs| ==> r == xs[..index] + xs[index + 1..]
    ensures |xs| <= 1 || !(0 <= index < |xs|) ==> r == xs
    ensures |xs| >= 1 ==> |r| >= 1
  {
    EntryList.RemoveAt(xs, index)
  }

  /**
   * Sets one field of the entry at `index`: every other entry, and every other
   * field of that entry, is unchanged; an index matching no entry changes nothing.
   */
  function UpdateEducation(xs: seq<Education>, index: int, field: EducationField, value: string): (r: seq<Education>)
    ensures |r| == |xs|
    ensures forall j :: 0 <= j < |xs| && j != index ==> r[j] == xs[j]
    ensures 0 <= index < |xs| ==>
      forall g :: Get(r[index], g) == if g == field then Some(value) else Get(xs[index], g)
    ensures !(0 <= index < |xs|) ==> r == xs
  {
    EntryList.UpdateAt(xs, index, e => SetField(e, field, value))
  }

  /** Setting a field to the value it already holds changes nothing. */
  lemma {:induction false} UpdateWithSameValue(xs: seq<Education>, index: int, field: EducationField, value: string)
    requires 0 <= index < |xs| && Get(xs[index], field) == Some(value)
    ensures UpdateEducation(xs, index, field, value) == xs
  {
    var r := UpdateEducation(xs, index, field, value);
    FieldsDetermineEntry(r[index], xs[index]);
    assert forall j :: 0 <= j < |xs| ==> r[j] == xs[j];
  }
}
