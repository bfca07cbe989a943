/**
 * The certifications step of the builder: a list of certification entries
 * the user extends, shortens and edits field by field.
 */
module CertificationsStep {
  import opened Wrappers
  import opened Js
  import opened ResumeModel
  import EntryList

  /** A new certification entry: every field empty. */
  const BlankCertification: Certification := Certification(Some(""), Some(""), Some(""))

  /** The fields the form edits. */
  datatype CertificationField = Name | Issuer | Date

  /** The value of one field of an entry. */
  function Get(e: Certification, field: CertificationField): OptStr {
    match field
    case Name => e.name
    case Issuer => e.issuer
    case Date => e.date
  }

  /** Two entries agreeing on every field are the same entry: the fields cover the whole entry. */
  lemma {:induction false} FieldsDetermineEntry(a: Certification, b: Certification)
    requires forall g :: Get(a, g) == Get(b, g)
    ensures a == b
  {
    assert Get(a, Name) == Get(b, Name);
    assert Get(a, Issuer) == Get(b, Issuer);
    assert Get(a, Date) == Get(b, Date);
  }

  /** `{ ...entry, [field]: value }`: the named field holds the typed text and every other field is as it was. */
  function SetField(e: Certification, field: CertificationField, value: string): (r: Certification)
    ensures forall g :: Get(r, g) == if g == field then Some(value) else Get(e, g)
  {
    match field
    case Name => e.(name := Some(value))
    case Issuer => e.(issuer := Some(value))
    case Date => e.(date := Some(value))
  }

  /** The editor's starting list: the stored entries, or one blank entry. */
  function InitialCertifications(stored: seq<Certification>): (xs: seq<Certification>)
    ensures |xs| >= 1
    ensures |stored| > 0 ==> xs == stored
    ensures |stored| == 0 ==> xs == [BlankCertification]
  {
    EntryList.Initial(stored, BlankCertification)
  }

  /** Appends one blank entry. */
  function AddCertification(xs: seq<Certification>): (r: seq<Certification>)
    ensures |r| == |xs| + 1 && r[..|xs|] == xs && r[|xs|] == BlankCertification
  {
    EntryList.Append(xs, BlankCertification)
  }

  /** Removes the entry at `index` unless it is the only one; an index matching no entry removes nothing. */
  function RemoveCertification(xs: seq<Certification>, index: int): (r: seq<Certification>)
    ensures |xs| > 1 && 0 <= index < |xs| ==> r == xs[..index] + xs[index + 1..]
    ensures |xs| <= 1 || !(0 <= index < |xs|) ==> r == xs
    ensures |xs| >= 1 ==> |r| >= 1
  {
    EntryList.RemoveAt(xs, index)
  }

  /**
   * Sets one field of the entry at `index`: every other entry, and every other
   * field of that entry, is unchanged; an index matching no entry changes nothing.
   */
  function UpdateCertification(xs: seq<Certification>, index: int, field: CertificationField, value: string): (r: seq<Certification>)
    ensures |r| == |xs|
    ensures forall j :: 0 <= j < |xs| && j != index ==> r[j] == xs[j]
    ensures 0 <= index < |xs| ==>
      forall g :: Get(r[index], g) == if g == field then Some(value) else Get(xs[index], g)
    ensures !(0 <= index < |xs|) ==> r == xs
  {
    EntryList.UpdateAt(xs, index, e => SetField(e, field, value))
  }

  /** Setting a field to the value it already holds changes nothing. */
  lemma {:induction false} UpdateWithSameValue(xs: seq<Certification>, index: int, field: CertificationField, value: string)
    requires 0 <= index < |xs| && Get(xs[index], field) == Some(value)
    ensures UpdateCertification(xs, index, field, value) == xs
  {
    var r := UpdateCertification(xs, index, field, value);
    FieldsDetermineEntry(r[index], xs[index]);
    assert forall j :: 0 <= j < |xs| ==> r[j] == xs[j];
  }
}
