/**
 * The skills step of the builder: two lists, technical and soft, each with
 * its own input box. A non-blank input is trimmed and appended unless the
 * list already has it, and the box is cleared; removing a skill filters out
 * every copy of it.
 */
module SkillsStep {
  import opened Js
  import opened ResumeModel

  /** The step's state: the two lists and the two input boxes. */
  datatype SkillsForm = SkillsForm(skills: Skills, technicalInput: string, softInput: string)

  /** What triggered an add handler. Only Enter and a click add. */
  datatype AddEvent = EnterKey | OtherKey | Click

  predicate Fires(e: AddEvent) {
    e == EnterKey || e == Click
  }

  /** The step as it opens: the resume's lists and empty boxes. */
  function Start(skills: Skills): SkillsForm {
    SkillsForm(skills, "", "")
  }

  /** `list.includes(t) ? list : [...list, t]` with `t` the trimmed input. */
  function AddSkill(list: seq<string>, input: string): (r: seq<string>)
    ensures Trim(input) in r
    ensures Trim(input) in list ==> r == list
    ensures Trim(input) !in list ==> r == list + [Trim(input)]
    ensures Distinct(list) ==> Distinct(r)
  {
    var t := Trim(input);
    if t in list then list else list + [t]
  }

  /** `list.filter(skill => skill !== target)`: every copy of `target` goes, the rest keep their order. */
  function RemoveAll(list: seq<string>, target: string): (r: seq<string>)
    ensures target !in r
    ensures forall x :: x in r <==> x in list && x != target
    ensures |r| <= |list|
  {
    if list == [] then []
    else if list[0] == target then RemoveAll(list[1..], target)
    else [list[0]] + RemoveAll(list[1..], target)
  }

  /** Removal works piecewise, so the kept skills stay in their order. */
  lemma {:induction false} RemoveAllConcat(a: seq<string>, b: seq<string>, target: string)
    ensures RemoveAll(a + b, target) == RemoveAll(a, target) + RemoveAll(b, target)
    decreases |a|
  {
    if a == [] {
      assert a + b == b;
    } else {
      RemoveAllConcat(a[1..], b, target);
      assert (a + b)[1..] == a[1..] + b;
    }
  }

  /** Removal from a list without repeats leaves a list without repeats. */
  lemma {:induction false} RemoveAllDistinct(list: seq<string>, target: string)
    requires Distinct(list)
    ensures Distinct(RemoveAll(list, target))
    decreases |list|
  {
    if list != [] {
      RemoveAllDistinct(list[1..], target);
      var rest := RemoveAll(list[1..], target);
      if list[0] != target {
        assert list[0] !in list[1..];
        assert forall i :: 0 <= i < |rest| ==> rest[i] in list[1..];
      }
    }
  }

  /** The technical add handler: the soft list and box are never touched, and a blank input or another key changes nothing. */
  function AddTechnicalSkill(f: SkillsForm, e: AddEvent): (r: SkillsForm)
    ensures r.skills.soft == f.skills.soft && r.softInput == f.softInput
    ensures !Fires(e) || AllWhitespace(f.technicalInput) ==> r == f
    ensures Fires(e) && !AllWhitespace(f.technicalInput) ==>
      r.technicalInput == "" && r.skills.technical == AddSkill(f.skills.technical, f.technicalInput)
  {
    TrimBlank(f.technicalInput);
    if Fires(e) && Trim(f.technicalInput) != "" then
      f.(skills := f.skills.(technical := AddSkill(f.skills.technical, f.technicalInput)), technicalInput := "")
    else f
  }

  /** The soft add handler: the technical list and box are never touched, and a blank input or another key changes nothing. */
  function AddSoftSkill(f: SkillsForm, e: AddEvent): (r: SkillsForm)
    ensures r.skills.technical == f.skills.technical && r.technicalInput == f.technicalInput
    ensures !Fires(e) || AllWhitespace(f.softInput) ==> r == f
    ensures Fires(e) && !AllWhitespace(f.softInput) ==>
      r.softInput == "" && r.skills.soft == AddSkill(f.skills.soft, f.softInput)
  {
    TrimBlank(f.softInput);
    if Fires(e) && Trim(f.softInput) != "" then
      f.(skills := f.skills.(soft := AddSkill(f.skills.soft, f.softInput)), softInput := "")
    else f
  }

  /** Removes a technical skill; the soft list and both boxes are kept. */
  function RemoveTechnicalSkill(f: SkillsForm, target: string): (r: SkillsForm)
    ensures r.skills.soft == f.skills.soft && r.technicalInput == f.technicalInput && r.softInput == f.softInput
    ensures r.skills.technical == RemoveAll(f.skills.technical, target)
  {
    f.(skills := f.skills.(technical := RemoveAll(f.skills.technical, target)))
  }

  /** Removes a soft skill; the technical list and both boxes are kept. */
  function RemoveSoftSkill(f: SkillsForm, target: string): (r: SkillsForm)
    ensures r.skills.technical == f.skills.technical && r.technicalInput == f.technicalInput && r.softInput == f.softInput
    ensures r.skills.soft == RemoveAll(f.skills.soft, target)
  {
    f.(skills := f.skills.(soft := RemoveAll(f.skills.soft, target)))
  }

  /** A user action on the step. */
  datatype SkillsAction =
    | TypeTechnical(text: string) | TypeSoft(text: string)
    | AddTechnical(event: AddEvent) | AddSoft(event: AddEvent)
    | RemoveTechnical(target: string) | RemoveSoft(target: string)

  function Step(f: SkillsForm, a: SkillsAction): SkillsForm {
    match a
    case TypeTechnical(t) => f.(technicalInput := t)
    case TypeSoft(t) => f.(softInput := t)
    case AddTechnical(e) => AddTechnicalSkill(f, e)
    case AddSoft(e) => AddSoftSkill(f, e)
    case RemoveTechnical(t) => RemoveTechnicalSkill(f, t)
    case RemoveSoft(t) => RemoveSoftSkill(f, t)
  }

  function Steps(f: SkillsForm, actions: seq<SkillsAction>): SkillsForm
    decreases |actions|
  {
    if actions == [] then f else Steps(Step(f, actions[0]), actions[1..])
  }

  /** Both lists, starting without repeats, never get one whatever the user does. */
  lemma {:induction false} NoDuplicateSkills(f: SkillsForm, actions: seq<SkillsAction>)
    requires Distinct(f.skills.technical) && Distinct(f.skills.soft)
    ensures Distinct(Steps(f, actions).skills.technical) && Distinct(Steps(f, actions).skills.soft)
    decreases |actions|
  {
    if actions != [] {
      var a := actions[0];
      if a.RemoveTechnical? {
        RemoveAllDistinct(f.skills.technical, a.target);
      } else if a.RemoveSoft? {
        RemoveAllDistinct(f.skills.soft, a.target);
      }
      NoDuplicateSkills(Step(f, a), actions[1..]);
    }
  }

  /** Adding a skill the list already has only clears the box. */
  lemma DuplicateOnlyClearsInput(f: SkillsForm, e: AddEvent)
    requires Fires(e) && !AllWhitespace(f.technicalInput)
    requires Trim(f.technicalInput) in f.skills.technical
    ensures AddTechnicalSkill(f, e) == f.(technicalInput := "")
  {
  }
}
