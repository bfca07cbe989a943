/**
 * The list operations the four entry editors of the resume builder share
 * (work experience, education, projects, certifications): start from the
 * stored entries or one blank entry, append a blank entry, remove the entry
 * at an index unless it is the last one left, and change one field of the
 * entry at an index.
 */
module EntryList {

  /** The editor's starting list: the stored entries, or a single blank one when there are none. */
  function Initial<T>(stored: seq<T>, blank: T): (xs: seq<T>)
    ensures |xs| >= 1
    ensures |stored| > 0 ==> xs == stored
    ensures |stored| == 0 ==> xs == [blank]
  {
    if |stored| > 0 then stored else [blank]
  }

  /** `[...xs, blank]` */
  function Append<T>(xs: seq<T>, blank: T): (r: seq<T>)
    ensures |r| == |xs| + 1 && r[..|xs|] == xs && r[|xs|] == blank
  {
    xs + [blank]
  }

  /** `xs.filter((_, i) => i !== index)` over the entries from position `offset` on. */
  function KeepOthers<T>(xs: seq<T>, index: int, offset: int): seq<T>
    decreases |xs|
  {
    if xs == [] then []
    else (if offset == index then [] else [xs[0]]) + KeepOthers(xs[1..], index, offset + 1)
  }

  /** Filtering out one position removes exactly the entry there, or nothing when the position is out of range. */
  lemma {:induction false} KeepOthersDrops<T>(xs: seq<T>, index: int, offset: int)
    ensures 0 <= index - offset < |xs| ==>
      KeepOthers(xs, index, offset) == xs[..index - offset] + xs[index - offset + 1..]
    ensures !(0 <= index - offset < |xs|) ==> KeepOthers(xs, index, offset) == xs
    decreases |xs|
  {
    if xs != [] {
      var rest := KeepOthers(xs[1..], index, offset + 1);
      KeepOthersDrops(xs[1..], index, offset + 1);
      if offset == index {
        assert KeepOthers(xs, index, offset) == rest;
        assert xs[..0] + xs[1..] == xs[1..];
      } else if 0 <= index - offset < |xs| {
        var k := index - offset;
        assert KeepOthers(xs, index, offset) == [xs[0]] + rest;
        assert rest == xs[1..][..k - 1] + xs[1..][k..];
        assert xs[..k] == [xs[0]] + xs[1..][..k - 1];
        assert xs[k + 1..] == xs[1..][k..];
      } else {
        assert KeepOthers(xs, index, offset) == [xs[0]] + rest;
        assert rest == xs[1..];
        assert xs == [xs[0]] + xs[1..];
      }
    }
  }

  /**
   * The remove handler: with more than one entry, the entry at `index` is
   * filtered out; with one entry left, or an index matching no entry, the
   * list stays as it is. The list is never emptied.
   */
  function RemoveAt<T>(xs: seq<T>, index: int): (r: seq<T>)
    ensures |xs| > 1 && 0 <= index < |xs| ==> r == xs[..index] + xs[index + 1..]
    ensures |xs| <= 1 || !(0 <= index < |xs|) ==> r == xs
    ensures |xs| >= 1 ==> |r| >= 1
  {
    KeepOthersDrops(xs, index, 0);
    if |xs| > 1 then KeepOthers(xs, index, 0) else xs
  }

  /** `xs.map((x, i) => i === index ? change(x) : x)`: only the entry at `index` changes, and none when no entry is there. */
  function UpdateAt<T>(xs: seq<T>, index: int, change: T -> T): (r: seq<T>)
    ensures |r| == |xs|
    ensures forall j :: 0 <= j < |xs| && j != index ==> r[j] == xs[j]
    ensures 0 <= index < |xs| ==> r[index] == change(xs[index])
    ensures !(0 <= index < |xs|) ==> r == xs
  {
    seq(|xs|, j requires 0 <= j < |xs| => if j == index then change(xs[j]) else xs[j])
  }

  /** One editor action. */
  datatype Action<!T> = Add | Remove(index: int) | Update(index: int, change: T -> T)

  /** The list after an action. */
  function Apply<T>(xs: seq<T>, blank: T, a: Action<T>): seq<T> {
    match a
    case Add => Append(xs, blank)
    case Remove(i) => RemoveAt(xs, i)
    case Update(i, change) => UpdateAt(xs, i, change)
  }

  /** The list after a sequence of actions, first to last. */
  function Run<T>(xs: seq<T>, blank: T, actions: seq<Action<T>>): seq<T>
    decreases |actions|
  {
    if actions == [] then xs else Run(Apply(xs, blank, actions[0]), blank, actions[1..])
  }

  /** An editor's list, non-empty from the start, stays non-empty whatever the user does. */
  lemma {:induction false} NeverEmpty<T>(stored: seq<T>, blank: T, actions: seq<Action<T>>)
    ensures |Run(Initial(stored, blank), blank, actions)| >= 1
  {
    StaysNonEmpty(Initial(stored, blank), blank, actions);
  }

  lemma {:induction false} StaysNonEmpty<T>(xs: seq<T>, blank: T, actions: seq<Action<T>>)
    requires |xs| >= 1
    ensures |Run(xs, blank, actions)| >= 1
    decreases |actions|
  {
    if actions != [] {
      StaysNonEmpty(Apply(xs, blank, actions[0]), blank, actions[1..]);
    }
  }

  /** Adding an entry and then removing it gives back the list. */
  lemma AddThenRemoveLast<T>(xs: seq<T>, blank: T)
    requires |xs| >= 1
    ensures RemoveAt(Append(xs, blank), |xs|) == xs
  {
    assert Append(xs, blank)[..|xs|] == xs;
  }
}
