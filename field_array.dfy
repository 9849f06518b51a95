/** The repeatable entries of the list-valued form steps (experiences,
    educations, skills, languages, projects, certifications). Every such step
    offers one "Add Another" button, which appends the step's blank entry at
    the end, and one "Remove" button per entry, which is rendered only while
    there is more than one entry. */
module FieldArray {

  /** A user event on the entry list: a click on "Add Another", or a click
      on the "Remove" button of entry `index`. */
  datatype EditOp<T> = Append(entry: T) | Remove(index: int)

  /** The "Remove" buttons are rendered iff the list holds more than one entry. */
  predicate RemoveOffered(count: int)
  {
    count > 1
  }

  /** The entry list after one user event. A remove click on a button that
      is not rendered changes nothing. */
  function Edit<T>(xs: seq<T>, op: EditOp<T>): (r: seq<T>)
    ensures op.Append? ==> r == xs + [op.entry]
    ensures op.Remove? && RemoveOffered(|xs|) && 0 <= op.index < |xs| ==>
      |r| == |xs| - 1 &&
      (forall i :: 0 <= i < op.index ==> r[i] == xs[i]) &&
      (forall i :: op.index <= i < |r| ==> r[i] == xs[i + 1])
    ensures op.Remove? && !(RemoveOffered(|xs|) && 0 <= op.index < |xs|) ==> r == xs
  {
    match op
    case Append(e) => xs + [e]
    case Remove(i) => if RemoveOffered(|xs|) && 0 <= i < |xs| then xs[..i] + xs[i + 1..] else xs
  }

  /** The entry list after a series of user events. */
  function EditAll<T>(xs: seq<T>, ops: seq<EditOp<T>>): seq<T>
    decreases |ops|
  {
    if ops == [] then xs else EditAll(Edit(xs, ops[0]), ops[1..])
  }

  /** One event never empties a non-empty list, and never shrinks a list by more than one. */
  lemma EditKeepsNonEmpty<T>(xs: seq<T>, op: EditOp<T>)
    ensures |xs| >= 1 ==> |Edit(xs, op)| >= 1
    ensures |Edit(xs, op)| >= |xs| - 1
  {
  }

  /** Once the list holds an entry, no series of events can empty it again. */
  lemma {:induction false} EditsKeepNonEmpty<T>(xs: seq<T>, ops: seq<EditOp<T>>)
    requires |xs| >= 1
    ensures |EditAll(xs, ops)| >= 1
    decreases |ops|
  {
    if ops != [] {
      EditKeepsNonEmpty(xs, ops[0]);
      EditsKeepNonEmpty(Edit(xs, ops[0]), ops[1..]);
    }
  }

  /** An empty list stays empty until "Add Another" is clicked. */
  lemma {:induction false} EmptyStaysEmptyWithoutAppend<T>(ops: seq<EditOp<T>>)
    requires forall i :: 0 <= i < |ops| ==> ops[i].Remove?
    ensures EditAll([], ops) == []
    decreases |ops|
  {
    if ops != [] {
      assert Edit([], ops[0]) == [];
      EmptyStaysEmptyWithoutAppend(ops[1..]);
    }
  }

  /** The field-array state of one list-valued form step. */
  class FieldList<T> {
    var fields: seq<T>

    constructor (defaults: seq<T>)
      ensures fields == defaults
    {
      fields := defaults;
    }

    /** Click on "Add Another". */
    method Append(entry: T)
      modifies this
      ensures fields == Edit(old(fields), EditOp.Append(entry))
      ensures fields == old(fields) + [entry]
    {
      fields := fields + [entry];
    }

    /** Click on the "Remove" button of entry `index`, when it is rendered. */
    method Remove(index: int)
      modifies this
      ensures fields == Edit(old(fields), EditOp.Remove(index))
      ensures |old(fields)| >= 1 ==> |fields| >= 1
    {
      if RemoveOffered(|fields|) && 0 <= index < |fields| {
        fields := fields[..index] + fields[index + 1..];
      }
    }
  }
}
