/**
 The appraisal screen's state container: the form record held in component
 state and the two drag-tracking references of the reorder gesture. Every
 form change goes through one of the pure updates of `FormUpdates`, as
 the screen passes an updater to its state setter; `HandleSort` copies the
 photos and splices the copy step by step, as the screen does.
 */
module AppScreen {
  import opened Types
  import FormUpdates
  import PhotoList

  /** What pressing submit reports: blocked by an unanswered judgment, or sent. */
  datatype SubmitOutcome = Blocked | Submitted

  class App {
    var form: AppraisalForm
    /** The position a drag started from, if a drag is under way. */
    var dragItem: Option<nat>
    /** The position the pointer last entered during a drag. */
    var dragOverItem: Option<nat>

    /** Both drag references, when both are set, name existing photos. */
    predicate DragInRange()
      reads this
    {
      dragItem.Some? && dragOverItem.Some? ==>
        dragItem.value < |form.photos| && dragOverItem.value < |form.photos|
    }

    constructor ()
      ensures form == FormUpdates.InitialState()
      ensures dragItem == None && dragOverItem == None
    {
      form := FormUpdates.InitialState();
      dragItem := None;
      dragOverItem := None;
    }

    method UpdateField(field: Field, value: Value)
      requires Fits(field, value)
      modifies this`form
      ensures form == FormUpdates.UpdateField(old(form), field, value)
    {
      form := FormUpdates.UpdateField(form, field, value);
    }

    method UpdateSubField(parent: FormSection, field: SubField, value: string)
      requires SectionOf(field) == parent
      modifies this`form
      ensures form == FormUpdates.UpdateSubField(old(form), parent, field, value)
    {
      form := FormUpdates.UpdateSubField(form, parent, field, value);
    }

    /** Commits a batch of decoded photos, in the order the files were selected. */
    method HandleBatchUpload(decoded: seq<string>)
      modifies this`form
      ensures form == FormUpdates.AppendPhotos(old(form), decoded)
    {
      form := FormUpdates.AppendPhotos(form, decoded);
    }

    method RemovePhoto(index: int)
      modifies this`form
      ensures form == FormUpdates.RemovePhoto(old(form), index)
    {
      form := FormUpdates.RemovePhoto(form, index);
    }

    /** A quick-tag button: appends `tag` to the notes currently shown. */
    method AddQuickTag(tag: string)
      modifies this`form
      ensures form == FormUpdates.AddQuickTag(old(form), tag)
    {
      form := FormUpdates.AddQuickTag(form, tag);
    }

    /** Drag start on the photo at `index`. */
    method DragStart(index: nat)
      modifies this`dragItem
      ensures dragItem == Some(index)
    {
      dragItem := Some(index);
    }

    /** Drag enter on the photo at `index`. */
    method DragEnter(index: nat)
      modifies this`dragOverItem
      ensures dragOverItem == Some(index)
    {
      dragOverItem := Some(index);
    }

    /** Drag end: moves the dragged photo onto the hovered position and clears both
        references; with either reference unset nothing at all changes. */
    method HandleSort()
      requires DragInRange()
      modifies this
      ensures old(dragItem).None? || old(dragOverItem).None? ==>
                form == old(form) && dragItem == old(dragItem) && dragOverItem == old(dragOverItem)
      ensures old(dragItem).Some? && old(dragOverItem).Some? ==>
                form == old(form).(photos := PhotoList.Move(old(form.photos), old(dragItem).value, old(dragOverItem).value))
                && dragItem == None && dragOverItem == None
    {
      if dragItem.None? || dragOverItem.None? {
        return;
      }
      var from, to := dragItem.value, dragOverItem.value;
      var photos := form.photos;
      var dragged := photos[from];
      photos := photos[..from] + photos[from + 1..];
      photos := photos[..to] + [dragged] + photos[to..];
      PhotoList.SplicesMove(form.photos, from, to);
      dragItem := None;
      dragOverItem := None;
      form := form.(photos := photos);
    }

    /** Submit: blocked unless every judgment is answered; the form is left as it is
        either way. */
    method HandleSubmit() returns (outcome: SubmitOutcome)
      ensures outcome == Submitted <==> FormUpdates.IsFormValid(form)
    {
      if !FormUpdates.IsFormValid(form) {
        return Blocked;
      }
      return Submitted;
    }
  }

  /** A fresh screen cannot be submitted. */
  method SubmitRightAfterStart() returns (outcome: SubmitOutcome)
    ensures outcome == Blocked
  {
    var app := new App();
    outcome := app.HandleSubmit();
    FormUpdates.InitialStateIsInvalid();
  }

  /** Uploading `[A, B, C, D]` and dragging the first photo onto the third
      shows `[B, C, A, D]` with both drag references cleared. */
  method DragFirstOntoThird() returns (photos: seq<string>, cleared: bool)
    ensures photos == ["B", "C", "A", "D"]
    ensures cleared
  {
    var app := new App();
    app.HandleBatchUpload(["A", "B", "C", "D"]);
    app.DragStart(0);
    app.DragEnter(2);
    app.HandleSort();
    PhotoList.MoveFirstOntoThird();
    photos := app.form.photos;
    cleared := app.dragItem == None && app.dragOverItem == None;
  }
}
