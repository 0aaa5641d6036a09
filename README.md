# Watch appraisal form — a verified model of its state container

The program is a single screen for entering a watch-appraisal report. It has four identity fields (brand, warranty date, model number, serial number). It has fifteen categorical judgments in three groups: four conclusions, eight physical conditions and three performance checks. It also has free-text notes with quick-insert tags and an ordered photo gallery with batch upload, removal and drag-to-reorder. All of its state is one `AppraisalForm` record plus two drag-tracking references.

This project models that record and every operation on it:

- `types.dfy` (module `Types`) mirrors the record declared in `types.ts`.
  - `Field` lists its nine top-level keys; the three group keys are `Group(s)` for a `FormSection` `s`.
  - `SubField` lists the fifteen judgment keys.
  - `Get` and `Answer` read a key or a judgment.
- `photos.dfy` (module `PhotoList`) holds the list operations behind the gallery.
  - `FilterIndex` is the index filter of `removePhoto`.
  - `SpliceOut` and `SpliceIn` are the two `splice` calls of `handleSort`.
  - `Move` is an independent reference definition of "move one entry", which the two splices are proved to compute.
- `form.dfy` (module `FormUpdates`) holds the pure record updates: `updateField`, `updateSubField`, the batch append, `removePhoto`, the quick-tag append, and the completeness check `isFormValid`. A run of field writes is a list of `Edit`s, and last-write-wins is proved for every place in the form.
- `app.dfy` (module `AppScreen`) holds the class `App`, which is the screen's state container.
  - Its fields are `form`, `dragItem` and `dragOverItem`. Each form change assigns `form` the result of the matching pure update.
  - `HandleSort` copies the photos and splices the copy, as the screen does.
  - `HandleSubmit` reports whether the submit was blocked or sent, and changes nothing.

Two property names of the source are Dafny keywords. The condition `case` is the field `watchCase`, and the performance field `function` is `watchFunction`. Their keys in `SubField` are `Case` and `Function`.

`removePhoto` filters by index, so an out-of-range index leaves the list unchanged; `RemovePhoto` states both cases.

## Model

| member | source | states |
|---|---|---|
| Types.SectionFields | types.ts:7-27 | the three groups have exactly 4, 8 and 3 distinct keys, and every judgment key belongs to exactly the group it is listed in |
| Types.Get | types.ts:2-30 | reading a top-level key gives a value of the type the record declares for that key |
| Types.FormExtensionality | types.ts:2-30 | a form is determined by the values of its nine top-level keys |
| Types.AnswerInGroup | types.ts:7-27 | a judgment is read from the group object its key belongs to |
| PhotoList.FilterIndex | App.tsx:79 | filtering out position `index` of an in-range index gives the list with exactly that entry cut out; any other index gives the list unchanged |
| PhotoList.SpliceOut | App.tsx:86 | cutting out position `i` loses exactly that entry (multiset), keeps the earlier entries in place and shifts the later ones left by one |
| PhotoList.SpliceIn | App.tsx:87 | `_photos.splice(to, 0, dragged)` on the copy; it has no contract of its own, and `SplicesMove` states what it computes together with `SpliceOut` |
| PhotoList.Move | App.tsx:85-87 | moving `from` to `to` keeps the length and the multiset of entries, and puts the moved entry at `to` |
| PhotoList.MoveAt | App.tsx:85-87 | position by position: the moved entry is at `to`, the entries between `from` and `to` shift one place towards `from`, all others stay |
| PhotoList.MoveKeepsOthersInOrder | App.tsx:85-87 | removing the moved entry from the result gives the input without it, so the others keep their relative order |
| PhotoList.MoveInverse | App.tsx:85-87 | dragging back from `to` to `from` restores the original order |
| PhotoList.MoveOntoItself | App.tsx:85-87 | dropping a photo where it started changes nothing |
| PhotoList.SplicesMove | App.tsx:85-87 | `splice(from, 1)` followed by `splice(to, 0, dragged)` computes `Move(s, from, to)` |
| PhotoList.MoveFirstOntoThird | App.tsx:85-87 | `[A, B, C, D]` with the first dragged onto the third gives `[B, C, A, D]` |
| FormUpdates.InitialState | App.tsx:6-34 | the starting record has all fifteen judgments blank, empty notes and no photos |
| FormUpdates.UpdateField | App.tsx:41-43 | after writing `value` under `field`, that key holds `value` and every other top-level key is unchanged |
| FormUpdates.UpdateFieldLastWriteWins | App.tsx:41-43 | a second write to the same key overrides the first |
| FormUpdates.UpdateFieldCommutes | App.tsx:41-43 | writes to two different keys commute |
| FormUpdates.UpdateSubField | App.tsx:45-53 | after writing `value` to one judgment, that judgment holds `value`, every other judgment is unchanged, and every top-level key other than its group is unchanged |
| FormUpdates.AnswersDetermineGroups | types.ts:7-27 | the fifteen answers determine the three group objects |
| FormUpdates.FormExtensionalityByAnswers | types.ts:2-30 | a form is determined by its six non-group keys and its fifteen answers |
| FormUpdates.UpdateSubFieldLastWriteWins | App.tsx:45-53 | a second write to the same judgment overrides the first |
| FormUpdates.ApplyRead | App.tsx:41-53 | one write sets exactly the places it writes; a whole-group write sets each judgment of that group, and every other place keeps its value |
| FormUpdates.LastWriteWins | App.tsx:41-53 | after any sequence of `updateField`/`updateSubField` writes, every key and every judgment holds the value of the last write to it, or its initial value if there was none |
| FormUpdates.AppendPhotos | App.tsx:66-70 | the old photos come first and unchanged, followed by the batch in selection order; the length grows by the batch size; nothing else changes |
| FormUpdates.AppendPhotosTwice | App.tsx:66-70 | two uploads in a row give the same form as one upload of both batches |
| FormUpdates.RemovePhoto | App.tsx:76-81 | an in-range index drops exactly that photo, shifts later photos left and shortens the list by one; an out-of-range index leaves the photos unchanged; nothing else changes |
| FormUpdates.RemoveLastUndoesAppend | App.tsx:66-81 | removing a just-uploaded last photo restores the earlier form |
| FormUpdates.WithTag | App.tsx:359 | the new notes start with the old notes and end with the tag; they have one space in between when the old notes were non-empty, and none otherwise |
| FormUpdates.AddQuickTag | App.tsx:359 | a quick tag changes the notes as `WithTag` says and leaves every other key unchanged |
| FormUpdates.TagsFromEmptyNotes | App.tsx:356-359 | pressing non-empty tags in turn on empty notes gives them joined by single spaces |
| FormUpdates.GroupValuesFollowSectionFields | App.tsx:94-98 | the values the completeness check visits in each group are exactly the answers to that group's 4, 8 or 3 keys |
| FormUpdates.AllAnswered | App.tsx:94 | `checkGroup`: every value of the group is non-empty; it has no contract of its own, and `IsFormValidIff` states what it means for the form |
| FormUpdates.IsFormValid | App.tsx:93-100 | `isFormValid`: the conjunction of `checkGroup` over the three groups; it has no contract of its own, and `IsFormValidIff` states its meaning |
| FormUpdates.ValidFormIsAnswered | App.tsx:93-100 | in a complete form, each of the fifteen judgments is non-empty |
| FormUpdates.IsFormValidIff | App.tsx:93-100 | `isFormValid` holds iff none of the fifteen judgments is empty |
| FormUpdates.OneBlankIsInvalid | App.tsx:93-100 | one blank judgment is enough to make the form incomplete |
| FormUpdates.InitialStateIsInvalid | App.tsx:6-34 | the starting record cannot be submitted |
| FormUpdates.ValidityIgnoresOtherFields | App.tsx:93-100 | editing an identity field, the notes or the photos never changes completeness |
| FormUpdates.AnsweringLastBlankCompletes | App.tsx:93-100 | answering the only blank judgment with a non-empty value completes the form |
| AppScreen.App.constructor | App.tsx:37-39 | the screen starts from the initial record with both drag references unset |
| AppScreen.App.UpdateField | App.tsx:41-43 | the form becomes `UpdateField` of the previous form; the drag references are untouched |
| AppScreen.App.UpdateSubField | App.tsx:45-53 | the form becomes `UpdateSubField` of the previous form |
| AppScreen.App.HandleBatchUpload | App.tsx:66-70 | the form becomes the previous form with the decoded batch appended |
| AppScreen.App.RemovePhoto | App.tsx:76-81 | the form becomes `RemovePhoto` of the previous form |
| AppScreen.App.AddQuickTag | App.tsx:359 | the form becomes `AddQuickTag` of the current form |
| AppScreen.App.DragStart | App.tsx:141 | drag start records the photo's position in `dragItem` and changes nothing else |
| AppScreen.App.DragEnter | App.tsx:142 | drag enter records the photo's position in `dragOverItem` and changes nothing else |
| AppScreen.App.HandleSort | App.tsx:83-91 | with either reference unset nothing changes; otherwise the photos become `Move(photos, from, to)`, all else in the form stays, and both references are reset |
| AppScreen.App.HandleSubmit | App.tsx:102-109 | submit reports `Submitted` iff the form is complete, else `Blocked`, and changes nothing |
| AppScreen.SubmitRightAfterStart | App.tsx:102-105 | submitting a freshly started screen is blocked |
| AppScreen.DragFirstOntoThird | App.tsx:83-91 | uploading `[A, B, C, D]` and dragging position 0 onto position 2 shows `[B, C, A, D]` and clears both references |

## Left out

- FormUpdates.UpdateField: the source's value is typed `any`; the model admits only a value of the key's declared type (`requires Fits(field, value)`). A mistyped write has no counterpart in the typed record. The same holds for AppScreen.App.UpdateField.
- FormUpdates.UpdateSubField: the source's field name is a plain string; the model takes a `SubField` of the named group (`requires SectionOf(field) == parent`). An unknown name would add an extra property to the group object, which `isFormValid` would then also check. The screen only passes the fifteen declared names. The same holds for AppScreen.App.UpdateSubField.
- AppScreen.App.HandleSort: requires both drag positions, when both are set, to be positions of existing photos. JavaScript's `splice` with out-of-range positions (inserting `undefined`, or appending at the end) is not modelled. The positions always come from rendered photos.
- Decoding files to data-URL strings with `FileReader`, and waiting for all of them with `Promise.all`, are browser I/O. `HandleBatchUpload` receives the already-decoded batch in selection order. A decode that never completes, so the batch is never committed, is not modelled.
- Clearing the file input after an upload is a DOM side effect.
- The `alert` and `console.log` calls of submit are I/O. `HandleSubmit` returns the outcome instead. No data is sent anywhere by the source either.
- The screen's layout, the header and footer buttons, the brand options, and the option vocabularies offered for each judgment are presentation only. `updateSubField` accepts any string, and so does the model.
- `components/ChoiceGroup.tsx` renders options and forwards the chosen one. It is not part of this model.
- The quick-tag handler and `handleSort` read the form as of the last render, not the updater's argument. The model runs one event at a time, so both are the same. React's batching of several updates before one re-render is not modelled.
- Drag events are modelled only by their effect on the two references (`DragStart`, `DragEnter`, `HandleSort` on drag end). `dragover`'s `preventDefault` is DOM-only.
