/**
 The pure record transformations of the appraisal screen: the initial
 state, `updateField`, `updateSubField`, the batch append of decoded
 photos, `removePhoto`, the quick-tag append to the notes, and the
 completeness check `isFormValid`. A sequence of field writes is modelled
 as a list of `Edit`s, and last-write-wins is proved over it.
 */
module FormUpdates {
  import opened Types
  import PhotoList

  /** The hard-coded demonstration record the screen starts from. */
  function InitialState(): (f: AppraisalForm)
    ensures forall sf :: Answer(f, sf) == ""
    ensures f.notes == "" && f.photos == []
  {
    AppraisalForm(
      "Rolex", "23-Feb-2011", "116610LV-0001", "4981R131",
      Conclusions("", "", "", ""),
      Conditions("", "", "", "", "", "", "", ""),
      Performance("", "", ""),
      "",
      [])
  }

  // ---------------------------------------------------------------------------
  // Field updates

  /** `{ ...form, [field]: value }`. */
  function UpdateField(form: AppraisalForm, field: Field, value: Value): (r: AppraisalForm)
    requires Fits(field, value)
    ensures Get(r, field) == value
    ensures forall g :: g != field ==> Get(r, g) == Get(form, g)
  {
    match field
    case Brand => form.(brand := value.text)
    case WarrantyDate => form.(warrantyDate := value.text)
    case ModelNumber => form.(modelNumber := value.text)
    case SerialNumber => form.(serialNumber := value.text)
    case Group(ConclusionsSection) => form.(conclusions := value.conclusions)
    case Group(ConditionsSection) => form.(conditions := value.conditions)
    case Group(PerformanceSection) => form.(performance := value.performance)
    case Notes => form.(notes := value.text)
    case Photos => form.(photos := value.photos)
  }

  /** A second write to the same key replaces the first. */
  lemma UpdateFieldLastWriteWins(form: AppraisalForm, field: Field, v: Value, w: Value)
    requires Fits(field, v) && Fits(field, w)
    ensures UpdateField(UpdateField(form, field, v), field, w) == UpdateField(form, field, w)
  {
    var a := UpdateField(UpdateField(form, field, v), field, w);
    var b := UpdateField(form, field, w);
    forall g ensures Get(a, g) == Get(b, g) {
    }
    FormExtensionality(a, b);
  }

  /** Writes to two different keys do not interfere. */
  lemma UpdateFieldCommutes(form: AppraisalForm, f: Field, v: Value, g: Field, w: Value)
    requires f != g && Fits(f, v) && Fits(g, w)
    ensures UpdateField(UpdateField(form, f, v), g, w) == UpdateField(UpdateField(form, g, w), f, v)
  {
    var a := UpdateField(UpdateField(form, f, v), g, w);
    var b := UpdateField(UpdateField(form, g, w), f, v);
    forall h ensures Get(a, h) == Get(b, h) {
    }
    FormExtensionality(a, b);
  }

  function SetConclusion(c: Conclusions, sf: SubField, value: string): Conclusions {
    match sf
    case Overall => c.(overall := value)
    case Movement => c.(movement := value)
    case Warranty => c.(warranty := value)
    case Packaging => c.(packaging := value)
    case _ => c
  }

  function SetCondition(c: Conditions, sf: SubField, value: string): Conditions {
    match sf
    case Case => c.(watchCase := value)
    case Strap => c.(strap := value)
    case Crystal => c.(crystal := value)
    case BackCrystal => c.(backCrystal := value)
    case Hands => c.(hands := value)
    case Crown => c.(crown := value)
    case Clasp => c.(clasp := value)
    case Dial => c.(dial := value)
    case _ => c
  }

  function SetPerformance(p: Performance, sf: SubField, value: string): Performance {
    match sf
    case Function => p.(watchFunction := value)
    case MovementStatus => p.(movementStatus := value)
    case Waterproof => p.(waterproof := value)
    case _ => p
  }

  /** `{ ...form, [parent]: { ...form[parent], [field]: value } }`: sets one judgment,
      keeps every other judgment and every other top-level key. */
  function UpdateSubField(form: AppraisalForm, parent: FormSection, field: SubField, value: string): (r: AppraisalForm)
    requires SectionOf(field) == parent
    ensures Answer(r, field) == value
    ensures forall sf :: sf != field ==> Answer(r, sf) == Answer(form, sf)
    ensures forall g :: g != Group(parent) ==> Get(r, g) == Get(form, g)
  {
    match parent
    case ConclusionsSection => form.(conclusions := SetConclusion(form.conclusions, field, value))
    case ConditionsSection => form.(conditions := SetCondition(form.conditions, field, value))
    case PerformanceSection => form.(performance := SetPerformance(form.performance, field, value))
  }

  /** Two forms with the same fifteen answers have the same three groups. */
  lemma AnswersDetermineGroups(a: AppraisalForm, b: AppraisalForm)
    requires forall sf :: Answer(a, sf) == Answer(b, sf)
    ensures a.conclusions == b.conclusions
    ensures a.conditions == b.conditions
    ensures a.performance == b.performance
  {
    assert Answer(a, Overall) == Answer(b, Overall);
    assert Answer(a, Movement) == Answer(b, Movement);
    assert Answer(a, Warranty) == Answer(b, Warranty);
    assert Answer(a, Packaging) == Answer(b, Packaging);
    assert Answer(a, Case) == Answer(b, Case);
    assert Answer(a, Strap) == Answer(b, Strap);
    assert Answer(a, Crystal) == Answer(b, Crystal);
    assert Answer(a, BackCrystal) == Answer(b, BackCrystal);
    assert Answer(a, Hands) == Answer(b, Hands);
    assert Answer(a, Crown) == Answer(b, Crown);
    assert Answer(a, Clasp) == Answer(b, Clasp);
    assert Answer(a, Dial) == Answer(b, Dial);
    assert Answer(a, Function) == Answer(b, Function);
    assert Answer(a, MovementStatus) == Answer(b, MovementStatus);
    assert Answer(a, Waterproof) == Answer(b, Waterproof);
  }

  /** Two forms agree when every top-level key outside the groups and every judgment agree. */
  lemma FormExtensionalityByAnswers(a: AppraisalForm, b: AppraisalForm)
    requires forall f: Field :: !f.Group? ==> Get(a, f) == Get(b, f)
    requires forall sf :: Answer(a, sf) == Answer(b, sf)
    ensures a == b
  {
    AnswersDetermineGroups(a, b);
    assert Get(a, Brand) == Get(b, Brand);
    assert Get(a, WarrantyDate) == Get(b, WarrantyDate);
    assert Get(a, ModelNumber) == Get(b, ModelNumber);
    assert Get(a, SerialNumber) == Get(b, SerialNumber);
    assert Get(a, Notes) == Get(b, Notes);
    assert Get(a, Photos) == Get(b, Photos);
  }

  /** A second write to the same judgment replaces the first. */
  lemma UpdateSubFieldLastWriteWins(form: AppraisalForm, parent: FormSection, field: SubField, v: string, w: string)
    requires SectionOf(field) == parent
    ensures UpdateSubField(UpdateSubField(form, parent, field, v), parent, field, w)
         == UpdateSubField(form, parent, field, w)
  {
    var a := UpdateSubField(UpdateSubField(form, parent, field, v), parent, field, w);
    var b := UpdateSubField(form, parent, field, w);
    FormExtensionalityByAnswers(a, b);
  }

  // ---------------------------------------------------------------------------
  // Sequences of writes: last write wins

  /** One write the screen can issue: `updateField(field, value)` or
      `updateSubField(parent, sub, text)`. */
  datatype Edit =
    | SetField(field: Field, value: Value)
    | SetSubField(parent: FormSection, sub: SubField, text: string)

  predicate WellTyped(e: Edit) {
    match e
    case SetField(f, v) => Fits(f, v)
    case SetSubField(parent, sf, _) => SectionOf(sf) == parent
  }

  function Apply(form: AppraisalForm, e: Edit): AppraisalForm
    requires WellTyped(e)
  {
    match e
    case SetField(f, v) => UpdateField(form, f, v)
    case SetSubField(parent, sf, text) => UpdateSubField(form, parent, sf, text)
  }

  /** The edits applied in order. */
  function ApplyAll(form: AppraisalForm, edits: seq<Edit>): AppraisalForm
    requires forall i :: 0 <= i < |edits| ==> WellTyped(edits[i])
  {
    if edits == [] then form
    else Apply(ApplyAll(form, edits[..|edits| - 1]), edits[|edits| - 1])
  }

  /** A place in the form that one write sets as a whole: a top-level key other
      than a group, or one judgment. */
  datatype Location = Top(field: Field) | Judgment(sub: SubField)

  predicate Observable(loc: Location) {
    !(loc.Top? && loc.field.Group?)
  }

  function Read(form: AppraisalForm, loc: Location): Value {
    match loc
    case Top(f) => Get(form, f)
    case Judgment(sf) => Text(Answer(form, sf))
  }

  /** What edit `e` writes to `loc`, if it writes it at all. */
  function WrittenBy(e: Edit, loc: Location): Option<Value> {
    match e
    case SetField(f, v) =>
      if loc == Top(f) then Some(v)
      else if f.Group? && loc.Judgment? && SectionOf(loc.sub) == f.section then Some(Text(GroupAnswer(v, loc.sub)))
      else None
    case SetSubField(_, sf, text) =>
      if loc == Judgment(sf) then Some(Text(text)) else None
  }

  /** The value of the last edit in `edits` that writes `loc`, or `initial` if none does. */
  function LastWrite(edits: seq<Edit>, loc: Location, initial: Value): Value {
    if edits == [] then initial
    else match WrittenBy(edits[|edits| - 1], loc)
      case Some(v) => v
      case None => LastWrite(edits[..|edits| - 1], loc, initial)
  }

  /** One edit sets what it writes and leaves every other place alone. */
  lemma ApplyRead(form: AppraisalForm, e: Edit, loc: Location)
    requires WellTyped(e) && Observable(loc)
    ensures Read(Apply(form, e), loc) == match WrittenBy(e, loc)
                                         case Some(v) => v
                                         case None => Read(form, loc)
  {
    var r := Apply(form, e);
    match e
    case SetField(f, v) =>
      if loc.Judgment? {
        AnswerInGroup(form, loc.sub);
        AnswerInGroup(r, loc.sub);
        var g := Group(SectionOf(loc.sub));
        if g == f {
          assert Get(r, g) == v;
        } else {
          assert Get(r, g) == Get(form, g);
        }
      }
    case SetSubField(_, _, _) =>
  }

  /** After any sequence of writes, each place holds the last value written to it. */
  lemma {:induction false} LastWriteWins(form: AppraisalForm, edits: seq<Edit>, loc: Location)
    requires forall i :: 0 <= i < |edits| ==> WellTyped(edits[i])
    requires Observable(loc)
    ensures Read(ApplyAll(form, edits), loc) == LastWrite(edits, loc, Read(form, loc))
  {
    if edits != [] {
      var prefix := edits[..|edits| - 1];
      assert forall i :: 0 <= i < |prefix| ==> WellTyped(prefix[i]) by {
        forall i | 0 <= i < |prefix| ensures WellTyped(prefix[i]) {
          assert prefix[i] == edits[i];
        }
      }
      LastWriteWins(form, prefix, loc);
      ApplyRead(ApplyAll(form, prefix), edits[|edits| - 1], loc);
    }
  }

  // ---------------------------------------------------------------------------
  // Photos

  /** `{ ...form, photos: [...form.photos, ...batch] }`: the decoded batch of a
      file selection goes after the existing photos, in selection order. */
  function AppendPhotos(form: AppraisalForm, batch: seq<string>): (r: AppraisalForm)
    ensures |r.photos| == |form.photos| + |batch|
    ensures r.photos[..|form.photos|] == form.photos
    ensures forall i :: 0 <= i < |batch| ==> r.photos[|form.photos| + i] == batch[i]
    ensures forall g :: g != Photos ==> Get(r, g) == Get(form, g)
  {
    form.(photos := form.photos + batch)
  }

  /** Two batches appended one after the other are one batch of both. */
  lemma AppendPhotosTwice(form: AppraisalForm, first: seq<string>, second: seq<string>)
    ensures AppendPhotos(AppendPhotos(form, first), second) == AppendPhotos(form, first + second)
  {
    var a := AppendPhotos(AppendPhotos(form, first), second);
    var b := AppendPhotos(form, first + second);
    assert a.photos == b.photos by {
      assert |a.photos| == |b.photos|;
      forall k | 0 <= k < |a.photos| ensures a.photos[k] == b.photos[k] {
        if k < |form.photos| {
          assert a.photos[k] == a.photos[..|form.photos|][k];
        } else if k < |form.photos| + |first| {
          var mid := AppendPhotos(form, first);
          assert a.photos[k] == a.photos[..|mid.photos|][k];
          assert mid.photos[k] == first[k - |form.photos|];
        } else {
          assert a.photos[k] == second[k - |form.photos| - |first|];
        }
      }
    }
    forall g | g != Photos ensures Get(a, g) == Get(b, g) {
    }
    FormExtensionality(a, b);
  }

  /** `{ ...form, photos: form.photos.filter((_, i) => i !== index) }`: an in-range
      index loses exactly that photo, the later ones move one to the left; any
      other index leaves the list as it was. */
  function RemovePhoto(form: AppraisalForm, index: int): (r: AppraisalForm)
    ensures 0 <= index < |form.photos| ==>
              |r.photos| == |form.photos| - 1 &&
              multiset(r.photos) + multiset{form.photos[index]} == multiset(form.photos) &&
              (forall k :: 0 <= k < index ==> r.photos[k] == form.photos[k]) &&
              (forall k :: index <= k < |r.photos| ==> r.photos[k] == form.photos[k + 1])
    ensures !(0 <= index < |form.photos|) ==> r.photos == form.photos
    ensures forall g :: g != Photos ==> Get(r, g) == Get(form, g)
  {
    var kept := PhotoList.FilterIndex(form.photos, index);
    assert 0 <= index < |form.photos| ==> kept == PhotoList.SpliceOut(form.photos, index);
    form.(photos := kept)
  }

  /** Removing the photo that was just uploaded gives back the earlier form. */
  lemma RemoveLastUndoesAppend(form: AppraisalForm, photo: string)
    ensures RemovePhoto(AppendPhotos(form, [photo]), |form.photos|) == form
  {
    var a := RemovePhoto(AppendPhotos(form, [photo]), |form.photos|);
    assert a.photos == form.photos;
    forall g ensures Get(a, g) == Get(form, g) {
    }
    FormExtensionality(a, form);
  }

  // ---------------------------------------------------------------------------
  // Quick tags

  /** `notes + (notes ? ' ' : '') + tag`. */
  function WithTag(notes: string, tag: string): (r: string)
    ensures |r| == |notes| + |tag| + (if notes == "" then 0 else 1)
    ensures r[..|notes|] == notes
    ensures r[|r| - |tag|..] == tag
    ensures notes != "" ==> r[|notes|] == ' '
  {
    notes + (if notes != "" then " " else "") + tag
  }

  /** The quick-tag button: the tag goes at the end of the notes, after a space
      unless the notes were empty; nothing else changes. */
  function AddQuickTag(form: AppraisalForm, tag: string): (r: AppraisalForm)
    ensures r.notes == WithTag(form.notes, tag)
    ensures forall g :: g != Notes ==> Get(r, g) == Get(form, g)
  {
    UpdateField(form, Notes, Text(WithTag(form.notes, tag)))
  }

  /** The tags joined by single spaces. */
  function JoinWithSpaces(tags: seq<string>): string {
    if tags == [] then ""
    else if |tags| == 1 then tags[0]
    else JoinWithSpaces(tags[..|tags| - 1]) + " " + tags[|tags| - 1]
  }

  /** The notes after pressing the given quick tags in order. */
  function WithTags(notes: string, tags: seq<string>): string {
    if tags == [] then notes
    else WithTag(WithTags(notes, tags[..|tags| - 1]), tags[|tags| - 1])
  }

  /** Starting from empty notes, pressing non-empty tags yields them separated
      by exactly one space each. */
  lemma {:induction false} TagsFromEmptyNotes(tags: seq<string>)
    requires forall i :: 0 <= i < |tags| ==> tags[i] != ""
    ensures WithTags("", tags) == JoinWithSpaces(tags)
    ensures tags != [] ==> WithTags("", tags) != ""
  {
    if tags != [] {
      var prefix := tags[..|tags| - 1];
      assert forall i :: 0 <= i < |prefix| ==> prefix[i] != "" by {
        forall i | 0 <= i < |prefix| ensures prefix[i] != "" {
          assert prefix[i] == tags[i];
        }
      }
      TagsFromEmptyNotes(prefix);
    }
  }

  // ---------------------------------------------------------------------------
  // Completeness

  function ConclusionAnswers(c: Conclusions): seq<string> {
    [c.overall, c.movement, c.warranty, c.packaging]
  }

  function ConditionAnswers(c: Conditions): seq<string> {
    [c.watchCase, c.strap, c.crystal, c.backCrystal, c.hands, c.crown, c.clasp, c.dial]
  }

  function PerformanceAnswers(p: Performance): seq<string> {
    [p.watchFunction, p.movementStatus, p.waterproof]
  }

  /** The values of one group object, as `Object.values` lists them. */
  function GroupValues(form: AppraisalForm, s: FormSection): seq<string> {
    match s
    case ConclusionsSection => ConclusionAnswers(form.conclusions)
    case ConditionsSection => ConditionAnswers(form.conditions)
    case PerformanceSection => PerformanceAnswers(form.performance)
  }

  /** The values the completeness check visits in a group are exactly the answers
      to that group's keys, in the order `SectionFields` lists them. */
  lemma GroupValuesFollowSectionFields(form: AppraisalForm, s: FormSection)
    ensures |GroupValues(form, s)| == |SectionFields(s)|
    ensures forall i :: 0 <= i < |SectionFields(s)| ==> GroupValues(form, s)[i] == Answer(form, SectionFields(s)[i])
  {
    var fields, values := SectionFields(s), GroupValues(form, s);
    forall i | 0 <= i < |fields| ensures values[i] == Answer(form, fields[i]) {
      match s
      case ConclusionsSection =>
        assert fields == [Overall, Movement, Warranty, Packaging];
      case ConditionsSection =>
        assert fields == [Case, Strap, Crystal, BackCrystal, Hands, Crown, Clasp, Dial];
      case PerformanceSection =>
        assert fields == [Function, MovementStatus, Waterproof];
    }
  }

  /** `checkGroup`: `Object.values(group).every(val => val !== '')`. */
  predicate AllAnswered(answers: seq<string>) {
    forall i :: 0 <= i < |answers| ==> answers[i] != ""
  }

  /** `isFormValid`: every answer of each of the three groups is non-empty. */
  predicate IsFormValid(form: AppraisalForm) {
    AllAnswered(GroupValues(form, ConclusionsSection))
    && AllAnswered(GroupValues(form, ConditionsSection))
    && AllAnswered(GroupValues(form, PerformanceSection))
  }

  /** A complete form has all fifteen judgments answered. */
  lemma ValidFormIsAnswered(form: AppraisalForm, sf: SubField)
    requires IsFormValid(form)
    ensures Answer(form, sf) != ""
  {
    var c, k, p := ConclusionAnswers(form.conclusions), ConditionAnswers(form.conditions),
                   PerformanceAnswers(form.performance);
    match sf
    case Overall => assert c[0] != "";
    case Movement => assert c[1] != "";
    case Warranty => assert c[2] != "";
    case Packaging => assert c[3] != "";
    case Case => assert k[0] != "";
    case Strap => assert k[1] != "";
    case Crystal => assert k[2] != "";
    case BackCrystal => assert k[3] != "";
    case Hands => assert k[4] != "";
    case Crown => assert k[5] != "";
    case Clasp => assert k[6] != "";
    case Dial => assert k[7] != "";
    case Function => assert p[0] != "";
    case MovementStatus => assert p[1] != "";
    case Waterproof => assert p[2] != "";
  }

  /** The form is complete iff none of the fifteen judgments is blank. */
  lemma IsFormValidIff(form: AppraisalForm)
    ensures IsFormValid(form) <==> forall sf :: Answer(form, sf) != ""
  {
    if IsFormValid(form) {
      forall sf ensures Answer(form, sf) != "" {
        ValidFormIsAnswered(form, sf);
      }
    }
    if forall sf :: Answer(form, sf) != "" {
      assert Answer(form, Overall) != "" && Answer(form, Movement) != "";
      assert Answer(form, Warranty) != "" && Answer(form, Packaging) != "";
      assert Answer(form, Case) != "" && Answer(form, Strap) != "";
      assert Answer(form, Crystal) != "" && Answer(form, BackCrystal) != "";
      assert Answer(form, Hands) != "" && Answer(form, Crown) != "";
      assert Answer(form, Clasp) != "" && Answer(form, Dial) != "";
      assert Answer(form, Function) != "" && Answer(form, MovementStatus) != "";
      assert Answer(form, Waterproof) != "";
    }
  }

  /** A single blank judgment is enough to make the form incomplete. */
  lemma OneBlankIsInvalid(form: AppraisalForm, sf: SubField)
    requires Answer(form, sf) == ""
    ensures !IsFormValid(form)
  {
    if IsFormValid(form) {
      ValidFormIsAnswered(form, sf);
    }
  }

  /** The record the screen starts from cannot be submitted. */
  lemma InitialStateIsInvalid()
    ensures !IsFormValid(InitialState())
  {
    OneBlankIsInvalid(InitialState(), Overall);
  }

  /** Validity depends only on the judgments: editing any other key keeps it. */
  lemma ValidityIgnoresOtherFields(form: AppraisalForm, f: Field, v: Value)
    requires !f.Group? && Fits(f, v)
    ensures IsFormValid(UpdateField(form, f, v)) == IsFormValid(form)
  {
    var r := UpdateField(form, f, v);
    assert r.conclusions == form.conclusions by {
      assert Get(r, Group(ConclusionsSection)) == Get(form, Group(ConclusionsSection));
    }
    assert r.conditions == form.conditions by {
      assert Get(r, Group(ConditionsSection)) == Get(form, Group(ConditionsSection));
    }
    assert r.performance == form.performance by {
      assert Get(r, Group(PerformanceSection)) == Get(form, Group(PerformanceSection));
    }
  }

  /** Answering the last blank judgment completes the form. */
  lemma AnsweringLastBlankCompletes(form: AppraisalForm, parent: FormSection, field: SubField, value: string)
    requires SectionOf(field) == parent && value != ""
    requires forall sf :: sf != field ==> Answer(form, sf) != ""
    ensures IsFormValid(UpdateSubField(form, parent, field, value))
  {
    IsFormValidIff(form);
    IsFormValidIff(UpdateSubField(form, parent, field, value));
  }
}
