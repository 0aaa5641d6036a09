/**
 The shape of the appraisal form: the `AppraisalForm` record, its three
 judgment groups and the `FormSection` union that names them.

 Two of the source's property names are Dafny keywords: the `case` condition
 is `watchCase` here and the `function` performance field is `watchFunction`.
 */
module Types {

  datatype Option<T> = None | Some(value: T)

  /** The four outcome judgments; "" means "not yet answered". */
  datatype Conclusions = Conclusions(
    overall: string,
    movement: string,
    warranty: string,
    packaging: string)

  /** The eight physical-condition judgments. */
  datatype Conditions = Conditions(
    watchCase: string,
    strap: string,
    crystal: string,
    backCrystal: string,
    hands: string,
    crown: string,
    clasp: string,
    dial: string)

  /** The three performance judgments. */
  datatype Performance = Performance(
    watchFunction: string,
    movementStatus: string,
    waterproof: string)

  /** The whole application state; `photos` is in display order. */
  datatype AppraisalForm = AppraisalForm(
    brand: string,
    warrantyDate: string,
    modelNumber: string,
    serialNumber: string,
    conclusions: Conclusions,
    conditions: Conditions,
    performance: Performance,
    notes: string,
    photos: seq<string>)

  /** The groups that hold judgments. */
  datatype FormSection = ConclusionsSection | ConditionsSection | PerformanceSection

  /** The top-level keys of `AppraisalForm`; the three group keys are `Group(s)`. */
  datatype Field =
    | Brand
    | WarrantyDate
    | ModelNumber
    | SerialNumber
    | Group(section: FormSection)
    | Notes
    | Photos

  /** The fifteen judgment keys, across all three groups. */
  datatype SubField =
    | Overall | Movement | Warranty | Packaging
    | Case | Strap | Crystal | BackCrystal | Hands | Crown | Clasp | Dial
    | Function | MovementStatus | Waterproof

  /** A value stored under a top-level key. */
  datatype Value =
    | Text(text: string)
    | ConclusionsValue(conclusions: Conclusions)
    | ConditionsValue(conditions: Conditions)
    | PerformanceValue(performance: Performance)
    | PhotosValue(photos: seq<string>)

  /** The group a judgment key belongs to. */
  function SectionOf(sf: SubField): FormSection {
    match sf
    case Overall | Movement | Warranty | Packaging => ConclusionsSection
    case Case | Strap | Crystal | BackCrystal | Hands | Crown | Clasp | Dial => ConditionsSection
    case Function | MovementStatus | Waterproof => PerformanceSection
  }

  /** The keys of one group, in declaration order. */
  function SectionFields(s: FormSection): (fields: seq<SubField>)
    ensures |fields| == match s
                         case ConclusionsSection => 4
                         case ConditionsSection => 8
                         case PerformanceSection => 3
    ensures forall i :: 0 <= i < |fields| ==> SectionOf(fields[i]) == s
    ensures forall sf :: SectionOf(sf) == s ==> sf in fields
    ensures forall i, j :: 0 <= i < j < |fields| ==> fields[i] != fields[j]
  {
    match s
    case ConclusionsSection => [Overall, Movement, Warranty, Packaging]
    case ConditionsSection => [Case, Strap, Crystal, BackCrystal, Hands, Crown, Clasp, Dial]
    case PerformanceSection => [Function, MovementStatus, Waterproof]
  }

  /** Whether `v` has the type that the record declares for key `f`. */
  predicate Fits(f: Field, v: Value) {
    match f
    case Group(ConclusionsSection) => v.ConclusionsValue?
    case Group(ConditionsSection) => v.ConditionsValue?
    case Group(PerformanceSection) => v.PerformanceValue?
    case Photos => v.PhotosValue?
    case _ => v.Text?
  }

  /** `form[f]`: the value stored under a top-level key. */
  function Get(form: AppraisalForm, f: Field): (v: Value)
    ensures Fits(f, v)
  {
    match f
    case Brand => Text(form.brand)
    case WarrantyDate => Text(form.warrantyDate)
    case ModelNumber => Text(form.modelNumber)
    case SerialNumber => Text(form.serialNumber)
    case Group(ConclusionsSection) => ConclusionsValue(form.conclusions)
    case Group(ConditionsSection) => ConditionsValue(form.conditions)
    case Group(PerformanceSection) => PerformanceValue(form.performance)
    case Notes => Text(form.notes)
    case Photos => PhotosValue(form.photos)
  }

  /** The answer stored under judgment key `sf` inside a group value `v`. */
  function GroupAnswer(v: Value, sf: SubField): string {
    match sf
    case Overall => if v.ConclusionsValue? then v.conclusions.overall else ""
    case Movement => if v.ConclusionsValue? then v.conclusions.movement else ""
    case Warranty => if v.ConclusionsValue? then v.conclusions.warranty else ""
    case Packaging => if v.ConclusionsValue? then v.conclusions.packaging else ""
    case Case => if v.ConditionsValue? then v.conditions.watchCase else ""
    case Strap => if v.ConditionsValue? then v.conditions.strap else ""
    case Crystal => if v.ConditionsValue? then v.conditions.crystal else ""
    case BackCrystal => if v.ConditionsValue? then v.conditions.backCrystal else ""
    case Hands => if v.ConditionsValue? then v.conditions.hands else ""
    case Crown => if v.ConditionsValue? then v.conditions.crown else ""
    case Clasp => if v.ConditionsValue? then v.conditions.clasp else ""
    case Dial => if v.ConditionsValue? then v.conditions.dial else ""
    case Function => if v.PerformanceValue? then v.performance.watchFunction else ""
    case MovementStatus => if v.PerformanceValue? then v.performance.movementStatus else ""
    case Waterproof => if v.PerformanceValue? then v.performance.waterproof else ""
  }

  /** `form[SectionOf(sf)][sf]`: the answer to one judgment. */
  function Answer(form: AppraisalForm, sf: SubField): string {
    match sf
    case Overall => form.conclusions.overall
    case Movement => form.conclusions.movement
    case Warranty => form.conclusions.warranty
    case Packaging => form.conclusions.packaging
    case Case => form.conditions.watchCase
    case Strap => form.conditions.strap
    case Crystal => form.conditions.crystal
    case BackCrystal => form.conditions.backCrystal
    case Hands => form.conditions.hands
    case Crown => form.conditions.crown
    case Clasp => form.conditions.clasp
    case Dial => form.conditions.dial
    case Function => form.performance.watchFunction
    case MovementStatus => form.performance.movementStatus
    case Waterproof => form.performance.waterproof
  }

  /** A judgment's answer is read from the value of its own group. */
  lemma AnswerInGroup(form: AppraisalForm, sf: SubField)
    ensures Answer(form, sf) == GroupAnswer(Get(form, Group(SectionOf(sf))), sf)
  {
  }

  /** Two forms that agree on every top-level key are the same form. */
  lemma FormExtensionality(a: AppraisalForm, b: AppraisalForm)
    requires forall f :: Get(a, f) == Get(b, f)
    ensures a == b
  {
    assert Get(a, Brand) == Get(b, Brand);
    assert Get(a, WarrantyDate) == Get(b, WarrantyDate);
    assert Get(a, ModelNumber) == Get(b, ModelNumber);
    assert Get(a, SerialNumber) == Get(b, SerialNumber);
    assert Get(a, Group(ConclusionsSection)) == Get(b, Group(ConclusionsSection));
    assert Get(a, Group(ConditionsSection)) == Get(b, Group(ConditionsSection));
    assert Get(a, Group(PerformanceSection)) == Get(b, Group(PerformanceSection));
    assert Get(a, Notes) == Get(b, Notes);
    assert Get(a, Photos) == Get(b, Photos);
  }
}
