/**
 * The animal form: its validation, the object `handleSave` builds from
 * the text fields, and the choice between `addAnimal` and `updateAnimal`.
 * `parseFloat` and `Number.prototype.toString` on reals are the
 * parameters `parseReal` and `showReal`; None from `parseReal` is NaN.
 */
module AnimalForm {
  import opened Js
  import opened Sql
  import opened Types
  import opened Store
  import NumericInput

  // ---------------------------------------------------------------------
  // parseInt(text, 10)
  // ---------------------------------------------------------------------

  /** The longest run of decimal digits at the start of `s`. */
  function LeadingDigits(s: string): (r: string)
    ensures |r| <= |s| && r == s[..|r|] && NumericInput.Digits(r)
    ensures |r| < |s| ==> !NumericInput.IsDigit(s[|r|])
  {
    if s == [] || !NumericInput.IsDigit(s[0]) then []
    else
      var rest := LeadingDigits(s[1..]);
      assert [s[0]] + rest == s[..|rest| + 1];
      [s[0]] + rest
  }

  /**
   * `parseInt(s, 10)`: leading white space skipped, an optional sign,
   * then the longest run of digits; None (NaN) when there is no digit.
   */
  function ParseInt(s: string): (r: Option<int>)
    ensures r.Some? ==> exists k :: 0 <= k < |s| && NumericInput.IsDigit(s[k])
  {
    var t := TrimStart(s);
    var signed := |t| > 0 && (t[0] == '-' || t[0] == '+');
    var body := if signed then t[1..] else t;
    var digits := LeadingDigits(body);
    if digits == [] then None
    else
      assert body[0] == s[|s| - |body|];
      var v := NumericInput.DigitsValue(digits);
      Some(if signed && t[0] == '-' then 0 - v else v)
  }

  lemma TrimStartKeeps(s: string)
    requires s != [] && !IsWhitespace(s[0])
    ensures TrimStart(s) == s
  {
  }

  lemma LeadingDigitsAll(s: string)
    requires NumericInput.Digits(s)
    ensures LeadingDigits(s) == s
  {
  }

  /** `parseInt` reads back what `toString` wrote for an integer. */
  lemma ParseIntToString(n: int)
    ensures ParseInt(NumericInput.IntToString(n)) == Some(n)
  {
    var m: nat := if n < 0 then -n else n;
    var s := NumericInput.IntToString(n);
    var digits := NumericInput.NatToString(m);
    NumericInput.NatToStringRoundTrip(m);
    LeadingDigitsAll(digits);
    if n < 0 {
      assert s == "-" + digits;
      TrimStartKeeps(s);
      assert s[1..] == digits;
    } else {
      assert s == digits;
      assert NumericInput.IsDigit(s[0]);
      TrimStartKeeps(s);
    }
  }

  // ---------------------------------------------------------------------
  // The form
  // ---------------------------------------------------------------------

  /** The form's state: text inputs, and the date pickers' `string | null`. */
  datatype AnimalFormFields = AnimalFormFields(
    number: string,
    responder: string,
    group: string,
    animalType: string,
    gender: string,
    birthDate: Option<string>,
    lastDeliveryDate: Option<string>,
    nextDeliveryDate: Option<string>,
    lastInseminationDate: Option<string>,
    lactationNumber: string,
    inseminationCount: string,
    averageMilk: string,
    milkByLactation: string,
    notes: string)

  /** The keys `validateForm` can put in its error record. */
  datatype FormField = NumberField | TypeField | GenderField

  /**
   * `validateForm`'s errors: a number that is blank after trimming, an
   * empty type, an empty gender.
   */
  function Errors(f: AnimalFormFields): (r: set<FormField>)
    ensures NumberField in r <==> IsBlank(f.number)
    ensures TypeField in r <==> f.animalType == ""
    ensures GenderField in r <==> f.gender == ""
  {
    TrimEmptyIffBlank(f.number);
    (if Trim(f.number) == "" then {NumberField} else {})
    + (if f.animalType == "" then {TypeField} else {})
    + (if f.gender == "" then {GenderField} else {})
  }

  /** `validateForm()`: the error record has no key. */
  predicate IsValid(f: AnimalFormFields) {
    Errors(f) == {}
  }

  /** `text || undefined` */
  function OrUndefined(s: string): (r: Option<string>)
    ensures r.Some? <==> s != ""
    ensures r.Some? ==> r.value == s
  {
    if s != "" then Some(s) else None
  }

  /** `text ? parse(text) : undefined` for the two counters. */
  function CounterOf(s: string): Option<int> {
    if s != "" then ParseInt(s) else None
  }

  function MeasureOf(s: string, parseReal: string -> Option<real>): Option<real> {
    if s != "" then parseReal(s) else None
  }

  /**
   * `animalData`: the number untrimmed, empty texts as undefined, the
   * counters through `parseInt`, the measures through `parseFloat`, and
   * both timestamps set to now.
   */
  function Payload(f: AnimalFormFields, now: string, parseReal: string -> Option<real>): (r: AnimalInput)
    ensures r.id == None
    ensures r.number == Some(f.number) && r.gender == Some(f.gender) && r.animalType == Some(f.animalType)
  {
    AnimalInput(
      None, Some(f.number), OrUndefined(f.responder), OrUndefined(f.group),
      StrOrNull(f.birthDate), Some(f.gender), Some(f.animalType),
      StrOrNull(f.lastDeliveryDate), StrOrNull(f.nextDeliveryDate), StrOrNull(f.lastInseminationDate),
      CounterOf(f.lactationNumber), CounterOf(f.inseminationCount),
      MeasureOf(f.averageMilk, parseReal), MeasureOf(f.milkByLactation, parseReal),
      OrUndefined(f.notes), Some(now), Some(now))
  }

  /**
   * What a saved form writes: the untrimmed number, gender and type; an
   * empty optional text, and a counter of 0 or NaN, become NULL.
   */
  lemma PayloadRow(f: AnimalFormFields, id: int, created: string, now: string, parseReal: string -> Option<real>)
    ensures var row := AnimalColumns(id, Payload(f, now, parseReal), created, now);
      && row.Some?
      && row.value.number == f.number && row.value.gender == f.gender && row.value.animalType == f.animalType
      && (row.value.responder.Some? <==> f.responder != "")
      && (row.value.group.Some? <==> f.group != "")
      && (row.value.notes.Some? <==> f.notes != "")
      && (f.lactationNumber == "" ==> row.value.lactationNumber.None?)
      && (row.value.lactationNumber.Some? ==> row.value.lactationNumber == ParseInt(f.lactationNumber))
      && (ParseInt(f.lactationNumber) == Some(0) ==> row.value.lactationNumber.None?)
      && (f.inseminationCount == "" ==> row.value.inseminationCount.None?)
      && (row.value.inseminationCount.Some? ==> row.value.inseminationCount == ParseInt(f.inseminationCount))
  {
  }

  /** A blank-looking number such as " " passes the schema but not the form. */
  lemma FormStricterThanSchema(f: AnimalFormFields)
    requires f.number == " " && f.animalType != "" && f.gender != ""
    ensures !IsValid(f)
    ensures forall id, created, now, parseReal ::
      AnimalColumns(id, Payload(f, now, parseReal), created, now).Some?
  {
    assert NumberField in Errors(f);
  }

  // ---------------------------------------------------------------------
  // Loading a stored animal into the form
  // ---------------------------------------------------------------------

  /** `animal.x?.toString() || ''` for a counter. */
  function CounterText(n: Option<int>): string {
    match n
    case Some(v) => NumericInput.IntToString(v)
    case None => ""
  }

  function MeasureText(x: Option<real>, showReal: real -> string): string {
    match x
    case Some(v) => showReal(v)
    case None => ""
  }

  /** The form the edit screen fills from a stored animal. */
  function FormOf(a: Animal, showReal: real -> string): AnimalFormFields {
    AnimalFormFields(
      a.number, StrOr(a.responder, ""), StrOr(a.group, ""), a.animalType, a.gender,
      StrOrNull(a.birthDate), StrOrNull(a.lastDeliveryDate), StrOrNull(a.nextDeliveryDate),
      StrOrNull(a.lastInseminationDate),
      CounterText(a.lactationNumber), CounterText(a.inseminationCount),
      MeasureText(a.averageMilk, showReal), MeasureText(a.milkByLactation, showReal),
      StrOr(a.notes, ""))
  }

  /**
   * Saving the edit form unchanged rewrites the stored row as it was,
   * apart from `updated_at`, when `parseFloat` reads back what
   * `toString` writes.
   */
  lemma CounterRoundTrip(n: Option<int>)
    requires IntNormal(n)
    ensures IntOrNull(CounterOf(CounterText(n))) == n
  {
    if n.Some? {
      ParseIntToString(n.value);
      assert NumericInput.IntToString(n.value) != "";
    }
  }

  lemma MeasureRoundTrip(x: Option<real>, showReal: real -> string, parseReal: string -> Option<real>)
    requires RealNormal(x)
    requires forall v :: showReal(v) != "" && parseReal(showReal(v)) == Some(v)
    ensures RealOrNull(MeasureOf(MeasureText(x, showReal), parseReal)) == x
  {
  }

  lemma TextRoundTrip(s: Option<string>)
    requires TextNormal(s)
    ensures StrOrNull(OrUndefined(StrOr(s, ""))) == s
    ensures StrOrNull(StrOrNull(s)) == s
  {
  }

  /**
   * Saving the edit form unchanged rewrites the stored row as it was,
   * apart from `updated_at`, when `parseFloat` reads back what
   * `toString` writes.
   */
  lemma EditWithoutChanges(a: Animal, now: string, showReal: real -> string, parseReal: string -> Option<real>)
    requires AnimalNormal(a)
    requires forall x :: showReal(x) != "" && parseReal(showReal(x)) == Some(x)
    ensures AnimalColumns(a.id, Payload(FormOf(a, showReal), now, parseReal).(id := Some(a.id)), a.createdAt, now)
         == Some(a.(updatedAt := now))
  {
    var p := Payload(FormOf(a, showReal), now, parseReal);
    CounterRoundTrip(a.lactationNumber);
    CounterRoundTrip(a.inseminationCount);
    MeasureRoundTrip(a.averageMilk, showReal, parseReal);
    MeasureRoundTrip(a.milkByLactation, showReal, parseReal);
    TextRoundTrip(a.responder);
    TextRoundTrip(a.group);
    TextRoundTrip(a.notes);
    TextRoundTrip(a.birthDate);
    TextRoundTrip(a.lastDeliveryDate);
    TextRoundTrip(a.nextDeliveryDate);
    TextRoundTrip(a.lastInseminationDate);
    AnimalRoundTrip(a, now);
    assert AnimalColumns(a.id, p.(id := Some(a.id)), a.createdAt, now)
        == AnimalColumns(a.id, AnimalAsInput(a), a.createdAt, now);
  }

  // ---------------------------------------------------------------------
  // handleSave
  // ---------------------------------------------------------------------

  datatype SaveResult =
    | Invalid                 // validateForm failed: nothing is called
    | Added(id: int)          // addAnimal returned the new id
    | Updated                 // updateAnimal returned
    | SaveFailed(error: Error) // the repository call threw: an alert is shown

  /**
   * `handleSave`: an invalid form calls nothing; a truthy route id
   * updates that animal; otherwise the animal is added. A valid form
   * never trips the NOT NULL constraint.
   */
  method SaveAnimal(db: Database, routeId: Option<int>, f: AnimalFormFields, now: string,
                    parseReal: string -> Option<real>) returns (r: SaveResult)
    requires db.Valid()
    modifies db`animals
    ensures db.Valid()
    ensures !IsValid(f) ==> r == Invalid && db.animals == old(db.animals)
    ensures IsValid(f) && !IntTruthy(routeId) ==>
      var row := AnimalColumns(old(NextId(db.animals)), Payload(f, now, parseReal), now, now);
      row.Some? && r == Added(old(NextId(db.animals))) && db.animals == old(Insert(db.animals, row.value))
    ensures IsValid(f) && IntTruthy(routeId) && routeId.value !in old(db.animals.rows) ==>
      r == Updated && db.animals == old(db.animals)
    ensures IsValid(f) && IntTruthy(routeId) && routeId.value in old(db.animals.rows) ==>
      var row := AnimalColumns(routeId.value, Payload(f, now, parseReal), old(db.animals.rows[routeId.value].createdAt), now);
      row.Some? && r == Updated && db.animals == old(Replace(db.animals, routeId.value, row.value))
  {
    if !IsValid(f) {
      return Invalid;
    }
    var data := Payload(f, now, parseReal);
    if IntTruthy(routeId) {
      var outcome := db.UpdateAnimal(data.(id := routeId), now);
      match outcome {
        case Done => r := Updated;
        case Failed(e) => r := SaveFailed(e);
      }
    } else {
      var result := db.AddAnimal(data, now);
      match result {
        case Ok(id) => r := Added(id);
        case Err(e) => r := SaveFailed(e);
      }
    }
  }
}
