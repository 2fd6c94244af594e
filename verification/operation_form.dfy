/**
 * The operation form: its validation with type-dependent required
 * fields, the object `handleSave` builds, and what it does after adding
 * an operation for a female animal (the reproductive bookkeeping). The
 * bookkeeping update is modelled twice: as the code builds it, which
 * the animals table always rejects (`SaveOperation`), and as evidently
 * intended (`SaveOperationIntended`).
 */
module OperationForm {
  import opened Js
  import opened Sql
  import opened Types
  import opened Store

  // The operation types the form treats specially.
  const Treatment := "Лечение"
  const Insemination := "Осеменение"
  const Vaccination := "Вакцинация"
  const Calving := "Отёл"

  /** The form's state; the animal and executor pickers hold `number | null`. */
  datatype OperationFormFields = OperationFormFields(
    selectedAnimalId: Option<int>,
    operationType: string,
    date: Option<string>,
    diagnosis: string,
    medicine: string,
    dose: string,
    bull: string,
    vaccine: string,
    executorId: Option<int>,
    result: string,
    notes: string)

  /** The keys `validateForm` can put in its error record. */
  datatype FormField = AnimalField | TypeField | DateField | DiagnosisField | BullField | VaccineField

  /**
   * `validateForm`'s errors: no animal, no type or no date; and for a
   * treatment no diagnosis, an insemination no bull, a vaccination no
   * vaccine. No other type requires any of the three.
   */
  function Errors(f: OperationFormFields): (r: set<FormField>)
    ensures AnimalField in r <==> !IntTruthy(f.selectedAnimalId)
    ensures TypeField in r <==> f.operationType == ""
    ensures DateField in r <==> !StrTruthy(f.date)
    ensures DiagnosisField in r <==> f.operationType == Treatment && f.diagnosis == ""
    ensures BullField in r <==> f.operationType == Insemination && f.bull == ""
    ensures VaccineField in r <==> f.operationType == Vaccination && f.vaccine == ""
    ensures f.operationType !in {Treatment, Insemination, Vaccination} ==>
      r <= {AnimalField, TypeField, DateField}
  {
    (if !IntTruthy(f.selectedAnimalId) then {AnimalField} else {})
    + (if f.operationType == "" then {TypeField} else {})
    + (if !StrTruthy(f.date) then {DateField} else {})
    + (if f.operationType == Treatment && f.diagnosis == "" then {DiagnosisField} else {})
    + (if f.operationType == Insemination && f.bull == "" then {BullField} else {})
    + (if f.operationType == Vaccination && f.vaccine == "" then {VaccineField} else {})
  }

  predicate IsValid(f: OperationFormFields) {
    Errors(f) == {}
  }

  /** `text || undefined` */
  function OrUndefined(s: string): Option<string> {
    if s != "" then Some(s) else None
  }

  /**
   * `operationData`: empty texts and a 0/null executor as undefined (the
   * -1 of 'not chosen' is truthy and goes through), both timestamps now.
   */
  function Payload(f: OperationFormFields, now: string): (r: OperationInput)
    ensures r.id == None
    ensures r.animalId == f.selectedAnimalId && r.operationType == Some(f.operationType) && r.date == f.date
    ensures r.executorId.Some? <==> IntTruthy(f.executorId)
    ensures r.executorId.Some? ==> r.executorId == f.executorId
  {
    OperationInput(
      None, f.selectedAnimalId, Some(f.operationType), f.date,
      OrUndefined(f.diagnosis), OrUndefined(f.medicine), OrUndefined(f.dose),
      OrUndefined(f.bull), OrUndefined(f.vaccine),
      if IntTruthy(f.executorId) then f.executorId else None,
      OrUndefined(f.result), OrUndefined(f.notes), Some(now), Some(now))
  }

  /**
   * A valid form never trips a NOT NULL constraint, and the row it
   * writes holds what its type requires: a diagnosis for a treatment, a
   * bull for an insemination, a vaccine for a vaccination.
   */
  lemma ValidFormRow(f: OperationFormFields, id: int, created: string, now: string)
    requires IsValid(f)
    ensures var row := OperationColumns(id, Payload(f, now), created, now);
      && row.Some?
      && row.value.animalId == f.selectedAnimalId.value && row.value.animalId != 0
      && row.value.operationType == f.operationType && row.value.date == f.date.value
      && (f.operationType == Treatment ==> row.value.diagnosis == Some(f.diagnosis))
      && (f.operationType == Insemination ==> row.value.bull == Some(f.bull))
      && (f.operationType == Vaccination ==> row.value.vaccine == Some(f.vaccine))
      && (f.executorId == Some(-1) ==> row.value.executorId == Some(-1))
      && (f.executorId == Some(0) ==> row.value.executorId == None)
  {
    assert AnimalField !in Errors(f) && DateField !in Errors(f);
    assert DiagnosisField !in Errors(f) && BullField !in Errors(f) && VaccineField !in Errors(f);
  }

  // ---------------------------------------------------------------------
  // Reproductive bookkeeping
  // ---------------------------------------------------------------------

  /** `old + 1`, or 1 when unset (a NULL read back is `null`, and `null + 1` is 1). */
  function Bump(n: Option<int>): (r: int)
    ensures n.Some? ==> r == n.value + 1
    ensures n.None? ==> r == 1
  {
    match n
    case Some(v) => v + 1
    case None => 1
  }

  /** An input object that carries only `id`. */
  function OnlyId(id: int): AnimalInput {
    AnimalInput(id := Some(id), number := None, responder := None, group := None, birthDate := None,
                gender := None, animalType := None, lastDeliveryDate := None, nextDeliveryDate := None,
                lastInseminationDate := None, lactationNumber := None, inseminationCount := None,
                averageMilk := None, milkByLactation := None, notes := None,
                createdAt := None, updatedAt := None)
  }

  /**
   * `animalToUpdate` as the code builds it: for a female, `{id}` plus
   * the insemination date and count, or plus the delivery date and
   * lactation number; None when the object has no key besides `id`, so
   * that no update is issued.
   */
  function BookkeepingUpdate(animal: Option<Animal>, operationType: string, date: Option<string>): (r: Option<AnimalInput>)
    ensures r.Some? <==>
      animal.Some? && animal.value.gender == "female" && operationType in {Insemination, Calving}
    ensures r.Some? ==> r.value.id == Some(animal.value.id)
    ensures r.Some? && operationType == Insemination ==>
      r.value == OnlyId(animal.value.id).(lastInseminationDate := date,
                                          inseminationCount := Some(Bump(animal.value.inseminationCount)))
    ensures r.Some? && operationType == Calving ==>
      r.value == OnlyId(animal.value.id).(lastDeliveryDate := date,
                                          lactationNumber := Some(Bump(animal.value.lactationNumber)))
  {
    if animal.None? || animal.value.gender != "female" then None
    else
      var a := animal.value;
      if operationType == Insemination then
        Some(OnlyId(a.id).(lastInseminationDate := date, inseminationCount := Some(Bump(a.inseminationCount))))
      else if operationType == Calving then
        Some(OnlyId(a.id).(lastDeliveryDate := date, lactationNumber := Some(Bump(a.lactationNumber))))
      else None
  }

  /**
   * `updateAnimal` writes every column from its argument, and the
   * bookkeeping object has no number, gender or type: the statement
   * violates NOT NULL whatever the animal, and nothing is recorded.
   */
  lemma BookkeepingViolatesNotNull(animal: Option<Animal>, operationType: string, date: Option<string>,
                                   created: string, now: string)
    requires BookkeepingUpdate(animal, operationType, date).Some?
    ensures AnimalColumns(animal.value.id, BookkeepingUpdate(animal, operationType, date).value, created, now).None?
  {
  }

  /**
   * The bookkeeping as evidently meant: the stored animal, with only the
   * date and the counter changed.
   */
  function CorrectedBookkeepingUpdate(animal: Option<Animal>, operationType: string, date: Option<string>): (r: Option<AnimalInput>)
    ensures r.Some? <==> BookkeepingUpdate(animal, operationType, date).Some?
  {
    if animal.None? || animal.value.gender != "female" then None
    else
      var a := animal.value;
      if operationType == Insemination then
        Some(AnimalAsInput(a).(lastInseminationDate := date, inseminationCount := Some(Bump(a.inseminationCount))))
      else if operationType == Calving then
        Some(AnimalAsInput(a).(lastDeliveryDate := date, lactationNumber := Some(Bump(a.lactationNumber))))
      else None
  }

  /** The stored animal after the bookkeeping: the new date and the counter moved on by one. */
  function Bookkept(a: Animal, operationType: string, date: string, now: string): Animal {
    if operationType == Insemination then
      a.(lastInseminationDate := Some(date), inseminationCount := IntOrNull(Some(Bump(a.inseminationCount))),
         updatedAt := now)
    else
      a.(lastDeliveryDate := Some(date), lactationNumber := IntOrNull(Some(Bump(a.lactationNumber))),
         updatedAt := now)
  }

  /**
   * The corrected update is accepted and rewrites the stored row with the
   * new date and counter, every other column as it was.
   */
  lemma CorrectedBookkeepingApplies(animal: Option<Animal>, operationType: string, date: string, now: string)
    requires CorrectedBookkeepingUpdate(animal, operationType, Some(date)).Some?
    requires AnimalNormal(animal.value) && date != ""
    ensures var a := animal.value;
      && operationType in {Insemination, Calving}
      && AnimalColumns(a.id, CorrectedBookkeepingUpdate(animal, operationType, Some(date)).value, a.createdAt, now)
         == Some(Bookkept(a, operationType, date, now))
      && AnimalNormal(Bookkept(a, operationType, date, now))
      && (operationType == Insemination ==>
            Bookkept(a, operationType, date, now) ==
              a.(lastInseminationDate := Some(date), inseminationCount := IntOrNull(Some(Bump(a.inseminationCount))),
                 updatedAt := now))
      && (operationType == Calving ==>
            Bookkept(a, operationType, date, now) ==
              a.(lastDeliveryDate := Some(date), lactationNumber := IntOrNull(Some(Bump(a.lactationNumber))),
                 updatedAt := now))
  {
    AnimalRoundTrip(animal.value, now);
  }

  // ---------------------------------------------------------------------
  // handleSave
  // ---------------------------------------------------------------------

  datatype SaveResult =
    | Invalid                                    // validateForm failed: nothing is called
    | Updated                                    // edit mode: updateOperation returned
    | Added(id: int)                             // the operation was added and nothing threw
    | SaveFailed(error: Error, added: Option<int>) // a call threw: the alert is shown

  /**
   * `handleSave` as written. An invalid form calls nothing. A truthy
   * route operation id updates that operation and leaves the animals
   * alone. Otherwise the operation is added and, for a female animal and
   * an insemination or a calving, `updateAnimal` is called with the
   * bookkeeping object; when the animal is stored that call throws on a
   * NOT NULL column, so the alert is shown, the new operation stays and
   * no animal changes. `animal` is the animal the form loaded together
   * with its selected id, from the route or from the edited operation;
   * it may have changed in the database since.
   */
  method SaveOperation(db: Database, routeOperationId: Option<int>, animal: Option<Animal>,
                       f: OperationFormFields, now: string) returns (r: SaveResult)
    requires db.Valid()
    modifies db`operations, db`animals
    ensures db.Valid()
    ensures db.animals == old(db.animals)
    ensures !IsValid(f) ==> r == Invalid && unchanged(db)
    ensures IsValid(f) && IntTruthy(routeOperationId) ==> r.Updated? || r.SaveFailed?
    ensures IsValid(f) && IntTruthy(routeOperationId) && routeOperationId.value in old(db.operations.rows) ==>
      var row := OperationColumns(routeOperationId.value, Payload(f, now),
                                  old(db.operations.rows[routeOperationId.value].createdAt), now);
      && row.Some?
      && (row.value.animalId in db.animals.rows ==>
            r == Updated && db.operations == old(Replace(db.operations, routeOperationId.value, row.value)))
      && (row.value.animalId !in db.animals.rows ==>
            r == SaveFailed(ForeignKeyConstraint, None) && db.operations == old(db.operations))
    ensures IsValid(f) && !IntTruthy(routeOperationId) ==>
      var id := old(NextId(db.operations));
      var row := OperationColumns(id, Payload(f, now), now, now);
      && row.Some?
      && (row.value.animalId !in old(db.animals.rows) ==>
            r == SaveFailed(ForeignKeyConstraint, None) && unchanged(db))
      && (row.value.animalId in old(db.animals.rows) ==>
            && db.operations == old(Insert(db.operations, row.value))
            && (BookkeepingUpdate(animal, f.operationType, f.date).None? ==> r == Added(id))
            && (BookkeepingUpdate(animal, f.operationType, f.date).Some? && animal.value.id in old(db.animals.rows) ==>
                  r == SaveFailed(NotNullConstraint, Some(id))))
  {
    if !IsValid(f) {
      return Invalid;
    }
    ValidFormRow(f, NextId(db.operations), now, now);
    var data := Payload(f, now);
    if IntTruthy(routeOperationId) {
      if routeOperationId.value in db.operations.rows {
        ValidFormRow(f, routeOperationId.value, db.operations.rows[routeOperationId.value].createdAt, now);
      }
      var outcome := db.UpdateOperation(data.(id := routeOperationId), now);
      match outcome {
        case Done => r := Updated;
        case Failed(e) => r := SaveFailed(e, None);
      }
      return;
    }
    var added := db.AddOperation(data, now);
    match added {
      case Err(e) =>
        r := SaveFailed(e, None);
      case Ok(id) =>
        var update := BookkeepingUpdate(animal, f.operationType, f.date);
        if update.None? {
          r := Added(id);
        } else {
          var a := animal.value;
          BookkeepingViolatesNotNull(animal, f.operationType, f.date,
                                     if a.id in db.animals.rows then db.animals.rows[a.id].createdAt else now, now);
          var outcome := db.UpdateAnimal(update.value, now);
          match outcome {
            case Done => r := Added(id);
            case Failed(e) => r := SaveFailed(e, Some(id));
          }
        }
    }
  }

  /**
   * `handleSave` with the bookkeeping as evidently intended: the same
   * calls, but when the loaded animal is the stored one it gets the new
   * date and counter and every other column is kept.
   */
  method SaveOperationIntended(db: Database, routeOperationId: Option<int>, animal: Option<Animal>,
                               f: OperationFormFields, now: string) returns (r: SaveResult)
    requires db.Valid()
    modifies db`operations, db`animals
    ensures db.Valid()
    ensures !IsValid(f) ==> r == Invalid && unchanged(db)
    ensures IsValid(f) && IntTruthy(routeOperationId) ==>
      (r.Updated? || r.SaveFailed?) && db.animals == old(db.animals)
    ensures IsValid(f) && IntTruthy(routeOperationId) && routeOperationId.value in old(db.operations.rows) ==>
      var row := OperationColumns(routeOperationId.value, Payload(f, now),
                                  old(db.operations.rows[routeOperationId.value].createdAt), now);
      && row.Some?
      && (row.value.animalId in db.animals.rows ==>
            r == Updated && db.operations == old(Replace(db.operations, routeOperationId.value, row.value)))
      && (row.value.animalId !in db.animals.rows ==>
            r == SaveFailed(ForeignKeyConstraint, None) && db.operations == old(db.operations))
    ensures IsValid(f) && !IntTruthy(routeOperationId) ==>
      var id := old(NextId(db.operations));
      var row := OperationColumns(id, Payload(f, now), now, now);
      && row.Some?
      && (row.value.animalId !in old(db.animals.rows) ==>
            r == SaveFailed(ForeignKeyConstraint, None) && unchanged(db))
      && (row.value.animalId in old(db.animals.rows) ==>
            && db.operations == old(Insert(db.operations, row.value))
            && (CorrectedBookkeepingUpdate(animal, f.operationType, f.date).None? ==>
                  r == Added(id) && db.animals == old(db.animals))
            && (CorrectedBookkeepingUpdate(animal, f.operationType, f.date).Some? &&
                animal.value.id in old(db.animals.rows) && animal.value == old(db.animals.rows[animal.value.id]) ==>
                  r == Added(id) &&
                  db.animals == old(Replace(db.animals, animal.value.id,
                                            Bookkept(animal.value, f.operationType, f.date.value, now)))))
  {
    if !IsValid(f) {
      return Invalid;
    }
    ValidFormRow(f, NextId(db.operations), now, now);
    var data := Payload(f, now);
    if IntTruthy(routeOperationId) {
      if routeOperationId.value in db.operations.rows {
        ValidFormRow(f, routeOperationId.value, db.operations.rows[routeOperationId.value].createdAt, now);
      }
      var outcome := db.UpdateOperation(data.(id := routeOperationId), now);
      match outcome {
        case Done => r := Updated;
        case Failed(e) => r := SaveFailed(e, None);
      }
      return;
    }
    ghost var animals := db.animals;
    var added := db.AddOperation(data, now);
    match added {
      case Err(e) =>
        r := SaveFailed(e, None);
      case Ok(id) =>
        var update := CorrectedBookkeepingUpdate(animal, f.operationType, f.date);
        if update.None? {
          r := Added(id);
        } else {
          var a := animal.value;
          if a.id in animals.rows && a == animals.rows[a.id] {
            assert DateField !in Errors(f);
            CorrectedBookkeepingApplies(animal, f.operationType, f.date.value, now);
          }
          var outcome := db.UpdateAnimal(update.value, now);
          match outcome {
            case Done => r := Added(id);
            case Failed(e) => r := SaveFailed(e, Some(id));
          }
        }
    }
  }
}
