/**
 * The records of the vet-assistant data model. For each entity there is
 *  - the row as stored (and as read back: `SELECT` returns every column),
 *  - the JavaScript object a repository is handed (every field may be
 *    `undefined`, because screens build partial objects), and
 *  - the row an `INSERT` or `UPDATE` writes from such an object: falsy
 *    optional fields become NULL, and a NULL in a NOT NULL column fails.
 */
module Types {
  import opened Js

  /** Why a repository call is rejected. */
  datatype Error =
    | IdRequired            // the `if (!x.id) throw` guard of every update
    | NotNullConstraint     // SQLite: NOT NULL constraint failed
    | ForeignKeyConstraint  // SQLite: FOREIGN KEY constraint failed

  /** A repository call that yields a value (the new id) or is rejected. */
  datatype Result<T> = Ok(value: T) | Err(error: Error)

  /** A repository call that yields nothing or is rejected. */
  datatype Outcome = Done | Failed(error: Error)

  /** An optional TEXT column never holds the empty string: falsy values are stored as NULL. */
  predicate TextNormal(s: Option<string>) { s.None? || s.value != "" }
  predicate IntNormal(n: Option<int>) { n.None? || n.value != 0 }
  predicate RealNormal(x: Option<real>) { x.None? || x.value != 0.0 }

  // ---------------------------------------------------------------------
  // animals
  // ---------------------------------------------------------------------

  datatype Animal = Animal(
    id: int,
    number: string,
    responder: Option<string>,
    group: Option<string>,
    birthDate: Option<string>,
    gender: string,
    animalType: string,
    lastDeliveryDate: Option<string>,
    nextDeliveryDate: Option<string>,
    lastInseminationDate: Option<string>,
    lactationNumber: Option<int>,
    inseminationCount: Option<int>,
    averageMilk: Option<real>,
    milkByLactation: Option<real>,
    notes: Option<string>,
    createdAt: string,
    updatedAt: string)

  datatype AnimalInput = AnimalInput(
    id: Option<int>,
    number: Option<string>,
    responder: Option<string>,
    group: Option<string>,
    birthDate: Option<string>,
    gender: Option<string>,
    animalType: Option<string>,
    lastDeliveryDate: Option<string>,
    nextDeliveryDate: Option<string>,
    lastInseminationDate: Option<string>,
    lactationNumber: Option<int>,
    inseminationCount: Option<int>,
    averageMilk: Option<real>,
    milkByLactation: Option<real>,
    notes: Option<string>,
    createdAt: Option<string>,
    updatedAt: Option<string>)

  function AnimalKey(a: Animal): int { a.id }

  predicate AnimalNormal(a: Animal) {
    && TextNormal(a.responder) && TextNormal(a.group) && TextNormal(a.birthDate)
    && TextNormal(a.lastDeliveryDate) && TextNormal(a.nextDeliveryDate)
    && TextNormal(a.lastInseminationDate)
    && IntNormal(a.lactationNumber) && IntNormal(a.inseminationCount)
    && RealNormal(a.averageMilk) && RealNormal(a.milkByLactation)
    && TextNormal(a.notes)
  }

  /**
   * The `animals` row written for `a` under id `id`: `created` and `now`
   * are the two timestamps (the object's own are ignored); None when
   * number, gender or type is missing.
   */
  function AnimalColumns(id: int, a: AnimalInput, created: string, now: string): (r: Option<Animal>)
    ensures r.Some? <==> a.number.Some? && a.gender.Some? && a.animalType.Some?
    ensures r.Some? ==> && r.value.id == id
                        && r.value.createdAt == created && r.value.updatedAt == now
                        && r.value.number == a.number.value
                        && r.value.gender == a.gender.value
                        && r.value.animalType == a.animalType.value
                        && AnimalNormal(r.value)
  {
    if a.number.None? || a.gender.None? || a.animalType.None? then None
    else Some(Animal(
      id, a.number.value, StrOrNull(a.responder), StrOrNull(a.group), StrOrNull(a.birthDate),
      a.gender.value, a.animalType.value,
      StrOrNull(a.lastDeliveryDate), StrOrNull(a.nextDeliveryDate), StrOrNull(a.lastInseminationDate),
      IntOrNull(a.lactationNumber), IntOrNull(a.inseminationCount),
      RealOrNull(a.averageMilk), RealOrNull(a.milkByLactation),
      StrOrNull(a.notes), created, now))
  }

  /** The object `getAnimalById` hands back, as a repository input. */
  function AnimalAsInput(a: Animal): AnimalInput {
    AnimalInput(
      Some(a.id), Some(a.number), a.responder, a.group, a.birthDate,
      Some(a.gender), Some(a.animalType),
      a.lastDeliveryDate, a.nextDeliveryDate, a.lastInseminationDate,
      a.lactationNumber, a.inseminationCount, a.averageMilk, a.milkByLactation,
      a.notes, Some(a.createdAt), Some(a.updatedAt))
  }

  /** Writing back a row that was read rewrites it unchanged, except `updated_at`. */
  lemma AnimalRoundTrip(a: Animal, now: string)
    requires AnimalNormal(a)
    ensures AnimalColumns(a.id, AnimalAsInput(a), a.createdAt, now) == Some(a.(updatedAt := now))
  {
  }

  // ---------------------------------------------------------------------
  // operations
  // ---------------------------------------------------------------------

  datatype Operation = Operation(
    id: int,
    animalId: int,
    operationType: string,
    date: string,
    diagnosis: Option<string>,
    medicine: Option<string>,
    dose: Option<string>,
    bull: Option<string>,
    vaccine: Option<string>,
    executorId: Option<int>,
    result: Option<string>,
    notes: Option<string>,
    createdAt: string,
    updatedAt: string)

  datatype OperationInput = OperationInput(
    id: Option<int>,
    animalId: Option<int>,
    operationType: Option<string>,
    date: Option<string>,
    diagnosis: Option<string>,
    medicine: Option<string>,
    dose: Option<string>,
    bull: Option<string>,
    vaccine: Option<string>,
    executorId: Option<int>,
    result: Option<string>,
    notes: Option<string>,
    createdAt: Option<string>,
    updatedAt: Option<string>)

  function OperationKey(o: Operation): int { o.id }

  predicate OperationNormal(o: Operation) {
    && TextNormal(o.diagnosis) && TextNormal(o.medicine) && TextNormal(o.dose)
    && TextNormal(o.bull) && TextNormal(o.vaccine) && IntNormal(o.executorId)
    && TextNormal(o.result) && TextNormal(o.notes)
  }

  /** The `operations` row written for `o`; None when animal_id, type or date is missing. */
  function OperationColumns(id: int, o: OperationInput, created: string, now: string): (r: Option<Operation>)
    ensures r.Some? <==> o.animalId.Some? && o.operationType.Some? && o.date.Some?
    ensures r.Some? ==> && r.value.id == id
                        && r.value.createdAt == created && r.value.updatedAt == now
                        && r.value.animalId == o.animalId.value
                        && r.value.operationType == o.operationType.value
                        && r.value.date == o.date.value
                        && OperationNormal(r.value)
  {
    if o.animalId.None? || o.operationType.None? || o.date.None? then None
    else Some(Operation(
      id, o.animalId.value, o.operationType.value, o.date.value,
      StrOrNull(o.diagnosis), StrOrNull(o.medicine), StrOrNull(o.dose),
      StrOrNull(o.bull), StrOrNull(o.vaccine), IntOrNull(o.executorId),
      StrOrNull(o.result), StrOrNull(o.notes), created, now))
  }

  function OperationAsInput(o: Operation): OperationInput {
    OperationInput(
      Some(o.id), Some(o.animalId), Some(o.operationType), Some(o.date),
      o.diagnosis, o.medicine, o.dose, o.bull, o.vaccine, o.executorId,
      o.result, o.notes, Some(o.createdAt), Some(o.updatedAt))
  }

  lemma OperationRoundTrip(o: Operation, now: string)
    requires OperationNormal(o)
    ensures OperationColumns(o.id, OperationAsInput(o), o.createdAt, now) == Some(o.(updatedAt := now))
  {
  }

  // ---------------------------------------------------------------------
  // directories: executors, diseases, bulls, vaccines, medicines
  // ---------------------------------------------------------------------

  datatype Executor = Executor(
    id: int, name: string, position: Option<string>, contact: Option<string>,
    notes: Option<string>, createdAt: string, updatedAt: string)

  datatype ExecutorInput = ExecutorInput(
    id: Option<int>, name: Option<string>, position: Option<string>, contact: Option<string>,
    notes: Option<string>)

  function ExecutorKey(e: Executor): int { e.id }

  predicate ExecutorNormal(e: Executor) {
    TextNormal(e.position) && TextNormal(e.contact) && TextNormal(e.notes)
  }

  function ExecutorColumns(id: int, e: ExecutorInput, created: string, now: string): (r: Option<Executor>)
    ensures r.Some? <==> e.name.Some?
    ensures r.Some? ==> && r.value.id == id && r.value.name == e.name.value
                        && r.value.createdAt == created && r.value.updatedAt == now
                        && ExecutorNormal(r.value)
  {
    if e.name.None? then None
    else Some(Executor(id, e.name.value, StrOrNull(e.position), StrOrNull(e.contact),
                       StrOrNull(e.notes), created, now))
  }

  datatype Disease = Disease(
    id: int, name: string, description: Option<string>, symptoms: Option<string>,
    treatment: Option<string>, createdAt: string, updatedAt: string)

  datatype DiseaseInput = DiseaseInput(
    id: Option<int>, name: Option<string>, description: Option<string>, symptoms: Option<string>,
    treatment: Option<string>)

  function DiseaseKey(d: Disease): int { d.id }

  predicate DiseaseNormal(d: Disease) {
    TextNormal(d.description) && TextNormal(d.symptoms) && TextNormal(d.treatment)
  }

  function DiseaseColumns(id: int, d: DiseaseInput, created: string, now: string): (r: Option<Disease>)
    ensures r.Some? <==> d.name.Some?
    ensures r.Some? ==> && r.value.id == id && r.value.name == d.name.value
                        && r.value.createdAt == created && r.value.updatedAt == now
                        && DiseaseNormal(r.value)
  {
    if d.name.None? then None
    else Some(Disease(id, d.name.value, StrOrNull(d.description), StrOrNull(d.symptoms),
                      StrOrNull(d.treatment), created, now))
  }

  datatype Bull = Bull(
    id: int, name: string, number: Option<string>, breed: Option<string>,
    notes: Option<string>, createdAt: string, updatedAt: string)

  datatype BullInput = BullInput(
    id: Option<int>, name: Option<string>, number: Option<string>, breed: Option<string>,
    notes: Option<string>)

  function BullKey(b: Bull): int { b.id }

  predicate BullNormal(b: Bull) {
    TextNormal(b.number) && TextNormal(b.breed) && TextNormal(b.notes)
  }

  function BullColumns(id: int, b: BullInput, created: string, now: string): (r: Option<Bull>)
    ensures r.Some? <==> b.name.Some?
    ensures r.Some? ==> && r.value.id == id && r.value.name == b.name.value
                        && r.value.createdAt == created && r.value.updatedAt == now
                        && BullNormal(r.value)
  {
    if b.name.None? then None
    else Some(Bull(id, b.name.value, StrOrNull(b.number), StrOrNull(b.breed),
                   StrOrNull(b.notes), created, now))
  }

  datatype Vaccine = Vaccine(
    id: int, name: string, manufacturer: Option<string>, dosage: Option<string>,
    instructions: Option<string>, createdAt: string, updatedAt: string)

  datatype VaccineInput = VaccineInput(
    id: Option<int>, name: Option<string>, manufacturer: Option<string>, dosage: Option<string>,
    instructions: Option<string>)

  function VaccineKey(v: Vaccine): int { v.id }

  predicate VaccineNormal(v: Vaccine) {
    TextNormal(v.manufacturer) && TextNormal(v.dosage) && TextNormal(v.instructions)
  }

  function VaccineColumns(id: int, v: VaccineInput, created: string, now: string): (r: Option<Vaccine>)
    ensures r.Some? <==> v.name.Some?
    ensures r.Some? ==> && r.value.id == id && r.value.name == v.name.value
                        && r.value.createdAt == created && r.value.updatedAt == now
                        && VaccineNormal(r.value)
  {
    if v.name.None? then None
    else Some(Vaccine(id, v.name.value, StrOrNull(v.manufacturer), StrOrNull(v.dosage),
                      StrOrNull(v.instructions), created, now))
  }

  datatype Medicine = Medicine(
    id: int, name: string, activeIngredient: Option<string>, manufacturer: Option<string>,
    dosage: Option<string>, instructions: Option<string>, createdAt: string, updatedAt: string)

  datatype MedicineInput = MedicineInput(
    id: Option<int>, name: Option<string>, activeIngredient: Option<string>,
    manufacturer: Option<string>, dosage: Option<string>, instructions: Option<string>)

  function MedicineKey(m: Medicine): int { m.id }

  predicate MedicineNormal(m: Medicine) {
    && TextNormal(m.activeIngredient) && TextNormal(m.manufacturer)
    && TextNormal(m.dosage) && TextNormal(m.instructions)
  }

  function MedicineColumns(id: int, m: MedicineInput, created: string, now: string): (r: Option<Medicine>)
    ensures r.Some? <==> m.name.Some?
    ensures r.Some? ==> && r.value.id == id && r.value.name == m.name.value
                        && r.value.createdAt == created && r.value.updatedAt == now
                        && MedicineNormal(r.value)
  {
    if m.name.None? then None
    else Some(Medicine(id, m.name.value, StrOrNull(m.activeIngredient), StrOrNull(m.manufacturer),
                       StrOrNull(m.dosage), StrOrNull(m.instructions), created, now))
  }
}
