/**
 * The SELECT statements of the repositories, each as the filter of its
 * WHERE clause and the sort of its ORDER BY, over one table.
 */
module Queries {
  import opened Js
  import opened Sql
  import opened Types

  // Sort keys (the ORDER BY columns).
  function NumberOf(a: Animal): string { a.number }
  function DateOf(o: Operation): string { o.date }
  function ExecutorName(e: Executor): string { e.name }
  function DiseaseName(d: Disease): string { d.name }
  function BullName(b: Bull): string { b.name }
  function VaccineName(v: Vaccine): string { v.name }
  function MedicineName(m: Medicine): string { m.name }

  // WHERE clauses.
  predicate AnyAnimal(a: Animal) { true }
  predicate AnyExecutor(e: Executor) { true }
  predicate AnyDisease(d: Disease) { true }
  predicate AnyBull(b: Bull) { true }
  predicate AnyVaccine(v: Vaccine) { true }
  predicate AnyMedicine(m: Medicine) { true }

  /** `group_name = ?` (a NULL group never equals). */
  function InGroup(group: string): Animal -> bool {
    (a: Animal) => a.group == Some(group)
  }

  /**
   * `number LIKE '%term%' OR responder LIKE '%term%'`, with LIKE read as
   * plain containment; a NULL responder does not match.
   */
  function MatchesTerm(term: string): Animal -> bool {
    (a: Animal) => Includes(a.number, term) || (a.responder.Some? && Includes(a.responder.value, term))
  }

  /** `animal_id = ?` */
  function OfAnimal(animalId: int): Operation -> bool {
    (o: Operation) => o.animalId == animalId
  }

  /** `date BETWEEN ? AND ?` */
  function InDateRange(start: string, end: string): Operation -> bool {
    (o: Operation) => Between(o.date, start, end)
  }

  /** `type = ?` */
  function OfType(operationType: string): Operation -> bool {
    (o: Operation) => o.operationType == operationType
  }

  /** `type = ? AND date BETWEEN ? AND ?` */
  function OfTypeInDateRange(operationType: string, start: string, end: string): Operation -> bool {
    (o: Operation) => o.operationType == operationType && Between(o.date, start, end)
  }

  // ---------------------------------------------------------------------
  // animals
  // ---------------------------------------------------------------------

  /** `getAllAnimals`: every animal once, ascending by number. */
  function AllAnimals(t: Table<Animal>): (r: seq<Animal>)
    requires WellFormed(t)
    ensures forall a :: a in r <==> Stored(t, a)
    ensures NoDuplicates(r) && SortedBy(r, NumberOf, true)
  {
    Select(t, AnyAnimal, NumberOf, true)
  }

  /** `getAnimalsByGroup`: exactly the animals of that group, ascending by number. */
  function AnimalsByGroup(t: Table<Animal>, group: string): (r: seq<Animal>)
    requires WellFormed(t)
    ensures forall a :: a in r <==> Stored(t, a) && a.group == Some(group)
    ensures NoDuplicates(r) && SortedBy(r, NumberOf, true)
  {
    Select(t, InGroup(group), NumberOf, true)
  }

  /** `searchAnimals`: exactly the animals whose number or responder contains the term. */
  function SearchAnimals(t: Table<Animal>, term: string): (r: seq<Animal>)
    requires WellFormed(t)
    ensures forall a :: a in r <==>
      Stored(t, a) && (Includes(a.number, term) || (a.responder.Some? && Includes(a.responder.value, term)))
    ensures NoDuplicates(r) && SortedBy(r, NumberOf, true)
  {
    Select(t, MatchesTerm(term), NumberOf, true)
  }

  /** The group and search reads are the full list, filtered, in the same order. */
  lemma FilteredAnimalReads(t: Table<Animal>, group: string, term: string)
    requires WellFormed(t)
    ensures AnimalsByGroup(t, group) == Filter(AllAnimals(t), InGroup(group))
    ensures SearchAnimals(t, term) == Filter(AllAnimals(t), MatchesTerm(term))
    ensures IsSubsequence(AnimalsByGroup(t, group), AllAnimals(t))
    ensures IsSubsequence(SearchAnimals(t, term), AllAnimals(t))
  {
    SelectRefine(t, AnyAnimal, InGroup(group), InGroup(group), NumberOf, true);
    SelectRefine(t, AnyAnimal, MatchesTerm(term), MatchesTerm(term), NumberOf, true);
    FilterIsSubsequence(AllAnimals(t), InGroup(group));
    FilterIsSubsequence(AllAnimals(t), MatchesTerm(term));
  }

  // ---------------------------------------------------------------------
  // operations
  // ---------------------------------------------------------------------

  /** `getOperationsByAnimalId`: exactly that animal's operations, newest date first. */
  function OperationsByAnimalId(t: Table<Operation>, animalId: int): (r: seq<Operation>)
    requires WellFormed(t)
    ensures forall o :: o in r <==> Stored(t, o) && o.animalId == animalId
    ensures NoDuplicates(r) && SortedBy(r, DateOf, false)
  {
    Select(t, OfAnimal(animalId), DateOf, false)
  }

  /** `getOperationsByDateRange`: exactly the operations with start <= date <= end, newest first. */
  function OperationsByDateRange(t: Table<Operation>, start: string, end: string): (r: seq<Operation>)
    requires WellFormed(t)
    ensures forall o :: o in r <==> Stored(t, o) && TextLe(start, o.date) && TextLe(o.date, end)
    ensures NoDuplicates(r) && SortedBy(r, DateOf, false)
  {
    Select(t, InDateRange(start, end), DateOf, false)
  }

  /** `getOperationsByTypeAndDateRange`: the range read restricted to one type, newest first. */
  function OperationsByTypeAndDateRange(t: Table<Operation>, operationType: string, start: string, end: string): (r: seq<Operation>)
    requires WellFormed(t)
    ensures forall o :: o in r <==> Stored(t, o) && o.operationType == operationType
                                    && TextLe(start, o.date) && TextLe(o.date, end)
    ensures NoDuplicates(r) && SortedBy(r, DateOf, false)
  {
    Select(t, OfTypeInDateRange(operationType, start, end), DateOf, false)
  }

  /** The type+range read is the range read filtered by type, so a subsequence of it. */
  lemma TypeRangeRefinesRange(t: Table<Operation>, operationType: string, start: string, end: string)
    requires WellFormed(t)
    ensures OperationsByTypeAndDateRange(t, operationType, start, end)
         == Filter(OperationsByDateRange(t, start, end), OfType(operationType))
    ensures IsSubsequence(OperationsByTypeAndDateRange(t, operationType, start, end),
                          OperationsByDateRange(t, start, end))
  {
    SelectRefine(t, InDateRange(start, end), OfType(operationType),
                 OfTypeInDateRange(operationType, start, end), DateOf, false);
    FilterIsSubsequence(OperationsByDateRange(t, start, end), OfType(operationType));
  }

  /** A range whose bounds are the same day holds exactly that day's operations. */
  lemma {:induction false} SingleDayRange(t: Table<Operation>, day: string)
    requires WellFormed(t)
    ensures forall o :: o in OperationsByDateRange(t, day, day) <==> Stored(t, o) && o.date == day
  {
    forall o: Operation {
      BetweenSameBound(o.date, day);
    }
  }

  /** After the cascade that deletes an animal's operations, none is left to read. */
  lemma CascadeLeavesNoOperations(t: Table<Operation>, animalId: int)
    requires WellFormed(t)
    ensures WellFormed(RemoveWhere(t, OfAnimal(animalId)))
    ensures OperationsByAnimalId(RemoveWhere(t, OfAnimal(animalId)), animalId) == []
  {
  }

  // ---------------------------------------------------------------------
  // directories
  // ---------------------------------------------------------------------

  /** `getAllExecutors`: every executor once, ascending by name. */
  function AllExecutors(t: Table<Executor>): (r: seq<Executor>)
    requires WellFormed(t)
    ensures forall e :: e in r <==> Stored(t, e)
    ensures NoDuplicates(r) && SortedBy(r, ExecutorName, true)
  {
    Select(t, AnyExecutor, ExecutorName, true)
  }

  /** `getAllDiseases`: every disease once, ascending by name. */
  function AllDiseases(t: Table<Disease>): (r: seq<Disease>)
    requires WellFormed(t)
    ensures forall d :: d in r <==> Stored(t, d)
    ensures NoDuplicates(r) && SortedBy(r, DiseaseName, true)
  {
    Select(t, AnyDisease, DiseaseName, true)
  }

  /** `getAllBulls`: every bull once, ascending by name. */
  function AllBulls(t: Table<Bull>): (r: seq<Bull>)
    requires WellFormed(t)
    ensures forall b :: b in r <==> Stored(t, b)
    ensures NoDuplicates(r) && SortedBy(r, BullName, true)
  {
    Select(t, AnyBull, BullName, true)
  }

  /** `getAllVaccines`: every vaccine once, ascending by name. */
  function AllVaccines(t: Table<Vaccine>): (r: seq<Vaccine>)
    requires WellFormed(t)
    ensures forall v :: v in r <==> Stored(t, v)
    ensures NoDuplicates(r) && SortedBy(r, VaccineName, true)
  {
    Select(t, AnyVaccine, VaccineName, true)
  }

  /** `getAllMedicines`: every medicine once, ascending by name. */
  function AllMedicines(t: Table<Medicine>): (r: seq<Medicine>)
    requires WellFormed(t)
    ensures forall m :: m in r <==> Stored(t, m)
    ensures NoDuplicates(r) && SortedBy(r, MedicineName, true)
  {
    Select(t, AnyMedicine, MedicineName, true)
  }
}
