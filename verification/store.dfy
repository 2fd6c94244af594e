/**
 * The SQLite database of the app and the repository functions that each
 * run one statement on it. A repository call is one atomic step; `now`
 * stands for `new Date().toISOString()` at the time of the call.
 */
module Store {
  import opened Js
  import opened Sql
  import opened Types
  import opened Queries

  class Database {
    var animals: Table<Animal>
    var operations: Table<Operation>
    var executors: Table<Executor>
    var diseases: Table<Disease>
    var bulls: Table<Bull>
    var vaccines: Table<Vaccine>
    var medicines: Table<Medicine>

    /**
     * What the schema guarantees: every row sits under its AUTOINCREMENT id,
     * falsy optional values are stored as NULL, and every operation's
     * animal_id names an existing animal.
     */
    ghost predicate Valid()
      reads this
    {
      && Consistent(animals, AnimalKey, AnimalNormal)
      && Consistent(operations, OperationKey, OperationNormal)
      && Consistent(executors, ExecutorKey, ExecutorNormal)
      && Consistent(diseases, DiseaseKey, DiseaseNormal)
      && Consistent(bulls, BullKey, BullNormal)
      && Consistent(vaccines, VaccineKey, VaccineNormal)
      && Consistent(medicines, MedicineKey, MedicineNormal)
      && (forall k :: k in operations.rows ==> operations.rows[k].animalId in animals.rows)
    }

    /** Opening a new database file and running `createTables`: seven empty tables. */
    constructor ()
      ensures Valid()
      ensures animals == EmptyTable() && operations == EmptyTable()
      ensures executors == EmptyTable() && diseases == EmptyTable() && bulls == EmptyTable()
      ensures vaccines == EmptyTable() && medicines == EmptyTable()
    {
      animals := EmptyTable();
      operations := EmptyTable();
      executors := EmptyTable();
      diseases := EmptyTable();
      bulls := EmptyTable();
      vaccines := EmptyTable();
      medicines := EmptyTable();
    }

    /** `createTables` on an existing database: every statement is `CREATE TABLE IF NOT EXISTS`. */
    method CreateTables()
      requires Valid()
      ensures Valid()
      ensures unchanged(this)
    {
    }

    // -------------------------------------------------------------------
    // AnimalRepository
    // -------------------------------------------------------------------

    /** `addAnimal`: inserts under a fresh id and returns it; fails if number, gender or type is missing. */
    method AddAnimal(a: AnimalInput, now: string) returns (r: Result<int>)
      requires Valid()
      modifies this`animals
      ensures Valid()
      ensures var row := AnimalColumns(old(NextId(animals)), a, now, now);
        && (row.None? ==> r == Err(NotNullConstraint) && animals == old(animals))
        && (row.Some? ==> r == Ok(old(NextId(animals))) && animals == old(Insert(animals, row.value)))
      ensures r.Ok? ==> r.value !in old(animals.rows) && forall k :: k in old(animals.rows) ==> k < r.value
    {
      var id := NextId(animals);
      var row := AnimalColumns(id, a, now, now);
      if row.None? {
        r := Err(NotNullConstraint);
      } else {
        InsertConsistent(animals, AnimalKey, AnimalNormal, row.value);
        animals := Insert(animals, row.value);
        r := Ok(id);
      }
    }

    /**
     * `updateAnimal`: rejected when the id is missing or 0; otherwise every
     * column but created_at is rewritten from `a` if a row has that id.
     */
    method UpdateAnimal(a: AnimalInput, now: string) returns (r: Outcome)
      requires Valid()
      modifies this`animals
      ensures Valid()
      ensures !IntTruthy(a.id) ==> r == Failed(IdRequired) && animals == old(animals)
      ensures IntTruthy(a.id) && a.id.value !in old(animals.rows) ==> r == Done && animals == old(animals)
      ensures IntTruthy(a.id) && a.id.value in old(animals.rows) ==>
        var row := AnimalColumns(a.id.value, a, old(animals.rows[a.id.value].createdAt), now);
        && (row.None? ==> r == Failed(NotNullConstraint) && animals == old(animals))
        && (row.Some? ==> r == Done && animals == old(Replace(animals, a.id.value, row.value)))
    {
      if !IntTruthy(a.id) {
        return Failed(IdRequired);
      }
      var id := a.id.value;
      if id !in animals.rows {
        return Done;
      }
      var row := AnimalColumns(id, a, animals.rows[id].createdAt, now);
      if row.None? {
        return Failed(NotNullConstraint);
      }
      ReplaceConsistent(animals, AnimalKey, AnimalNormal, id, row.value);
      animals := Replace(animals, id, row.value);
      r := Done;
    }

    /** `deleteAnimal`: the row goes, and ON DELETE CASCADE takes its operations with it. */
    method DeleteAnimal(id: int)
      requires Valid()
      modifies this`animals, this`operations
      ensures Valid()
      ensures animals == old(Remove(animals, id))
      ensures operations == old(RemoveWhere(operations, OfAnimal(id)))
      ensures WellFormed(operations) && OperationsByAnimalId(operations, id) == []
      ensures id !in old(animals.rows) ==> animals == old(animals) && operations == old(operations)
    {
      CascadeLeavesNoOperations(operations, id);
      RemoveConsistent(animals, AnimalKey, AnimalNormal, id);
      RemoveWhereConsistent(operations, OperationKey, OperationNormal, OfAnimal(id));
      animals := Remove(animals, id);
      operations := RemoveWhere(operations, OfAnimal(id));
    }

    /** `getAnimalById`: the row with that id, or null. */
    method GetAnimalById(id: int) returns (r: Option<Animal>)
      requires Valid()
      ensures r.Some? <==> id in animals.rows
      ensures r.Some? ==> r.value == animals.rows[id] && r.value.id == id
    {
      r := Lookup(animals, id);
    }

    method GetAllAnimals() returns (r: seq<Animal>)
      requires Valid()
      ensures WellFormed(animals) && r == AllAnimals(animals)
    {
      r := CopyRows(AllAnimals(animals));
    }

    method GetAnimalsByGroup(group: string) returns (r: seq<Animal>)
      requires Valid()
      ensures WellFormed(animals) && r == AnimalsByGroup(animals, group)
    {
      r := CopyRows(AnimalsByGroup(animals, group));
    }

    method SearchAnimals(term: string) returns (r: seq<Animal>)
      requires Valid()
      ensures WellFormed(animals) && r == Queries.SearchAnimals(animals, term)
    {
      r := CopyRows(Queries.SearchAnimals(animals, term));
    }

    // -------------------------------------------------------------------
    // OperationRepository
    // -------------------------------------------------------------------

    /**
     * `addOperation`: inserts under a fresh id; fails if animal_id, type or
     * date is missing, or if animal_id names no animal.
     */
    method AddOperation(o: OperationInput, now: string) returns (r: Result<int>)
      requires Valid()
      modifies this`operations
      ensures Valid()
      ensures var row := OperationColumns(old(NextId(operations)), o, now, now);
        && (row.None? ==> r == Err(NotNullConstraint) && operations == old(operations))
        && (row.Some? && row.value.animalId !in animals.rows ==>
              r == Err(ForeignKeyConstraint) && operations == old(operations))
        && (row.Some? && row.value.animalId in animals.rows ==>
              r == Ok(old(NextId(operations))) && operations == old(Insert(operations, row.value)))
      ensures r.Ok? ==> r.value !in old(operations.rows) && forall k :: k in old(operations.rows) ==> k < r.value
    {
      var id := NextId(operations);
      var row := OperationColumns(id, o, now, now);
      if row.None? {
        r := Err(NotNullConstraint);
      } else if row.value.animalId !in animals.rows {
        r := Err(ForeignKeyConstraint);
      } else {
        InsertConsistent(operations, OperationKey, OperationNormal, row.value);
        operations := Insert(operations, row.value);
        r := Ok(id);
      }
    }

    /** `updateOperation`: the id guard, then a full rewrite of the row with that id, if any. */
    method UpdateOperation(o: OperationInput, now: string) returns (r: Outcome)
      requires Valid()
      modifies this`operations
      ensures Valid()
      ensures !IntTruthy(o.id) ==> r == Failed(IdRequired) && operations == old(operations)
      ensures IntTruthy(o.id) && o.id.value !in old(operations.rows) ==> r == Done && operations == old(operations)
      ensures IntTruthy(o.id) && o.id.value in old(operations.rows) ==>
        var row := OperationColumns(o.id.value, o, old(operations.rows[o.id.value].createdAt), now);
        && (row.None? ==> r == Failed(NotNullConstraint) && operations == old(operations))
        && (row.Some? && row.value.animalId !in animals.rows ==>
              r == Failed(ForeignKeyConstraint) && operations == old(operations))
        && (row.Some? && row.value.animalId in animals.rows ==>
              r == Done && operations == old(Replace(operations, o.id.value, row.value)))
    {
      if !IntTruthy(o.id) {
        return Failed(IdRequired);
      }
      var id := o.id.value;
      if id !in operations.rows {
        return Done;
      }
      var row := OperationColumns(id, o, operations.rows[id].createdAt, now);
      if row.None? {
        return Failed(NotNullConstraint);
      }
      if row.value.animalId !in animals.rows {
        return Failed(ForeignKeyConstraint);
      }
      ReplaceConsistent(operations, OperationKey, OperationNormal, id, row.value);
      operations := Replace(operations, id, row.value);
      r := Done;
    }

    /** `deleteOperation`: removes only that row; an unknown id changes nothing. */
    method DeleteOperation(id: int)
      requires Valid()
      modifies this`operations
      ensures Valid()
      ensures operations == old(Remove(operations, id))
    {
      RemoveConsistent(operations, OperationKey, OperationNormal, id);
      operations := Remove(operations, id);
    }

    method GetOperationById(id: int) returns (r: Option<Operation>)
      requires Valid()
      ensures r.Some? <==> id in operations.rows
      ensures r.Some? ==> r.value == operations.rows[id] && r.value.id == id
    {
      r := Lookup(operations, id);
    }

    method GetOperationsByAnimalId(animalId: int) returns (r: seq<Operation>)
      requires Valid()
      ensures WellFormed(operations) && r == OperationsByAnimalId(operations, animalId)
      ensures r != [] ==> animalId in animals.rows
    {
      r := CopyRows(OperationsByAnimalId(operations, animalId));
      if r != [] {
        assert r[0] in r;
      }
    }

    method GetOperationsByDateRange(start: string, end: string) returns (r: seq<Operation>)
      requires Valid()
      ensures WellFormed(operations) && r == OperationsByDateRange(operations, start, end)
    {
      r := CopyRows(OperationsByDateRange(operations, start, end));
    }

    method GetOperationsByTypeAndDateRange(operationType: string, start: string, end: string) returns (r: seq<Operation>)
      requires Valid()
      ensures WellFormed(operations) && r == OperationsByTypeAndDateRange(operations, operationType, start, end)
    {
      r := CopyRows(OperationsByTypeAndDateRange(operations, operationType, start, end));
    }

    // -------------------------------------------------------------------
    // ExecutorRepository (executor_id in operations has no foreign key)
    // -------------------------------------------------------------------

    method AddExecutor(e: ExecutorInput, now: string) returns (r: Result<int>)
      requires Valid()
      modifies this`executors
      ensures Valid()
      ensures var row := ExecutorColumns(old(NextId(executors)), e, now, now);
        && (row.None? ==> r == Err(NotNullConstraint) && executors == old(executors))
        && (row.Some? ==> r == Ok(old(NextId(executors))) && executors == old(Insert(executors, row.value)))
      ensures r.Ok? ==> r.value !in old(executors.rows) && forall k :: k in old(executors.rows) ==> k < r.value
    {
      var id := NextId(executors);
      var row := ExecutorColumns(id, e, now, now);
      if row.None? {
        r := Err(NotNullConstraint);
      } else {
        InsertConsistent(executors, ExecutorKey, ExecutorNormal, row.value);
        executors := Insert(executors, row.value);
        r := Ok(id);
      }
    }

    method UpdateExecutor(e: ExecutorInput, now: string) returns (r: Outcome)
      requires Valid()
      modifies this`executors
      ensures Valid()
      ensures !IntTruthy(e.id) ==> r == Failed(IdRequired) && executors == old(executors)
      ensures IntTruthy(e.id) && e.id.value !in old(executors.rows) ==> r == Done && executors == old(executors)
      ensures IntTruthy(e.id) && e.id.value in old(executors.rows) ==>
        var row := ExecutorColumns(e.id.value, e, old(executors.rows[e.id.value].createdAt), now);
        && (row.None? ==> r == Failed(NotNullConstraint) && executors == old(executors))
        && (row.Some? ==> r == Done && executors == old(Replace(executors, e.id.value, row.value)))
    {
      if !IntTruthy(e.id) {
        return Failed(IdRequired);
      }
      var id := e.id.value;
      if id !in executors.rows {
        return Done;
      }
      var row := ExecutorColumns(id, e, executors.rows[id].createdAt, now);
      if row.None? {
        return Failed(NotNullConstraint);
      }
      ReplaceConsistent(executors, ExecutorKey, ExecutorNormal, id, row.value);
      executors := Replace(executors, id, row.value);
      r := Done;
    }

    /** `deleteExecutor`: removes only that row; operations keep the executor_id they hold. */
    method DeleteExecutor(id: int)
      requires Valid()
      modifies this`executors
      ensures Valid()
      ensures executors == old(Remove(executors, id))
      ensures operations == old(operations)
    {
      RemoveConsistent(executors, ExecutorKey, ExecutorNormal, id);
      executors := Remove(executors, id);
    }

    method GetExecutorById(id: int) returns (r: Option<Executor>)
      requires Valid()
      ensures r.Some? <==> id in executors.rows
      ensures r.Some? ==> r.value == executors.rows[id] && r.value.id == id
    {
      r := Lookup(executors, id);
    }

    method GetAllExecutors() returns (r: seq<Executor>)
      requires Valid()
      ensures WellFormed(executors) && r == AllExecutors(executors)
    {
      r := CopyRows(AllExecutors(executors));
    }

    // -------------------------------------------------------------------
    // DiseaseRepository
    // -------------------------------------------------------------------

    method AddDisease(d: DiseaseInput, now: string) returns (r: Result<int>)
      requires Valid()
      modifies this`diseases
      ensures Valid()
      ensures var row := DiseaseColumns(old(NextId(diseases)), d, now, now);
        && (row.None? ==> r == Err(NotNullConstraint) && diseases == old(diseases))
        && (row.Some? ==> r == Ok(old(NextId(diseases))) && diseases == old(Insert(diseases, row.value)))
      ensures r.Ok? ==> r.value !in old(diseases.rows) && forall k :: k in old(diseases.rows) ==> k < r.value
    {
      var id := NextId(diseases);
      var row := DiseaseColumns(id, d, now, now);
      if row.None? {
        r := Err(NotNullConstraint);
      } else {
        InsertConsistent(diseases, DiseaseKey, DiseaseNormal, row.value);
        diseases := Insert(diseases, row.value);
        r := Ok(id);
      }
    }

    method UpdateDisease(d: DiseaseInput, now: string) returns (r: Outcome)
      requires Valid()
      modifies this`diseases
      ensures Valid()
      ensures !IntTruthy(d.id) ==> r == Failed(IdRequired) && diseases == old(diseases)
      ensures IntTruthy(d.id) && d.id.value !in old(diseases.rows) ==> r == Done && diseases == old(diseases)
      ensures IntTruthy(d.id) && d.id.value in old(diseases.rows) ==>
        var row := DiseaseColumns(d.id.value, d, old(diseases.rows[d.id.value].createdAt), now);
        && (row.None? ==> r == Failed(NotNullConstraint) && diseases == old(diseases))
        && (row.Some? ==> r == Done && diseases == old(Replace(diseases, d.id.value, row.value)))
    {
      if !IntTruthy(d.id) {
        return Failed(IdRequired);
      }
      var id := d.id.value;
      if id !in diseases.rows {
        return Done;
      }
      var row := DiseaseColumns(id, d, diseases.rows[id].createdAt, now);
      if row.None? {
        return Failed(NotNullConstraint);
      }
      ReplaceConsistent(diseases, DiseaseKey, DiseaseNormal, id, row.value);
      diseases := Replace(diseases, id, row.value);
      r := Done;
    }

    method DeleteDisease(id: int)
      requires Valid()
      modifies this`diseases
      ensures Valid()
      ensures diseases == old(Remove(diseases, id))
    {
      RemoveConsistent(diseases, DiseaseKey, DiseaseNormal, id);
      diseases := Remove(diseases, id);
    }

    method GetDiseaseById(id: int) returns (r: Option<Disease>)
      requires Valid()
      ensures r.Some? <==> id in diseases.rows
      ensures r.Some? ==> r.value == diseases.rows[id] && r.value.id == id
    {
      r := Lookup(diseases, id);
    }

    method GetAllDiseases() returns (r: seq<Disease>)
      requires Valid()
      ensures WellFormed(diseases) && r == AllDiseases(diseases)
    {
      r := CopyRows(AllDiseases(diseases));
    }

    // -------------------------------------------------------------------
    // BullRepository
    // -------------------------------------------------------------------

    method AddBull(b: BullInput, now: string) returns (r: Result<int>)
      requires Valid()
      modifies this`bulls
      ensures Valid()
      ensures var row := BullColumns(old(NextId(bulls)), b, now, now);
        && (row.None? ==> r == Err(NotNullConstraint) && bulls == old(bulls))
        && (row.Some? ==> r == Ok(old(NextId(bulls))) && bulls == old(Insert(bulls, row.value)))
      ensures r.Ok? ==> r.value !in old(bulls.rows) && forall k :: k in old(bulls.rows) ==> k < r.value
    {
      var id := NextId(bulls);
      var row := BullColumns(id, b, now, now);
      if row.None? {
        r := Err(NotNullConstraint);
      } else {
        InsertConsistent(bulls, BullKey, BullNormal, row.value);
        bulls := Insert(bulls, row.value);
        r := Ok(id);
      }
    }

    method UpdateBull(b: BullInput, now: string) returns (r: Outcome)
      requires Valid()
      modifies this`bulls
      ensures Valid()
      ensures !IntTruthy(b.id) ==> r == Failed(IdRequired) && bulls == old(bulls)
      ensures IntTruthy(b.id) && b.id.value !in old(bulls.rows) ==> r == Done && bulls == old(bulls)
      ensures IntTruthy(b.id) && b.id.value in old(bulls.rows) ==>
        var row := BullColumns(b.id.value, b, old(bulls.rows[b.id.value].createdAt), now);
        && (row.None? ==> r == Failed(NotNullConstraint) && bulls == old(bulls))
        && (row.Some? ==> r == Done && bulls == old(Replace(bulls, b.id.value, row.value)))
    {
      if !IntTruthy(b.id) {
        return Failed(IdRequired);
      }
      var id := b.id.value;
      if id !in bulls.rows {
        return Done;
      }
      var row := BullColumns(id, b, bulls.rows[id].createdAt, now);
      if row.None? {
        return Failed(NotNullConstraint);
      }
      ReplaceConsistent(bulls, BullKey, BullNormal, id, row.value);
      bulls := Replace(bulls, id, row.value);
      r := Done;
    }

    method DeleteBull(id: int)
      requires Valid()
      modifies this`bulls
      ensures Valid()
      ensures bulls == old(Remove(bulls, id))
    {
      RemoveConsistent(bulls, BullKey, BullNormal, id);
      bulls := Remove(bulls, id);
    }

    method GetBullById(id: int) returns (r: Option<Bull>)
      requires Valid()
      ensures r.Some? <==> id in bulls.rows
      ensures r.Some? ==> r.value == bulls.rows[id] && r.value.id == id
    {
      r := Lookup(bulls, id);
    }

    method GetAllBulls() returns (r: seq<Bull>)
      requires Valid()
      ensures WellFormed(bulls) && r == AllBulls(bulls)
    {
      r := CopyRows(AllBulls(bulls));
    }

    // -------------------------------------------------------------------
    // VaccineRepository
    // -------------------------------------------------------------------

    method AddVaccine(v: VaccineInput, now: string) returns (r: Result<int>)
      requires Valid()
      modifies this`vaccines
      ensures Valid()
      ensures var row := VaccineColumns(old(NextId(vaccines)), v, now, now);
        && (row.None? ==> r == Err(NotNullConstraint) && vaccines == old(vaccines))
        && (row.Some? ==> r == Ok(old(NextId(vaccines))) && vaccines == old(Insert(vaccines, row.value)))
      ensures r.Ok? ==> r.value !in old(vaccines.rows) && forall k :: k in old(vaccines.rows) ==> k < r.value
    {
      var id := NextId(vaccines);
      var row := VaccineColumns(id, v, now, now);
      if row.None? {
        r := Err(NotNullConstraint);
      } else {
        InsertConsistent(vaccines, VaccineKey, VaccineNormal, row.value);
        vaccines := Insert(vaccines, row.value);
        r := Ok(id);
      }
    }

    method UpdateVaccine(v: VaccineInput, now: string) returns (r: Outcome)
      requires Valid()
      modifies this`vaccines
      ensures Valid()
      ensures !IntTruthy(v.id) ==> r == Failed(IdRequired) && vaccines == old(vaccines)
      ensures IntTruthy(v.id) && v.id.value !in old(vaccines.rows) ==> r == Done && vaccines == old(vaccines)
      ensures IntTruthy(v.id) && v.id.value in old(vaccines.rows) ==>
        var row := VaccineColumns(v.id.value, v, old(vaccines.rows[v.id.value].createdAt), now);
        && (row.None? ==> r == Failed(NotNullConstraint) && vaccines == old(vaccines))
        && (row.Some? ==> r == Done && vaccines == old(Replace(vaccines, v.id.value, row.value)))
    {
      if !IntTruthy(v.id) {
        return Failed(IdRequired);
      }
      var id := v.id.value;
      if id !in vaccines.rows {
        return Done;
      }
      var row := VaccineColumns(id, v, vaccines.rows[id].createdAt, now);
      if row.None? {
        return Failed(NotNullConstraint);
      }
      ReplaceConsistent(vaccines, VaccineKey, VaccineNormal, id, row.value);
      vaccines := Replace(vaccines, id, row.value);
      r := Done;
    }

    method DeleteVaccine(id: int)
      requires Valid()
      modifies this`vaccines
      ensures Valid()
      ensures vaccines == old(Remove(vaccines, id))
    {
      RemoveConsistent(vaccines, VaccineKey, VaccineNormal, id);
      vaccines := Remove(vaccines, id);
    }

    method GetVaccineById(id: int) returns (r: Option<Vaccine>)
      requires Valid()
      ensures r.Some? <==> id in vaccines.rows
      ensures r.Some? ==> r.value == vaccines.rows[id] && r.value.id == id
    {
      r := Lookup(vaccines, id);
    }

    method GetAllVaccines() returns (r: seq<Vaccine>)
      requires Valid()
      ensures WellFormed(vaccines) && r == AllVaccines(vaccines)
    {
      r := CopyRows(AllVaccines(vaccines));
    }

    // -------------------------------------------------------------------
    // MedicineRepository
    // -------------------------------------------------------------------

    method AddMedicine(m: MedicineInput, now: string) returns (r: Result<int>)
      requires Valid()
      modifies this`medicines
      ensures Valid()
      ensures var row := MedicineColumns(old(NextId(medicines)), m, now, now);
        && (row.None? ==> r == Err(NotNullConstraint) && medicines == old(medicines))
        && (row.Some? ==> r == Ok(old(NextId(medicines))) && medicines == old(Insert(medicines, row.value)))
      ensures r.Ok? ==> r.value !in old(medicines.rows) && forall k :: k in old(medicines.rows) ==> k < r.value
    {
      var id := NextId(medicines);
      var row := MedicineColumns(id, m, now, now);
      if row.None? {
        r := Err(NotNullConstraint);
      } else {
        InsertConsistent(medicines, MedicineKey, MedicineNormal, row.value);
        medicines := Insert(medicines, row.value);
        r := Ok(id);
      }
    }

    method UpdateMedicine(m: MedicineInput, now: string) returns (r: Outcome)
      requires Valid()
      modifies this`medicines
      ensures Valid()
      ensures !IntTruthy(m.id) ==> r == Failed(IdRequired) && medicines == old(medicines)
      ensures IntTruthy(m.id) && m.id.value !in old(medicines.rows) ==> r == Done && medicines == old(medicines)
      ensures IntTruthy(m.id) && m.id.value in old(medicines.rows) ==>
        var row := MedicineColumns(m.id.value, m, old(medicines.rows[m.id.value].createdAt), now);
        && (row.None? ==> r == Failed(NotNullConstraint) && medicines == old(medicines))
        && (row.Some? ==> r == Done && medicines == old(Replace(medicines, m.id.value, row.value)))
    {
      if !IntTruthy(m.id) {
        return Failed(IdRequired);
      }
      var id := m.id.value;
      if id !in medicines.rows {
        return Done;
      }
      var row := MedicineColumns(id, m, medicines.rows[id].createdAt, now);
      if row.None? {
        return Failed(NotNullConstraint);
      }
      ReplaceConsistent(medicines, MedicineKey, MedicineNormal, id, row.value);
      medicines := Replace(medicines, id, row.value);
      r := Done;
    }

    method DeleteMedicine(id: int)
      requires Valid()
      modifies this`medicines
      ensures Valid()
      ensures medicines == old(Remove(medicines, id))
    {
      RemoveConsistent(medicines, MedicineKey, MedicineNormal, id);
      medicines := Remove(medicines, id);
    }

    method GetMedicineById(id: int) returns (r: Option<Medicine>)
      requires Valid()
      ensures r.Some? <==> id in medicines.rows
      ensures r.Some? ==> r.value == medicines.rows[id] && r.value.id == id
    {
      r := Lookup(medicines, id);
    }

    method GetAllMedicines() returns (r: seq<Medicine>)
      requires Valid()
      ensures WellFormed(medicines) && r == AllMedicines(medicines)
    {
      r := CopyRows(AllMedicines(medicines));
    }
  }

  /** Rows read from a table whose every `animal_id` names a stored animal name stored animals too. */
  lemma StoredOperationsHaveAnimals(ops: seq<Operation>, t: Table<Operation>, animals: Table<Animal>)
    requires forall k :: k in t.rows ==> t.rows[k].animalId in animals.rows
    requires forall o :: o in ops ==> Stored(t, o)
    ensures forall i :: 0 <= i < |ops| ==> ops[i].animalId in animals.rows
  {
    forall i | 0 <= i < |ops| ensures ops[i].animalId in animals.rows {
      assert ops[i] in ops;
    }
  }
}
