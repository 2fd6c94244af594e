/**
 * The calendar screen: the range it reads for the selected day or month,
 * the animal details attached to each operation, the operation-type
 * filter and the days that get a marker.
 */
module Calendar {
  import opened Js
  import opened Sql
  import opened Types
  import opened Queries
  import opened Store

  datatype ViewMode = Day | Month

  /** `OperationWithAnimal`: an operation with its animal's number and type when known. */
  datatype OperationWithAnimal = OperationWithAnimal(
    op: Operation, animalNumber: Option<string>, animalType: Option<string>)

  /** `{...operation, animalNumber: animal?.number, animalType: animal?.type}` */
  function WithAnimal(op: Operation, animal: Option<Animal>): OperationWithAnimal {
    match animal
    case Some(a) => OperationWithAnimal(op, Some(a.number), Some(a.animalType))
    case None => OperationWithAnimal(op, None, None)
  }

  /** Every fetched operation, in order, with the animal its `animal_id` names looked up. */
  function Enriched(ops: seq<Operation>, animals: Table<Animal>): (r: seq<OperationWithAnimal>)
    ensures |r| == |ops|
    ensures forall i :: 0 <= i < |ops| ==>
      r[i].op == ops[i] &&
      (r[i].animalNumber.Some? <==> ops[i].animalId in animals.rows) &&
      (ops[i].animalId in animals.rows ==>
        r[i].animalNumber == Some(animals.rows[ops[i].animalId].number) &&
        r[i].animalType == Some(animals.rows[ops[i].animalId].animalType))
  {
    if ops == [] then []
    else Enriched(ops[..|ops| - 1], animals) + [WithAnimal(ops[|ops| - 1], Lookup(animals, ops[|ops| - 1].animalId))]
  }

  /** The range `loadOperations` reads: the selected day alone, or the month around it. */
  function RangeOf(mode: ViewMode, day: string, monthStart: string, monthEnd: string): (string, string) {
    if mode == Day then (day, day) else (monthStart, monthEnd)
  }

  /** The type filter: no truthy type selected lets every operation through. */
  predicate Passes(selected: Option<string>, e: OperationWithAnimal) {
    !StrTruthy(selected) || e.op.operationType == selected.value
  }

  function OfSelectedType(operationType: string): OperationWithAnimal -> bool {
    (e: OperationWithAnimal) => e.op.operationType == operationType
  }

  /**
   * `getFilteredOperations`: all operations when no truthy type is
   * selected, otherwise exactly those of that type, in their order.
   */
  function FilteredOperations(ops: seq<OperationWithAnimal>, selected: Option<string>): (r: seq<OperationWithAnimal>)
    ensures !StrTruthy(selected) ==> r == ops
    ensures forall e :: e in r <==> e in ops && Passes(selected, e)
    ensures IsSubsequence(r, ops)
  {
    if !StrTruthy(selected) then
      SubsequenceRefl(ops);
      ops
    else
      FilterIsSubsequence(ops, OfSelectedType(selected.value));
      Filter(ops, OfSelectedType(selected.value))
  }

  /** `date.split('T')[0]`: the text before the first 'T', or all of it. */
  function DatePart(s: string): (r: string)
    ensures |r| <= |s| && r == s[..|r|] && 'T' !in r
    ensures |r| < |s| ==> s[|r|] == 'T'
  {
    if s == [] || s[0] == 'T' then []
    else
      var rest := DatePart(s[1..]);
      assert [s[0]] + rest == s[..|rest| + 1];
      [s[0]] + rest
  }

  /** The date parts of the operations that pass the filter, in order, repeats kept. */
  function DayKeys(ops: seq<OperationWithAnimal>, selected: Option<string>): (r: seq<string>)
    ensures forall d :: d in r <==> exists e :: e in ops && Passes(selected, e) && DatePart(e.op.date) == d
  {
    if ops == [] then []
    else
      var e := ops[|ops| - 1];
      assert ops == ops[..|ops| - 1] + [e];
      DayKeys(ops[..|ops| - 1], selected) + (if Passes(selected, e) then [DatePart(e.op.date)] else [])
  }
  /** The `Promise.all` over `getAnimalById`, one lookup after another. */
  method EnrichAll(db: Database, ops: seq<Operation>) returns (r: seq<OperationWithAnimal>)
    requires db.Valid()
    ensures r == Enriched(ops, db.animals)
  {
    r := [];
    for i := 0 to |ops|
      invariant r == Enriched(ops[..i], db.animals)
    {
      var animal := db.GetAnimalById(ops[i].animalId);
      assert ops[..i + 1][..i] == ops[..i];
      r := r + [WithAnimal(ops[i], animal)];
    }
    assert ops[..|ops|] == ops;
  }

  class CalendarScreen {
    var selectedDay: string
    var viewMode: ViewMode
    var selectedOperationType: Option<string>
    var operations: seq<OperationWithAnimal>

    constructor (today: string)
      ensures selectedDay == today && viewMode == Day
      ensures selectedOperationType == None && operations == []
    {
      selectedDay := today;
      viewMode := Day;
      selectedOperationType := None;
      operations := [];
    }

    /** `handleDateSelected` */
    method HandleDateSelected(day: string)
      modifies this`selectedDay
      ensures selectedDay == day
    {
      selectedDay := day;
    }

    /** `selectOperationType` */
    method SelectOperationType(operationType: Option<string>)
      modifies this`selectedOperationType
      ensures selectedOperationType == operationType
    {
      selectedOperationType := operationType;
    }

    /** `toggleViewMode`: day becomes month and month becomes day. */
    method ToggleViewMode()
      modifies this`viewMode
      ensures viewMode != old(viewMode)
    {
      viewMode := if viewMode == Day then Month else Day;
    }

    /**
     * `loadOperations`: reads the operations of the range, newest first,
     * and looks up each one's animal. In day mode every loaded operation
     * is dated the selected day; every operation finds its animal, since
     * each `animal_id` names a stored animal.
     */
    method LoadOperations(db: Database, monthStart: string, monthEnd: string)
      requires db.Valid()
      modifies this`operations
      ensures WellFormed(db.operations)
      ensures var range := RangeOf(viewMode, selectedDay, monthStart, monthEnd);
              operations == Enriched(OperationsByDateRange(db.operations, range.0, range.1), db.animals)
      ensures viewMode == Day ==> forall i :: 0 <= i < |operations| ==> operations[i].op.date == selectedDay
      ensures forall i :: 0 <= i < |operations| ==> operations[i].animalNumber.Some?
    {
      ghost var t := db.operations;
      var range := RangeOf(viewMode, selectedDay, monthStart, monthEnd);
      var ops := db.GetOperationsByDateRange(range.0, range.1);
      var list := EnrichAll(db, ops);
      if viewMode == Day {
        SingleDayRange(t, selectedDay);
      }
      StoredOperationsHaveAnimals(ops, t, db.animals);
      operations := list;
    }

    /**
     * `getDaysWithOperations`: each distinct date part among the
     * operations that pass the type filter, once, in the order of first
     * occurrence; none when no operation is loaded.
     */
    method DaysWithOperations() returns (days: seq<string>)
      ensures days == Unique(DayKeys(operations, selectedOperationType))
      ensures forall d :: d in days <==>
        exists e :: e in FilteredOperations(operations, selectedOperationType) && DatePart(e.op.date) == d
      ensures NoDuplicates(days)
      ensures operations == [] ==> days == []
    {
      if |operations| == 0 {
        return [];
      }
      days := [];
      for i := 0 to |operations|
        invariant days == Unique(DayKeys(operations[..i], selectedOperationType))
      {
        var e := operations[i];
        ghost var keys := DayKeys(operations[..i], selectedOperationType);
        assert operations[..i + 1][..i] == operations[..i] && operations[..i + 1][i] == e;
        assert DayKeys(operations[..i + 1], selectedOperationType)
            == keys + (if Passes(selectedOperationType, e) then [DatePart(e.op.date)] else []);
        if !StrTruthy(selectedOperationType) || e.op.operationType == selectedOperationType.value {
          var d := DatePart(e.op.date);
          UniqueSnoc(keys, d);
          if d !in days {
            days := days + [d];
          }
        } else {
          assert keys + [] == keys;
        }
      }
      assert operations[..|operations|] == operations;
    }
  }
}
