/**
 * The spreadsheet export: which read feeds each export, and the labelled
 * row built for each animal and each operation. Writing the workbook,
 * the file and the share dialog are not modelled.
 */
module DataExport {
  import opened Js
  import opened Sql
  import opened Types
  import opened Queries
  import opened Store

  /** A spreadsheet cell: the value a row object holds under a key. */
  datatype Cell = Text(text: string) | Int(n: int) | Real(x: real)

  /** One key of a row object, with its value; the key is the column header. */
  datatype Column = Column(header: string, cell: Cell)

  type Row = seq<Column>

  const AnimalHeaders: seq<string> := [
    "Номер", "Респондер", "Группа", "Пол", "Тип", "Дата рождения",
    "Дата последнего отёла", "Дата следующего отёла", "Дата последнего осеменения",
    "Лактация", "Кол-во осеменений", "Средний удой", "Молоко по лактации", "Примечания"]

  const OperationHeaders: seq<string> := [
    "Дата", "Тип операции", "Номер животного", "Группа", "Диагноз", "Лекарство",
    "Доза", "Бык", "Вакцина", "Результат", "Примечания"]

  const Male := "Муж."
  const Female := "Жен."
  const UnknownAnimal := "Неизвестно"
  const OperationsSheet := "Операции"

  // ---------------------------------------------------------------------
  // Cells: `value || ''`
  // ---------------------------------------------------------------------

  /** The text a blank cell reads back as absent. */
  function TextOf(c: Cell): Option<string> {
    if c.Text? && c.text != "" then Some(c.text) else None
  }

  function IntOf(c: Cell): Option<int> {
    if c.Int? then Some(c.n) else None
  }

  function RealOf(c: Cell): Option<real> {
    if c.Real? then Some(c.x) else None
  }

  /** A falsy text (absent or empty) is written as ''; the cell reads back as the stored value. */
  function TextCell(s: Option<string>): (c: Cell)
    ensures c == Text("") <==> !StrTruthy(s)
    ensures TextOf(c) == StrOrNull(s)
  {
    if StrTruthy(s) then Text(s.value) else Text("")
  }

  /** A falsy number (absent or 0) is written as ''. */
  function IntCell(n: Option<int>): (c: Cell)
    ensures c == Text("") <==> !IntTruthy(n)
    ensures IntOf(c) == IntOrNull(n)
  {
    if IntTruthy(n) then Int(n.value) else Text("")
  }

  function RealCell(x: Option<real>): (c: Cell)
    ensures c == Text("") <==> x.None? || x.value == 0.0
    ensures RealOf(c) == RealOrNull(x)
  {
    if x.Some? && x.value != 0.0 then Real(x.value) else Text("")
  }

  // ---------------------------------------------------------------------
  // Animals
  // ---------------------------------------------------------------------

  /** The gender column: 'male' is 'Муж.', anything else 'Жен.'. */
  function GenderCell(gender: string): (c: Cell)
    ensures c == Text(Male) <==> gender == "male"
    ensures c == Text(Male) || c == Text(Female)
  {
    Text(if gender == "male" then Male else Female)
  }

  /** The row object built for one animal, keys in their written order. */
  function AnimalRow(a: Animal): (r: Row)
    ensures |r| == |AnimalHeaders| && forall i :: 0 <= i < |r| ==> r[i].header == AnimalHeaders[i]
  {
    [ Column(AnimalHeaders[0], Text(a.number)),
      Column(AnimalHeaders[1], TextCell(a.responder)),
      Column(AnimalHeaders[2], TextCell(a.group)),
      Column(AnimalHeaders[3], GenderCell(a.gender)),
      Column(AnimalHeaders[4], Text(a.animalType)),
      Column(AnimalHeaders[5], TextCell(a.birthDate)),
      Column(AnimalHeaders[6], TextCell(a.lastDeliveryDate)),
      Column(AnimalHeaders[7], TextCell(a.nextDeliveryDate)),
      Column(AnimalHeaders[8], TextCell(a.lastInseminationDate)),
      Column(AnimalHeaders[9], IntCell(a.lactationNumber)),
      Column(AnimalHeaders[10], IntCell(a.inseminationCount)),
      Column(AnimalHeaders[11], RealCell(a.averageMilk)),
      Column(AnimalHeaders[12], RealCell(a.milkByLactation)),
      Column(AnimalHeaders[13], TextCell(a.notes)) ]
  }

  /** The text of a cell, '' for a number. */
  function RawText(c: Cell): string {
    if c.Text? then c.text else ""
  }

  /** Reading an animal row back: blank cells as absent, the gender label as 'male' or 'female'. */
  function AnimalFromRow(r: Row): AnimalInput
    requires |r| == |AnimalHeaders|
  {
    AnimalInput(
      id := None, number := Some(RawText(r[0].cell)), responder := TextOf(r[1].cell),
      group := TextOf(r[2].cell), birthDate := TextOf(r[5].cell),
      gender := Some(if RawText(r[3].cell) == Male then "male" else "female"),
      animalType := Some(RawText(r[4].cell)),
      lastDeliveryDate := TextOf(r[6].cell), nextDeliveryDate := TextOf(r[7].cell),
      lastInseminationDate := TextOf(r[8].cell),
      lactationNumber := IntOf(r[9].cell), inseminationCount := IntOf(r[10].cell),
      averageMilk := RealOf(r[11].cell), milkByLactation := RealOf(r[12].cell),
      notes := TextOf(r[13].cell), createdAt := None, updatedAt := None)
  }

  /**
   * The animal row loses only the id, the timestamps and any gender other
   * than 'male' or 'female': reading it back gives the stored animal.
   */
  lemma AnimalRowRoundTrip(a: Animal)
    requires AnimalNormal(a)
    ensures AnimalFromRow(AnimalRow(a)) ==
      AnimalAsInput(a).(id := None, gender := Some(if a.gender == "male" then "male" else "female"),
                        createdAt := None, updatedAt := None)
    ensures a.gender in {"male", "female"} ==>
      AnimalFromRow(AnimalRow(a)) == AnimalAsInput(a).(id := None, createdAt := None, updatedAt := None)
  {
    var r := AnimalRow(a);
    assert TextOf(r[1].cell) == a.responder && TextOf(r[2].cell) == a.group && TextOf(r[5].cell) == a.birthDate;
    assert IntOf(r[9].cell) == a.lactationNumber && IntOf(r[10].cell) == a.inseminationCount;
    assert RealOf(r[11].cell) == a.averageMilk && RealOf(r[12].cell) == a.milkByLactation;
  }

  /** The animal export: one row per animal, in `getAllAnimals` order. */
  method ExportAnimals(db: Database) returns (rows: seq<Row>)
    requires db.Valid()
    ensures WellFormed(db.animals)
    ensures var all := AllAnimals(db.animals);
      |rows| == |all| && forall i :: 0 <= i < |rows| ==> rows[i] == AnimalRow(all[i])
    ensures forall a :: Stored(db.animals, a) ==> AnimalRow(a) in rows
  {
    var animals := db.GetAllAnimals();
    rows := seq(|animals|, i requires 0 <= i < |animals| => AnimalRow(animals[i]));
    forall a | Stored(db.animals, a) ensures AnimalRow(a) in rows {
      var i :| 0 <= i < |animals| && animals[i] == a;
      assert rows[i] == AnimalRow(a);
    }
  }

  // ---------------------------------------------------------------------
  // Operations
  // ---------------------------------------------------------------------

  /**
   * The read the operations export runs: type and range when a truthy
   * type is given, otherwise the range alone.
   */
  function OperationsToExport(t: Table<Operation>, start: string, end: string, operationType: Option<string>): seq<Operation>
    requires WellFormed(t)
  {
    if StrTruthy(operationType) then OperationsByTypeAndDateRange(t, operationType.value, start, end)
    else OperationsByDateRange(t, start, end)
  }

  /**
   * Exactly the stored operations in the range, of the given type when
   * one is given, newest first.
   */
  lemma ExportedOperations(t: Table<Operation>, start: string, end: string, operationType: Option<string>)
    requires WellFormed(t)
    ensures forall o :: o in OperationsToExport(t, start, end, operationType) <==>
      Stored(t, o) && TextLe(start, o.date) && TextLe(o.date, end) &&
      (StrTruthy(operationType) ==> o.operationType == operationType.value)
    ensures SortedBy(OperationsToExport(t, start, end, operationType), DateOf, false)
    ensures IsSubsequence(OperationsToExport(t, start, end, operationType), OperationsByDateRange(t, start, end))
  {
    if StrTruthy(operationType) {
      TypeRangeRefinesRange(t, operationType.value, start, end);
    } else {
      SubsequenceRefl(OperationsByDateRange(t, start, end));
    }
  }

  /** An operation with `animalNumber` and `animalGroup` added. */
  datatype ExportedOperation = ExportedOperation(op: Operation, animalNumber: string, animalGroup: string)

  /** `animal?.number || 'Неизвестно'` and `animal?.group || ''` */
  function WithAnimalData(op: Operation, animal: Option<Animal>): ExportedOperation {
    ExportedOperation(
      op,
      if animal.Some? && animal.value.number != "" then animal.value.number else UnknownAnimal,
      if animal.Some? && StrTruthy(animal.value.group) then animal.value.group.value else "")
  }

  /** The row object built for one operation; the executor is not exported. */
  function OperationRow(e: ExportedOperation): (r: Row)
    ensures |r| == |OperationHeaders| && forall i :: 0 <= i < |r| ==> r[i].header == OperationHeaders[i]
  {
    [ Column(OperationHeaders[0], Text(e.op.date)),
      Column(OperationHeaders[1], Text(e.op.operationType)),
      Column(OperationHeaders[2], Text(e.animalNumber)),
      Column(OperationHeaders[3], Text(e.animalGroup)),
      Column(OperationHeaders[4], TextCell(e.op.diagnosis)),
      Column(OperationHeaders[5], TextCell(e.op.medicine)),
      Column(OperationHeaders[6], TextCell(e.op.dose)),
      Column(OperationHeaders[7], TextCell(e.op.bull)),
      Column(OperationHeaders[8], TextCell(e.op.vaccine)),
      Column(OperationHeaders[9], TextCell(e.op.result)),
      Column(OperationHeaders[10], TextCell(e.op.notes)) ]
  }

  /** Reading an operation row back; the ids, executor and timestamps are not in it. */
  function OperationFromRow(r: Row): OperationInput
    requires |r| == |OperationHeaders|
  {
    OperationInput(
      id := None, animalId := None, operationType := Some(RawText(r[1].cell)),
      date := Some(RawText(r[0].cell)),
      diagnosis := TextOf(r[4].cell), medicine := TextOf(r[5].cell), dose := TextOf(r[6].cell),
      bull := TextOf(r[7].cell), vaccine := TextOf(r[8].cell), executorId := None,
      result := TextOf(r[9].cell), notes := TextOf(r[10].cell), createdAt := None, updatedAt := None)
  }

  /**
   * The operation row keeps every operation column but the ids, the
   * executor and the timestamps; the animal columns hold the animal's
   * number and group, or 'Неизвестно' and '' when it is missing.
   */
  lemma OperationRowRoundTrip(o: Operation, animal: Option<Animal>)
    requires OperationNormal(o)
    ensures var r := OperationRow(WithAnimalData(o, animal));
      && OperationFromRow(r) ==
           OperationAsInput(o).(id := None, animalId := None, executorId := None,
                                createdAt := None, updatedAt := None)
      && (animal.None? ==> r[2].cell == Text(UnknownAnimal) && r[3].cell == Text(""))
      && (animal.Some? && animal.value.number != "" ==> r[2].cell == Text(animal.value.number))
      && (animal.Some? ==> TextOf(r[3].cell) == StrOrNull(animal.value.group))
  {
    var r := OperationRow(WithAnimalData(o, animal));
    assert TextOf(r[4].cell) == o.diagnosis && TextOf(r[5].cell) == o.medicine && TextOf(r[6].cell) == o.dose;
    assert TextOf(r[7].cell) == o.bull && TextOf(r[8].cell) == o.vaccine;
  }

  /** The sheet is named after a truthy operation type, otherwise 'Операции'; never ''. */
  function SheetName(operationType: Option<string>): (r: string)
    ensures StrTruthy(operationType) ==> r == operationType.value
    ensures !StrTruthy(operationType) ==> r == OperationsSheet
    ensures r != ""
  {
    if StrTruthy(operationType) then operationType.value else OperationsSheet
  }

  /**
   * The `Promise.all` over `getAnimalById`, one lookup after another;
   * for stored operations every animal is found.
   */
  method AddAnimalData(db: Database, ops: seq<Operation>) returns (r: seq<ExportedOperation>)
    requires db.Valid()
    requires forall o :: o in ops ==> Stored(db.operations, o)
    ensures |r| == |ops|
    ensures forall i :: 0 <= i < |ops| ==>
      ops[i].animalId in db.animals.rows &&
      r[i] == WithAnimalData(ops[i], Some(db.animals.rows[ops[i].animalId]))
  {
    StoredOperationsHaveAnimals(ops, db.operations, db.animals);
    r := [];
    for i := 0 to |ops|
      invariant |r| == i
      invariant forall j :: 0 <= j < i ==>
        r[j] == WithAnimalData(ops[j], Some(db.animals.rows[ops[j].animalId]))
    {
      var animal := db.GetAnimalById(ops[i].animalId);
      r := r + [WithAnimalData(ops[i], animal)];
    }
  }

  /**
   * The operations export: the chosen read, one `getAnimalById` per
   * operation (in order), one row per operation. On a consistent
   * database every operation's animal is found, so 'Неизвестно' only
   * stands for an animal whose number is empty.
   */
  method ExportOperations(db: Database, start: string, end: string, operationType: Option<string>)
    returns (sheet: string, rows: seq<Row>)
    requires db.Valid()
    ensures WellFormed(db.operations)
    ensures sheet == SheetName(operationType)
    ensures var ops := OperationsToExport(db.operations, start, end, operationType);
      && |rows| == |ops|
      && forall i :: 0 <= i < |rows| ==>
           && ops[i].animalId in db.animals.rows
           && rows[i] == OperationRow(WithAnimalData(ops[i], Some(db.animals.rows[ops[i].animalId])))
  {
    ghost var t := db.operations;
    var ops: seq<Operation>;
    if StrTruthy(operationType) {
      ops := db.GetOperationsByTypeAndDateRange(operationType.value, start, end);
    } else {
      ops := db.GetOperationsByDateRange(start, end);
    }
    assert ops == OperationsToExport(t, start, end, operationType);
    ExportedOperations(t, start, end, operationType);
    var enriched := AddAnimalData(db, ops);
    rows := seq(|enriched|, i requires 0 <= i < |enriched| => OperationRow(enriched[i]));
    sheet := SheetName(operationType);
  }
}
