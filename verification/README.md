# vet-assistant, modelled in Dafny

vet-assistant is a React Native app for a livestock veterinarian. It keeps
animals, the operations done on them (treatments, inseminations,
vaccinations, calvings and so on) and five directories (executors,
diseases, bulls, vaccines, medicines) in one SQLite database, and exports
them to spreadsheets. This project models the core of the app:

- the SQLite store:
  - the seven-table schema, with its NOT NULL columns, AUTOINCREMENT ids
    and the cascading foreign key from operations to animals;
  - the repository functions that write and read the tables.
  The store is class `Store.Database`. It has one `Sql.Table` per table
  (rows by id plus the AUTOINCREMENT counter) and a `Valid()` invariant.
- the screens' logic:
  - the animal list's choice of read, its group chips and its filter state;
  - the directory screens' search;
  - the calendar's date range, its animal lookup, its type filter and its
    marked days;
  - the validation and save paths of the animal and operation forms;
  - the numeric input's keystroke filter and its blur clamp.
- the spreadsheet export: the query it runs and the labelled row it
  builds for each animal and each operation.

Modules, one per file, in dependency order:

- `Js`: JavaScript truthiness, `x || null`, `trim`, `includes`, `filter`,
  and `new Set`.
- `Sql`: tables, TEXT comparison, and SELECT as scan, filter and stable sort.
- `Types`: rows, input objects, and the column lists the repositories bind.
- `Queries`: the reads.
- `Store`: the database class.
- `NumericInput`, `DirectorySearch`, `AnimalList`, `Calendar`,
  `AnimalForm`, `OperationForm`, `DataExport`.

Conventions:

- An input object has every field optional, because a JavaScript object
  can lack any key.
- A stored row has its NOT NULL columns as plain values.
- Dates are `YYYY-MM-DD` strings, compared the way SQLite compares TEXT.
- The clock (`now`), `toLowerCase`, `parseFloat` and number-to-text
  formatting are parameters.

## Model

| member | source | states |
|---|---|---|
| Sql.EmptyTable | vet-assistantV2/src/database/SimpleDatabaseService.js:41-59 | a freshly created table has no rows and is well formed |
| Sql.NextId | vet-assistantV2/src/database/SimpleDatabaseService.js:42 | AUTOINCREMENT hands out an id that no row holds and that is larger than every id in use |
| Sql.Insert | vet-assistantV2/src/database/repositories/AnimalRepository.ts:7-34 | an INSERT adds the row under the next id and moves the sequence past it; all other rows stay |
| Sql.Lookup | vet-assistantV2/src/database/repositories/AnimalRepository.ts:84-103 | `WHERE id = ?` finds a row exactly when that id is in use, and the row found is the one stored |
| Sql.Replace | vet-assistantV2/src/database/repositories/AnimalRepository.ts:41-77 | `UPDATE … WHERE id = ?` rewrites that one row and leaves the sequence alone |
| Sql.Remove | vet-assistantV2/src/database/repositories/AnimalRepository.ts:80-82 | `DELETE … WHERE id = ?` drops that id only and leaves every other row as it was; an unused id changes nothing |
| Sql.RemoveWhere | vet-assistantV2/src/database/SimpleDatabaseService.js:79 | the cascade drops exactly the rows that satisfy the condition and keeps the others unchanged |
| Sql.Select | vet-assistantV2/src/database/repositories/AnimalRepository.ts:105-125 | a SELECT returns exactly the stored rows that pass WHERE, each once, sorted by the ORDER BY key |
| Sql.OrderBy | vet-assistantV2/src/database/repositories/AnimalRepository.ts:116 | ORDER BY yields a sorted permutation of its input |
| Sql.CopyRows | vet-assistantV2/src/database/repositories/AnimalRepository.ts:119-122 | the `for`/`push` loop copies the result rows unchanged and in order |
| Sql.BetweenSameBound | vet-assistantV2/src/database/repositories/OperationRepository.ts:121 | `date BETWEEN d AND d` holds exactly for `date = d` |
| Types.AnimalColumns | vet-assistantV2/src/database/repositories/AnimalRepository.ts:14-31 | the row bound for an animal exists exactly when number, gender and type are given; it keeps them, takes the id and both timestamps from the call, and stores every falsy optional field as NULL |
| Types.AnimalRoundTrip | vet-assistantV2/src/database/repositories/AnimalRepository.ts:59-76 | writing back an animal that was read rewrites it unchanged except `updated_at` |
| Types.OperationColumns | vet-assistantV2/src/database/repositories/OperationRepository.ts:5-31 | the row bound for an operation exists exactly when animal_id, type and date are given; falsy optional fields become NULL |
| Types.OperationRoundTrip | vet-assistantV2/src/database/repositories/OperationRepository.ts:33-68 | writing back an operation that was read rewrites it unchanged except `updated_at` |
| Types.ExecutorColumns | vet-assistantV2/src/database/repositories/ExecutorRepository.ts:5-22 | an executor row exists exactly when a name is given |
| Types.DiseaseColumns | vet-assistantV2/src/database/repositories/DiseaseRepository.ts:5-22 | a disease row exists exactly when a name is given |
| Types.BullColumns | src/database/repositories/BullRepository.ts:5-22 | a bull row exists exactly when a name is given |
| Types.VaccineColumns | vet-assistantV2/src/database/repositories/VaccineRepository.ts:5-22 | a vaccine row exists exactly when a name is given |
| Types.MedicineColumns | vet-assistantV2/src/database/repositories/MedicineRepository.ts:5-24 | a medicine row exists exactly when a name is given |
| Queries.AllAnimals | vet-assistantV2/src/database/repositories/AnimalRepository.ts:105-125 | every stored animal, each once, by number ascending |
| Queries.AnimalsByGroup | vet-assistantV2/src/database/repositories/AnimalRepository.ts:127-149 | exactly the stored animals of that group, by number ascending |
| Queries.SearchAnimals | vet-assistantV2/src/database/repositories/AnimalRepository.ts:151-173 | exactly the stored animals whose number or responder contains the term, by number ascending |
| Queries.FilteredAnimalReads | vet-assistantV2/src/database/repositories/AnimalRepository.ts:127-173 | the group and search reads are the full list filtered, in the same order |
| Queries.OperationsByAnimalId | vet-assistantV2/src/database/repositories/OperationRepository.ts:91-109 | exactly that animal's stored operations, newest date first |
| Queries.OperationsByDateRange | vet-assistantV2/src/database/repositories/OperationRepository.ts:111-132 | exactly the stored operations with start ≤ date ≤ end, newest first |
| Queries.OperationsByTypeAndDateRange | vet-assistantV2/src/database/repositories/OperationRepository.ts:134-156 | exactly the stored operations of that type in the range, newest first |
| Queries.TypeRangeRefinesRange | vet-assistantV2/src/database/repositories/OperationRepository.ts:145 | the type-and-range read is the range read filtered by type, order kept |
| Queries.SingleDayRange | vet-assistantV2/src/database/repositories/OperationRepository.ts:121 | a range from a day to the same day holds exactly that day's operations |
| Queries.CascadeLeavesNoOperations | vet-assistantV2/src/database/SimpleDatabaseService.js:79 | after the cascade no operation of the deleted animal can be read |
| Queries.AllExecutors | vet-assistantV2/src/database/repositories/ExecutorRepository.ts:67-82 | every stored executor, each once, by name |
| Queries.AllDiseases | vet-assistantV2/src/database/repositories/DiseaseRepository.ts:67-82 | every stored disease, each once, by name |
| Queries.AllBulls | src/database/repositories/BullRepository.ts:67-82 | every stored bull, each once, by name |
| Queries.AllVaccines | vet-assistantV2/src/database/repositories/VaccineRepository.ts:67-82 | every stored vaccine, each once, by name |
| Queries.AllMedicines | vet-assistantV2/src/database/repositories/MedicineRepository.ts:72-88 | every stored medicine, each once, by name |
| Store.Database.constructor | vet-assistantV2/src/database/SimpleDatabaseService.js:37-149 | creating the schema yields seven empty tables that satisfy the invariant |
| Store.Database.CreateTables | vet-assistantV2/src/database/SimpleDatabaseService.js:37-149 | `CREATE TABLE IF NOT EXISTS` on an existing database changes nothing |
| Store.Database.AddAnimal | vet-assistantV2/src/database/repositories/AnimalRepository.ts:5-35 | a missing number, gender or type fails NOT NULL with no change; otherwise the row is inserted and its fresh id returned |
| Store.Database.UpdateAnimal | vet-assistantV2/src/database/repositories/AnimalRepository.ts:37-78 | a falsy id throws; an unused id changes nothing; otherwise the whole row is rewritten, keeping `created_at`, or fails NOT NULL with no change |
| Store.Database.DeleteAnimal | vet-assistantV2/src/database/repositories/AnimalRepository.ts:80-82 | removes that animal and, by the cascade, exactly its operations |
| Store.Database.GetAnimalById | vet-assistantV2/src/database/repositories/AnimalRepository.ts:84-103 | returns the stored row exactly when the id is in use, otherwise null |
| Store.Database.GetAllAnimals | vet-assistantV2/src/database/repositories/AnimalRepository.ts:105-125 | returns `AllAnimals` |
| Store.Database.GetAnimalsByGroup | vet-assistantV2/src/database/repositories/AnimalRepository.ts:127-149 | returns `AnimalsByGroup` |
| Store.Database.SearchAnimals | vet-assistantV2/src/database/repositories/AnimalRepository.ts:151-173 | returns `SearchAnimals` |
| Store.Database.AddOperation | vet-assistantV2/src/database/repositories/OperationRepository.ts:5-31 | a missing animal_id, type or date fails NOT NULL, and an animal_id naming no animal fails the foreign key, both with no change; otherwise the row is inserted under a fresh id |
| Store.Database.UpdateOperation | vet-assistantV2/src/database/repositories/OperationRepository.ts:33-68 | a falsy id throws; an unused id changes nothing; otherwise the row is rewritten, unless NOT NULL or the foreign key fails |
| Store.Database.DeleteOperation | vet-assistantV2/src/database/repositories/OperationRepository.ts:70-72 | removes that operation only |
| Store.Database.GetOperationById | vet-assistantV2/src/database/repositories/OperationRepository.ts:74-89 | returns the stored row exactly when the id is in use |
| Store.Database.GetOperationsByAnimalId | vet-assistantV2/src/database/repositories/OperationRepository.ts:91-109 | returns `OperationsByAnimalId`; operations are only ever found for a stored animal |
| Store.Database.GetOperationsByDateRange | vet-assistantV2/src/database/repositories/OperationRepository.ts:111-132 | returns `OperationsByDateRange` |
| Store.Database.GetOperationsByTypeAndDateRange | vet-assistantV2/src/database/repositories/OperationRepository.ts:134-156 | returns `OperationsByTypeAndDateRange` |
| Store.Database.AddExecutor | vet-assistantV2/src/database/repositories/ExecutorRepository.ts:5-22 | a missing name fails NOT NULL with no change; otherwise inserts under a fresh id |
| Store.Database.UpdateExecutor | vet-assistantV2/src/database/repositories/ExecutorRepository.ts:24-45 | the id guard, then a rewrite of that row or no change for an unused id |
| Store.Database.DeleteExecutor | vet-assistantV2/src/database/repositories/ExecutorRepository.ts:47-49 | removes the executor and leaves every operation unchanged, including those that still hold its id |
| Store.Database.GetExecutorById | vet-assistantV2/src/database/repositories/ExecutorRepository.ts:51-65 | the stored row exactly when the id is in use |
| Store.Database.GetAllExecutors | vet-assistantV2/src/database/repositories/ExecutorRepository.ts:67-82 | returns `AllExecutors` |
| Store.Database.AddDisease | vet-assistantV2/src/database/repositories/DiseaseRepository.ts:5-22 | a missing name fails NOT NULL; otherwise inserts under a fresh id |
| Store.Database.UpdateDisease | vet-assistantV2/src/database/repositories/DiseaseRepository.ts:24-45 | the id guard, then a rewrite of that row or no change |
| Store.Database.DeleteDisease | vet-assistantV2/src/database/repositories/DiseaseRepository.ts:47-49 | removes that row only |
| Store.Database.GetDiseaseById | vet-assistantV2/src/database/repositories/DiseaseRepository.ts:51-65 | the stored row exactly when the id is in use |
| Store.Database.GetAllDiseases | vet-assistantV2/src/database/repositories/DiseaseRepository.ts:67-82 | returns `AllDiseases` |
| Store.Database.AddBull | src/database/repositories/BullRepository.ts:5-22 | a missing name fails NOT NULL; otherwise inserts under a fresh id |
| Store.Database.UpdateBull | src/database/repositories/BullRepository.ts:24-45 | the id guard, then a rewrite of that row or no change |
| Store.Database.DeleteBull | src/database/repositories/BullRepository.ts:47-49 | removes that row only |
| Store.Database.GetBullById | src/database/repositories/BullRepository.ts:51-65 | the stored row exactly when the id is in use |
| Store.Database.GetAllBulls | src/database/repositories/BullRepository.ts:67-82 | returns `AllBulls` |
| Store.Database.AddVaccine | vet-assistantV2/src/database/repositories/VaccineRepository.ts:5-22 | a missing name fails NOT NULL; otherwise inserts under a fresh id |
| Store.Database.UpdateVaccine | vet-assistantV2/src/database/repositories/VaccineRepository.ts:24-45 | the id guard, then a rewrite of that row or no change |
| Store.Database.DeleteVaccine | vet-assistantV2/src/database/repositories/VaccineRepository.ts:47-49 | removes that row only |
| Store.Database.GetVaccineById | vet-assistantV2/src/database/repositories/VaccineRepository.ts:51-65 | the stored row exactly when the id is in use |
| Store.Database.GetAllVaccines | vet-assistantV2/src/database/repositories/VaccineRepository.ts:67-82 | returns `AllVaccines` |
| Store.Database.AddMedicine | vet-assistantV2/src/database/repositories/MedicineRepository.ts:5-24 | a missing name fails NOT NULL; otherwise inserts under a fresh id |
| Store.Database.UpdateMedicine | src/database/repositories/MedicineRepository.ts:26-49 | the id guard, then a rewrite of that row or no change (both copies of the file agree) |
| Store.Database.DeleteMedicine | vet-assistantV2/src/database/repositories/MedicineRepository.ts:51-53 | removes that row only |
| Store.Database.GetMedicineById | vet-assistantV2/src/database/repositories/MedicineRepository.ts:55-70 | the stored row exactly when the id is in use |
| Store.Database.GetAllMedicines | src/database/repositories/MedicineRepository.ts:72-88 | returns `AllMedicines` |
| Store.StoredOperationsHaveAnimals | vet-assistantV2/src/database/SimpleDatabaseService.js:79 | on a database satisfying the foreign key, every operation read names a stored animal |
| NumericInput.ScanMatchesPattern | vet-assistantV2/src/components/NumericInput.tsx:37 | the character-by-character scanner accepts exactly the strings the regular expression `^-?\d*\.?\d*$` (or `^-?\d*$`) matches |
| NumericInput.HandleChange | vet-assistantV2/src/components/NumericInput.tsx:35-41 | a keystroke's text is passed on unchanged or dropped; the empty text always passes |
| NumericInput.AfterKeystroke | vet-assistantV2/src/components/NumericInput.tsx:38-40 | the field ends up holding the new text or keeps the old value |
| NumericInput.AcceptedShape | vet-assistantV2/src/components/NumericInput.tsx:37-40 | accepted iff the pattern matches; an accepted text has '-' only in front, only digits otherwise, at most one '.', and none in integer mode |
| NumericInput.IntToStringRoundTrip | vet-assistantV2/src/components/NumericInput.tsx:49-51 | `min.toString()` and `max.toString()` parse back to the same integer and pass the keystroke filter |
| NumericInput.ParseInteger | vet-assistantV2/src/components/NumericInput.tsx:46 | the parse of an integer-pattern text fails exactly for '' and '-' |
| NumericInput.HandleBlur | vet-assistantV2/src/components/NumericInput.tsx:43-53 | blur on '' does nothing; any replacement is min or max written out |
| NumericInput.AfterBlur | vet-assistantV2/src/components/NumericInput.tsx:43-53 | the value after blur still matches the integer pattern |
| NumericInput.BlurClamps | vet-assistantV2/src/components/NumericInput.tsx:46-52 | below min becomes min; otherwise above max becomes max; otherwise unchanged; the result lies in [min, max] when min ≤ max, and a second blur changes nothing |
| DirectorySearch.Search | vet-assistantV2/src/screens/directories/ExecutorListScreen.tsx:48-59 | a blank query shows the whole list; otherwise exactly the matching entries, in loaded order |
| DirectorySearch.SearchExecutors | vet-assistantV2/src/screens/directories/ExecutorListScreen.tsx:54-57 | an executor is shown iff its lower-cased name contains the lower-cased query |
| DirectorySearch.SearchDiseases | src/screens/directories/DiseaseListScreen.tsx:54-57 | a disease is shown iff its name contains the query, ignoring case |
| DirectorySearch.SearchVaccines | src/screens/directories/VaccineListScreen.tsx:54-57 | a vaccine is shown iff its name contains the query, ignoring case |
| DirectorySearch.SearchMedicines | src/screens/directories/MedicineListScreen.tsx:54-60 | a medicine is shown iff its name, or its non-empty active ingredient, contains the query |
| DirectorySearch.SearchBulls | src/screens/directories/BullListScreen.tsx:54-58 | a bull is shown iff its name, or its non-empty number, contains the query; a bull with no number matches on its name alone |
| DirectorySearch.Load | src/screens/directories/BullListScreen.tsx:30-32 | loading shows the whole fetched list, whatever query is typed |
| DirectorySearch.HandleSearch | src/screens/directories/MedicineListScreen.tsx:48-62 | the query is stored and the shown list stays an ordered sub-list of the loaded one |
| AnimalList.GroupsOf | vet-assistantV2/src/screens/animals/AnimalListScreen.tsx:44-48 | the non-blank groups of the loaded animals, and only those |
| AnimalList.ListedFiltersAll | vet-assistantV2/src/screens/animals/AnimalListScreen.tsx:33-39 | a non-blank query wins over a group, and each choice shows the full number-ordered list filtered, order kept |
| AnimalList.GroupChips | vet-assistantV2/src/screens/animals/AnimalListScreen.tsx:44-48 | each group chip appears once, in order of first appearance, exactly for the groups the list holds |
| AnimalList.AnimalListScreen.constructor | vet-assistantV2/src/screens/animals/AnimalListScreen.tsx:19-24 | the screen starts with no query, no group and empty lists |
| AnimalList.AnimalListScreen.HandleSearch | vet-assistantV2/src/screens/animals/AnimalListScreen.tsx:66-69 | typing stores the query and drops the group, so the two filters never combine |
| AnimalList.AnimalListScreen.HandleGroupFilter | vet-assistantV2/src/screens/animals/AnimalListScreen.tsx:71-78 | tapping the selected group deselects it; another group is selected and clears the query |
| AnimalList.AnimalListScreen.ClearFilters | vet-assistantV2/src/screens/animals/AnimalListScreen.tsx:80-83 | clears both filters |
| AnimalList.AnimalListScreen.LoadAnimals | vet-assistantV2/src/screens/animals/AnimalListScreen.tsx:26-57 | the list is the read the filters choose, an ordered sub-list of all animals, and the chips are its distinct groups |
| Calendar.Enriched | vet-assistantV2/src/screens/calendar/CalendarScreen.tsx:57-71 | one entry per operation, in order; number and type are present exactly when the animal is found, and are then that animal's |
| Calendar.FilteredOperations | vet-assistantV2/src/screens/calendar/CalendarScreen.tsx:110-113 | no selected type shows everything; otherwise exactly the operations of that type, order kept |
| Calendar.DatePart | vet-assistantV2/src/screens/calendar/CalendarScreen.tsx:124 | `split('T')[0]` is the longest prefix without 'T' |
| Calendar.DayKeys | vet-assistantV2/src/screens/calendar/CalendarScreen.tsx:122-126 | the date part of every operation that passes the type filter |
| Calendar.EnrichAll | vet-assistantV2/src/screens/calendar/CalendarScreen.tsx:57-71 | the lookups one by one build exactly `Enriched` |
| Calendar.CalendarScreen.constructor | vet-assistantV2/src/screens/calendar/CalendarScreen.tsx:26-31 | starts on today, day view, no type and no operations |
| Calendar.CalendarScreen.HandleDateSelected | vet-assistantV2/src/screens/calendar/CalendarScreen.tsx:94-96 | stores the chosen day |
| Calendar.CalendarScreen.SelectOperationType | vet-assistantV2/src/screens/calendar/CalendarScreen.tsx:102-104 | stores the chosen type or none |
| Calendar.CalendarScreen.ToggleViewMode | vet-assistantV2/src/screens/calendar/CalendarScreen.tsx:106-108 | switches day and month view |
| Calendar.CalendarScreen.LoadOperations | vet-assistantV2/src/screens/calendar/CalendarScreen.tsx:35-80 | the range read for the day or the month, each operation with its animal's data; in day view all are on that day, and every animal is found |
| Calendar.CalendarScreen.DaysWithOperations | vet-assistantV2/src/screens/calendar/CalendarScreen.tsx:115-138 | the distinct date parts of the operations passing the type filter, each once; none when there are no operations |
| AnimalForm.ParseInt | vet-assistantV2/src/screens/animals/AnimalFormScreen.tsx:129-130 | `parseInt` yields a number only if the text holds a digit |
| AnimalForm.ParseIntToString | vet-assistantV2/src/screens/animals/AnimalFormScreen.tsx:129-130 | `parseInt` reads back any integer written out |
| AnimalForm.Errors | vet-assistantV2/src/screens/animals/AnimalFormScreen.tsx:89-106 | errors are a blank number, an empty type and an empty gender, each exactly then |
| AnimalForm.Payload | vet-assistantV2/src/screens/animals/AnimalFormScreen.tsx:119-136 | the object carries the untrimmed number, gender and type, and no id |
| AnimalForm.PayloadRow | vet-assistantV2/src/screens/animals/AnimalFormScreen.tsx:121-130 | a valid form always makes a row; an empty optional field, and a counter that parses to 0, is stored as NULL |
| AnimalForm.FormStricterThanSchema | vet-assistantV2/src/screens/animals/AnimalFormScreen.tsx:92-94 | a number of spaces is refused by the form although the table would accept it |
| AnimalForm.EditWithoutChanges | vet-assistantV2/src/screens/animals/AnimalFormScreen.tsx:63-76 | loading an animal into the form and saving it unchanged rewrites the same row, apart from `updated_at` |
| AnimalForm.CounterRoundTrip | vet-assistantV2/src/screens/animals/AnimalFormScreen.tsx:72-73 | a stored counter shown in the form reads back as itself |
| AnimalForm.MeasureRoundTrip | vet-assistantV2/src/screens/animals/AnimalFormScreen.tsx:74-75 | a stored milk figure shown and parsed back is itself, given a faithful number format |
| AnimalForm.TextRoundTrip | vet-assistantV2/src/screens/animals/AnimalFormScreen.tsx:64-71 | a stored optional text shown in the form reads back as itself |
| AnimalForm.SaveAnimal | vet-assistantV2/src/screens/animals/AnimalFormScreen.tsx:109-156 | an invalid form changes nothing; a new animal is inserted under a fresh id; an edit rewrites that row, or changes nothing for an unused id |
| OperationForm.Errors | vet-assistantV2/src/screens/operations/OperationFormScreen.tsx:168-197 | animal, type and date are required; a diagnosis for a treatment, a bull for an insemination, a vaccine for a vaccination, and nothing more for other types |
| OperationForm.Payload | vet-assistantV2/src/screens/operations/OperationFormScreen.tsx:210-224 | the object carries the form's animal, type and date; the executor only when truthy |
| OperationForm.ValidFormRow | vet-assistantV2/src/screens/operations/OperationFormScreen.tsx:203-224 | a valid form never fails NOT NULL and its row holds the field its type requires |
| OperationForm.Bump | vet-assistantV2/src/screens/operations/OperationFormScreen.tsx:240-244 | the counter goes up by one, or starts at 1 |
| OperationForm.BookkeepingUpdate | vet-assistantV2/src/screens/operations/OperationFormScreen.tsx:233-259 | an update is built only for a female animal and an insemination or calving, with only the id, the date and the counter |
| OperationForm.BookkeepingViolatesNotNull | vet-assistantV2/src/screens/operations/OperationFormScreen.tsx:257-258 | that update lacks number, gender and type, so it always fails NOT NULL |
| OperationForm.CorrectedBookkeepingUpdate | vet-assistantV2/src/screens/operations/OperationFormScreen.tsx:233-259 | built in the same cases as the original |
| OperationForm.CorrectedBookkeepingApplies | vet-assistantV2/src/screens/operations/OperationFormScreen.tsx:236-253 | the corrected update is accepted and changes exactly the date and the counter |
| OperationForm.SaveOperation | vet-assistantV2/src/screens/operations/OperationFormScreen.tsx:200-275 | an invalid form changes nothing; an edit rewrites that operation, or fails on a missing animal, and never touches the animals; an add inserts the operation, and for a stored female animal and an insemination or a calving it then ends in the NOT NULL failure with the operation kept and no animal changed |
| OperationForm.SaveOperationIntended | vet-assistantV2/src/screens/operations/OperationFormScreen.tsx:200-275 | the same save with the intended bookkeeping: an add inserts the operation and then gives the current female animal the new date and the counter plus one, every other column kept |
| DataExport.TextCell | vet-assistantV2/src/database/DataExport.ts:24-36 | a falsy text is written as '' and a cell reads back as the stored value |
| DataExport.IntCell | vet-assistantV2/src/database/DataExport.ts:32-33 | a falsy number, 0 included, is written as '' |
| DataExport.RealCell | vet-assistantV2/src/database/DataExport.ts:34-35 | a falsy figure, 0 included, is written as '' |
| DataExport.GenderCell | vet-assistantV2/src/database/DataExport.ts:26 | 'male' is 'Муж.' and every other value 'Жен.' |
| DataExport.AnimalRow | vet-assistantV2/src/database/DataExport.ts:22-37 | the fourteen keys, in order |
| DataExport.AnimalRowRoundTrip | vet-assistantV2/src/database/DataExport.ts:22-37 | the row loses only the id, the timestamps and genders other than male and female |
| DataExport.ExportAnimals | vet-assistantV2/src/database/DataExport.ts:19-37 | one row per animal, in `getAllAnimals` order, and every stored animal has its row |
| DataExport.ExportedOperations | vet-assistantV2/src/database/DataExport.ts:73-75 | with a truthy type exactly the operations of that type in the range, otherwise all in the range; newest first |
| DataExport.OperationRow | vet-assistantV2/src/database/DataExport.ts:96-108 | the eleven keys, in order |
| DataExport.OperationRowRoundTrip | vet-assistantV2/src/database/DataExport.ts:86-108 | the row keeps every operation column but ids, executor and timestamps; a missing animal gives 'Неизвестно' and '' |
| DataExport.SheetName | vet-assistantV2/src/database/DataExport.ts:111-113 | the type when one is given, otherwise 'Операции', never empty |
| DataExport.AddAnimalData | vet-assistantV2/src/database/DataExport.ts:84-93 | one lookup per operation in order; every stored operation's animal is found |
| DataExport.ExportOperations | vet-assistantV2/src/database/DataExport.ts:66-114 | the sheet name and one row per exported operation, carrying its stored animal's number and group |

## Left out

- Statement execution, the transaction callbacks and async plumbing are
  left out. Each repository call is one atomic step on the in-memory
  store.
- The mock database service in `src/database/DatabaseService.ts` is left out.
- The clock is not modelled. `new Date().toISOString()` is the parameter `now`.
- The date-fns month range is not modelled. The month's first and last
  days are parameters of the calendar load.
- Also not modelled: `parseISO`, the calendar strip's dots, and the
  "today" defaults.
- LIKE in `searchAnimals` is modelled as plain substring containment. Its
  ASCII case folding and its `%`/`_` wildcards inside the term are left
  out.
- ORDER BY collation is modelled as plain lexicographic order. Ties are
  kept in id order.
- The model enforces foreign keys and the cascade as the schema declares
  them. The app never runs `PRAGMA foreign_keys = ON`, so SQLite as
  configured would not enforce them.
- `toLowerCase`, `parseFloat` and the formatting of a real as text are
  parameters. There is no Unicode case mapping and no floating point.
- The `catch` in the calendar's animal lookup is not modelled. The store
  never throws on a read, so the branch cannot be reached in the model.
- `Promise.all` is modelled as lookups made one after another, in order.
- The XLSX workbook, the base64 file write and the share dialog are not
  modelled, nor the file names built from dates.
- HandleBlur: only values that match the integer pattern are modelled.
- Decimal mode of the numeric input: the clamp compares reals parsed by
  `parseFloat`, which is not modelled.
- `mapDbRowToAnimal` in the repositories is dead code.
- The directory form screens are not modelled. Their only logic is a
  `name.trim()` check before an add or update call.
- `loadData` in the operation form fills pickers and fields from reads
  that are already modelled. Its results enter `SaveOperation` as the
  `animal` parameter and the form fields.
- Every animal read aliases `group_name as group`. GROUP is a reserved
  word in SQLite, which accepts it as an alias only when quoted. The
  model reads the alias as the evidently intended `AS "group"`, so the
  reads return rows. As written, each of those statements would be
  rejected, and with them `getAnimalById` in the operation form's
  `loadData`, before the bookkeeping in the finding below is reached.
- JavaScript numbers are doubles. `IntToString`, `ParseInteger` and
  `ParseInt` work on unbounded integers: the exponent form that
  `toString` uses from 1e21 on, and the precision `parseInt` loses
  beyond 2^53, are not modelled.
- Navigation, alerts, loading flags and rendering are not modelled.

## Findings

| source | as written | input that shows it | evidently intended | confidence | as-written member | corrected member |
|---|---|---|---|---|---|---|
| vet-assistantV2/src/screens/operations/OperationFormScreen.tsx:233-258 | After adding an insemination or a calving for a female animal, the screen calls `updateAnimal` with an object that holds only `id`, the date and the counter. `updateAnimal` binds every column, so number, gender and type are NULL and the NOT NULL constraint fails. The animal is never updated, and the "could not add" alert appears although the operation was added. | a stored female animal and a valid form of type 'Осеменение' | update the loaded animal with the new date and the counter plus one, and keep every other column | medium, not executed | OperationForm.SaveOperation | OperationForm.SaveOperationIntended |
