/**
 * The search box of the directory list screens (executors, diseases,
 * bulls, vaccines, medicines): a blank query shows the loaded list,
 * any other query keeps, in order, the entries that contain it
 * case-insensitively. `toLowerCase` is the parameter `lower`.
 */
module DirectorySearch {
  import opened Js
  import opened Types

  /** `text.toLowerCase().includes(query.toLowerCase())` */
  predicate Contains(lower: string -> string, text: string, query: string) {
    Includes(lower(text), lower(query))
  }

  /** The executor, disease and vaccine screens match on the name alone. */
  function ExecutorMatches(lower: string -> string, query: string): Executor -> bool {
    (e: Executor) => Contains(lower, e.name, query)
  }

  function DiseaseMatches(lower: string -> string, query: string): Disease -> bool {
    (d: Disease) => Contains(lower, d.name, query)
  }

  function VaccineMatches(lower: string -> string, query: string): Vaccine -> bool {
    (v: Vaccine) => Contains(lower, v.name, query)
  }

  /** Name, or a truthy active ingredient. */
  function MedicineMatches(lower: string -> string, query: string): Medicine -> bool {
    (m: Medicine) => Contains(lower, m.name, query) ||
                     (StrTruthy(m.activeIngredient) && Contains(lower, m.activeIngredient.value, query))
  }

  /** Name, or a truthy number. */
  function BullMatches(lower: string -> string, query: string): Bull -> bool {
    (b: Bull) => Contains(lower, b.name, query) ||
                 (StrTruthy(b.number) && Contains(lower, b.number.value, query))
  }

  /**
   * `handleSearch`'s filtered list: the whole list for a query that is
   * blank after trimming, otherwise exactly the matching entries (the
   * query itself untrimmed), in their loaded order.
   */
  function Search<T(!new)>(items: seq<T>, query: string, matches: T -> bool): (r: seq<T>)
    ensures IsBlank(query) ==> r == items
    ensures !IsBlank(query) ==> forall x :: x in r <==> x in items && matches(x)
    ensures IsSubsequence(r, items)
  {
    TrimEmptyIffBlank(query);
    if Trim(query) == "" then
      assert IsSubsequence(items, items) by { SubsequenceRefl(items); }
      items
    else
      FilterIsSubsequence(items, matches);
      Filter(items, matches)
  }

  /** The executor screen's search. */
  function SearchExecutors(lower: string -> string, items: seq<Executor>, query: string): (r: seq<Executor>)
    ensures IsBlank(query) ==> r == items
    ensures !IsBlank(query) ==> forall e :: e in r <==> e in items && Includes(lower(e.name), lower(query))
    ensures IsSubsequence(r, items)
  {
    Search(items, query, ExecutorMatches(lower, query))
  }

  /** The disease screen's search. */
  function SearchDiseases(lower: string -> string, items: seq<Disease>, query: string): (r: seq<Disease>)
    ensures IsBlank(query) ==> r == items
    ensures !IsBlank(query) ==> forall d :: d in r <==> d in items && Includes(lower(d.name), lower(query))
    ensures IsSubsequence(r, items)
  {
    Search(items, query, DiseaseMatches(lower, query))
  }

  /** The vaccine screen's search. */
  function SearchVaccines(lower: string -> string, items: seq<Vaccine>, query: string): (r: seq<Vaccine>)
    ensures IsBlank(query) ==> r == items
    ensures !IsBlank(query) ==> forall v :: v in r <==> v in items && Includes(lower(v.name), lower(query))
    ensures IsSubsequence(r, items)
  {
    Search(items, query, VaccineMatches(lower, query))
  }

  /** The medicine screen's search: by name, or by a non-empty active ingredient. */
  function SearchMedicines(lower: string -> string, items: seq<Medicine>, query: string): (r: seq<Medicine>)
    ensures IsBlank(query) ==> r == items
    ensures !IsBlank(query) ==> forall m :: m in r <==>
      m in items && (Includes(lower(m.name), lower(query)) ||
                     (m.activeIngredient.Some? && m.activeIngredient.value != "" &&
                      Includes(lower(m.activeIngredient.value), lower(query))))
    ensures IsSubsequence(r, items)
  {
    Search(items, query, MedicineMatches(lower, query))
  }

  /**
   * The bull screen's search: by name, or by a non-empty number; so a
   * bull without a number can only match on its name.
   */
  function SearchBulls(lower: string -> string, items: seq<Bull>, query: string): (r: seq<Bull>)
    ensures IsBlank(query) ==> r == items
    ensures !IsBlank(query) ==> forall b :: b in r <==>
      b in items && (Includes(lower(b.name), lower(query)) ||
                     (b.number.Some? && b.number.value != "" && Includes(lower(b.number.value), lower(query))))
    ensures !IsBlank(query) ==> forall b :: b in items && !StrTruthy(b.number) ==>
      (b in r <==> Includes(lower(b.name), lower(query)))
    ensures IsSubsequence(r, items)
  {
    Search(items, query, BullMatches(lower, query))
  }

  /** What a list screen holds: the loaded list, the shown list and the query text. */
  datatype ListState<T> = ListState(items: seq<T>, filtered: seq<T>, query: string)

  /** The shown list never holds an entry the loaded list lacks, nor reorders it. */
  ghost predicate Shown<T(!new)>(s: ListState<T>) {
    IsSubsequence(s.filtered, s.items)
  }

  /** Loading stores the fetched list as both the loaded and the shown list, whatever the query. */
  function Load<T(!new)>(s: ListState<T>, data: seq<T>): (r: ListState<T>)
    ensures r.items == data && r.filtered == data && r.query == s.query
    ensures Shown(r)
  {
    SubsequenceRefl(data);
    s.(items := data, filtered := data)
  }

  /** `handleSearch`: stores the query and the shown list for it. */
  function HandleSearch<T(!new)>(s: ListState<T>, query: string, matches: T -> bool): (r: ListState<T>)
    ensures r.items == s.items && r.query == query
    ensures r.filtered == Search(s.items, query, matches)
    ensures Shown(r)
  {
    s.(query := query, filtered := Search(s.items, query, matches))
  }
}
