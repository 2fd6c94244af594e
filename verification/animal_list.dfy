/**
 * The animal list screen: which repository read fills the list, the
 * group chips taken from the loaded list, and the search/group filter
 * state that the handlers overwrite.
 */
module AnimalList {
  import opened Js
  import opened Sql
  import opened Types
  import opened Queries
  import opened Store

  /** The truthy, non-blank group values of a list, in list order, repeats kept. */
  function GroupsOf(animals: seq<Animal>): (r: seq<string>)
    ensures forall g :: g in r <==> exists a :: a in animals && a.group == Some(g) && Trim(g) != ""
  {
    if animals == [] then []
    else
      var a := animals[0];
      (if a.group.Some? && Trim(a.group.value) != "" then [a.group.value] else []) + GroupsOf(animals[1..])
  }

  /**
   * The list `loadAnimals` shows: a query that is not blank after trimming
   * is searched for (untrimmed); otherwise a truthy group is filtered on;
   * otherwise every animal is listed.
   */
  function Listed(t: Table<Animal>, query: string, group: Option<string>): seq<Animal>
    requires WellFormed(t)
  {
    if Trim(query) != "" then Queries.SearchAnimals(t, query)
    else if StrTruthy(group) then AnimalsByGroup(t, group.value)
    else AllAnimals(t)
  }

  /** The filter the screen ends up applying to the full, number-ordered list. */
  function ListFilter(query: string, group: Option<string>): Animal -> bool {
    if Trim(query) != "" then MatchesTerm(query)
    else if StrTruthy(group) then InGroup(group.value)
    else AnyAnimal
  }

  /**
   * Whichever read is chosen, the screen shows the full list filtered,
   * in the same order: a subsequence of `getAllAnimals`.
   */
  lemma ListedFiltersAll(t: Table<Animal>, query: string, group: Option<string>)
    requires WellFormed(t)
    ensures Listed(t, query, group) == Filter(AllAnimals(t), ListFilter(query, group))
    ensures IsSubsequence(Listed(t, query, group), AllAnimals(t))
  {
    var g := if group.Some? then group.value else "";
    FilteredAnimalReads(t, g, query);
    if Trim(query) == "" && !StrTruthy(group) {
      SelectRefine(t, AnyAnimal, AnyAnimal, AnyAnimal, NumberOf, true);
      FilterIsSubsequence(AllAnimals(t), AnyAnimal);
    }
  }

  /**
   * The chips: the distinct non-blank groups of the loaded list, each
   * once, in the order in which they first appear.
   */
  lemma GroupChips(animals: seq<Animal>)
    ensures forall g :: g in Unique(GroupsOf(animals)) <==>
      exists a :: a in animals && a.group == Some(g) && Trim(g) != ""
    ensures NoDuplicates(Unique(GroupsOf(animals)))
    ensures var u := Unique(GroupsOf(animals));
      forall i, j :: 0 <= i < j < |u| ==>
        FirstIndex(GroupsOf(animals), u[i]) < FirstIndex(GroupsOf(animals), u[j])
  {
    UniqueFirstOccurrenceOrder(GroupsOf(animals));
  }

  class AnimalListScreen {
    var searchQuery: string
    var activeGroup: Option<string>
    var animals: seq<Animal>
    var groups: seq<string>

    /** A search query and a selected group never hold at the same time. */
    predicate Exclusive()
      reads this`searchQuery, this`activeGroup
    {
      !(searchQuery != "" && activeGroup.Some?)
    }

    /** `hasFilters`: a query is typed or a group is selected. */
    predicate HasFilters()
      reads this`searchQuery, this`activeGroup
    {
      searchQuery != "" || activeGroup.Some?
    }

    constructor ()
      ensures searchQuery == "" && activeGroup == None && animals == [] && groups == []
      ensures Exclusive() && !HasFilters()
    {
      searchQuery := "";
      activeGroup := None;
      animals := [];
      groups := [];
    }

    /** `handleSearch`: stores the query and drops the group filter. */
    method HandleSearch(query: string)
      modifies this`searchQuery, this`activeGroup
      ensures searchQuery == query && activeGroup == None
      ensures Exclusive()
      ensures HasFilters() <==> query != ""
    {
      searchQuery := query;
      activeGroup := None;
    }

    /**
     * `handleGroupFilter`: tapping the selected group deselects it and
     * leaves the query; tapping another selects it and clears the query.
     */
    method HandleGroupFilter(group: string)
      modifies this`searchQuery, this`activeGroup
      ensures old(activeGroup) == Some(group) ==> activeGroup == None && searchQuery == old(searchQuery)
      ensures old(activeGroup) != Some(group) ==> activeGroup == Some(group) && searchQuery == ""
      ensures Exclusive()
      ensures old(Exclusive()) && old(activeGroup) == Some(group) ==> !HasFilters()
    {
      if activeGroup == Some(group) {
        activeGroup := None;
      } else {
        activeGroup := Some(group);
        searchQuery := "";
      }
    }

    /** `clearFilters` */
    method ClearFilters()
      modifies this`searchQuery, this`activeGroup
      ensures searchQuery == "" && activeGroup == None
      ensures Exclusive() && !HasFilters()
    {
      searchQuery := "";
      activeGroup := None;
    }

    /**
     * `loadAnimals`: runs the read the filters choose and derives the
     * group chips from what it returned.
     */
    method LoadAnimals(db: Database)
      requires db.Valid()
      modifies this`animals, this`groups
      ensures WellFormed(db.animals)
      ensures animals == Listed(db.animals, searchQuery, activeGroup)
      ensures groups == Unique(GroupsOf(animals))
      ensures IsSubsequence(animals, AllAnimals(db.animals))
    {
      ghost var t := db.animals;
      var list: seq<Animal>;
      if Trim(searchQuery) != "" {
        list := db.SearchAnimals(searchQuery);
      } else if StrTruthy(activeGroup) {
        list := db.GetAnimalsByGroup(activeGroup.value);
      } else {
        list := db.GetAllAnimals();
      }
      assert list == Listed(t, searchQuery, activeGroup);
      ListedFiltersAll(t, searchQuery, activeGroup);
      animals := list;
      groups := Unique(GroupsOf(list));
    }
  }
}
