/** src/services/labTestService.js: list, read, create and update lab tests
    in the `lab_test` table of the record store. */
module LabTestService {
  import opened Results
  import opened RecordStore

  const Table := "lab_test"

  const Fields := ["Id", "Name", "description", "category", "price", "turnaroundTime", "image"]

  /** `options` of `fetchLabTests`; `None` is an option left out. */
  datatype FetchOptions = FetchOptions(
    category: Option<string>, search: Option<string>,
    limit: Option<int>, offset: Option<int>)

  /** A category filter is added for a truthy category other than 'all'. */
  predicate FiltersCategory(o: FetchOptions) {
    Given(o.category) && o.category.value != "all"
  }

  function CategoryCondition(category: string): Condition {
    Condition("category", Equals, TextValue(category))
  }

  function SearchCondition(search: string): Condition {
    Condition("Name", Contains, TextValue(search))
  }

  /** The `where` list, in the order `fetchLabTests` pushes it. */
  function LabTestWhere(o: FetchOptions): (w: seq<Condition>)
    ensures 1 <= |w| <= 3 && w[0] == NotDeleted
    ensures |w| == 1 + (if FiltersCategory(o) then 1 else 0) + (if Given(o.search) then 1 else 0)
    ensures FiltersCategory(o) ==> w[1] == CategoryCondition(o.category.value)
    ensures Given(o.search) ==> w[|w| - 1] == SearchCondition(o.search.value)
    ensures (exists i :: 0 <= i < |w| && w[i].field == "category") <==> FiltersCategory(o)
    ensures (exists i :: 0 <= i < |w| && w[i].field == "Name") <==> Given(o.search)
    ensures forall i :: 0 <= i < |w| ==>
              w[i] == NotDeleted
              || (FiltersCategory(o) && w[i] == CategoryCondition(o.category.value))
              || (Given(o.search) && w[i] == SearchCondition(o.search.value))
  {
    var w0 := [NotDeleted];
    var w1 := if FiltersCategory(o) then w0 + [CategoryCondition(o.category.value)] else w0;
    var w2 := if Given(o.search) then w1 + [SearchCondition(o.search.value)] else w1;
    assert FiltersCategory(o) ==> w2[1].field == "category";
    assert Given(o.search) ==> w2[|w2| - 1].field == "Name";
    w2
  }

  /** The parameters `fetchLabTests` sends: its filter, Name ascending, and
      the paging options with their defaults. */
  function LabTestQuery(o: FetchOptions): (p: QueryParams)
    ensures p.where == LabTestWhere(o)
    ensures p.orderBy == [Ordering("Name", Asc)]
    ensures p.pagingInfo.limit == (if o.limit.Some? then o.limit.value else 20)
    ensures p.pagingInfo.offset == (if o.offset.Some? then o.offset.value else 0)
    ensures p.selection == Selection(Fields, [])
  {
    QueryParams(Selection(Fields, []), LabTestWhere(o), [Ordering("Name", Asc)], PagingOf(o.limit, o.offset))
  }

  /** `fetchLabTests`: the records the store returns for the query, or an
      empty list when it returns none; a client exception is rethrown. */
  function FetchLabTests<R>(o: FetchOptions, client: (string, QueryParams) -> Reply<ListResponse<R>>): (r: Result<seq<R>, string>)
    ensures r.Failure? <==> client(Table, LabTestQuery(o)).Threw?
    ensures client(Table, LabTestQuery(o)).Threw? ==> r == Failure(client(Table, LabTestQuery(o)).error)
    ensures r.Success? && r.value != [] ==>
              client(Table, LabTestQuery(o)).response == Some(ListResponse(Some(r.value)))
    ensures r.Success? && r.value == [] ==>
              var resp := client(Table, LabTestQuery(o)).response;
              resp.None? || resp.value.data.None? || resp.value.data == Some([])
  {
    UnwrapList(client(Table, LabTestQuery(o)))
  }

  /** `getLabTestById`: the record, or `null` when the store has none. */
  function GetLabTestById<R>(id: int, client: (string, int, Selection) -> Reply<ItemResponse<R>>): (r: Result<Option<R>, string>)
    ensures r.Failure? <==> client(Table, id, Selection(Fields, [])).Threw?
    ensures client(Table, id, Selection(Fields, [])).Threw? ==> r == Failure(client(Table, id, Selection(Fields, [])).error)
    ensures r.Success? && r.value.Some? ==>
              client(Table, id, Selection(Fields, [])).response == Some(ItemResponse(r.value))
    ensures r.Success? && r.value.None? ==>
              var resp := client(Table, id, Selection(Fields, [])).response;
              resp.None? || resp.value.data.None?
  {
    UnwrapItem(client(Table, id, Selection(Fields, [])))
  }

  const CreateFailed := "Failed to create lab test"
  const UpdateFailed := "Failed to update lab test"

  /** `createLabTest`: sends the one record and returns what the store
      created, or fails. */
  function CreateLabTest<R>(labTest: R, client: (string, RecordParams<R>) -> Reply<MutationResponse<R>>): (r: Result<R, string>)
    ensures r.Success? <==> client(Table, Single(labTest)).Returned? && Accepted(client(Table, Single(labTest)).response)
    ensures r.Success? ==> r.value == client(Table, Single(labTest)).response.value.results.value[0].data
    ensures client(Table, Single(labTest)).Returned? && r.Failure? ==> r.error == CreateFailed
    ensures client(Table, Single(labTest)).Threw? ==> r == Failure(client(Table, Single(labTest)).error)
  {
    UnwrapMutation(client(Table, Single(labTest)), CreateFailed)
  }

  /** `updateLabTest`: as `createLabTest`, through the update call. */
  function UpdateLabTest<R>(labTest: R, client: (string, RecordParams<R>) -> Reply<MutationResponse<R>>): (r: Result<R, string>)
    ensures r.Success? <==> client(Table, Single(labTest)).Returned? && Accepted(client(Table, Single(labTest)).response)
    ensures r.Success? ==> r.value == client(Table, Single(labTest)).response.value.results.value[0].data
    ensures client(Table, Single(labTest)).Returned? && r.Failure? ==> r.error == UpdateFailed
    ensures client(Table, Single(labTest)).Threw? ==> r == Failure(client(Table, Single(labTest)).error)
  {
    UnwrapMutation(client(Table, Single(labTest)), UpdateFailed)
  }

  /** The 'all' category adds no filter, exactly as no category does. */
  lemma AllCategoryIsNoFilter(o: FetchOptions)
    ensures LabTestWhere(o.(category := Some("all"))) == LabTestWhere(o.(category := None))
    ensures LabTestWhere(o.(category := Some(""))) == LabTestWhere(o.(category := None))
  {
  }

  /** With both filters present the list is exactly: not deleted, then the
      category, then the search. */
  lemma BothFiltersInOrder(o: FetchOptions)
    requires FiltersCategory(o) && Given(o.search)
    ensures LabTestWhere(o) == [NotDeleted, CategoryCondition(o.category.value), SearchCondition(o.search.value)]
  {
  }
}
