/** src/services/comboPackageService.js: list, read, create and update combo
    packages in the `combo_package` table of the record store. The list
    query has a search filter but, unlike lab tests, no category filter. */
module ComboPackageService {
  import opened Results
  import opened RecordStore

  const Table := "combo_package"

  const Fields := ["Id", "Name", "description", "price", "originalPrice", "discountPercentage", "tests", "image"]

  /** `options` of `fetchComboPackages`; `None` is an option left out. */
  datatype FetchOptions = FetchOptions(search: Option<string>, limit: Option<int>, offset: Option<int>)

  function SearchCondition(search: string): Condition {
    Condition("Name", Contains, TextValue(search))
  }

  /** The `where` list of `fetchComboPackages`. */
  function ComboWhere(o: FetchOptions): (w: seq<Condition>)
    ensures 1 <= |w| <= 2 && w[0] == NotDeleted
    ensures |w| == 2 <==> Given(o.search)
    ensures Given(o.search) ==> w[1] == SearchCondition(o.search.value)
    ensures forall i :: 0 <= i < |w| ==> w[i].field != "category"
  {
    var w0 := [NotDeleted];
    if Given(o.search) then w0 + [SearchCondition(o.search.value)] else w0
  }

  /** The parameters `fetchComboPackages` sends. */
  function ComboQuery(o: FetchOptions): (p: QueryParams)
    ensures p.where == ComboWhere(o)
    ensures p.orderBy == [Ordering("Name", Asc)]
    ensures p.pagingInfo.limit == (if o.limit.Some? then o.limit.value else 20)
    ensures p.pagingInfo.offset == (if o.offset.Some? then o.offset.value else 0)
    ensures p.selection == Selection(Fields, [])
  {
    QueryParams(Selection(Fields, []), ComboWhere(o), [Ordering("Name", Asc)], PagingOf(o.limit, o.offset))
  }

  /** `fetchComboPackages`: the store's records, or an empty list. */
  function FetchComboPackages<R>(o: FetchOptions, client: (string, QueryParams) -> Reply<ListResponse<R>>): (r: Result<seq<R>, string>)
    ensures r.Failure? <==> client(Table, ComboQuery(o)).Threw?
    ensures client(Table, ComboQuery(o)).Threw? ==> r == Failure(client(Table, ComboQuery(o)).error)
    ensures r.Success? && r.value != [] ==>
              client(Table, ComboQuery(o)).response == Some(ListResponse(Some(r.value)))
    ensures r.Success? && r.value == [] ==>
              var resp := client(Table, ComboQuery(o)).response;
              resp.None? || resp.value.data.None? || resp.value.data == Some([])
  {
    UnwrapList(client(Table, ComboQuery(o)))
  }

  /** `getComboPackageById`: the record, or `null`. */
  function GetComboPackageById<R>(id: int, client: (string, int, Selection) -> Reply<ItemResponse<R>>): (r: Result<Option<R>, string>)
    ensures r.Failure? <==> client(Table, id, Selection(Fields, [])).Threw?
    ensures client(Table, id, Selection(Fields, [])).Threw? ==> r == Failure(client(Table, id, Selection(Fields, [])).error)
    ensures r.Success? && r.value.Some? ==>
              client(Table, id, Selection(Fields, [])).response == Some(ItemResponse(r.value))
    ensures r.Success? && r.value.None? ==>
              var resp := client(Table, id, Selection(Fields, [])).response;
              resp.None? || resp.value.data.None?
  {
    UnwrapItem(client(Table, id, Selection(Fields, [])))
  }

  const CreateFailed := "Failed to create combo package"
  const UpdateFailed := "Failed to update combo package"

  /** `createComboPackage`: sends exactly the given package as the one record. */
  function CreateComboPackage<R>(pkg: R, client: (string, RecordParams<R>) -> Reply<MutationResponse<R>>): (r: Result<R, string>)
    ensures r.Success? <==> client(Table, Single(pkg)).Returned? && Accepted(client(Table, Single(pkg)).response)
    ensures r.Success? ==> r.value == client(Table, Single(pkg)).response.value.results.value[0].data
    ensures client(Table, Single(pkg)).Returned? && r.Failure? ==> r.error == CreateFailed
    ensures client(Table, Single(pkg)).Threw? ==> r == Failure(client(Table, Single(pkg)).error)
  {
    UnwrapMutation(client(Table, Single(pkg)), CreateFailed)
  }

  /** `updateComboPackage`: as create, through the update call. */
  function UpdateComboPackage<R>(pkg: R, client: (string, RecordParams<R>) -> Reply<MutationResponse<R>>): (r: Result<R, string>)
    ensures r.Success? <==> client(Table, Single(pkg)).Returned? && Accepted(client(Table, Single(pkg)).response)
    ensures r.Success? ==> r.value == client(Table, Single(pkg)).response.value.results.value[0].data
    ensures client(Table, Single(pkg)).Returned? && r.Failure? ==> r.error == UpdateFailed
    ensures client(Table, Single(pkg)).Threw? ==> r == Failure(client(Table, Single(pkg)).error)
  {
    UnwrapMutation(client(Table, Single(pkg)), UpdateFailed)
  }
}
