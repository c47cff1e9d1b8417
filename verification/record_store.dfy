/** The shapes the three data services exchange with the hosted record
    store: the query parameters they build and the responses they unwrap.
    The store client itself is not modelled; a service receives it as a
    function from the parameters it sends to the reply it gets back.

    A reply is either an exception the client threw (which every service
    logs and rethrows unchanged) or the value it returned, which may be
    `null`/`undefined` (`None`). */
module RecordStore {
  import opened Results
  import opened Text

  datatype Operator = Equals | Contains
  datatype Value = BoolValue(b: bool) | TextValue(s: string)
  datatype Condition = Condition(field: string, operator: Operator, value: Value)

  datatype Direction = Asc | Desc
  datatype Ordering = Ordering(field: string, direction: Direction)

  datatype Paging = Paging(limit: int, offset: int)

  /** A related record to fetch along, under an alias. */
  datatype Expand = Expand(name: string, alias: string, fields: seq<string>)

  /** `fields` (and, for bookings, `expands`): what a read returns. */
  datatype Selection = Selection(fields: seq<string>, expands: seq<Expand>)

  /** The parameters of a list query. */
  datatype QueryParams = QueryParams(
    selection: Selection,
    where: seq<Condition>,
    orderBy: seq<Ordering>,
    pagingInfo: Paging)

  /** `{ records: [...] }` for a create or an update. */
  datatype RecordParams<R> = RecordParams(records: seq<R>)

  datatype Reply<T> = Threw(error: string) | Returned(response: Option<T>)

  datatype ListResponse<R> = ListResponse(data: Option<seq<R>>)
  datatype ItemResponse<R> = ItemResponse(data: Option<R>)
  datatype RecordResult<R> = RecordResult(data: R)
  datatype MutationResponse<R> = MutationResponse(success: bool, results: Option<seq<RecordResult<R>>>)

  /** The condition every list query starts with: soft-deleted records are hidden. */
  const NotDeleted := Condition("IsDeleted", Equals, BoolValue(false))

  const DefaultLimit := 20
  const DefaultOffset := 0

  /** JavaScript truthiness of an optional string option. */
  predicate Given(o: Option<string>) {
    o.Some? && Truthy(o.value)
  }

  /** `const { limit = 20, offset = 0 } = options`: the defaults apply only
      to an absent value; a supplied one passes through as it is. */
  function PagingOf(limit: Option<int>, offset: Option<int>): (p: Paging)
    ensures limit.None? ==> p.limit == DefaultLimit
    ensures limit.Some? ==> p.limit == limit.value
    ensures offset.None? ==> p.offset == DefaultOffset
    ensures offset.Some? ==> p.offset == offset.value
  {
    Paging(limit.GetOr(DefaultLimit), offset.GetOr(DefaultOffset))
  }

  /** `{ records: [record] }`: exactly one record, the one given. */
  function Single<R>(record: R): (p: RecordParams<R>)
    ensures |p.records| == 1 && p.records[0] == record
  {
    RecordParams([record])
  }

  /** `response?.data || []` for a list query. */
  function UnwrapList<R>(reply: Reply<ListResponse<R>>): (r: Result<seq<R>, string>)
    ensures r.Failure? <==> reply.Threw?
    ensures reply.Threw? ==> r.error == reply.error
    ensures reply.Returned? && reply.response.Some? && reply.response.value.data.Some? ==>
              r == Success(reply.response.value.data.value)
    ensures reply.Returned? && (reply.response.None? || reply.response.value.data.None?) ==>
              r == Success([])
  {
    match reply
    case Threw(e) => Failure(e)
    case Returned(None) => Success([])
    case Returned(Some(resp)) => Success(resp.data.GetOr([]))
  }

  /** `response?.data || null` for a read by id. */
  function UnwrapItem<R>(reply: Reply<ItemResponse<R>>): (r: Result<Option<R>, string>)
    ensures r.Failure? <==> reply.Threw?
    ensures reply.Threw? ==> r.error == reply.error
    ensures reply.Returned? && reply.response.Some? ==> r == Success(reply.response.value.data)
    ensures reply.Returned? && reply.response.None? ==> r == Success(None)
  {
    match reply
    case Threw(e) => Failure(e)
    case Returned(None) => Success(None)
    case Returned(Some(resp)) => Success(resp.data)
  }

  /** The condition under which a create or an update is accepted:
      `response?.success && response?.results?.length > 0`. */
  predicate Accepted<R>(response: Option<MutationResponse<R>>) {
    && response.Some?
    && response.value.success
    && response.value.results.Some?
    && |response.value.results.value| > 0
  }

  /** A create or an update returns the first result's record when the
      store accepted it, and fails with `failure` otherwise. */
  function UnwrapMutation<R>(reply: Reply<MutationResponse<R>>, failure: string): (r: Result<R, string>)
    ensures r.Success? <==> reply.Returned? && Accepted(reply.response)
    ensures r.Success? ==> r.value == reply.response.value.results.value[0].data
    ensures reply.Threw? ==> r == Failure(reply.error)
    ensures reply.Returned? && !Accepted(reply.response) ==> r == Failure(failure)
  {
    match reply
    case Threw(e) => Failure(e)
    case Returned(response) =>
      if Accepted(response) then Success(response.value.results.value[0].data)
      else Failure(failure)
  }

  /** A store that reports success with an empty result list still fails. */
  lemma EmptyResultsRejected<R>(failure: string)
    ensures UnwrapMutation<R>(Returned(Some(MutationResponse(true, Some([])))), failure) == Failure(failure)
    ensures UnwrapMutation<R>(Returned(Some(MutationResponse(true, None))), failure) == Failure(failure)
  {
  }
}
