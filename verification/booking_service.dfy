/** src/services/bookingService.js: list, read and create bookings in the
    `booking` table of the record store. A new booking without a status is
    stored as 'pending'. */
module BookingService {
  import opened Results
  import opened RecordStore
  import opened BookingForm

  const Table := "booking"

  const Fields := [
    "Id", "Name", "email", "phone", "address", "selectedDate",
    "selectedTime", "bookingType", "selectedTest", "selectedCombo",
    "additionalInfo", "status"]

  /** The catalog entries read along with a booking. */
  const Expands := [
    Expand("selectedTest", "testDetails", ["Id", "Name", "price", "category"]),
    Expand("selectedCombo", "comboDetails", ["Id", "Name", "price", "tests"])]

  /** A booking record: the wizard's fields and a status that may be unset. */
  datatype Booking = Booking(details: FormData, status: Option<string>)

  /** `options` of `fetchBookings`; `None` is an option left out. */
  datatype FetchOptions = FetchOptions(
    status: Option<string>, email: Option<string>,
    limit: Option<int>, offset: Option<int>)

  function StatusCondition(status: string): Condition {
    Condition("status", Equals, TextValue(status))
  }

  function EmailCondition(email: string): Condition {
    Condition("email", Equals, TextValue(email))
  }

  /** The `where` list of `fetchBookings`. */
  function BookingWhere(o: FetchOptions): (w: seq<Condition>)
    ensures 1 <= |w| <= 3 && w[0] == NotDeleted
    ensures |w| == 1 + (if Given(o.status) then 1 else 0) + (if Given(o.email) then 1 else 0)
    ensures Given(o.status) ==> w[1] == StatusCondition(o.status.value)
    ensures Given(o.email) ==> w[|w| - 1] == EmailCondition(o.email.value)
    ensures (exists i :: 0 <= i < |w| && w[i].field == "status") <==> Given(o.status)
    ensures (exists i :: 0 <= i < |w| && w[i].field == "email") <==> Given(o.email)
  {
    var w0 := [NotDeleted];
    var w1 := if Given(o.status) then w0 + [StatusCondition(o.status.value)] else w0;
    var w2 := if Given(o.email) then w1 + [EmailCondition(o.email.value)] else w1;
    assert Given(o.status) ==> w2[1].field == "status";
    assert Given(o.email) ==> w2[|w2| - 1].field == "email";
    w2
  }

  /** The parameters `fetchBookings` sends: newest appointment date first. */
  function BookingQuery(o: FetchOptions): (p: QueryParams)
    ensures p.where == BookingWhere(o)
    ensures p.orderBy == [Ordering("selectedDate", Desc)]
    ensures p.pagingInfo.limit == (if o.limit.Some? then o.limit.value else 20)
    ensures p.pagingInfo.offset == (if o.offset.Some? then o.offset.value else 0)
    ensures p.selection == Selection(Fields, Expands)
  {
    QueryParams(Selection(Fields, Expands), BookingWhere(o), [Ordering("selectedDate", Desc)], PagingOf(o.limit, o.offset))
  }

  /** `fetchBookings`: the store's records, or an empty list. */
  function FetchBookings<R>(o: FetchOptions, client: (string, QueryParams) -> Reply<ListResponse<R>>): (r: Result<seq<R>, string>)
    ensures r.Failure? <==> client(Table, BookingQuery(o)).Threw?
    ensures client(Table, BookingQuery(o)).Threw? ==> r == Failure(client(Table, BookingQuery(o)).error)
    ensures r.Success? && r.value != [] ==>
              client(Table, BookingQuery(o)).response == Some(ListResponse(Some(r.value)))
    ensures r.Success? && r.value == [] ==>
              var resp := client(Table, BookingQuery(o)).response;
              resp.None? || resp.value.data.None? || resp.value.data == Some([])
  {
    UnwrapList(client(Table, BookingQuery(o)))
  }

  /** `getBookingById`: the record, or `null`. */
  function GetBookingById<R>(id: int, client: (string, int, Selection) -> Reply<ItemResponse<R>>): (r: Result<Option<R>, string>)
    ensures r.Failure? <==> client(Table, id, Selection(Fields, Expands)).Threw?
    ensures client(Table, id, Selection(Fields, Expands)).Threw? ==> r == Failure(client(Table, id, Selection(Fields, Expands)).error)
    ensures r.Success? && r.value.Some? ==>
              client(Table, id, Selection(Fields, Expands)).response == Some(ItemResponse(r.value))
    ensures r.Success? && r.value.None? ==>
              var resp := client(Table, id, Selection(Fields, Expands)).response;
              resp.None? || resp.value.data.None?
  {
    UnwrapItem(client(Table, id, Selection(Fields, Expands)))
  }

  /** The status defaulting of `createBooking`: a falsy status (absent or
      '') becomes 'pending'; a truthy one and every other field stay. */
  function WithDefaultStatus(b: Booking): (r: Booking)
    ensures !Given(b.status) ==> r.status == Some("pending")
    ensures Given(b.status) ==> r.status == b.status
    ensures r.details == b.details
    ensures Given(r.status)
  {
    if Given(b.status) then b else b.(status := Some("pending"))
  }

  /** Defaulting the status a second time changes nothing. */
  lemma DefaultStatusIdempotent(b: Booking)
    ensures WithDefaultStatus(WithDefaultStatus(b)) == WithDefaultStatus(b)
  {
  }

  const CreateFailed := "Failed to create booking"

  /** `createBooking`: sends exactly one record, the booking with its status
      defaulted, and returns what the store created, or fails. */
  function CreateBooking<R>(b: Booking, client: (string, RecordParams<Booking>) -> Reply<MutationResponse<R>>): (r: Result<R, string>)
    ensures r.Success? <==> client(Table, Single(WithDefaultStatus(b))).Returned?
                            && Accepted(client(Table, Single(WithDefaultStatus(b))).response)
    ensures r.Success? ==> r.value == client(Table, Single(WithDefaultStatus(b))).response.value.results.value[0].data
    ensures client(Table, Single(WithDefaultStatus(b))).Returned? && r.Failure? ==> r.error == CreateFailed
    ensures client(Table, Single(WithDefaultStatus(b))).Threw? ==> r == Failure(client(Table, Single(WithDefaultStatus(b))).error)
  {
    UnwrapMutation(client(Table, Single(WithDefaultStatus(b))), CreateFailed)
  }

  /** The record sent carries the booking's own fields and a truthy status. */
  lemma CreateSendsDefaultedBooking(b: Booking)
    ensures |Single(WithDefaultStatus(b)).records| == 1
    ensures Single(WithDefaultStatus(b)).records[0].details == b.details
    ensures Given(Single(WithDefaultStatus(b)).records[0].status)
    ensures b.status == Some("") ==> Single(WithDefaultStatus(b)).records[0].status == Some("pending")
  {
  }
}
