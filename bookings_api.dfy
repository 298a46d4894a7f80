/** The bookings resource: POST /api/bookings/create validates a JSON body,
    builds a Booking and persists it; GET /api/bookings/ lists every booking. */
module BookingsApi {
  import opened Dates
  import opened Users

  /** The status every rejection is answered with. */
  const RejectedStatus := 210
  /** The status of a successful response (jsonify's default). */
  const OkStatus := 200
  /** The shortest name, uid or bookingid accepted. */
  const MinFieldLength := 2

  const NameMessage := "Name is missing, or is less than 2 characters"
  const UidMessage := "User ID is missing, or is less than 2 characters"
  const BookingIdMessage := "Booking ID is missing, or is less than 2 characters"

  /** The message returned when the insert fails. */
  function DuplicateMessage(name: string, uid: string): string {
    "Processed " + name + ", either a format error or User ID " + uid + " is duplicate"
  }

  /** A response body with its status: a booking snapshot (200) or a message. */
  datatype Response = Created(booking: BookingSnapshot) | Message(text: string, status: int) {
    function Status(): int {
      if Created? then OkStatus else status
    }
  }

  /** The JSON request body; keys that are absent read as None. */
  type Body = map<string, string>

  /** A required field is present and has at least two characters. */
  predicate FieldOk(body: Body, key: string) {
    key in body && |body[key]| >= MinFieldLength
  }

  /** The outcome of the validation chain. */
  datatype Checked =
    | Accepted(name: string, uid: string, bookingid: string)
    | Rejected(response: Response)

  /** The checks in order: name, then uid, then bookingid; the first failure answers. */
  function CheckBody(body: Body): (c: Checked)
    ensures c.Rejected? ==> c.response.Message? && c.response.Status() == RejectedStatus
    ensures !FieldOk(body, "name") ==> c == Rejected(Message(NameMessage, RejectedStatus))
    ensures c == Rejected(Message(UidMessage, RejectedStatus))
            <==> FieldOk(body, "name") && !FieldOk(body, "uid")
    ensures c == Rejected(Message(BookingIdMessage, RejectedStatus))
            <==> FieldOk(body, "name") && FieldOk(body, "uid") && !FieldOk(body, "bookingid")
    ensures c.Accepted?
            <==> FieldOk(body, "name") && FieldOk(body, "uid") && FieldOk(body, "bookingid")
    ensures c.Accepted? ==> c == Accepted(body["name"], body["uid"], body["bookingid"])
  {
    if !FieldOk(body, "name") then Rejected(Message(NameMessage, RejectedStatus))
    else if !FieldOk(body, "uid") then Rejected(Message(UidMessage, RejectedStatus))
    else if !FieldOk(body, "bookingid") then Rejected(Message(BookingIdMessage, RejectedStatus))
    else Accepted(body["name"], body["uid"], body["bookingid"])
  }

  /** The required fields in checking order, and the message each failure gives. */
  const RequiredFields: seq<string> := ["name", "uid", "bookingid"]
  const FieldMessages: seq<string> := [NameMessage, UidMessage, BookingIdMessage]

  /** The position of the first required field, from `from` on, that fails its check
      (|RequiredFields| when none does). */
  function FirstInvalid(body: Body, from: nat): (k: nat)
    requires from <= |RequiredFields|
    decreases |RequiredFields| - from
    ensures from <= k <= |RequiredFields|
    ensures forall j :: from <= j < k ==> FieldOk(body, RequiredFields[j])
    ensures k < |RequiredFields| ==> !FieldOk(body, RequiredFields[k])
  {
    if from == |RequiredFields| then from
    else if !FieldOk(body, RequiredFields[from]) then from
    else FirstInvalid(body, from + 1)
  }

  /** The chain answers with the message of the first failing field, and accepts
      exactly when no field fails. */
  lemma CheckBodyIsFirstFailure(body: Body)
    ensures var k := FirstInvalid(body, 0);
            if k < |RequiredFields| then CheckBody(body) == Rejected(Message(FieldMessages[k], RejectedStatus))
            else CheckBody(body).Accepted?
  {
  }

  /** A failing name decides the answer whatever uid and bookingid hold. */
  lemma NameFailureIgnoresOtherFields(body: Body, uid: string, bookingid: string)
    requires !FieldOk(body, "name")
    ensures CheckBody(body["uid" := uid]["bookingid" := bookingid]) == CheckBody(body)
  {
  }

  /** The snapshot a successful creation answers with. */
  function NewSnapshot(name: string, uid: string, bookingid: string, importDay: Date): (s: BookingSnapshot)
    ensures s.bookingid == bookingid && s.travelername == name && s.uid == uid
    ensures s.destination == DefaultDestination
    ensures s.flightdate == FormatDate(importDay) && ParseDate(s.flightdate) == Some(importDay)
  {
    FormatDateRoundTrip(importDay);
    BookingSnapshot(bookingid, name, uid, FormatDate(importDay), DefaultDestination)
  }

  class BookingApi {
    /** the bookings table */
    const store: BookingStore
    /** the date the model module was imported: the default dob and flightdate */
    const importDay: Date

    constructor (importDay: Date)
      ensures fresh(store) && store.rows == [] && store.Valid()
      ensures this.importDay == importDay
    {
      this.importDay := importDay;
      store := new BookingStore();
    }

    /** GET /api/bookings/: one snapshot per stored booking, in store order. */
    function Get(): (r: seq<BookingSnapshot>)
      reads store, store.rows
      ensures |r| == |store.rows|
      ensures forall i :: 0 <= i < |r| ==> r[i] == store.rows[i].Read()
    {
      ReadAll(store.rows)
    }

    /** The second half of POST: builds the booking with the default destination and
        dates, inserts it, and answers with its snapshot or with the failure message. */
    method Persist(name: string, uid: string, bookingid: string) returns (resp: Response)
      requires store.Valid()
      modifies store`rows
      ensures store.Valid()
      ensures CountKey(store.rows, bookingid) == 1
      ensures HasKey(old(store.rows), bookingid) ==>
                && resp == Message(DuplicateMessage(name, uid), RejectedStatus)
                && store.rows == old(store.rows)
                && Get() == old(Get())
      ensures !HasKey(old(store.rows), bookingid) ==>
                && resp == Created(NewSnapshot(name, uid, bookingid, importDay))
                && |store.rows| == |old(store.rows)| + 1
                && store.rows[..|old(store.rows)|] == old(store.rows)
                && fresh(store.rows[|old(store.rows)|])
                && Get() == old(Get()) + [resp.booking]
    {
      ghost var before, rows0 := Get(), store.rows;
      var booking := new Booking(bookingid, name, uid, importDay);
      var created := booking.Create(store);
      forall i | 0 <= i < |rows0| ensures rows0[i].Read() == before[i] { }
      ReadAllIs(rows0, before);
      if created != null {
        resp := Created(created.Read());
        assert store.rows == rows0 + [booking];
        assert store.rows[..|rows0|] == rows0;
        ReadAllAppend(rows0, booking);
      } else {
        resp := Message(DuplicateMessage(name, uid), RejectedStatus);
      }
    }

    /** POST /api/bookings/create: the validation chain, then the insert. */
    method Post(body: Body) returns (resp: Response)
      requires store.Valid()
      modifies store`rows
      ensures store.Valid()
      ensures CheckBody(body).Rejected? ==>
                resp == CheckBody(body).response && store.rows == old(store.rows)
      ensures CheckBody(body).Accepted? && HasKey(old(store.rows), body["bookingid"]) ==>
                && resp == Message(DuplicateMessage(body["name"], body["uid"]), RejectedStatus)
                && store.rows == old(store.rows)
      ensures CheckBody(body).Accepted? && !HasKey(old(store.rows), body["bookingid"]) ==>
                && resp == Created(NewSnapshot(body["name"], body["uid"], body["bookingid"], importDay))
                && |store.rows| == |old(store.rows)| + 1
                && store.rows[..|old(store.rows)|] == old(store.rows)
                && fresh(store.rows[|old(store.rows)|])
                && Get() == old(Get()) + [resp.booking]
      ensures CheckBody(body).Accepted? ==> CountKey(store.rows, body["bookingid"]) == 1
      ensures resp.Message? ==> Get() == old(Get())
    {
      var checked := CheckBody(body);
      if checked.Rejected? {
        return checked.response;
      }
      resp := Persist(checked.name, checked.uid, checked.bookingid);
    }
  }

  /** Posting the same valid body twice: the second post takes the failure branch
      and the store holds exactly one booking with that id. */
  method SubmitTwice(api: BookingApi, body: Body) returns (first: Response, second: Response)
    requires api.store.Valid() && CheckBody(body).Accepted?
    modifies api.store`rows
    ensures !HasKey(old(api.store.rows), body["bookingid"]) ==> first.Created?
    ensures second == Message(DuplicateMessage(body["name"], body["uid"]), RejectedStatus)
    ensures CountKey(api.store.rows, body["bookingid"]) == 1
  {
    first := api.Post(body);
    second := api.Post(body);
  }
}
