/**
 * Response shaping in the YCLIENTS API client (yclients_api.py). Every
 * endpoint answers with an envelope `{"success": ..., "data": ...}`; the
 * client keeps `data` only when `success` holds, filters services by
 * category and masters by service, flattens free slots day by day, and
 * books in two steps (create the client, then the record). The decoded
 * replies are parameters; the HTTP calls and the auth token are not modelled.
 */
module YClientsApi {
  import opened Wrappers
  import opened JsonValues

  /** A decoded reply: `success` read as a truth value, and `data`. */
  datatype Envelope<T> = Envelope(success: bool, data: T)

  /** A service category as `service_categories` lists it. */
  datatype Category = Category(id: int, title: string)

  /** A service as the `services` endpoint lists it. */
  datatype Service = Service(id: int, categoryId: int, title: string)

  /** A staff member; `services` is None when the record has no such key. */
  datatype Master = Master(id: int, name: string, services: Option<seq<int>>)

  /** One day of `book_times`: its date and its free times. */
  datatype FreeDay = FreeDay(date: string, times: seq<string>)

  /** A client record as `clients` returns it. */
  datatype Client = Client(id: int, name: string, phone: string)

  /** `[x for x in s if p(x)]` */
  function Filter<T>(s: seq<T>, p: T -> bool): seq<T>
    decreases |s|
  {
    if s == [] then []
    else if p(s[0]) then [s[0]] + Filter(s[1..], p)
    else Filter(s[1..], p)
  }

  /**
   * The filter keeps exactly the items that pass, each as often as it
   * occurs, and never lengthens the list.
   */
  lemma {:induction false} FilterMembers<T(!new)>(s: seq<T>, p: T -> bool)
    ensures |Filter(s, p)| <= |s|
    ensures forall x :: x in Filter(s, p) <==> x in s && p(x)
    ensures forall x :: multiset(Filter(s, p))[x] == if p(x) then multiset(s)[x] else 0
    decreases |s|
  {
    if s != [] {
      FilterMembers(s[1..], p);
      assert s == [s[0]] + s[1..];
    }
  }

  /** Filtering keeps response order: the kept items of a + b are those of a, then those of b. */
  lemma {:induction false} FilterConcat<T>(a: seq<T>, b: seq<T>, p: T -> bool)
    ensures Filter(a + b, p) == Filter(a, p) + Filter(b, p)
    decreases |a|
  {
    if a == [] {
      assert a + b == b;
    } else {
      FilterConcat(a[1..], b, p);
      var ab := a + b;
      assert ab[0] == a[0] && ab[1..] == a[1..] + b;
      if p(a[0]) {
        calc {
          Filter(ab, p);
          [a[0]] + Filter(a[1..] + b, p);
          [a[0]] + (Filter(a[1..], p) + Filter(b, p));
          ([a[0]] + Filter(a[1..], p)) + Filter(b, p);
        }
      }
    }
  }

  /** `get_categories`: the listed categories, or [] when the reply is not a success. */
  function GetCategories(reply: Envelope<seq<Category>>): (r: seq<Category>)
    ensures reply.success ==> r == reply.data
    ensures !reply.success ==> r == []
  {
    if reply.success then reply.data else []
  }

  /**
   * `get_services_by_category`: the services whose `category_id` equals the
   * argument, each as often as the reply lists it; [] when not a success.
   */
  function ServicesByCategory(reply: Envelope<seq<Service>>, categoryId: int): (r: seq<Service>)
    ensures !reply.success ==> r == []
    ensures reply.success ==> forall s :: s in r <==> s in reply.data && s.categoryId == categoryId
    ensures reply.success ==> forall s: Service :: s.categoryId == categoryId ==> multiset(r)[s] == multiset(reply.data)[s]
    ensures reply.success ==> r == Filter(reply.data, (s: Service) => s.categoryId == categoryId)
  {
    if !reply.success then []
    else
      var keep := (s: Service) => s.categoryId == categoryId;
      FilterMembers(reply.data, keep);
      Filter(reply.data, keep)
  }

  /** The services a master offers: `m.get("services", [])`. */
  function OfferedBy(m: Master): seq<int> {
    m.services.GetOr([])
  }

  /**
   * `get_masters_for_service`: the masters whose service list holds the
   * service, a master without a list holding none; [] when not a success.
   */
  function MastersForService(reply: Envelope<seq<Master>>, serviceId: int): (r: seq<Master>)
    ensures !reply.success ==> r == []
    ensures reply.success ==> forall m :: m in r <==> m in reply.data && serviceId in OfferedBy(m)
    ensures reply.success ==> forall m: Master :: m.services.None? ==> m !in r
    ensures reply.success ==> forall m: Master :: serviceId in OfferedBy(m) ==> multiset(r)[m] == multiset(reply.data)[m]
    ensures reply.success ==> r == Filter(reply.data, (m: Master) => serviceId in OfferedBy(m))
  {
    if !reply.success then []
    else
      var keep := (m: Master) => serviceId in OfferedBy(m);
      FilterMembers(reply.data, keep);
      Filter(reply.data, keep)
  }

  /** The slots of one day: "date time" for each of its times, in order. */
  function DaySlots(day: FreeDay): (r: seq<string>)
    ensures |r| == |day.times|
    ensures forall j :: 0 <= j < |day.times| ==> r[j] == day.date + " " + day.times[j]
  {
    seq(|day.times|, j requires 0 <= j < |day.times| => day.date + " " + day.times[j])
  }

  /** The slots of several days, day after day. */
  function Slots(days: seq<FreeDay>): seq<string>
    decreases |days|
  {
    if days == [] then [] else Slots(days[..|days| - 1]) + DaySlots(days[|days| - 1])
  }

  /** The number of free times over all days. */
  function TotalTimes(days: seq<FreeDay>): nat
    decreases |days|
  {
    if days == [] then 0 else TotalTimes(days[..|days| - 1]) + |days[|days| - 1].times|
  }

  /** Slots of a concatenation are the slots of each part, in order. */
  lemma {:induction false} SlotsConcat(a: seq<FreeDay>, b: seq<FreeDay>)
    ensures Slots(a + b) == Slots(a) + Slots(b)
    decreases |b|
  {
    if b == [] {
      assert a + b == a;
    } else {
      var b' := b[..|b| - 1];
      var last := b[|b| - 1];
      SlotsConcat(a, b');
      assert (a + b)[..|a + b| - 1] == a + b';
      assert (a + b)[|a + b| - 1] == last;
      calc {
        Slots(a + b);
        Slots(a + b') + DaySlots(last);
        (Slots(a) + Slots(b')) + DaySlots(last);
        Slots(a) + (Slots(b') + DaySlots(last));
      }
    }
  }

  /** The free times of a concatenation add up. */
  lemma {:induction false} TotalConcat(a: seq<FreeDay>, b: seq<FreeDay>)
    ensures TotalTimes(a + b) == TotalTimes(a) + TotalTimes(b)
    decreases |b|
  {
    if b == [] {
      assert a + b == a;
    } else {
      var b' := b[..|b| - 1];
      TotalConcat(a, b');
      assert (a + b)[..|a + b| - 1] == a + b';
      assert (a + b)[|a + b| - 1] == b[|b| - 1];
    }
  }

  /** There is one slot per free time. */
  lemma {:induction false} SlotCount(days: seq<FreeDay>)
    ensures |Slots(days)| == TotalTimes(days)
    decreases |days|
  {
    if days != [] {
      SlotCount(days[..|days| - 1]);
    }
  }

  /** The slots of one day sit between those of the days before and after it. */
  lemma {:induction false} SlotsAround(days: seq<FreeDay>, d: nat)
    requires d < |days|
    ensures Slots(days) == Slots(days[..d]) + (DaySlots(days[d]) + Slots(days[d + 1..]))
  {
    var pre, day, post := days[..d], days[d], days[d + 1..];
    assert days == pre + ([day] + post);
    assert Slots([day]) == DaySlots(day) by {
      assert [day][..0] == [];
    }
    SlotsConcat([day], post);
    SlotsConcat(pre, [day] + post);
  }

  /**
   * Day-major order: time j of day d is the slot right after all the times
   * of the earlier days, and reads "date time".
   */
  lemma {:induction false} SlotAt(days: seq<FreeDay>, d: nat, j: nat)
    requires d < |days| && j < |days[d].times|
    ensures TotalTimes(days[..d]) + j < |Slots(days)|
    ensures Slots(days)[TotalTimes(days[..d]) + j] == days[d].date + " " + days[d].times[j]
  {
    SlotsAround(days, d);
    SlotCount(days[..d]);
    var here := DaySlots(days[d]) + Slots(days[d + 1..]);
    assert here[j] == DaySlots(days[d])[j];
  }

  /**
   * `get_free_times`: every free time of every day as "date time", days in
   * reply order and times in day order; [] when not a success.
   */
  method GetFreeTimes(reply: Envelope<seq<FreeDay>>) returns (times: seq<string>)
    ensures !reply.success ==> times == []
    ensures reply.success ==> times == Slots(reply.data)
    ensures reply.success ==> |times| == TotalTimes(reply.data)
  {
    if !reply.success {
      return [];
    }
    var days := reply.data;
    times := [];
    var i := 0;
    while i < |days|
      invariant 0 <= i <= |days|
      invariant times == Slots(days[..i])
    {
      var day := days[i];
      var j := 0;
      while j < |day.times|
        invariant 0 <= j <= |day.times|
        invariant times == Slots(days[..i]) + DaySlots(day)[..j]
      {
        times := times + [day.date + " " + day.times[j]];
        j := j + 1;
      }
      assert days[..i + 1][..i] == days[..i];
      assert DaySlots(day)[..j] == DaySlots(day);
      i := i + 1;
    }
    assert days[..i] == days;
    SlotCount(days);
  }

  /** The body `create_client` posts: the full name and the phone. */
  function ClientPayload(name: string, lastName: string, phone: string): Json {
    JObject(map["name" := JString(name + " " + lastName), "phone" := JString(phone)])
  }

  /** `create_client`: the client record on success, otherwise None. */
  function CreateClient(reply: Envelope<Option<Client>>): (r: Option<Client>)
    ensures r.Some? <==> reply.success && reply.data.Some?
    ensures r.Some? ==> r == reply.data
  {
    if reply.success then reply.data else None
  }

  /** The body `create_booking` posts to `book_record`. */
  function RecordPayload(masterId: int, serviceId: int, client: Client, time: string): (r: Json)
    ensures r.JObject? && r.fields.Keys == {"staff_id", "services", "client", "datetime"}
    ensures r.fields["staff_id"] == JNumber(masterId)
    ensures r.fields["services"] == JArray([JObject(map["id" := JNumber(serviceId)])])
    ensures r.fields["client"] == JObject(map[
      "id" := JNumber(client.id), "name" := JString(client.name), "phone" := JString(client.phone)])
    ensures r.fields["datetime"] == JString(time)
  {
    JObject(map[
      "staff_id" := JNumber(masterId),
      "services" := JArray([JObject(map["id" := JNumber(serviceId)])]),
      "client" := JObject(map[
        "id" := JNumber(client.id), "name" := JString(client.name), "phone" := JString(client.phone)]),
      "datetime" := JString(time)])
  }

  /** The record reply's data can be logged: `data["data"]["id"]` needs an object with an id. */
  predicate HasId(data: Json) {
    data.JObject? && "id" in data.fields
  }

  /** How `create_booking` ends: it returns a value (None or the record), or it raises. */
  datatype Ending = Returns(value: Option<Json>) | Raises

  /** What `create_booking` does: the client it posts, the record it posts if any, and how it ends. */
  datatype BookingOutcome = BookingOutcome(client: Json, record: Option<Json>, result: Ending)

  /**
   * `create_booking`: without a client record nothing is booked and the
   * result is None; otherwise the record for that client is posted. A
   * failed reply gives None; a successful one returns its data after logging
   * the data's id, which raises when the data is not an object with an id.
   */
  function CreateBooking(
    name: string, lastName: string, phone: string, serviceId: int, masterId: int, time: string,
    clientReply: Envelope<Option<Client>>, recordReply: Envelope<Json>): (r: BookingOutcome)
    ensures r.client == JObject(map["name" := JString(name + " " + lastName), "phone" := JString(phone)])
    ensures CreateClient(clientReply).None? ==> r.record == None && r.result == Returns(None)
    ensures r.record.Some? <==> CreateClient(clientReply).Some?
    ensures r.record.Some? ==>
      r.record.value == RecordPayload(masterId, serviceId, CreateClient(clientReply).value, time)
    ensures r.result.Raises? <==>
      CreateClient(clientReply).Some? && recordReply.success && !HasId(recordReply.data)
    ensures r.result == Returns(Some(recordReply.data)) <==>
      CreateClient(clientReply).Some? && recordReply.success && HasId(recordReply.data)
    ensures r.result.Returns? && r.result.value.Some? ==> r.result.value == Some(recordReply.data)
  {
    var body := ClientPayload(name, lastName, phone);
    match CreateClient(clientReply)
    case None => BookingOutcome(body, None, Returns(None))
    case Some(client) =>
      var record := RecordPayload(masterId, serviceId, client, time);
      var ending :=
        if !recordReply.success then Returns(None)
        else if HasId(recordReply.data) then Returns(Some(recordReply.data))
        else Raises;
      BookingOutcome(body, Some(record), ending)
  }
}
