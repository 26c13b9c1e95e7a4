/** The mock data layer: two in-memory tables, a viewport query over each, two inserts and a promotion update. */
module Api {
  import opened Wrappers
  import opened Types

  /** A rectangular viewport: latitude and longitude ranges, both ends inclusive. */
  datatype Bounds = Bounds(minLat: real, maxLat: real, minLng: real, maxLng: real)

  /** The viewport test the two fetches apply to an item's location. */
  predicate Within(g: GeoLocation, b: Bounds) {
    Latitude(g) >= b.minLat && Latitude(g) <= b.maxLat &&
    Longitude(g) >= b.minLng && Longitude(g) <= b.maxLng
  }

  /** A viewport whose minimum exceeds its maximum on some axis, such as one that crosses the antimeridian. */
  predicate Inverted(b: Bounds) {
    b.minLat > b.maxLat || b.minLng > b.maxLng
  }

  /** No location lies within an inverted viewport. */
  lemma InvertedContainsNothing(g: GeoLocation, b: Bounds)
    requires Inverted(b)
    ensures !Within(g, b)
  {
  }

  /** `r` is `s` with some elements left out and the rest in their original order. */
  predicate IsSubsequence<T(==)>(r: seq<T>, s: seq<T>)
    decreases |s|
  {
    r == [] ||
    (s != [] && ((r[0] == s[0] && IsSubsequence(r[1..], s[1..])) || IsSubsequence(r, s[1..])))
  }

  /** Every sequence is a subsequence of itself. */
  lemma {:induction false} SubsequenceReflexive<T>(s: seq<T>)
    ensures IsSubsequence(s, s)
  {
    if s != [] {
      SubsequenceReflexive(s[1..]);
    }
  }

  /** `Array.prototype.filter`: the elements of `s` that satisfy `keep`, in order; each passing
      element is kept as often as it occurs, each failing one dropped. */
  function Filter<T(==,!new)>(s: seq<T>, keep: T -> bool): (r: seq<T>)
    ensures |r| <= |s|
    ensures forall x :: x in r <==> x in s && keep(x)
    ensures forall x :: multiset(r)[x] == if keep(x) then multiset(s)[x] else 0
    ensures forall k :: 0 <= k < |r| ==> keep(r[k])
    ensures IsSubsequence(r, s)
  {
    if s == [] then []
    else
      assert s == [s[0]] + s[1..];
      var rest := Filter(s[1..], keep);
      if keep(s[0]) then
        assert multiset([s[0]] + rest) == multiset{s[0]} + multiset(rest);
        [s[0]] + rest
      else rest
  }

  /** A filter whose test rejects every element of `s` yields the empty list. */
  lemma FilterNoneKept<T(!new)>(s: seq<T>, keep: T -> bool)
    requires forall k :: 0 <= k < |s| ==> !keep(s[k])
    ensures Filter(s, keep) == []
  {
  }

  /** A filter whose test accepts every element of `s` yields `s` itself. */
  lemma {:induction false} FilterAllKept<T(!new)>(s: seq<T>, keep: T -> bool)
    requires forall k :: 0 <= k < |s| ==> keep(s[k])
    ensures Filter(s, keep) == s
  {
    if s != [] {
      assert keep(s[0]);
      FilterAllKept(s[1..], keep);
      assert [s[0]] + s[1..] == s;
    }
  }

  /** Filtering a table extended at the end is filtering the old table, plus the new item if it passes. */
  lemma {:induction false} FilterAppend<T(!new)>(s: seq<T>, x: T, keep: T -> bool)
    ensures Filter(s + [x], keep) == Filter(s, keep) + (if keep(x) then [x] else [])
  {
    if s == [] {
      assert [] + [x] == [x];
      assert [x][1..] == [];
    } else {
      assert (s + [x])[0] == s[0];
      assert (s + [x])[1..] == s[1..] + [x];
      FilterAppend(s[1..], x, keep);
    }
  }

  /** `Array.prototype.findIndex` by business id: the first index holding `id`, or -1 when none does. */
  function FindIndex(table: seq<Business>, id: string): (i: int)
    ensures -1 <= i < |table|
    ensures i == -1 <==> forall k :: 0 <= k < |table| ==> table[k].id != id
    ensures i >= 0 ==> table[i].id == id && forall k :: 0 <= k < i ==> table[k].id != id
  {
    if table == [] then -1
    else if table[0].id == id then 0
    else
      var j := FindIndex(table[1..], id);
      if j == -1 then -1 else j + 1
  }

  /** The fields a caller supplies to create an event: everything but the id and the interest count. */
  datatype NewEvent = NewEvent(
    title: string,
    description: string,
    location: GeoLocation,
    startTime: string,
    endTime: Option<string>,
    isPublic: bool,
    creator: string)

  /** The fields a caller supplies to create a business: everything but the id. */
  datatype NewBusiness = NewBusiness(
    name: string,
    address: string,
    location: GeoLocation,
    category: string,
    description: Option<string>,
    currentPromotion: Option<Promotion>,
    owner: string)

  const BusinessNotFound := "Business not found"

  /** The two businesses the store starts with; the promotion's expiry date is computed from the clock. */
  function SeedBusinesses(promotionExpiry: string): (t: seq<Business>)
    ensures |t| == 2 && t[0].id == "biz1" && t[1].id == "biz2"
  {
    [ Business("biz1", "Cool Cafe", "123 Main St, Anytown, USA", Point((-122.4194, 37.7749)), "Cafe",
               Some("The best coffee in town."),
               Some(Promotion("20% off Lattes", "Valid Mon-Fri, 8-10 AM", Some(promotionExpiry))),
               "owner1"),
      Business("biz2", "Tech Hub", "456 Tech Rd, Anytown, USA", Point((-122.4250, 37.7755)), "Electronics",
               Some("Latest gadgets and tech support."), None, "owner2") ]
  }

  /** The two events the store starts with; their dates are computed from the clock. */
  function SeedEvents(musicStart: string, musicEnd: string, marketStart: string): (t: seq<Event>)
    ensures |t| == 2 && t[0].id == "evt1" && t[1].id == "evt2"
  {
    [ Event("evt1", "Live Music Night", "Join us for an evening of great music and fun.",
            Point((-122.4180, 37.7780)), musicStart, Some(musicEnd), true, "user1", 25),
      Event("evt2", "Farmers Market", "Fresh produce and local goods.",
            Point((-122.4220, 37.7720)), marketStart, None, true, "user2", 120) ]
  }

  /** The seed table holds the business that promotion updates target, at its first position. */
  lemma SeedHoldsBiz1(promotionExpiry: string)
    ensures FindIndex(SeedBusinesses(promotionExpiry), "biz1") == 0
  {
  }

  /** The module-level tables `mockBusinesses` and `mockEvents`, and the operations over them. */
  class MockStore {
    var businesses: seq<Business>
    var events: seq<Event>

    /** The store as the module initialises it; clock-derived dates are parameters. */
    constructor (promotionExpiry: string, musicStart: string, musicEnd: string, marketStart: string)
      ensures businesses == SeedBusinesses(promotionExpiry)
      ensures events == SeedEvents(musicStart, musicEnd, marketStart)
    {
      businesses := SeedBusinesses(promotionExpiry);
      events := SeedEvents(musicStart, musicEnd, marketStart);
    }

    /** `fetchBusinessesInView`: the whole table without bounds, else the businesses inside them. */
    function FetchBusinessesInView(bounds: Option<Bounds>): (r: seq<Business>)
      reads this
      ensures bounds.None? ==> r == businesses
      ensures bounds.Some? ==> forall b :: b in r <==> b in businesses && Within(b.location, bounds.value)
      ensures bounds.Some? ==>
                forall b :: multiset(r)[b] == if Within(b.location, bounds.value) then multiset(businesses)[b] else 0
      ensures bounds.Some? && Inverted(bounds.value) ==> r == []
      ensures IsSubsequence(r, businesses)
    {
      if bounds.None? then
        SubsequenceReflexive(businesses);
        businesses
      else
        var keep := (b: Business) => Within(b.location, bounds.value);
        if Inverted(bounds.value) then
          FilterNoneKept(businesses, keep);
          Filter(businesses, keep)
        else Filter(businesses, keep)
    }

    /** `fetchEventsInView`: the whole table without bounds, else the events inside them. */
    function FetchEventsInView(bounds: Option<Bounds>): (r: seq<Event>)
      reads this
      ensures bounds.None? ==> r == events
      ensures bounds.Some? ==> forall e :: e in r <==> e in events && Within(e.location, bounds.value)
      ensures bounds.Some? ==>
                forall e :: multiset(r)[e] == if Within(e.location, bounds.value) then multiset(events)[e] else 0
      ensures bounds.Some? && Inverted(bounds.value) ==> r == []
      ensures IsSubsequence(r, events)
    {
      if bounds.None? then
        SubsequenceReflexive(events);
        events
      else
        var keep := (e: Event) => Within(e.location, bounds.value);
        if Inverted(bounds.value) then
          FilterNoneKept(events, keep);
          Filter(events, keep)
        else Filter(events, keep)
    }

    /** `createNewEvent`: appends the event with id "evt" + stamp and no interest, and returns it. */
    method CreateNewEvent(data: NewEvent, stamp: string) returns (created: Event)
      modifies this
      ensures created == Event("evt" + stamp, data.title, data.description, data.location,
                               data.startTime, data.endTime, data.isPublic, data.creator, 0)
      ensures events == old(events) + [created]
      ensures businesses == old(businesses)
    {
      created := Event("evt" + stamp, data.title, data.description, data.location,
                       data.startTime, data.endTime, data.isPublic, data.creator, 0);
      events := events + [created];
    }

    /** `createNewBusiness`: appends the business with id "biz" + stamp, and returns it. */
    method CreateNewBusiness(data: NewBusiness, stamp: string) returns (created: Business)
      modifies this
      ensures created == Business("biz" + stamp, data.name, data.address, data.location, data.category,
                                  data.description, data.currentPromotion, data.owner)
      ensures businesses == old(businesses) + [created]
      ensures events == old(events)
    {
      created := Business("biz" + stamp, data.name, data.address, data.location, data.category,
                          data.description, data.currentPromotion, data.owner);
      businesses := businesses + [created];
    }

    /** `updatePromotion`: replaces the promotion of the first business with that id and returns it;
        fails with "Business not found", changing nothing, when no business has the id. */
    method UpdatePromotion(businessId: string, promotion: Option<Promotion>) returns (r: Result<Business, string>)
      modifies this
      ensures events == old(events)
      ensures (forall k :: 0 <= k < |old(businesses)| ==> old(businesses)[k].id != businessId) ==>
                r == Failure(BusinessNotFound) && businesses == old(businesses)
      ensures r.Success? ==>
                var i := FindIndex(old(businesses), businessId);
                && 0 <= i
                && |businesses| == |old(businesses)|
                && businesses[i] == old(businesses)[i].(currentPromotion := promotion)
                && (forall k :: 0 <= k < |businesses| && k != i ==> businesses[k] == old(businesses)[k])
                && r.value == businesses[i]
      ensures (exists k :: 0 <= k < |old(businesses)| && old(businesses)[k].id == businessId) ==> r.Success?
    {
      var i := FindIndex(businesses, businessId);
      if i == -1 {
        r := Failure(BusinessNotFound);
        return;
      }
      businesses := businesses[i := businesses[i].(currentPromotion := promotion)];
      r := Success(businesses[i]);
    }
  }
}
