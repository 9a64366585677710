/**
 * The manual departure store of the Flask service (server.py): pilots file a
 * callsign with a departure time, anyone lists the filings with a countdown, and an
 * authenticated ATC operator deletes them.
 *
 * Times are whole seconds. Parsing an ISO-8601 text is a function the store is
 * given (`parse`): it yields the instant, and whether the text carried a UTC offset.
 */
module Departures {
  import opened Common

  /** A parsed departure time: seconds, and whether the text had a UTC offset (an aware datetime). */
  datatype Instant = Instant(seconds: int, hasOffset: bool)

  /** One filing, as stored. */
  datatype Departure = Departure(id: int, callsign: string, departureTime: string, filedAt: string)

  /** One entry of the listing. */
  datatype DepartureView = DepartureView(id: int, callsign: string, departureTime: string,
                                         timeRemaining: int, filedAt: string)

  /**
   * Why a filing is refused, with HTTP status 400: `MissingField` carries the message
   * "Callsign and departure time are required", `InvalidDatetime` "Invalid datetime format".
   */
  datatype FilingError = MissingField | InvalidDatetime

  /** A listing fails on the first stored time that does not parse or cannot be compared with the naive clock. */
  datatype ListingError = UnparseableTime | NaiveAwareMismatch

  datatype DeleteReply = Deleted | Unauthorized

  // ---------------------------------------------------------------------------
  // Callsign normalisation: str.strip() then str.upper()

  /** The characters Python's `str.isspace` accepts, which `str.strip()` removes. */
  predicate IsSpace(c: char) {
    var n := c as int;
    (9 <= n <= 13) || (28 <= n <= 32) || n == 0x85 || n == 0xA0 || n == 0x1680 ||
    (0x2000 <= n <= 0x200A) || n == 0x2028 || n == 0x2029 || n == 0x202F || n == 0x205F || n == 0x3000
  }

  /** The number of whitespace characters `s` starts with. */
  function LeadingSpace(s: string): (n: nat)
    ensures n <= |s|
    ensures forall k :: 0 <= k < n ==> IsSpace(s[k])
    ensures n < |s| ==> !IsSpace(s[n])
  {
    if s == [] || !IsSpace(s[0]) then 0 else 1 + LeadingSpace(s[1..])
  }

  /** The number of whitespace characters `s` ends with. */
  function TrailingSpace(s: string): (n: nat)
    ensures n <= |s|
    ensures forall k :: |s| - n <= k < |s| ==> IsSpace(s[k])
    ensures n < |s| ==> !IsSpace(s[|s| - 1 - n])
  {
    if s == [] || !IsSpace(s[|s| - 1]) then 0 else 1 + TrailingSpace(s[..|s| - 1])
  }

  /** `str.strip()`: `s` without its leading and trailing whitespace. */
  function Strip(s: string): (r: string)
    ensures r == [] <==> forall k :: 0 <= k < |s| ==> IsSpace(s[k])
    ensures r != [] ==> !IsSpace(r[0]) && !IsSpace(r[|r| - 1])
    ensures LeadingSpace(s) + |r| <= |s| && r == s[LeadingSpace(s)..LeadingSpace(s) + |r|]
    ensures forall k :: LeadingSpace(s) + |r| <= k < |s| ==> IsSpace(s[k])
  {
    var a := LeadingSpace(s);
    var t := s[a..];
    var r := t[..|t| - TrailingSpace(t)];
    assert r == s[a..a + |r|];
    r
  }

  /** `data.get('callsign', '').strip().upper()`. */
  function NormalizeCallsign(raw: Option<string>): (r: string)
    ensures r == "" <==> raw.None? || forall k :: 0 <= k < |raw.value| ==> IsSpace(raw.value[k])
    ensures forall k :: 0 <= k < |r| ==> !IsLowerAscii(r[k])
    ensures r != "" ==> !IsSpace(r[0]) && !IsSpace(r[|r| - 1])
    ensures raw.Some? ==> r == Upper(Strip(raw.value))
    ensures raw.Some? && Strip(raw.value) == raw.value ==> r == Upper(raw.value)
  {
    var t := Strip(raw.GetOr(""));
    if t == "" then Upper(t)
    else
      UpperKeepsSpace(t[0]);
      UpperKeepsSpace(t[|t| - 1]);
      Upper(t)
  }

  /** Upper-casing neither makes nor removes whitespace. */
  lemma UpperKeepsSpace(c: char)
    ensures IsSpace(UpperChar(c)) <==> IsSpace(c)
  {
  }

  /** Whitespace around a callsign makes no difference: stripping first files the same text. */
  lemma StripFirstIsSame(s: string)
    ensures NormalizeCallsign(Some(Strip(s))) == NormalizeCallsign(Some(s))
  {
  }

  /** A normalised callsign normalises to itself: filing a stored callsign again files the same text. */
  lemma NormalizeIdempotent(raw: Option<string>)
    ensures NormalizeCallsign(Some(NormalizeCallsign(raw))) == NormalizeCallsign(raw)
  {
  }

  // ---------------------------------------------------------------------------
  // Filing

  /** The record a filing appends to `ds`, or why it is refused. */
  function NewDeparture(ds: seq<Departure>, callsign: Option<string>, departureTime: Option<string>,
                        filedAt: string, parse: string -> Option<Instant>): (r: Result<Departure, FilingError>)
    ensures r == Err(MissingField) <==>
      NormalizeCallsign(callsign) == "" || departureTime.None? || departureTime == Some("")
    ensures r == Err(InvalidDatetime) <==>
      NormalizeCallsign(callsign) != "" && departureTime.Some? && departureTime.value != "" &&
      parse(departureTime.value).None?
    ensures r.Ok? ==> r.value.id == |ds| + 1 && r.value.callsign == NormalizeCallsign(callsign)
    ensures r.Ok? ==> Some(r.value.departureTime) == departureTime && parse(r.value.departureTime).Some?
    ensures r.Ok? ==> r.value.filedAt == filedAt
  {
    var cs := NormalizeCallsign(callsign);
    if cs == "" || departureTime.None? || departureTime.value == "" then Err(MissingField)
    else if parse(departureTime.value).None? then Err(InvalidDatetime)
    else Ok(Departure(|ds| + 1, cs, departureTime.value, filedAt))
  }

  /** Every stored departure time parses: the filing check guarantees it. */
  ghost predicate AllParse(ds: seq<Departure>, parse: string -> Option<Instant>) {
    forall d :: d in ds ==> parse(d.departureTime).Some?
  }

  /** Ids are 1, 2, 3, … in store order, as they are while nothing has been deleted. */
  ghost predicate DenseIds(ds: seq<Departure>) {
    forall i :: 0 <= i < |ds| ==> ds[i].id == i + 1
  }

  /** Filing keeps ids dense, and dense ids are pairwise distinct. */
  lemma FilingKeepsIdsDense(ds: seq<Departure>, callsign: Option<string>, departureTime: Option<string>,
                            filedAt: string, parse: string -> Option<Instant>)
    requires DenseIds(ds)
    requires NewDeparture(ds, callsign, departureTime, filedAt, parse).Ok?
    ensures DenseIds(ds + [NewDeparture(ds, callsign, departureTime, filedAt, parse).value])
    ensures forall i, j :: 0 <= i < j < |ds| ==> ds[i].id != ds[j].id
  {
  }

  // ---------------------------------------------------------------------------
  // Deletion

  /** `[d for d in ds if d['id'] != id]`. */
  function Without(ds: seq<Departure>, id: int): (r: seq<Departure>)
    ensures |r| <= |ds|
  {
    if ds == [] then []
    else (if ds[0].id == id then [] else [ds[0]]) + Without(ds[1..], id)
  }

  /** Deletion keeps exactly the records whose id differs. */
  lemma {:induction false} WithoutMembers(ds: seq<Departure>, id: int)
    ensures forall d :: d in Without(ds, id) <==> d in ds && d.id != id
  {
    if ds != [] {
      WithoutMembers(ds[1..], id);
      assert ds == [ds[0]] + ds[1..];
    }
  }

  /** Deletion keeps the survivors in their order: it distributes over concatenation. */
  lemma {:induction false} WithoutConcat(a: seq<Departure>, b: seq<Departure>, id: int)
    ensures Without(a + b, id) == Without(a, id) + Without(b, id)
  {
    if a != [] {
      assert (a + b)[1..] == a[1..] + b;
      WithoutConcat(a[1..], b, id);
    } else {
      assert a + b == b;
    }
  }

  /** Deleting an id no record has changes nothing. */
  lemma {:induction false} WithoutAbsent(ds: seq<Departure>, id: int)
    requires forall d :: d in ds ==> d.id != id
    ensures Without(ds, id) == ds
  {
    if ds != [] {
      assert forall d :: d in ds[1..] ==> d in ds;
      WithoutAbsent(ds[1..], id);
    }
  }

  /** Deleting twice is deleting once. */
  lemma WithoutIdempotent(ds: seq<Departure>, id: int)
    ensures Without(Without(ds, id), id) == Without(ds, id)
  {
    WithoutMembers(ds, id);
    WithoutAbsent(Without(ds, id), id);
  }

  /**
   * Ids come from the current length, so they are reused: with dense ids 1..n (n >= 2),
   * deleting id 1 and filing again hands out id n, which the last record still holds.
   */
  lemma {:induction false} IdReusedAfterDeletion(ds: seq<Departure>, callsign: Option<string>, departureTime: Option<string>,
                                                 filedAt: string, parse: string -> Option<Instant>)
    requires DenseIds(ds) && |ds| >= 2
    requires NewDeparture(Without(ds, 1), callsign, departureTime, filedAt, parse).Ok?
    ensures ds[|ds| - 1] in Without(ds, 1)
    ensures NewDeparture(Without(ds, 1), callsign, departureTime, filedAt, parse).value.id == ds[|ds| - 1].id
  {
    assert ds == [ds[0]] + ds[1..];
    WithoutConcat([ds[0]], ds[1..], 1);
    assert forall d :: d in ds[1..] ==> d.id != 1;
    WithoutAbsent(ds[1..], 1);
  }

  // ---------------------------------------------------------------------------
  // Listing

  /** `max(0, departure_time - now)`: seconds left, never negative. */
  function TimeRemaining(departureAt: int, now: int): (r: int)
    ensures r >= 0 && r >= departureAt - now
    ensures r == 0 || r == departureAt - now
    ensures r == 0 <==> departureAt <= now
  {
    if departureAt - now > 0 then departureAt - now else 0
  }

  /** Whether a stored time can be subtracted from the naive `datetime.now()`. */
  predicate Comparable(p: Option<Instant>) {
    p.Some? && !p.value.hasOffset
  }

  function ViewOf(d: Departure, now: int, parse: string -> Option<Instant>): DepartureView
    requires parse(d.departureTime).Some?
  {
    DepartureView(d.id, d.callsign, d.departureTime,
                  TimeRemaining(parse(d.departureTime).value.seconds, now), d.filedAt)
  }

  /** The reply of `GET /api/departures`: one view per record in store order, or the first failure. */
  function Listing(ds: seq<Departure>, now: int, parse: string -> Option<Instant>): (r: Result<seq<DepartureView>, ListingError>)
    ensures r.Ok? <==> forall i :: 0 <= i < |ds| ==> Comparable(parse(ds[i].departureTime))
    ensures r.Ok? ==> |r.value| == |ds|
    ensures r.Ok? ==> forall i :: 0 <= i < |ds| ==>
      r.value[i] == DepartureView(ds[i].id, ds[i].callsign, ds[i].departureTime,
                                  TimeRemaining(parse(ds[i].departureTime).value.seconds, now), ds[i].filedAt)
  {
    if ds == [] then Ok([])
    else if parse(ds[0].departureTime).None? then Err(UnparseableTime)
    else if parse(ds[0].departureTime).value.hasOffset then Err(NaiveAwareMismatch)
    else match Listing(ds[1..], now, parse) {
      case Err(e) => Err(e)
      case Ok(rest) => Ok([ViewOf(ds[0], now, parse)] + rest)
    }
  }

  /** `views` followed by the views of a listing, or that listing's failure. */
  function Prepend(views: seq<DepartureView>, res: Result<seq<DepartureView>, ListingError>): Result<seq<DepartureView>, ListingError> {
    match res
    case Err(e) => Err(e)
    case Ok(rest) => Ok(views + rest)
  }

  lemma PrependTwice(a: seq<DepartureView>, b: seq<DepartureView>, res: Result<seq<DepartureView>, ListingError>)
    ensures Prepend(a, Prepend(b, res)) == Prepend(a + b, res)
  {
    if res.Ok? {
      assert a + (b + res.value) == a + b + res.value;
    }
  }

  /** One step of the listing over the suffix of `ds` that starts at `i`. */
  lemma ListingSuffix(ds: seq<Departure>, i: nat, now: int, parse: string -> Option<Instant>)
    requires i < |ds|
    ensures Listing(ds[i..], now, parse) ==
      if parse(ds[i].departureTime).None? then Err(UnparseableTime)
      else if parse(ds[i].departureTime).value.hasOffset then Err(NaiveAwareMismatch)
      else Prepend([ViewOf(ds[i], now, parse)], Listing(ds[i + 1..], now, parse))
  {
    assert ds[i..][0] == ds[i] && ds[i..][1..] == ds[i + 1..];
  }

  /** A store whose times all parse never fails a listing for an unparseable time. */
  lemma {:induction false} StoredTimesParse(ds: seq<Departure>, now: int, parse: string -> Option<Instant>)
    requires AllParse(ds, parse)
    ensures Listing(ds, now, parse) != Err(UnparseableTime)
  {
    if ds != [] {
      assert ds[0] in ds;
      assert forall d :: d in ds[1..] ==> d in ds;
      StoredTimesParse(ds[1..], now, parse);
    }
  }

  /**
   * A filing whose time carries a UTC offset is accepted, and from then on every listing
   * fails: the offset-aware time cannot be subtracted from the naive clock.
   */
  lemma OffsetFilingBreaksListing(ds: seq<Departure>, callsign: Option<string>, t: string,
                                  filedAt: string, now: int, parse: string -> Option<Instant>)
    requires NormalizeCallsign(callsign) != "" && t != ""
    requires parse(t).Some? && parse(t).value.hasOffset
    ensures NewDeparture(ds, callsign, Some(t), filedAt, parse).Ok?
    ensures Listing(ds + [NewDeparture(ds, callsign, Some(t), filedAt, parse).value], now, parse).Err?
  {
    var ds' := ds + [NewDeparture(ds, callsign, Some(t), filedAt, parse).value];
    assert !Comparable(parse(ds'[|ds|].departureTime));
  }

  /** The module-level `departures` list with the operations of the three routes. */
  class DepartureStore {
    var departures: seq<Departure>
    const parse: string -> Option<Instant>

    ghost predicate Valid()
      reads this
    {
      AllParse(departures, parse)
    }

    constructor (parse: string -> Option<Instant>)
      ensures Valid() && departures == [] && this.parse == parse
    {
      departures := [];
      this.parse := parse;
    }

    /** `POST /api/departures`: validate, then append with id = length + 1. */
    method AddDeparture(callsign: Option<string>, departureTime: Option<string>, filedAt: string)
      returns (r: Result<Departure, FilingError>)
      requires Valid()
      modifies this
      ensures Valid()
      ensures r == NewDeparture(old(departures), callsign, departureTime, filedAt, parse)
      ensures departures == if r.Ok? then old(departures) + [r.value] else old(departures)
    {
      var cs := Upper(Strip(callsign.GetOr("")));
      if cs == "" || departureTime.None? || departureTime.value == "" {
        return Err(MissingField);
      }
      if parse(departureTime.value).None? {
        return Err(InvalidDatetime);
      }
      var d := Departure(|departures| + 1, cs, departureTime.value, filedAt);
      departures := departures + [d];
      r := Ok(d);
    }

    /** `DELETE /api/departures/<id>`: refused without the operator flag; else filters by id. */
    method DeleteDeparture(id: int, authenticated: bool) returns (reply: DeleteReply)
      requires Valid()
      modifies this
      ensures Valid()
      ensures reply == if authenticated then Deleted else Unauthorized
      ensures departures == if authenticated then Without(old(departures), id) else old(departures)
    {
      if !authenticated {
        return Unauthorized;
      }
      var ds := departures;
      var kept := [];
      var i := 0;
      assert ds[0..] == ds;
      while i < |ds|
        invariant 0 <= i <= |ds|
        invariant kept + Without(ds[i..], id) == Without(ds, id)
      {
        var rest := ds[i..];
        assert rest[0] == ds[i] && rest[1..] == ds[i + 1..];
        if ds[i].id != id {
          assert Without(rest, id) == [ds[i]] + Without(ds[i + 1..], id);
          assert kept + [ds[i]] + Without(ds[i + 1..], id) == kept + Without(rest, id);
          kept := kept + [ds[i]];
        } else {
          assert Without(rest, id) == Without(ds[i + 1..], id);
        }
        i := i + 1;
      }
      assert ds[i..] == [];
      assert kept + Without(ds[i..], id) == kept;
      WithoutMembers(ds, id);
      departures := kept;
      reply := Deleted;
    }

    /** `GET /api/departures` at time `now`: the listing. Changes nothing. */
    method GetDepartures(now: int) returns (r: Result<seq<DepartureView>, ListingError>)
      ensures r == Listing(departures, now, parse)
      ensures Valid() ==> r != Err(UnparseableTime)
    {
      if Valid() {
        StoredTimesParse(departures, now, parse);
      }
      var views := [];
      var i := 0;
      assert departures[0..] == departures;
      match Listing(departures, now, parse) {
        case Err(e) =>
        case Ok(all) => assert views + all == all;
      }
      while i < |departures|
        invariant 0 <= i <= |departures|
        invariant Listing(departures, now, parse) == Prepend(views, Listing(departures[i..], now, parse))
      {
        var d := departures[i];
        ListingSuffix(departures, i, now, parse);
        var p := parse(d.departureTime);
        if p.None? {
          return Err(UnparseableTime);
        }
        if p.value.hasOffset {
          return Err(NaiveAwareMismatch);
        }
        var v := DepartureView(d.id, d.callsign, d.departureTime, TimeRemaining(p.value.seconds, now), d.filedAt);
        assert v == ViewOf(d, now, parse);
        PrependTwice(views, [v], Listing(departures[i + 1..], now, parse));
        views := views + [v];
        i := i + 1;
      }
      assert departures[i..] == [];
      assert Listing(departures[i..], now, parse) == Ok([]);
      assert views + [] == views;
      r := Ok(views);
    }
  }
}
