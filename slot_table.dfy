/**
 * The flight table behind the pilot panel (index.php, lines 111-189).
 *
 * The table is the list of rows last pushed by Euroscope. A pilot may set a manual
 * TOBT (target off-block time) on the row of their callsign; a later Euroscope push
 * replaces the table but carries every manual TOBT over to the row with the same
 * callsign. The panel fetches one row by callsign and shows its TOBT, TSAT and CTOT.
 */
module SlotTable {
  import opened Common

  /** One row of the table; every field may be absent from the JSON object. */
  datatype Flight = Flight(
    callsign: Option<string>,
    manualTobt: Option<string>,
    eobt: Option<string>,
    tsat: Option<string>,
    ctot: Option<string>)

  /** The placeholder the fetch reply uses for a time that is not known. */
  const NoTime: string := "----"

  /** The key a request is matched by: the upper-cased callsign, "" when it is absent. */
  function Key(callsign: Option<string>): string {
    Upper(callsign.GetOr(""))
  }

  /** A row is matched by strict comparison of its callsign with the key. */
  predicate Holds(f: Flight, key: string) {
    f.callsign == Some(key)
  }

  /** Row `i` is the first row of `rows` whose callsign is `key`. */
  predicate FirstMatch(rows: seq<Flight>, key: string, i: int) {
    0 <= i < |rows| && Holds(rows[i], key) && forall j :: 0 <= j < i ==> !Holds(rows[j], key)
  }

  /** The index a `foreach … break` search over the rows stops at, if any. */
  function MatchIndex(rows: seq<Flight>, key: string): (r: Option<nat>)
    ensures r.Some? ==> FirstMatch(rows, key, r.value)
    ensures r.None? <==> forall j :: 0 <= j < |rows| ==> !Holds(rows[j], key)
  {
    if rows == [] then None
    else if Holds(rows[0], key) then Some(0)
    else match MatchIndex(rows[1..], key) {
      case None => None
      case Some(k) => Some(k + 1)
    }
  }

  /** A pushed flight as it is stored: with the manual TOBT of the stored row of its callsign. */
  function Merged(stored: seq<Flight>, pushed: Flight): Flight {
    match MatchIndex(stored, Key(pushed.callsign))
    case Some(i) =>
      if stored[i].manualTobt.Some? then pushed.(manualTobt := stored[i].manualTobt) else pushed
    case None => pushed
  }

  /** The table after a Euroscope push: the pushed flights, in push order, and nothing else. */
  function Merge(stored: seq<Flight>, push: seq<Flight>): (r: seq<Flight>)
    ensures |r| == |push|
    ensures forall i :: 0 <= i < |push| ==> r[i] == push[i].(manualTobt := r[i].manualTobt)
  {
    seq(|push|, i requires 0 <= i < |push| => Merged(stored, push[i]))
  }

  /** A push carries over the manual TOBT of the first stored row with the pushed callsign. */
  lemma SyncCarriesTobt(stored: seq<Flight>, push: seq<Flight>, i: nat, j: nat)
    requires i < |push|
    requires FirstMatch(stored, Key(push[i].callsign), j)
    ensures Merge(stored, push)[i].manualTobt ==
            if stored[j].manualTobt.Some? then stored[j].manualTobt else push[i].manualTobt
  {
  }

  /** A pushed flight no stored row matches is stored exactly as pushed, callsign included. */
  lemma SyncKeepsUnmatched(stored: seq<Flight>, push: seq<Flight>, i: nat)
    requires i < |push|
    requires forall j :: 0 <= j < |stored| ==> !Holds(stored[j], Key(push[i].callsign))
    ensures Merge(stored, push)[i] == push[i]
  {
  }

  /** The table after a pilot sets the TOBT of `callsign`, or None ("Flight not found"). */
  function TobtUpdate(rows: seq<Flight>, callsign: Option<string>, tobt: Option<string>): (r: Option<seq<Flight>>)
    ensures r.None? <==> forall j :: 0 <= j < |rows| ==> !Holds(rows[j], Key(callsign))
    ensures r.Some? ==> |r.value| == |rows|
    ensures r.Some? ==>
      (exists i :: FirstMatch(rows, Key(callsign), i) &&
         r.value[i] == rows[i].(manualTobt := tobt) &&
         forall j :: 0 <= j < |rows| && j != i ==> r.value[j] == rows[j])
  {
    match MatchIndex(rows, Key(callsign))
    case None => None
    case Some(i) => Some(rows[i := rows[i].(manualTobt := tobt)])
  }

  /** Searching depends on the callsigns only: rows that agree on them are searched alike. */
  lemma MatchIndexByCallsigns(a: seq<Flight>, b: seq<Flight>, key: string)
    requires |a| == |b|
    requires forall j :: 0 <= j < |a| ==> a[j].callsign == b[j].callsign
    ensures MatchIndex(a, key) == MatchIndex(b, key)
  {
  }

  /** The reply to a fetch: found, or not. */
  datatype FetchReply = NotFound | Found(callsign: string, tobt: string, tsat: string, ctot: string)

  /** The TOBT shown for a row: the pilot's manual TOBT, else the EOBT, else "----". */
  function DisplayTobt(f: Flight): string {
    if f.manualTobt.Some? then f.manualTobt.value else f.eobt.GetOr(NoTime)
  }

  /** The reply to `fetch_api` for the requested callsign. */
  function Lookup(rows: seq<Flight>, requested: string): (r: FetchReply)
    ensures r.NotFound? <==> forall j :: 0 <= j < |rows| ==> !Holds(rows[j], Upper(requested))
    ensures r.Found? ==>
      (exists i :: FirstMatch(rows, Upper(requested), i) &&
         r == Found(Upper(requested), DisplayTobt(rows[i]), rows[i].tsat.GetOr(NoTime), rows[i].ctot.GetOr(NoTime)))
  {
    match MatchIndex(rows, Upper(requested))
    case None => NotFound
    case Some(i) =>
      var f := rows[i];
      Found(f.callsign.value, DisplayTobt(f), f.tsat.GetOr(NoTime), f.ctot.GetOr(NoTime))
  }

  /** After a pilot sets a TOBT, fetching that callsign shows it. */
  lemma UpdateThenFetch(rows: seq<Flight>, callsign: string, tobt: string)
    requires TobtUpdate(rows, Some(callsign), Some(tobt)).Some?
    ensures Lookup(TobtUpdate(rows, Some(callsign), Some(tobt)).value, callsign).Found?
    ensures Lookup(TobtUpdate(rows, Some(callsign), Some(tobt)).value, callsign).tobt == tobt
  {
  }

  /** A TOBT a pilot set survives the next Euroscope push of the same callsign. */
  lemma UpdateSurvivesSync(rows: seq<Flight>, callsign: string, tobt: string,
                              push: seq<Flight>, k: nat)
    requires TobtUpdate(rows, Some(callsign), Some(tobt)).Some?
    requires k < |push| && Key(push[k].callsign) == Upper(callsign)
    ensures Merge(TobtUpdate(rows, Some(callsign), Some(tobt)).value, push)[k].manualTobt == Some(tobt)
  {
  }

  /**
   * End to end: when the push lists the pilot's callsign upper-cased, the pilot still
   * reads back their own TOBT after the push.
   */
  lemma {:induction false} TobtReadBackAfterSync(rows: seq<Flight>, callsign: string, tobt: string,
                                                 push: seq<Flight>, k: nat)
    requires TobtUpdate(rows, Some(callsign), Some(tobt)).Some?
    requires FirstMatch(push, Upper(callsign), k)
    ensures Lookup(Merge(TobtUpdate(rows, Some(callsign), Some(tobt)).value, push), callsign) ==
            Found(Upper(callsign), tobt, push[k].tsat.GetOr(NoTime), push[k].ctot.GetOr(NoTime))
  {
    var key := Upper(callsign);
    var updated := TobtUpdate(rows, Some(callsign), Some(tobt)).value;
    var merged := Merge(updated, push);
    UpperIdempotent(callsign);
    UpdateSurvivesSync(rows, callsign, tobt, push, k);
    MatchIndexByCallsigns(push, merged, key);
    assert FirstMatch(merged, key, k);
  }

  /**
   * A pushed row whose callsign is not upper-case keeps that callsign, and no fetch can
   * ever reach it: every request is upper-cased before it is compared.
   */
  lemma LowerCaseRowUnreachable(stored: seq<Flight>, push: seq<Flight>, k: nat, requested: string)
    requires k < |push| && push[k].callsign.Some?
    requires Upper(push[k].callsign.value) != push[k].callsign.value
    ensures Merge(stored, push)[k].callsign == push[k].callsign
    ensures !Holds(Merge(stored, push)[k], Upper(requested))
  {
  }

  /** What a POST body holds: a Euroscope list of flights, or an object with named fields. */
  datatype PostBody =
    | FlightList(flights: seq<Flight>)
    | Fields(action: Option<string>, callsign: Option<string>, tobt: Option<string>)

  /** The JSON status a POST answers with. */
  datatype PostReply = Synced | Success | Error(message: string)

  /** The contents of flights.json, held in memory. */
  class FlightTable {
    var rows: seq<Flight>

    constructor ()
      ensures rows == []
    {
      rows := [];
    }

    /** The index of the first row whose callsign is `key`. */
    method Find(key: string) returns (r: Option<nat>)
      ensures r == MatchIndex(rows, key)
    {
      var i := 0;
      while i < |rows|
        invariant 0 <= i <= |rows|
        invariant forall j :: 0 <= j < i ==> !Holds(rows[j], key)
      {
        if rows[i].callsign == Some(key) {
          return Some(i);
        }
        i := i + 1;
      }
      return None;
    }

    /** Euroscope push: builds the merged table flight by flight, then stores it. */
    method Sync(push: seq<Flight>)
      modifies this
      ensures rows == Merge(old(rows), push)
    {
      var merged := [];
      var i := 0;
      while i < |push|
        invariant 0 <= i <= |push|
        invariant rows == old(rows)
        invariant merged == Merge(rows, push[..i])
      {
        var flight := push[i];
        var existing := Find(Key(flight.callsign));
        if existing.Some? && rows[existing.value].manualTobt.Some? {
          flight := flight.(manualTobt := rows[existing.value].manualTobt);
        }
        assert push[..i + 1] == push[..i] + [push[i]];
        merged := merged + [flight];
        i := i + 1;
      }
      assert push[..i] == push;
      rows := merged;
    }

    /** Pilot TOBT update: sets the manual TOBT of the first matching row, in place. */
    method UpdateTobt(callsign: Option<string>, tobt: Option<string>) returns (reply: PostReply)
      modifies this
      ensures TobtUpdate(old(rows), callsign, tobt).Some? ==>
                reply == Success && rows == TobtUpdate(old(rows), callsign, tobt).value
      ensures TobtUpdate(old(rows), callsign, tobt).None? ==>
                reply == Error("Flight not found") && rows == old(rows)
    {
      var target := Key(callsign);
      var all := rows;
      var found := false;
      var i := 0;
      while i < |all|
        invariant 0 <= i <= |all|
        invariant all == rows
        invariant forall j :: 0 <= j < i ==> !Holds(all[j], target)
      {
        if all[i].callsign == Some(target) {
          all := all[i := all[i].(manualTobt := tobt)];
          found := true;
          assert MatchIndex(rows, target) == Some(i);
          break;
        }
        i := i + 1;
      }
      if found {
        rows := all;
        reply := Success;
      } else {
        reply := Error("Flight not found");
      }
    }

    /** The POST entry point: a non-empty list is a sync, `update_tobt` an update. */
    method Post(body: PostBody) returns (reply: Option<PostReply>)
      modifies this
      ensures body.FlightList? && |body.flights| > 0 ==>
                reply == Some(Synced) && rows == Merge(old(rows), body.flights)
      ensures body.Fields? && body.action == Some("update_tobt") ==>
                var next := TobtUpdate(old(rows), body.callsign, body.tobt);
                reply == Some(if next.Some? then Success else Error("Flight not found")) &&
                rows == next.GetOr(old(rows))
      ensures (body.FlightList? && |body.flights| == 0) ||
              (body.Fields? && body.action != Some("update_tobt")) ==>
                reply == None && rows == old(rows)
    {
      match body
      case FlightList(flights) =>
        if |flights| > 0 {
          Sync(flights);
          reply := Some(Synced);
        } else {
          reply := None;
        }
      case Fields(action, callsign, tobt) =>
        if action == Some("update_tobt") {
          var r := UpdateTobt(callsign, tobt);
          reply := Some(r);
        } else {
          reply := None;
        }
    }

    /** The `fetch_api` GET: the reply for the requested callsign. Changes nothing. */
    method Fetch(requested: string) returns (reply: FetchReply)
      ensures reply == Lookup(rows, requested)
    {
      var i := Find(Upper(requested));
      if i.None? {
        reply := NotFound;
      } else {
        var f := rows[i.value];
        reply := Found(f.callsign.value, DisplayTobt(f), f.tsat.GetOr(NoTime), f.ctot.GetOr(NoTime));
      }
    }
  }
}
