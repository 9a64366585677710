/**
 * The CID-to-callsign search of the login callback (index.php, lines 74-85): after
 * VATSIM sign-in the panel looks the user's CID up among the pilots of the live
 * network feed and opens the panel on the callsign it finds.
 */
module PilotLogin {
  import opened Common

  /** A pilot entry of the live feed, reduced to the two keys the search reads. */
  datatype Pilot = Pilot(cid: int, callsign: string)

  /** The callsign of the first pilot whose CID is `cid`, or None when no pilot has it. */
  function CallsignForCid(pilots: seq<Pilot>, cid: int): (r: Option<string>)
    ensures r.None? <==> forall j :: 0 <= j < |pilots| ==> pilots[j].cid != cid
    ensures r.Some? ==>
      (exists i :: 0 <= i < |pilots| && pilots[i].cid == cid && r.value == pilots[i].callsign &&
         forall j :: 0 <= j < i ==> pilots[j].cid != cid)
  {
    if pilots == [] then None
    else if pilots[0].cid == cid then Some(pilots[0].callsign)
    else
      CallsignForCid(pilots[1..], cid)
  }

  /** Pilots ahead of the first one with the CID decide the answer; those after it do not. */
  lemma {:induction false} LaterPilotsIgnored(pilots: seq<Pilot>, more: seq<Pilot>, cid: int)
    requires CallsignForCid(pilots, cid).Some?
    ensures CallsignForCid(pilots + more, cid) == CallsignForCid(pilots, cid)
  {
    if pilots[0].cid != cid {
      assert (pilots + more)[1..] == pilots[1..] + more;
      LaterPilotsIgnored(pilots[1..], more, cid);
    }
  }
}
