/**
 * The two pure rules of the pilot panel's browser script (index.php, lines 410-437):
 * which times the panel shows for a fetch reply, and which TOBT entries it submits.
 */
module PilotPanel {
  import opened Common
  import opened SlotTable

  predicate IsDigit(c: char) {
    '0' <= c <= '9'
  }

  /** The decimal digit character for `d`. */
  function DigitChar(d: nat): char
    requires d < 10
  {
    ('0' as int + d) as char
  }

  /** `n` written with four decimal digits, leading zeros included. */
  function FourDigits(n: nat): string
    requires n < 10000
  {
    [DigitChar(n / 1000), DigitChar(n / 100 % 10), DigitChar(n / 10 % 10), DigitChar(n % 10)]
  }

  /** The value of a decimal digit character. */
  function DigitValue(c: char): nat
    requires IsDigit(c)
  {
    c as int - '0' as int
  }

  /**
   * The submit check `/^\d{4}$/`: exactly four ASCII decimal digits, nothing around them;
   * that is, the zero-padded text of some number 0..9999, and never a time the panel hides.
   */
  function IsHhmm(s: string): (ok: bool)
    ensures ok <==> exists n :: 0 <= n < 10000 && s == FourDigits(n)
    ensures ok ==> Shown(s)
  {
    if |s| == 4 && forall i :: 0 <= i < |s| ==> IsDigit(s[i]) then
      DigitsSpellNumber(s);
      true
    else
      DigitsAreHhmm(s);
      false
  }

  /** Four digits are the zero-padded text of the number they spell. */
  lemma DigitsSpellNumber(s: string)
    requires |s| == 4 && forall i :: 0 <= i < |s| ==> IsDigit(s[i])
    ensures exists n :: 0 <= n < 10000 && s == FourDigits(n)
  {
    var a, b, c, d := DigitValue(s[0]), DigitValue(s[1]), DigitValue(s[2]), DigitValue(s[3]);
    var n := 1000 * a + 100 * b + 10 * c + d;
    assert n / 1000 == a;
    assert n / 100 == 10 * a + b;
    assert n / 10 == 100 * a + 10 * b + c;
    assert n / 100 % 10 == b && n / 10 % 10 == c && n % 10 == d;
    assert DigitChar(a) == s[0] && DigitChar(b) == s[1] && DigitChar(c) == s[2] && DigitChar(d) == s[3];
    assert s == FourDigits(n);
  }

  /** Every character of a zero-padded number is a digit. */
  lemma DigitsAreHhmm(s: string)
    ensures (exists n :: 0 <= n < 10000 && s == FourDigits(n)) ==> |s| == 4 && forall i :: 0 <= i < |s| ==> IsDigit(s[i])
  {
  }

  /** The check is about the format only: it neither reads the clock nor bounds hours and minutes. */
  lemma HhmmIsFormatOnly()
    ensures IsHhmm("1430") && IsHhmm("9999")
    ensures !IsHhmm("930") && !IsHhmm("14:30") && !IsHhmm("14300") && !IsHhmm("----")
  {
  }

  /** A time reaches the panel only when it is a non-empty string other than "----". */
  predicate Shown(t: string) {
    t != "" && t != NoTime
  }

  /** What the panel shows for a reply. */
  datatype Panel =
    | NotFoundPanel
    | TsatPanel(callsign: string, tsat: string, ctot: Option<string>)
    | TobtPanel(callsign: string, tobt: string)

  /** TSAT (and CTOT when it too is shown) when a TSAT is shown; the TOBT otherwise. */
  function ChoosePanel(reply: FetchReply): (p: Panel)
    ensures p.NotFoundPanel? <==> reply.NotFound?
    ensures !p.NotFoundPanel? ==> p.callsign == reply.callsign
    ensures p.TsatPanel? <==> reply.Found? && Shown(reply.tsat)
    ensures p.TsatPanel? ==> p.tsat == reply.tsat && (p.ctot == if Shown(reply.ctot) then Some(reply.ctot) else None)
    ensures p.TobtPanel? ==> p.tobt == reply.tobt
    ensures p.TsatPanel? ==> p.ctot.Some? ==> Shown(p.ctot.value)
  {
    match reply
    case NotFound => NotFoundPanel
    case Found(callsign, tobt, tsat, ctot) =>
      if Shown(tsat) then TsatPanel(callsign, tsat, if Shown(ctot) then Some(ctot) else None)
      else TobtPanel(callsign, tobt)
  }

  /** The panel's inner HTML. */
  function PanelHtml(p: Panel): (html: string)
    ensures p.NotFoundPanel? ==> html == "FLIGHT PLAN<br>NOT FOUND"
    ensures !p.NotFoundPanel? ==>
      var head := "CS: " + p.callsign + "<br>"; |head| <= |html| && html[..|head|] == head
  {
    match p
    case NotFoundPanel => "FLIGHT PLAN<br>NOT FOUND"
    case TsatPanel(callsign, tsat, ctot) =>
      "CS: " + callsign + "<br>" + "TSAT: " + tsat + "<br>" + (if ctot.Some? then "CTOT: " + ctot.value else "")
    case TobtPanel(callsign, tobt) =>
      "CS: " + callsign + "<br>" + "TOBT: " + tobt
  }

  /**
   * The panel for a stored row: its TSAT when the row has one other than "" and "----",
   * with its CTOT under the same condition; otherwise its displayed TOBT.
   */
  lemma PanelForRow(rows: seq<Flight>, requested: string, i: nat)
    requires FirstMatch(rows, Upper(requested), i)
    ensures ChoosePanel(Lookup(rows, requested)) ==
      if rows[i].tsat.Some? && Shown(rows[i].tsat.value) then
        TsatPanel(Upper(requested), rows[i].tsat.value,
                  if rows[i].ctot.Some? && Shown(rows[i].ctot.value) then rows[i].ctot else None)
      else TobtPanel(Upper(requested), DisplayTobt(rows[i]))
  {
  }

  /** A callsign with no row gets the "not found" panel. */
  lemma PanelForMissingRow(rows: seq<Flight>, requested: string)
    requires forall j :: 0 <= j < |rows| ==> !Holds(rows[j], Upper(requested))
    ensures ChoosePanel(Lookup(rows, requested)) == NotFoundPanel
  {
  }

  /**
   * A pilot whose flight has no TSAT yet sees the TOBT they submitted, and a submitted
   * TOBT is never mistaken for the "----" placeholder.
   */
  lemma PilotSeesSubmittedTobt(rows: seq<Flight>, callsign: string, tobt: string, i: nat)
    requires IsHhmm(tobt)
    requires FirstMatch(rows, Upper(callsign), i)
    requires rows[i].tsat.None? || !Shown(rows[i].tsat.value)
    ensures TobtUpdate(rows, Some(callsign), Some(tobt)).Some?
    ensures ChoosePanel(Lookup(TobtUpdate(rows, Some(callsign), Some(tobt)).value, callsign)) ==
            TobtPanel(Upper(callsign), tobt)
    ensures Shown(tobt)
  {
  }
}
