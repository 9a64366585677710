/**
 * Values shared by the flight table (index.php) and the departure store (server.py):
 * optional values, results with an error side, and ASCII upper-casing of callsigns.
 */
module Common {

  /** A field that may be absent: a missing key, or in the flight table a JSON null, which `isset` and `??` treat alike. */
  datatype Option<T> = None | Some(value: T) {
    /** The value, or `default` when absent (PHP `??`, Python `dict.get(k, default)`). */
    function GetOr(default: T): T {
      match this
      case Some(v) => v
      case None => default
    }
  }

  /** The outcome of a request that can be refused. */
  datatype Result<T, E> = Ok(value: T) | Err(error: E)

  predicate IsLowerAscii(c: char) {
    'a' <= c <= 'z'
  }

  /** Upper-cases one character: only the ASCII letters a-z are changed. */
  function UpperChar(c: char): (u: char)
    ensures !IsLowerAscii(u)
    ensures IsLowerAscii(c) ==> u as int == c as int - 32
    ensures !IsLowerAscii(c) ==> u == c
  {
    if IsLowerAscii(c) then (c as int - 32) as char else c
  }

  /** `strtoupper` / `str.upper` on the ASCII range: the string upper-cased letter by letter. */
  function Upper(s: string): (r: string)
    ensures |r| == |s|
    ensures forall i :: 0 <= i < |s| ==> r[i] == UpperChar(s[i])
  {
    if s == [] then [] else [UpperChar(s[0])] + Upper(s[1..])
  }

  /** Upper-casing twice is upper-casing once: an upper-cased key is its own key. */
  lemma UpperIdempotent(s: string)
    ensures Upper(Upper(s)) == Upper(s)
  {
  }

  /** A string that upper-casing changes is never the upper-cased form of anything. */
  lemma NotUpperIsNoKey(c: string, q: string)
    requires Upper(c) != c
    ensures Upper(q) != c
  {
  }
}
