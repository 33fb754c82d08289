/** The checks of `isValidIMAT` and `isValidWHATSAT`, and the split of a
    `<lat><lon>` coordinate into its two signed halves. */
module Validation {
  import opened Outcomes
  import opened Numbers

  predicate IsSign(c: char) {
    c == '+' || c == '-'
  }

  /** The first sign character of `s` at position `from` or later and
      before its last character. */
  function FindSign(s: string, from: nat): (r: Option<nat>)
    ensures r.Some? ==> from <= r.value < |s| - 1 && IsSign(s[r.value])
    ensures r.Some? ==> forall j :: from <= j < r.value ==> !IsSign(s[j])
    ensures r.None? ==> forall j :: from <= j < |s| - 1 ==> !IsSign(s[j])
    decreases |s| - from
  {
    if from + 1 >= |s| then None
    else if IsSign(s[from]) then Some(from)
    else FindSign(s, from + 1)
  }

  /** `s.replace('+', '-').index('-', 1, -1)`; `None` where `index`
      raises ValueError. */
  function SplitIndex(s: string): Option<nat>
  {
    FindSign(s, 1)
  }

  /** Latitude and longitude of a coordinate, as `isValidIMAT` computes them
      (server.py:161-163): any failure of the split or of `float` raises. */
  function Coordinates(num: Numerals, latLong: string): Outcome<(real, real)>
  {
    match SplitIndex(latLong)
    case None => Raises
    case Some(i) =>
      match (num.parseFloat(latLong[..i]), num.parseFloat(latLong[i..]))
      case (Some(lat), Some(lon)) => Returns((lat, lon))
      case _ => Raises
  }

  predicate InRange(lat: real, lon: real) {
    -90.0 <= lat <= 90.0 && -180.0 <= lon <= 180.0
  }

  /** `isValidIMAT(lat_long, time)`. The `is_number` calls on the two floats
      always hold and are left out. */
  function IsValidIamat(num: Numerals, latLong: string, time: string): Outcome<bool>
  {
    match Coordinates(num, latLong)
    case Raises => Raises
    case Returns((lat, lon)) => Returns(InRange(lat, lon) && IsNumber(num, time))
  }

  /** `not is_number(s) or int(s) > limit`, negated: `int` raises on a
      numeral that `float` accepts but `int` does not. */
  function AtMost(num: Numerals, s: string, limit: int): Outcome<bool>
  {
    if !IsNumber(num, s) then Returns(false)
    else match num.parseInt(s)
      case None => Raises
      case Some(v) => Returns(v <= limit)
  }

  /** `isValidWHATSAT(inputs)` for `[WHATSAT, id, radius, bound]`. */
  function IsValidWhatsat(num: Numerals, clients: map<string, string>, inputs: seq<string>): (r: Outcome<bool>)
    requires |inputs| == 4
    ensures r == Returns(true) ==> inputs[1] in clients
  {
    if inputs[1] !in clients then Returns(false)
    else match AtMost(num, inputs[2], 50)
      case Raises => Raises
      case Returns(false) => Returns(false)
      case Returns(true) => AtMost(num, inputs[3], 20)
  }

  /** A signed numeral whose digits carry no further sign, as the server's
      clients format each half of a coordinate. */
  predicate IsSignedHalf(h: string) {
    |h| >= 2 && IsSign(h[0]) && forall j :: 1 <= j < |h| ==> !IsSign(h[j])
  }

  /** The split finds the boundary between two signed halves. */
  lemma {:induction false} SplitIndexOfPair(lat: string, lon: string)
    requires IsSignedHalf(lat) && IsSignedHalf(lon)
    ensures SplitIndex(lat + lon) == Some(|lat|)
  {
    var s := lat + lon;
    assert forall j :: 1 <= j < |lat| ==> s[j] == lat[j];
    assert s[|lat|] == lon[0];
    FindSignSkips(s, 1, |lat|);
  }

  lemma {:induction false} FindSignSkips(s: string, from: nat, i: nat)
    requires from <= i < |s| - 1 && IsSign(s[i])
    requires forall j :: from <= j < i ==> !IsSign(s[j])
    ensures FindSign(s, from) == Some(i)
    decreases i - from
  {
    if from < i {
      FindSignSkips(s, from + 1, i);
    }
  }

  /** Splitting the concatenation of two signed halves gives back the halves
      (the coordinate split is a left inverse of writing `lat` then `lon`). */
  lemma CoordinatesOfPair(num: Numerals, lat: string, lon: string)
    requires IsSignedHalf(lat) && IsSignedHalf(lon)
    ensures Coordinates(num, lat + lon) ==
      match (num.parseFloat(lat), num.parseFloat(lon))
      case (Some(a), Some(b)) => Returns((a, b))
      case _ => Raises
  {
    SplitIndexOfPair(lat, lon);
    assert (lat + lon)[..|lat|] == lat;
    assert (lat + lon)[|lat|..] == lon;
  }

  /** A registration coordinate written as two signed halves is accepted
      exactly when both halves are numbers in range and the time is a number;
      it raises exactly when a half is not a number. */
  lemma ValidIamatOfPair(num: Numerals, lat: string, lon: string, time: string, a: real, b: real)
    requires IsSignedHalf(lat) && IsSignedHalf(lon)
    requires num.parseFloat(lat) == Some(a) && num.parseFloat(lon) == Some(b)
    ensures IsValidIamat(num, lat + lon, time) == Returns(InRange(a, b) && IsNumber(num, time))
  {
    CoordinatesOfPair(num, lat, lon);
  }

  /** A coordinate with no sign after its first character and before its
      last one makes `isValidIMAT` raise, whatever the numbers. */
  lemma UnsplittableRaises(num: Numerals, latLong: string, time: string)
    requires forall j :: 1 <= j < |latLong| - 1 ==> !IsSign(latLong[j])
    ensures IsValidIamat(num, latLong, time) == Raises
  {
  }

  /** `isValidWHATSAT` accepts exactly a known client, a radius that is a
      number and an integer at most 50, and a bound that is a number and an
      integer at most 20. */
  lemma WhatsatAccepts(num: Numerals, clients: map<string, string>, inputs: seq<string>)
    requires |inputs| == 4
    ensures IsValidWhatsat(num, clients, inputs) == Returns(true) <==>
      && inputs[1] in clients
      && IsNumber(num, inputs[2]) && num.parseInt(inputs[2]).Some? && num.parseInt(inputs[2]).value <= 50
      && IsNumber(num, inputs[3]) && num.parseInt(inputs[3]).Some? && num.parseInt(inputs[3]).value <= 20
  {
  }

  /** A radius above 50 or, once the radius check has passed, a bound above
      20 is rejected (never accepted); only a radius for which `int` raises
      can turn that rejection into a crash. */
  lemma WhatsatLimits(num: Numerals, clients: map<string, string>, inputs: seq<string>)
    requires |inputs| == 4
    ensures (num.parseInt(inputs[2]).Some? && num.parseInt(inputs[2]).value > 50) ==>
      IsValidWhatsat(num, clients, inputs) == Returns(false)
    ensures (num.parseInt(inputs[3]).Some? && num.parseInt(inputs[3]).value > 20) ==>
      (IsValidWhatsat(num, clients, inputs) == Returns(false) ||
       (IsValidWhatsat(num, clients, inputs) == Raises &&
        IsNumber(num, inputs[2]) && num.parseInt(inputs[2]).None?))
  {
  }
}
