/**
 * The Foundation values the app works with. A `Date` is a day number: the
 * calendar arithmetic of the platform is abstracted to whole days, so the
 * day difference from one date to another is their plain subtraction. A
 * `UUID` is an integer; the generator `UUID()` is replaced by fresh
 * identifiers handed in by the caller.
 */
module Foundation {

  type Date = int

  type Uuid = int

  function Abs(x: int): (r: nat)
    ensures r == x || r == -x
  {
    if x < 0 then -x else x
  }

  function Min(a: int, b: int): (r: int)
    ensures r <= a && r <= b
    ensures r == a || r == b
  {
    if a < b then a else b
  }
}
