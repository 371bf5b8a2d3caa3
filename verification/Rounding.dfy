/** `round` as Python computes it on exact numbers. */
module Rounding {
  function Abs(x: real): real {
    if x < 0.0 then -x else x
  }

  /** To the nearest integer, halves to the even one. */
  function Round(x: real): (n: int)
    ensures Abs(x - n as real) <= 0.5
    ensures Abs(x - n as real) == 0.5 ==> n % 2 == 0
  {
    var down := x.Floor;
    var rest := x - down as real;
    if rest < 0.5 || (rest == 0.5 && down % 2 == 0) then down else down + 1
  }
}
