/** Decimal text: `str(n)` and the ASCII part of what `int(text)` reads. */
module Numerals {
  import opened Results

  function Digit(d: nat): (c: char)
    requires d < 10
    ensures '0' <= c <= '9'
  {
    ('0' as int + d) as char
  }

  function Show(n: nat): (s: string)
    ensures s != ""
  {
    if n < 10 then [Digit(n)] else Show(n / 10) + [Digit(n % 10)]
  }

  /** Digits, with single underscores allowed between them. */
  function Digits(s: string): Option<nat>
    decreases |s|
  {
    if s == "" || !('0' <= s[|s| - 1] <= '9') then None
    else
      var n, d := |s| - 1, s[|s| - 1] as int - '0' as int;
      if n == 0 then Some(d)
      else
        match Digits(if s[n - 1] == '_' then s[..n - 1] else s[..n])
        case None => None
        case Some(v) => Some(10 * v + d)
  }

  /** `int(s)` of text that is already stripped. */
  function ParseInt(s: string): Option<int> {
    if s != "" && (s[0] == '-' || s[0] == '+') then
      match Digits(s[1..])
      case None => None
      case Some(v) => if s[0] == '-' then Some(-(v as int)) else Some(v as int)
    else
      match Digits(s)
      case None => None
      case Some(v) => Some(v as int)
  }

  lemma {:induction false} ShowDigits(n: nat)
    ensures forall i | 0 <= i < |Show(n)| :: '0' <= Show(n)[i] <= '9'
    ensures Digits(Show(n)) == Some(n)
  {
    if n >= 10 {
      ShowDigits(n / 10);
      assert Show(n)[..|Show(n)| - 1] == Show(n / 10);
    }
  }

  lemma ParseShow(n: nat)
    ensures ParseInt(Show(n)) == Some(n)
  {
    ShowDigits(n);
  }
}
