module Numbers {
  function Min(a: int, b: int): int {
    if a < b then a else b
  }

  predicate IsDigit(c: char) {
    '0' <= c <= '9'
  }

  /** Reads the digits at the head of `s`, after `n` has been read; also what comes after them. */
  function ReadDigits(n: nat, s: string): (r: (nat, string))
    ensures |r.1| <= |s|
    decreases |s|
  {
    if s == "" || !IsDigit(s[0]) then (n, s) else ReadDigits(10 * n + (s[0] as int - '0' as int), s[1..])
  }
}
