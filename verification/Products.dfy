/** Products of integers, one small step at a time. */
module Products {
  lemma NotNegative(a: int, b: int)
    requires a >= 0 && b >= 0
    ensures a * b >= 0
  {
  }

  lemma Distribute(a: int, b: int, c: int)
    ensures (a + b) * c == a * c + b * c
  {
  }

  /** A greater factor adds at least one more `d`. */
  lemma Gap(a: int, b: int, d: int)
    requires a < b && d >= 0
    ensures a * d + d <= b * d
  {
    var n := b - a - 1;
    NotNegative(n, d);
    Distribute(n, a + 1, d);
    Distribute(a, 1, d);
  }

  lemma Grows(a: int, b: int, d: int)
    requires a <= b && d >= 0
    ensures a * d <= b * d
  {
    if a < b { Gap(a, b, d); }
  }
}
