/** Clock readings and deadlines: the floats of the source, with both infinities and without NaN. */
module Times {
  datatype Time = NegInf | At(t: real) | Inf

  predicate Le(a: Time, b: Time) {
    a.NegInf? || b.Inf? || (a.At? && b.At? && a.t <= b.t)
  }

  function Min(a: Time, b: Time): (m: Time)
    ensures (m == a || m == b) && Le(m, a) && Le(m, b)
  {
    if Le(a, b) then a else b
  }
}
