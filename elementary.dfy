/**
 * The transcendental functions of JavaScript's Math object, as functions the
 * caller supplies. Nothing is known about them except the laws below, and
 * every wrapper of the engine is proved for every choice that obeys them.
 */
module Elementary {
  datatype Fns = Fns(
    cos: real -> real,
    sin: real -> real,
    tanh: real -> real,
    log: real -> real,
    exp: real -> real,
    pow: (real, real) -> real)

  /** The only facts about the functions that the engine relies on. */
  ghost predicate Laws(m: Fns) {
    && (forall x :: -1.0 <= m.cos(x) <= 1.0)
    && (forall x :: -1.0 <= m.sin(x) <= 1.0)
    && (forall x :: -1.0 < m.tanh(x) < 1.0)
    && (forall x :: 1.0 < x ==> 0.0 < m.log(x))
    && (forall x :: 0.0 < m.exp(x))
    && (forall x :: m.pow(1.0, x) == 1.0)
    && (forall b :: m.pow(b, 1.0) == b)
  }

  /** A lawful choice of the functions; the witness shows the laws are consistent. */
  type Math = m: Fns | Laws(m)
    witness Fns(
      x => 0.0, x => 0.0, x => 0.0,
      x => if 1.0 < x then 1.0 else 0.0,
      x => 1.0,
      (b, x) => if x == 1.0 then b else 1.0)

  /** A draw of Math.random(): a number in [0, 1). */
  predicate Unit(r: real) {
    0.0 <= r < 1.0
  }

  function Abs(x: real): real {
    if x < 0.0 then -x else x
  }

  function Max(a: real, b: real): real {
    if a < b then b else a
  }

  function Min(a: real, b: real): real {
    if a < b then a else b
  }

  /** A product of two non-negative reals is non-negative. */
  lemma MulNonneg(a: real, b: real)
    requires 0.0 <= a && 0.0 <= b
    ensures 0.0 <= a * b
  {
  }

  /** Multiplying by a non-negative factor keeps an inequality. */
  lemma MulMono(a: real, b: real, c: real)
    requires 0.0 <= a && b <= c
    ensures a * b <= a * c
  {
    MulNonneg(a, c - b);
    assert a * (c - b) == a * c - a * b;
  }
}
