/**
 Abelian groups given by their operations, and integer multiples of an element.

 A group is a value holding its carrier and operations; `Abelian` says that the
 operations satisfy the group laws on the carrier. Point arithmetic is proved
 against these laws, so that nothing in a scalar-multiplication proof depends on
 coordinates.
 */
module Groups {

  datatype Group<!T> = Group(carrier: T -> bool, zero: T, add: (T, T) -> T, neg: T -> T)

  // The laws are instantiated only where one of these names the elements.
  ghost predicate Of1<T>(x: T) { true }
  ghost predicate Of2<T>(x: T, y: T) { true }
  ghost predicate Of3<T>(x: T, y: T, z: T) { true }

  ghost predicate Abelian<T(!new)>(g: Group<T>) {
    && g.carrier(g.zero)
    && (forall x {:trigger Of1(x)} :: g.carrier(x) ==>
          g.carrier(g.neg(x)) && g.add(x, g.zero) == x && g.add(x, g.neg(x)) == g.zero)
    && (forall x, y {:trigger Of2(x, y)} :: g.carrier(x) && g.carrier(y) ==>
          g.carrier(g.add(x, y)) && g.add(x, y) == g.add(y, x))
    && (forall x, y, z {:trigger Of3(x, y, z)} :: g.carrier(x) && g.carrier(y) && g.carrier(z) ==>
          g.add(g.add(x, y), z) == g.add(x, g.add(y, z)))
  }

  lemma Unit<T(!new)>(g: Group<T>, x: T)
    requires Abelian(g) && g.carrier(x)
    ensures g.carrier(g.zero) && g.carrier(g.neg(x))
    ensures g.add(x, g.zero) == x && g.add(g.zero, x) == x
    ensures g.add(x, g.neg(x)) == g.zero && g.add(g.neg(x), x) == g.zero
  {
    assert Of1(x);
    assert Of2(x, g.zero) && Of2(x, g.neg(x));
  }

  lemma Comm<T(!new)>(g: Group<T>, x: T, y: T)
    requires Abelian(g) && g.carrier(x) && g.carrier(y)
    ensures g.carrier(g.add(x, y)) && g.add(x, y) == g.add(y, x)
  {
    assert Of2(x, y);
  }

  lemma Assoc<T(!new)>(g: Group<T>, x: T, y: T, z: T)
    requires Abelian(g) && g.carrier(x) && g.carrier(y) && g.carrier(z)
    ensures g.carrier(g.add(x, y)) && g.carrier(g.add(y, z))
    ensures g.add(g.add(x, y), z) == g.add(x, g.add(y, z))
  {
    assert Of3(x, y, z) && Of2(x, y) && Of2(y, z);
  }

  /** (a + b) + (c + d) == (a + c) + (b + d) */
  lemma Interchange<T(!new)>(g: Group<T>, a: T, b: T, c: T, d: T)
    requires Abelian(g) && g.carrier(a) && g.carrier(b) && g.carrier(c) && g.carrier(d)
    ensures g.carrier(g.add(a, b)) && g.carrier(g.add(c, d)) && g.carrier(g.add(a, c)) && g.carrier(g.add(b, d))
    ensures g.add(g.add(a, b), g.add(c, d)) == g.add(g.add(a, c), g.add(b, d))
  {
    Comm(g, a, b); Comm(g, c, d); Comm(g, a, c); Comm(g, b, d); Comm(g, b, c);
    Assoc(g, a, b, g.add(c, d));
    Assoc(g, b, c, d);
    Assoc(g, c, b, d);
    Assoc(g, a, c, g.add(b, d));
  }

  /** An inverse is unique. */
  lemma NegUnique<T(!new)>(g: Group<T>, x: T, y: T)
    requires Abelian(g) && g.carrier(x) && g.carrier(y)
    requires g.add(x, y) == g.zero
    ensures y == g.neg(x)
  {
    Unit(g, x); Unit(g, y); Unit(g, g.neg(x));
    Assoc(g, g.neg(x), x, y);
  }

  /** Cancellation on the left. */
  lemma Cancel<T(!new)>(g: Group<T>, x: T, y: T, z: T)
    requires Abelian(g) && g.carrier(x) && g.carrier(y) && g.carrier(z)
    requires g.add(x, y) == g.add(x, z)
    ensures y == z
  {
    Unit(g, x); Unit(g, y); Unit(g, z);
    Assoc(g, g.neg(x), x, y);
    Assoc(g, g.neg(x), x, z);
  }

  /** n-fold sum of x, and the inverse of the (-n)-fold sum for negative n. */
  function Times<T(!new)>(g: Group<T>, n: int, x: T): T
    decreases if n < 0 then 1 - 2 * n else 2 * n
  {
    if n == 0 then g.zero
    else if n > 0 then g.add(x, Times(g, n - 1, x))
    else g.neg(Times(g, -n, x))
  }

  lemma {:induction false} TimesIn<T(!new)>(g: Group<T>, n: int, x: T)
    requires Abelian(g) && g.carrier(x)
    ensures g.carrier(Times(g, n, x))
    decreases if n < 0 then 1 - 2 * n else 2 * n
  {
    if n > 0 {
      TimesIn(g, n - 1, x);
      Comm(g, x, Times(g, n - 1, x));
    } else if n < 0 {
      TimesIn(g, -n, x);
      Unit(g, Times(g, -n, x));
    }
  }

  /** One more x, for any integer count. */
  lemma {:induction false} TimesSucc<T(!new)>(g: Group<T>, n: int, x: T)
    requires Abelian(g) && g.carrier(x)
    ensures Times(g, n + 1, x) == g.add(x, Times(g, n, x))
  {
    TimesIn(g, n, x); TimesIn(g, n + 1, x);
    if n < 0 {
      var u := Times(g, -n - 1, x);
      TimesIn(g, -n - 1, x);
      var v := Times(g, -n, x);
      TimesIn(g, -n, x);
      assert v == g.add(x, u);
      Unit(g, v); Unit(g, u); Unit(g, x);
      // x + neg(x + u) is the inverse of u
      var w := g.add(x, g.neg(v));
      Comm(g, x, g.neg(v));
      Assoc(g, u, x, g.neg(v));
      Comm(g, u, x);
      NegUnique(g, u, w);
      if n == -1 {
        Unit(g, g.zero);
        NegUnique(g, g.zero, g.zero);
      }
    }
  }

  lemma {:induction false} TimesAdd<T(!new)>(g: Group<T>, a: int, b: int, x: T)
    requires Abelian(g) && g.carrier(x)
    ensures g.carrier(Times(g, a, x)) && g.carrier(Times(g, b, x))
    ensures Times(g, a + b, x) == g.add(Times(g, a, x), Times(g, b, x))
    decreases if a < 0 then -a else a
  {
    TimesIn(g, a, x); TimesIn(g, b, x);
    Unit(g, Times(g, b, x));
    if a > 0 {
      TimesAdd(g, a - 1, b, x);
      TimesSucc(g, a - 1 + b, x);
      Assoc(g, x, Times(g, a - 1, x), Times(g, b, x));
    } else if a < 0 {
      TimesAdd(g, a + 1, b, x);
      TimesSucc(g, a, x);
      TimesSucc(g, a + b, x);
      TimesIn(g, a + b, x);
      Assoc(g, x, Times(g, a, x), Times(g, b, x));
      Comm(g, Times(g, a, x), Times(g, b, x));
      Cancel(g, x, Times(g, a + b, x), g.add(Times(g, a, x), Times(g, b, x)));
    }
  }

  lemma {:induction false} TimesNeg<T(!new)>(g: Group<T>, n: int, x: T)
    requires Abelian(g) && g.carrier(x)
    ensures Times(g, -n, x) == g.neg(Times(g, n, x))
  {
    TimesAdd(g, n, -n, x);
    NegUnique(g, Times(g, n, x), Times(g, -n, x));
  }

  /** Multiplication distributes over the group operation. */
  lemma {:induction false} TimesSum<T(!new)>(g: Group<T>, n: int, x: T, y: T)
    requires Abelian(g) && g.carrier(x) && g.carrier(y)
    ensures g.carrier(Times(g, n, x)) && g.carrier(Times(g, n, y)) && g.carrier(g.add(x, y))
    ensures Times(g, n, g.add(x, y)) == g.add(Times(g, n, x), Times(g, n, y))
    decreases if n < 0 then 1 - 2 * n else 2 * n
  {
    TimesIn(g, n, x); TimesIn(g, n, y);
    Comm(g, x, y);
    if n == 0 {
      Unit(g, g.zero);
    } else if n > 0 {
      TimesSum(g, n - 1, x, y);
      Interchange(g, x, y, Times(g, n - 1, x), Times(g, n - 1, y));
    } else {
      TimesSum(g, -n, x, y);
      var u, v := Times(g, -n, x), Times(g, -n, y);
      Unit(g, u); Unit(g, v); Comm(g, u, v); Comm(g, g.neg(u), g.neg(v));
      Interchange(g, u, v, g.neg(u), g.neg(v));
      Unit(g, g.zero);
      NegUnique(g, g.add(u, v), g.add(g.neg(u), g.neg(v)));
    }
  }

  /** [a * b]x == [a]([b]x) */
  lemma {:induction false} TimesTimes<T(!new)>(g: Group<T>, a: int, b: int, x: T)
    requires Abelian(g) && g.carrier(x)
    ensures g.carrier(Times(g, b, x))
    ensures Times(g, a * b, x) == Times(g, a, Times(g, b, x))
    decreases if a < 0 then 1 - 2 * a else 2 * a
  {
    TimesIn(g, b, x);
    if a > 0 {
      TimesTimes(g, a - 1, b, x);
      TimesAdd(g, b, (a - 1) * b, x);
      assert a * b == b + (a - 1) * b;
    } else if a < 0 {
      TimesTimes(g, -a, b, x);
      TimesNeg(g, -a * b, x);
      assert -(-a * b) == a * b;
    } else {
      assert a * b == 0;
    }
  }

  lemma {:induction false} TimesZero<T(!new)>(g: Group<T>, n: int)
    requires Abelian(g)
    ensures Times(g, n, g.zero) == g.zero
    decreases if n < 0 then 1 - 2 * n else 2 * n
  {
    Unit(g, g.zero);
    if n > 0 {
      TimesZero(g, n - 1);
    } else if n < 0 {
      TimesZero(g, -n);
      NegUnique(g, g.zero, g.zero);
    }
  }

  lemma TimesOne<T(!new)>(g: Group<T>, x: T)
    requires Abelian(g) && g.carrier(x)
    ensures Times(g, 1, x) == x && Times(g, 2, x) == g.add(x, x)
  {
    Unit(g, x);
    assert Times(g, 1, x) == g.add(x, Times(g, 0, x));
  }
}
