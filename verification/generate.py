"""Writes the modules that hold long literal computations: SHA-512 of given messages, and
multiples of the base point. Dafny checks every number that is written here."""

import hashlib

P = 2**255 - 19
M = 2**252 + 27742317777372353535851937790883648493
D = -121665 * pow(121666, P - 2, P) % P
BASE = (0x216936d3cd6e53fec0a4e231fdd6dc5c692cc7609525a7b2c9562d608f25d51a,
        0x6666666666666666666666666666666666666666666666666666666666666658)
MASK = 2**64 - 1


def icbrt(n):
    x = 1 << ((n.bit_length() + 2) // 3)
    while True:
        y = (2 * x + n // (x * x)) // 3
        if y >= x:
            return x
        x = y


def isqrt(n):
    x = 1 << ((n.bit_length() + 1) // 2)
    while True:
        y = (x + n // x) // 2
        if y >= x:
            return x
        x = y


PRIMES = [n for n in range(2, 410) if all(n % d for d in range(2, n))]
K = [icbrt(p << 192) & MASK for p in PRIMES]
INITIAL = [isqrt(p << 128) & MASK for p in PRIMES[:8]]


def hexes(words):
    return ", ".join("0x%016x" % w for w in words)


def lines(words, indent, per=8):
    rows = [hexes(words[i:i + per]) for i in range(0, len(words), per)]
    return (",\n" + " " * indent).join(rows)


def ror(x, k):
    return ((x >> k) | (x << (64 - k))) & MASK


def schedule(block):
    w = list(block)
    for t in range(16, 80):
        s1 = ror(w[t - 2], 19) ^ ror(w[t - 2], 61) ^ (w[t - 2] >> 6)
        s0 = ror(w[t - 15], 1) ^ ror(w[t - 15], 8) ^ (w[t - 15] >> 7)
        w.append((s1 + w[t - 7] + s0 + w[t - 16]) & MASK)
    return w


def turn(v, k, w):
    a, b, c, d, e, f, g, h = v
    t1 = h + (ror(e, 14) ^ ror(e, 18) ^ ror(e, 41)) + ((e & f) ^ (~e & MASK & g)) + k + w
    t2 = (ror(a, 28) ^ ror(a, 34) ^ ror(a, 39)) + ((a & b) ^ (a & c) ^ (b & c))
    return [(t1 + t2) & MASK, a, b, c, (d + t1) & MASK, e, f, g]


def compress(start, block):
    """The states before rounds 0, 8, ..., 80, and the new words of every round."""
    w, v = schedule(block), list(start)
    states, news = [v], []
    for t in range(80):
        v = turn(v, K[t], w[t])
        news += [v[0], v[4]]
        if t % 8 == 7:
            states.append(v)
    return w, states, news, [(x + y) & MASK for x, y in zip(v, start)]


def block_lemmas(name, start_name, start, block):
    """Lemmas that end in Compress(start, FromWords(block)) == the value returned."""
    w, states, news, end = compress(start, block)
    words = name.upper()
    out = "  const %s: seq<nat> := [\n    %s\n  ]\n\n" % (words, lines(block, 4, 4))
    string = "FromWords(%s)" % words
    for t in range(0, 16, 4):
        out += "  lemma %sFirst%d()\n" % (name, t)
        for i in range(t, t + 4):
            out += "    ensures HasWord(%s, %d, 0x%016x)\n" % (string, i, block[i])
        out += "  {\n    hide FromWords, Loads, HasWord;\n"
        for n in dict.fromkeys(block[t:t + 4]):
            out += "    assert Loads(0x%016x, 0x%016x) by {\n      Word(0x%016x, %s, 0x%016x);\n    }\n" % (
                n, n, n, ", ".join("0x%02x" % b for b in n.to_bytes(8, "big")), n)
        for i in range(t, t + 4):
            out += "    FirstWord(%s, %d, 0x%016x);\n" % (words, i, block[i])
        out += "  }\n\n"
    for t in range(0, 80, 8):
        out += "  lemma %sWords%d()\n" % (name, t)
        out += "    ensures HasWords(%s, %d,\n                     %s)\n  {\n" % (string, t, lines(w[t:t + 8], 21, 4))
        if t < 16:
            out += "    hide FromWords, HasWord;\n    %sFirst%d();\n    %sFirst%d();\n" % (name, t, name, t + 4)
        else:
            out += "    %sWords%d();\n    %sWords%d();\n    hide FromWords, HasWords;\n" % (name, t - 16, name, t - 8)
            out += "    NextWords(%s, %d, %s);\n" % (string, t - 16, lines(w[t - 16:t + 8], 14, 4))
        out += "  }\n\n"
    for t in range(8, 88, 8):
        k = t // 8
        out += "  lemma %sRounds%d()\n" % (name, t)
        out += "    ensures HasState(%s, %s, %d,\n                     %s)\n  {\n" % (
            start_name, string, t, lines(states[k], 21, 4))
        out += "    hide FromWords, HasWords, HasState, HasConstants;\n"
        if t == 8:
            out += "    FirstState(%s, %s);\n" % (start_name, string)
        else:
            out += "    %sRounds%d();\n" % (name, t - 8)
        out += "    %sWords%d();\n    Constants%d();\n" % (name, t - 8, t - 8)
        out += "    NextRounds(%s, %s, %d, %s,\n               %s,\n               %s,\n               %s);\n  }\n\n" % (
            start_name, string, t - 8, lines(states[k - 1], 15, 4), lines(K[t - 8:t], 15, 4), lines(w[t - 8:t], 15, 4),
            lines(news[2 * t - 16:2 * t], 15, 4))
    out += "  const %s_END: seq<bv64> := [\n    %s\n  ]\n\n" % (words, lines(end, 4, 4))
    out += "  lemma %sCompressed()\n    ensures Compress(%s, %s) == %s_END\n  {\n" % (name, start_name, string, words)
    out += "    %sRounds80();\n    hide FromWords, HasState, Compress;\n" % name
    out += "    Compressed(%s, %s, %s,\n               %s_END);\n  }\n\n" % (start_name, string, lines(states[10], 15, 4), words)
    return out, end


def to_words(s):
    return [int.from_bytes(s[i:i + 8], "big") for i in range(0, len(s), 8)]


def padded(s):
    return to_words(s + b"\x80" + bytes((111 - len(s)) % 128) + (8 * len(s)).to_bytes(16, "big"))


CONSTANTS_HEAD = """/**
 Where the constants of SHA-512 come from (sections 4.2.3 and 5.3.5 of FIPS 180-4): the first sixty-four
 bits of the fractional parts of the cube roots and the square roots of the first primes.
 */
module Sha512Constants {
  import opened Arith
  import opened Sha512Standard
  import opened Sha512Words

  /** x is the first 64 bits of the fractional part of the square root of p. */
  ghost predicate FromSquareRoot(x: bv64, p: nat) {
    exists n: nat :: n * n <= p * W128 < (n + 1) * (n + 1) && x as nat == n % W64
  }

  /** The same for the cube root. */
  ghost predicate FromCubeRoot(x: bv64, p: nat) {
    exists n: nat :: n * (n * n) <= p * (W128 * W64) < (n + 1) * ((n + 1) * (n + 1)) && x as nat == n % W64
  }

  lemma SquareRoot(x: bv64, p: nat, whole: nat, f: nat)
    requires x as nat == f < W64
    requires var n := whole * W64 + f; n * n <= p * W128 < (n + 1) * (n + 1)
    ensures FromSquareRoot(x, p)
  {
    var n := whole * W64 + f;
    DivModUnique(n, W64, whole, f);
    assert n * n <= p * W128 < (n + 1) * (n + 1) && x as nat == n % W64;
  }

  lemma CubeRoot(x: bv64, p: nat, whole: nat, f: nat)
    requires x as nat == f < W64
    requires var n := whole * W64 + f; n * (n * n) <= p * (W128 * W64) < (n + 1) * ((n + 1) * (n + 1))
    ensures FromCubeRoot(x, p)
  {
    var n := whole * W64 + f;
    DivModUnique(n, W64, whole, f);
    assert n * (n * n) <= p * (W128 * W64) < (n + 1) * ((n + 1) * (n + 1)) && x as nat == n % W64;
  }

  /** Divisible by no prime up to 19 but itself. */
  predicate Survives(n: nat) {
    && (n == 2 || n % 2 != 0) && (n == 3 || n % 3 != 0) && (n == 5 || n % 5 != 0) && (n == 7 || n % 7 != 0)
    && (n == 11 || n % 11 != 0) && (n == 13 || n % 13 != 0) && (n == 17 || n % 17 != 0) && (n == 19 || n % 19 != 0)
  }

  lemma Divides(q: nat, s: nat, n: nat)
    requires 0 < q && 0 < s && s % q == 0 && n % s == 0
    ensures n % q == 0
  {
    var a, b := s / q, n / s;
    assert n == s * b && s == q * a;
    assert n == (a * b) * q;
    ModShift(0, a * b, q);
  }

  /** A composite number below 441 has a divisor of at most 20. */
  lemma SmallDivisor(n: nat, d: nat)
    requires 1 < d < n < 441 && n % d == 0
    ensures exists s :: 1 < s <= 20 && s < n && n % s == 0
  {
    var e := n / d;
    assert n == d * e;
    if d > 20 {
      if e > 20 {
        MulLe(21, d, e);
        assert false;
      }
      if e <= 1 {
        MulLe(e, 1, d);
        assert false;
      }
      ModShift(0, d, e);
      assert n % e == 0;
    }
  }

  lemma SieveOne(s: nat, n: nat)
    requires 1 < s <= 20 && s < n && n % s == 0
    ensures !Survives(n)
  {
    if s % 2 == 0 {
      Divides(2, s, n);
    } else if s % 3 == 0 {
      Divides(3, s, n);
    } else if s % 5 == 0 {
      Divides(5, s, n);
    }
  }

  /** Below 441 that decides primality. */
  lemma Sieve(n: nat)
    requires 1 < n < 441
    ensures Prime(n) <==> Survives(n)
  {
    if Survives(n) && !Prime(n) {
      var d :| 1 < d < n && n % d == 0;
      SmallDivisor(n, d);
      var s :| 1 < s <= 20 && s < n && n % s == 0;
      SieveOne(s, n);
    }
  }

  /** Prime n, counted from 0. */
  ghost predicate NthPrime(n: nat, p: nat) {
    if n == 0 then p == 2 else exists q :: NthPrime(n - 1, q) && NextPrime(q, p)
  }

  ghost predicate NextPrime(q: nat, p: nat) {
    q < p && Prime(p) && forall n :: q < n < p ==> !Prime(n)
  }

  /** The numbers between q and p are sieved out. */
  predicate NoneBetween(q: nat, p: nat)
    decreases p - q
  {
    q + 1 >= p || (!Survives(q + 1) && NoneBetween(q + 1, p))
  }

  lemma {:induction false} NoneIs(q: nat, p: nat, n: nat)
    requires 1 < q < n < p < 441 && NoneBetween(q, p)
    ensures !Prime(n)
    decreases p - q
  {
    if n == q + 1 {
      Sieve(n);
    } else {
      NoneIs(q + 1, p, n);
    }
  }

  lemma Next(i: nat, q: nat, p: nat)
    requires NthPrime(i, q) && 1 < q < p < 441 && Survives(p) && NoneBetween(q, p)
    ensures NthPrime(i + 1, p)
  {
    Sieve(p);
    forall n | q < n < p
      ensures !Prime(n)
    {
      NoneIs(q, p, n);
    }
    assert NthPrime(i, q) && NextPrime(q, p);
  }

  /** Round constant t comes from the cube root of prime t. */
  ghost predicate Rooted(t: nat) {
    t < 80 && exists p :: NthPrime(t, p) && FromCubeRoot(ROUND_CONSTANTS[t], p)
  }

  lemma RootedBy(t: nat, k: bv64, p: nat, whole: nat, f: nat)
    requires t < 80 && ROUND_CONSTANTS[t] == k && NthPrime(t, p) && k as nat == f < W64
    requires var n := whole * W64 + f; n * (n * n) <= p * (W128 * W64) < (n + 1) * ((n + 1) * (n + 1))
    ensures Rooted(t)
  {
    CubeRoot(k, p, whole, f);
  }

"""


def write_constants(path):
    out = CONSTANTS_HEAD
    for t in range(0, 80, 8):
        out += "  lemma Constants%d()\n    ensures HasConstants(%d, %s)\n  {\n  }\n\n" % (t, t, lines(K[t:t + 8], 25, 4))
        out += "  lemma Primes%d()\n" % t
        for i in range(t, t + 8):
            out += "    ensures NthPrime(%d, %d)\n" % (i, PRIMES[i])
        out += "  {\n"
        if t > 0:
            out += "    Primes%d();\n" % (t - 8)
        out += "    hide NthPrime;\n" if t > 0 else "    assert NthPrime(0, 2);\n    hide NthPrime;\n"
        for i in range(max(t, 1), t + 8):
            out += "    Next(%d, %d, %d);\n" % (i - 1, PRIMES[i - 1], PRIMES[i])
        out += "  }\n\n"
        out += "  lemma Roots%d()\n    ensures forall t :: %d <= t < %d ==> Rooted(t)\n  {\n" % (t, t, t + 8)
        out += "    Constants%d();\n    Primes%d();\n    hide NthPrime, Rooted, ROUND_CONSTANTS;\n" % (t, t)
        for i in range(t, t + 8):
            n = icbrt(PRIMES[i] << 192)
            out += "    RootedBy(%d, 0x%016x, %d, %d, 0x%016x);\n" % (i, K[i], PRIMES[i], n >> 64, K[i])
        out += "  }\n\n"
    out += "  /** All round constants. */\n  lemma AllRooted()\n"
    out += "    ensures |ROUND_CONSTANTS| == ROUNDS && forall t :: 0 <= t < ROUNDS ==> Rooted(t)\n  {\n    hide Rooted;\n"
    for t in range(0, 80, 8):
        out += "    Roots%d();\n" % t
    out += "  }\n\n"
    out += "  /** The initial hash value comes from the square roots of the first eight primes. */\n  lemma InitialRoots()\n"
    out += "    ensures forall i :: 0 <= i < 8 ==> exists p :: NthPrime(i, p) && FromSquareRoot(INITIAL[i], p)\n  {\n"
    out += "    Primes0();\n    hide NthPrime, FromSquareRoot;\n"
    for i in range(8):
        n = isqrt(PRIMES[i] << 128)
        out += "    SquareRoot(INITIAL[%d], %d, %d, 0x%016x);\n" % (i, PRIMES[i], n >> 64, INITIAL[i])
    out += "  }\n}\n"
    open(path, "w").write(out)


def plus(p, q):
    k = D * p[0] * p[1] * q[0] * q[1] % P
    return ((p[0] * q[1] + q[0] * p[1]) * pow(1 + k, P - 2, P) % P,
            (p[1] * q[1] + p[0] * q[0]) * pow(1 - k, P - 2, P) % P)


POWERS = [BASE]
for _ in range(252):
    POWERS.append(plus(POWERS[-1], POWERS[-1]))


def num(n):
    return ("-" if n < 0 else "") + "0x%x" % abs(n)


def exact(n):
    assert n % P == 0
    return num(n // P)


POWERS_HEAD = """/**
 Multiples of the base point, worked out: its multiples by powers of two, each the double of the one
 before, and the steps that add them up. A step is checked by the addition law, cleared of its
 denominators; the numbers that stand behind it are the multiples of p that are left over.
 */
module BasePowers {
  import opened ModP
  import opened PrimeField
  import opened Edwards
  import opened ScalarMult
  import opened BasePoint

  /** [n]B == p */
  ghost predicate IsMultiple(n: int, p: Point) {
    Mult(n, BASE) == p
  }

  lemma MultipleOnCurve(n: int, p: Point)
    requires Fermat() && IsMultiple(n, p)
    ensures OnCurve(BASE) && OnCurve(p)
  {
    BaseOnCurve();
    hide Fermat, OnCurve, Mult;
    MultIn(n, BASE);
  }

  lemma BaseIs()
    requires Fermat()
    ensures IsMultiple(1, BASE)
  {
    BaseOnCurve();
    MultIn(1, BASE);
  }

  /** r is 2p, since on the curve 1 + k == y^2 - x^2. */
  lemma Doubled(n: int, p: Point, r: Point, s: int, t: int)
    requires Fermat() && IsMultiple(n, p) && 0 <= r.x < P && 0 <= r.y < P
    requires r.x * (p.y * p.y - p.x * p.x) - 2 * (p.x * p.y) == s * P
    requires r.y * (2 - (p.y * p.y - p.x * p.x)) - (p.y * p.y + p.x * p.x) == t * P
    ensures IsMultiple(2 * n, r)
  {
    var x, y := p.x, p.y;
    MultipleOnCurve(n, p);
    CurveEquation(p);
    KIs(p, p);
    hide OnCurve, K, Plus, Fermat, Mult;
    var k, e := K(p, p), y * y - x * x;
    CongSym(e, 1 + k);
    CongScale(r.x, 1 + k, e);
    CongBy(r.x * e, 2 * (x * y), s);
    CongTrans(r.x * (1 + k), r.x * e, 2 * (x * y));
    CongRefl(2);
    CongAdd(2, 2, 1 + k, e);
    CongScale(r.y, 1 - k, 2 - e);
    CongBy(r.y * (2 - e), y * y + x * x, t);
    CongTrans(r.y * (1 - k), r.y * (2 - e), y * y + x * x);
    ReducedIs(r.x);
    ReducedIs(r.y);
    PlusUnique(p, p, r);
    Closed(p, p);
    MultAdd(n, n, BASE);
  }

  /** r is p + q, where k is d x1 y1 x2 y2 modulo p. */
  lemma Added(m: int, p: Point, n: int, q: Point, r: Point, k: int, c: int, s: int, t: int)
    requires Fermat() && IsMultiple(m, p) && IsMultiple(n, q) && 0 <= r.x < P && 0 <= r.y < P
    requires D * ((p.x * p.y) * (q.x * q.y)) - k == c * P
    requires r.x * (1 + k) - (p.x * q.y + q.x * p.y) == s * P
    requires r.y * (1 - k) - (p.y * q.y + p.x * q.x) == t * P
    ensures IsMultiple(m + n, r)
  {
    MultipleOnCurve(m, p);
    MultipleOnCurve(n, q);
    KIs(p, q);
    hide OnCurve, K, Plus, Fermat, Mult;
    var e := K(p, q);
    CongBy(e, k, c);
    CongRefl(1);
    CongAdd(1, 1, e, k);
    CongScale(r.x, 1 + e, 1 + k);
    CongScale(r.y, 1 - e, 1 - k);
    CongBy(r.x * (1 + k), p.x * q.y + q.x * p.y, s);
    CongBy(r.y * (1 - k), p.y * q.y + p.x * q.x, t);
    CongTrans(r.x * (1 + e), r.x * (1 + k), p.x * q.y + q.x * p.y);
    CongTrans(r.y * (1 - e), r.y * (1 - k), p.y * q.y + p.x * q.x);
    ReducedIs(r.x);
    ReducedIs(r.y);
    PlusUnique(p, q, r);
    Closed(p, q);
    MultAdd(m, n, BASE);
  }

"""


def write_powers(path):
    out = POWERS_HEAD
    for i, (x, y) in enumerate(POWERS):
        out += "  const G%d: Point := Point(%s,\n                           %s)\n" % (i, num(x), num(y))
    out += "\n  lemma Powers0()\n    requires Fermat()\n    ensures IsMultiple(1, G0)\n  {\n    BaseIs();\n  }\n\n"
    for lo in range(0, 252, 6):
        out += "  lemma Powers%d()\n    requires Fermat()\n" % (lo + 6)
        for i in range(lo + 1, lo + 7):
            out += "    ensures IsMultiple(%s, G%d)\n" % (num(2**i), i)
        out += "  {\n    hide Fermat, IsMultiple;\n    Powers%d();\n" % lo
        for i in range(lo, lo + 6):
            (x, y), (u, v) = POWERS[i], POWERS[i + 1]
            e = y * y - x * x
            out += "    Doubled(%s, G%d, G%d,\n            %s,\n            %s);\n" % (
                num(2**i), i, i + 1, exact(u * e - 2 * x * y), exact(v * (2 - e) - (y * y + x * x)))
        out += "  }\n\n"
    open(path, "w").write(out.rstrip() + "\n}\n")


def digits(n):
    """The positions of the digits 1 and -1 in a signed binary form of n without neighbours."""
    up, down, i = [], [], 0
    while n:
        if n % 2:
            d = 2 - n % 4
            (up if d == 1 else down).append(i)
            n -= d
        n //= 2
        i += 1
    return up, down


def added(m, p, p_name, n, q, q_name, r_name):
    """The step that adds [n]B to [m]B, and the sum."""
    r = plus(p, q)
    c = D * p[0] * p[1] * q[0] * q[1]
    k = c % P
    return "    Added(%s, %s, %s, %s, %s,\n          %s,\n          %s,\n          %s,\n          %s);\n" % (
        num(m), p_name, num(n), q_name, r_name, num(k), exact(c - k),
        exact(r[0] * (1 + k) - (p[0] * q[1] + q[0] * p[1])), exact(r[1] * (1 - k) - (p[1] * q[1] + p[0] * q[0]))), r


def title(name):
    return "".join(part.title() for part in name.split("_"))


def sum_lemmas(name, positions):
    """Lemmas that end in IsMultiple for the sum of the given powers of two."""
    out, n, p = "", 2**positions[0], POWERS[positions[0]]
    point = "G%d" % positions[0]
    groups = [positions[1:][i:i + 5] for i in range(0, len(positions) - 1, 5)]
    for g, group in enumerate(groups):
        steps, first = "", (n, point)
        for i in group:
            step, r = added(n, p, point, 2**i, POWERS[i], "G%d" % i, "p%d" % i)
            steps += "    var p%d := Point(%s,\n                   %s);\n" % (i, num(r[0]), num(r[1])) + step
            n, p, point = n + 2**i, r, "p%d" % i
        powers = sorted({(i + 5) // 6 * 6 for i in group + ([positions[0]] if g == 0 else [])})
        out += "  const %s%d: Point := Point(%s,\n                            %s)\n\n" % (name, g, num(p[0]), num(p[1]))
        out += "  lemma %sSum%d()\n    requires Fermat()\n    ensures IsMultiple(%s, %s%d)\n  {\n" % (title(name), g, num(n), name, g)
        out += "    hide Fermat, IsMultiple;\n"
        if g > 0:
            out += "    %sSum%d();\n" % (title(name), g - 1)
        for i in powers:
            out += "    Powers%d();\n" % i
        out += steps + "  }\n\n"
        point = "%s%d" % (name, g)
    return out, n, p, point, len(groups) - 1


ORDER_HEAD = """/**
 The order of the base point: m, the modulus of the scalars, takes it to the neutral element. The
 digits 1 and the digits -1 of a signed binary form of m are added up on their own; both sums are
 the same point.
 */
module GroupOrder {
  import opened PrimeField
  import opened Edwards
  import opened ScalarMult
  import opened BasePoint
  import opened BasePowers
  import opened ModM
  import opened Signature

  lemma Cancel(m: int, n: int, p: Point)
    requires Fermat() && IsMultiple(m, p) && IsMultiple(n, p)
    ensures Mult(m - n, BASE) == NEUTRAL
  {
    BaseOnCurve();
    hide Fermat, OnCurve, Plus, Mult;
    MultNegate(n, BASE);
    MultAdd(m, -n, BASE);
    MultAdd(n, -n, BASE);
    MultIn(0, BASE);
  }

"""

ORDER_TAIL = """  /** m B == 0 */
  lemma BaseOrder()
    requires Fermat()
    ensures OnCurve(BASE) && Mult(M, BASE) == NEUTRAL
  {
    BaseOnCurve();
    UpSum%d();
    DownSum%d();
    hide Fermat, IsMultiple, Mult, OnCurve;
    Cancel(%s, %s, %s);
  }

  /** All that signing and checking are proved under is Fermat's theorem. */
  lemma BaseDomain()
    requires Fermat()
    ensures Domain(BASE)
  {
    BaseOrder();
  }
}
"""


def write_order(path):
    up, down = digits(M)
    ups, n, p, point, last = sum_lemmas("UP", up)
    downs, k, q, _, end = sum_lemmas("DOWN", down)
    assert n - k == M and p == q
    open(path, "w").write(ORDER_HEAD + ups + downs + ORDER_TAIL % (last, end, num(n), num(k), point))


EXAMPLES_HEAD = """/**
 The one-block example of FIPS 180-4 for SHA-512: the message "abc", worked out from the definition
 eight rounds at a time.
 */
module Sha512Examples {
  import opened Bytes
  import opened Sha512Standard
  import opened Sha512Words
  import opened Sha512Constants

"""

EXAMPLES_TAIL = """  lemma AbcFirstWord()
    ensures [0x61, 0x62, 0x63] + [0x80] + Zeros(4) == FromWords([0x6162638000000000])
  {
    EightBytes(0x61, 0x62, 0x63, 0x80, 0, 0, 0, 0);
    OneWord(0x6162638000000000);
    hide BeBytes, FromWords;
    assert [0x61, 0x62, 0x63] + [0x80] + Zeros(4) == [0x61, 0x62, 0x63, 0x80, 0, 0, 0, 0];
  }

  lemma AbcWords()
    ensures ABC == [0x6162638000000000] + Blank(13) + [0, 24]
  {
    assert |ABC| == 16;
  }

  lemma AbcPadded()
    ensures Pad([0x61, 0x62, 0x63]) == FromWords(ABC)
  {
    hide FromWords, BeBytes, Blank, ABC, Zeros;
    var m: seq<byte> := [0x61, 0x62, 0x63];
    var w: seq<nat> := [0x6162638000000000];
    SplitZeros(4, 104);
    AbcFirstWord();
    BlankWords(13);
    LengthWords(24);
    AbcWords();
    FromConcat(w + Blank(13), [0, 24]);
    FromConcat(w, Blank(13));
    assert m + [0x80] + Zeros(108) == (m + [0x80] + Zeros(4)) + Zeros(104);
  }

  predicate IsAbc(m: seq<byte>) {
    |m| == 3 && m[0] == 0x61 && m[1] == 0x62 && m[2] == 0x63
  }

  lemma AbcBytes(m: seq<byte>)
    requires IsAbc(m)
    ensures m == [0x61, 0x62, 0x63]
  {
  }

  /** Sha512("abc") */
  lemma Abc(m: seq<byte>)
    requires IsAbc(m)
    ensures Sha512(m) == FromWords(ABC_DIGEST)
  {
    hide *;
    AbcBytes(m);
    AbcPadded();
    AbcCompressed();
    AbcSame();
    AbcWords();
    OneBlock(m, ABC, ABC_END, ABC_DIGEST);
  }
}
"""


def digest_words(name, end):
    """The hash value as numbers."""
    out = "  const %s_DIGEST: seq<nat> := [\n    %s\n  ]\n\n" % (name.upper(), lines(end, 4, 4))
    return out + "  lemma %sSame()\n    ensures SameWords(%s_END, %s_DIGEST)\n  {\n  }\n\n" % (name, name.upper(), name.upper())


def write_examples(path):
    out, end = block_lemmas("Abc", "INITIAL", INITIAL, padded(b"abc"))
    assert to_words(hashlib.sha512(b"abc").digest()) == end
    open(path, "w").write(EXAMPLES_HEAD + out + digest_words("Abc", end) + EXAMPLES_TAIL)


# The test vector "SHA(abc)" of section 7.1 of RFC 8032.
SECRET = bytes.fromhex("833fe62409237b9d62ec77587520911e9a759cec1d19755b7da901b96dca3d42")
PUBLIC = bytes.fromhex("ec172b93ad5e563bf4932c70e1245034c35467ef2efd4d64ebf819683467e2bf")
SIGNATURE = bytes.fromhex("dc2a4459e7369633a52b1bf277839a00201009a3efbf3ecb69bea2186c26b589"
                          "09351fc9ac90b3ecfdfbc7c66431e0303dca179c138ac17ad9bef1177331a704")
MESSAGE = hashlib.sha512(b"abc").digest()
KEY = hashlib.sha512(SECRET).digest()
NONCE = hashlib.sha512(KEY[32:] + MESSAGE).digest()
CHALLENGE = hashlib.sha512(SIGNATURE[:32] + PUBLIC + MESSAGE).digest()

HASHES_HEAD = """/**
 The strings of the test vector "SHA(abc)" in section 7.1 of RFC 8032, and the three hashes that
 signing takes of them. Words are big-endian, so that the strings read as they are published.
 */
module SigningHashes {
  import opened Sha512Standard
  import opened Sha512Words
  import opened Sha512Constants
  import opened Sha512Examples

"""

HASHES_TAIL = """  lemma KeyPadded()
    ensures PaddedWords(SECRET) == KEY && |KEY| == 16
  {
  }

  /** H(sk) */
  lemma KeyHashed()
    ensures Sha512(FromWords(SECRET)) == FromWords(KEY_DIGEST)
  {
    KeyPadded();
    KeyCompressed();
    KeySame();
    assert |SECRET| == 4;
    hide *;
    HashOfWords(SECRET, KEY, KEY_END, KEY_DIGEST);
  }

  lemma KeyHalves()
    ensures KEY_DIGEST == SCALAR + PREFIX && |SCALAR| == 4
  {
  }

  lemma NoncePadded()
    ensures PaddedWords(PREFIX + ABC_DIGEST) == NONCE && |NONCE| == 16
  {
    assert (PREFIX + ABC_DIGEST)[..4] == PREFIX && (PREFIX + ABC_DIGEST)[4..] == ABC_DIGEST;
  }

  /** H(prefix, m) */
  lemma NonceHashed()
    ensures Sha512(FromWords(PREFIX + ABC_DIGEST)) == FromWords(NONCE_DIGEST)
  {
    NoncePadded();
    NonceCompressed();
    NonceSame();
    assert |PREFIX + ABC_DIGEST| == 12;
    hide *;
    HashOfWords(PREFIX + ABC_DIGEST, NONCE, NONCE_END, NONCE_DIGEST);
  }

  lemma ChallengePadded()
    ensures PaddedWords(COMMITMENT + PUBLIC + ABC_DIGEST) == CHALLENGE + REST && |CHALLENGE| == |REST| == 16
  {
    assert COMMITMENT + PUBLIC + ABC_DIGEST == CHALLENGE;
    assert REST == [0x8000000000000000] + Blank(13) + [0, 1024];
  }

  /** H(R, A, m) */
  lemma ChallengeHashed()
    ensures Sha512(FromWords(COMMITMENT + PUBLIC + ABC_DIGEST)) == FromWords(REST_DIGEST)
  {
    ChallengePadded();
    ChallengeCompressed();
    RestCompressed();
    RestSame();
    assert |COMMITMENT + PUBLIC + ABC_DIGEST| == 16 && |CHALLENGE_END| == 8;
    hide *;
    HashOfMoreWords(COMMITMENT + PUBLIC + ABC_DIGEST, CHALLENGE, REST, CHALLENGE_END, REST_END, REST_DIGEST);
  }
}
"""


def const_words(name, s):
    return "  const %s: seq<nat> := [\n    %s\n  ]\n\n" % (name, lines(to_words(s), 4, 4))


def write_hashes(path):
    out = HASHES_HEAD
    for name, s in [("SECRET", SECRET), ("PUBLIC", PUBLIC), ("COMMITMENT", SIGNATURE[:32]), ("RESPONSE", SIGNATURE[32:]),
                    ("SCALAR", KEY[:32]), ("PREFIX", KEY[32:])]:
        out += const_words(name, s)
    for name, s in [("Key", SECRET), ("Nonce", KEY[32:] + MESSAGE)]:
        text, end = block_lemmas(name, "INITIAL", INITIAL, padded(s))
        out += text + digest_words(name, end)
    words = padded(SIGNATURE[:32] + PUBLIC + MESSAGE)
    text, middle = block_lemmas("Challenge", "INITIAL", INITIAL, words[:16])
    rest, end = block_lemmas("Rest", "CHALLENGE_END", middle, words[16:])
    assert to_words(CHALLENGE) == end
    open(path, "w").write(out + text + rest + digest_words("Rest", end) + HASHES_TAIL)


MULTIPLES_HEAD = """/** The multiples of the base point that the test vector takes. */
module SigningMultiples {
  import opened ModP
  import opened PrimeField
  import opened Edwards
  import opened ScalarMult
  import opened BasePoint
  import opened BasePowers

  lemma Inverse(n: int, q: Point)
    requires Fermat() && IsMultiple(n, q) && 0 < q.x
    ensures IsMultiple(-n, Point(P - q.x, q.y))
  {
    MultipleOnCurve(n, q);
    OnCurveReduced(q);
    ReducedIs(q.x);
    NegateIs(q);
    MultNegate(n, BASE);
    hide Fermat, OnCurve, Mult;
    ReducedIs(P - q.x);
  }

"""


def multiple_lemmas(name, n):
    """Lemmas that end in IsMultiple(n, NAME)."""
    up, down = digits(n)
    ups, a, p, first, last = sum_lemmas(name + "_UP", up)
    downs, b, q, second, end = sum_lemmas(name + "_DOWN", down)
    assert a - b == n
    x = P - q[0]
    step, r = added(a, p, first, -b, (x, q[1]), "q", name)
    out = ups + downs
    out += "  const %s: Point := Point(%s,\n                            %s)\n\n" % (name, num(r[0]), num(r[1]))
    out += "  lemma %sIs()\n    requires Fermat()\n    ensures IsMultiple(%s, %s)\n  {\n" % (title(name), num(n), name)
    out += "    hide Fermat, IsMultiple;\n    %sSum%d();\n    %sSum%d();\n" % (
        title(name + "_UP"), last, title(name + "_DOWN"), end)
    out += "    Inverse(%s, %s);\n" % (num(b), second)
    out += "    var q := Point(%s,\n                   %s);\n" % (num(x), num(q[1]))
    out += "    assert q == Point(P - %s.x, %s.y);\n" % (second, second)
    out += step + "  }\n\n"
    return out, r


def little(s):
    return int.from_bytes(s, "little")


def clamped(v):
    return v % 2**254 - v % 8 + 2**254


def write_multiples(path):
    a = clamped(little(KEY[:32]))
    public, _ = multiple_lemmas("PUBLIC_POINT", a % M)
    nonce, _ = multiple_lemmas("NONCE_POINT", little(NONCE) % M)
    open(path, "w").write((MULTIPLES_HEAD + public + nonce).rstrip() + "\n}\n")


SIGNING_HEAD = """/**
 The test vector "SHA(abc)" in section 7.1 of RFC 8032, derived: key generation gives its public key
 from its secret key, and signing gives its signature.
 */
module SigningExample {
  import opened Bytes
  import opened PrimeField
  import opened Compression
  import opened ScalarMult
  import opened BasePoint
  import opened BasePowers
  import opened GroupOrder
  import opened Signature
  import opened Sha512Standard
  import opened Sha512Words
  import opened Sha512Examples
  import opened WordValues
  import opened SigningSteps
  import opened SigningHashes
  import opened SigningMultiples

"""

SIGNING_TAIL = """  lemma ScalarHalf()
    ensures Sha512(FromWords(SECRET))[..32] == FromWords(SCALAR) && Prefix(FromWords(SECRET)) == FromWords(PREFIX)
  {
    KeyHashed();
    KeyHalves();
    FromConcat(SCALAR, PREFIX);
    hide FromWords, Sha512;
  }

  lemma SecretIs()
    ensures SecretScalar(FromWords(SECRET)) == SECRET_SCALAR
  {
    ScalarHalf();
    ScalarValue();
    hide FromWords, Sha512, Le, Clamped;
    ClampsTo(Sha512(FromWords(SECRET)), %(v)s, %(q)s, %(r)s, %(e)s, %(f)s);
  }

  lemma NonceIs()
    ensures Nonce(FromWords(ABC_DIGEST), FromWords(SECRET)) == NONCE_NUMBER
  {
    ScalarHalf();
    NonceHashed();
    NonceValue();
    hide FromWords, Sha512, Le, Prefix;
    FromConcat(PREFIX, ABC_DIGEST);
  }

  lemma PublicIs()
    requires Fermat()
    ensures Encode(Mult(SECRET_SCALAR, BASE)) == FromWords(PUBLIC)
  {
    PublicPointIs();
    PublicValue();
    hide FromWords, Le, Fermat, IsMultiple, Mult, Encode;
    EncodesTo(SECRET_SCALAR, %(aq)s, %(ar)s,
              PUBLIC_POINT, %(ah)s, %(ab)s, FromWords(PUBLIC));
  }

  lemma CommitmentIs()
    requires Fermat()
    ensures Encode(Mult(NONCE_NUMBER, BASE)) == FromWords(COMMITMENT)
  {
    NoncePointIs();
    CommitmentValue();
    hide FromWords, Le, Fermat, IsMultiple, Mult, Encode;
    EncodesTo(NONCE_NUMBER, %(nq)s,
              %(nr)s,
              NONCE_POINT, %(nh)s, %(nb)s, FromWords(COMMITMENT));
  }

  lemma ChallengeIs()
    ensures Le(Sha512(FromWords(COMMITMENT) + FromWords(PUBLIC) + FromWords(ABC_DIGEST))) == CHALLENGE_NUMBER
  {
    ChallengeHashed();
    RestValue();
    hide FromWords, Sha512, Le;
    FromConcat(COMMITMENT, PUBLIC);
    FromConcat(COMMITMENT + PUBLIC, ABC_DIGEST);
  }

  lemma PublishedKey()
    requires Fermat()
    ensures PublicKeyOf(FromWords(SECRET), BASE) == FromWords(PUBLIC)
  {
    SecretIs();
    PublicIs();
    hide FromWords, SecretScalar, Mult, Encode, Fermat;
  }

  /** The signature of Sha512("abc"). */
  lemma PublishedSignature(abc: seq<byte>)
    requires Fermat() && IsAbc(abc)
    ensures SignatureOf(Sha512(abc), FromWords(SECRET), FromWords(PUBLIC), BASE)
         == FromWords(COMMITMENT) + FromWords(RESPONSE)
  {
    Abc(abc);
    SecretIs();
    NonceIs();
    CommitmentIs();
    ChallengeIs();
    ResponseValue();
    hide FromWords, SecretScalar, Nonce, Mult, Encode, Fermat, Le, Sha512, SignatureOf;
    SignsTo(FromWords(ABC_DIGEST), FromWords(SECRET), FromWords(PUBLIC), SECRET_SCALAR, NONCE_NUMBER, FromWords(COMMITMENT),
            CHALLENGE_NUMBER, %(cq)s,
            %(ck)s,
            %(st)s,
            %(sv)s, FromWords(RESPONSE));
  }

  /** It is accepted. */
  lemma PublishedAccepted(abc: seq<byte>)
    requires Fermat() && IsAbc(abc)
    ensures Accepts(Sha512(abc), FromWords(PUBLIC), FromWords(COMMITMENT) + FromWords(RESPONSE), BASE)
  {
    hide *;
    PublishedKey();
    PublishedSignature(abc);
    BaseDomain();
    SignThenOpen(Sha512(abc), FromWords(SECRET), BASE);
  }
}
"""


def value_lemma(name, words, s):
    """The little-endian number in four words."""
    out = "  lemma %sValue()\n    ensures Le(FromWords(%s)) == %s\n  {\n" % (name, words, num(little(s)))
    out += "    hide FromWords, Le, Reverses;\n"
    for i in range(0, 32, 8):
        w, v = num(int.from_bytes(s[i:i + 8], "big")), num(little(s[i:i + 8]))
        out += "    assert Reverses(%s, %s) by {\n      Reversed(%s, %s, %s);\n    }\n" % (
            w, v, w, ", ".join("0x%02x" % b for b in s[i:i + 8]), v)
    out += "    FourValues(%s, %s);\n  }\n\n" % (words, ", ".join(num(little(s[i:i + 8])) for i in range(0, 32, 8)))
    return out


def wide_value_lemmas(name, words, number, s):
    """The little-endian number in eight words."""
    out = "  const %s: nat := %s\n\n" % (number, num(little(s)))
    for part, half in ("LOW", s[:32]), ("HIGH", s[32:]):
        out += const_words("%s_%s" % (words, part), half) + value_lemma(name + part.title(), "%s_%s" % (words, part), half)
    out += "  lemma %sHalves()\n    ensures %s == %s_LOW + %s_HIGH && |%s_LOW| == 4\n  {\n  }\n\n" % ((name,) + (words,) * 4)
    out += "  lemma %sValue()\n    ensures Le(FromWords(%s)) == %s\n  {\n" % (name, words, number)
    out += "    %sLowValue();\n    %sHighValue();\n    %sHalves();\n    hide FromWords, Le;\n" % (name, name, name)
    out += "    TwoHalves(%s_LOW, %s_HIGH, %s,\n              %s);\n  }\n\n" % (words, words, num(little(s[:32])), num(little(s[32:])))
    return out


def write_signing(path):
    v, n, c = little(KEY[:32]), little(NONCE), little(CHALLENGE)
    a, k = clamped(v), c % M
    x, y = multiple_lemmas("PUBLIC_POINT", a % M)[1][0], multiple_lemmas("NONCE_POINT", n % M)[1][0]
    s = n + k * a
    assert s % M == little(SIGNATURE[32:])
    out = SIGNING_HEAD + "  const SECRET_SCALAR: nat := %s\n\n" % num(a)
    for name, words, string in [("Scalar", "SCALAR", KEY[:32]), ("Public", "PUBLIC", PUBLIC),
                                ("Commitment", "COMMITMENT", SIGNATURE[:32]), ("Response", "RESPONSE", SIGNATURE[32:])]:
        out += value_lemma(name, words, string)
    out += wide_value_lemmas("Nonce", "NONCE_DIGEST", "NONCE_NUMBER", NONCE)
    out += wide_value_lemmas("Rest", "REST_DIGEST", "CHALLENGE_NUMBER", CHALLENGE)
    numbers = dict(v=v, q=v >> 254, r=v % 2**254, e=v // 8, f=v % 8, aq=a // M, ar=a % M, ah=x // 2, ab=x % 2,
                   nq=n // M, nr=n % M, nh=y // 2, nb=y % 2, cq=c // M, ck=k, st=s // M, sv=s % M)
    open(path, "w").write(out + SIGNING_TAIL % {key: num(value) for key, value in numbers.items()})


def point_const(name, p):
    return "  const %s: Point := Point(%s,\n                          %s)\n" % (name, num(p[0]), num(p[1]))


def entry(p, c):
    """y - x, y + x and c x y modulo p, and the multiples of p left over."""
    u, v, w = (p[1] - p[0]) % P, (p[1] + p[0]) % P, c * p[0] * p[1] % P
    return (u, v, w), (exact(u - (p[1] - p[0])), exact(v - (p[1] + p[0])), exact(w - c * p[0] * p[1]))


def limbs(n):
    return "Fe(%s)" % ", ".join("0x%013x" % (n >> 51 * i & 2**51 - 1) for i in range(5))


SLIDING_HEAD = """/** The table of odd multiples for the sliding window (ge25519_niels_sliding_multiples), entry by entry. */
module SlidingTable {
  import opened PrimeField
  import opened Field
  import opened Edwards
  import opened Points
  import opened ScalarMult
  import opened BasePoint
  import opened BasePowers
  import opened TableSteps

"""

SLIDING_TAIL = """  /** All thirty-two entries. */
  lemma MultiplesAre()
    requires Fermat()
    ensures IsTable2(MULTIPLES, BASE)
  {
    hide Fermat, IsEntry, Mult, IsNiels;
%s    assert forall i :: 0 <= i < 32 ==> IsEntry(i);
    FromEntries();
  }
}
"""


def write_sliding(path):
    odd = [BASE]
    for _ in range(31):
        odd.append(plus(odd[-1], POWERS[1]))
    out = SLIDING_HEAD
    for i, p in enumerate(odd):
        out += point_const("ODD%d" % i, p)
    out += "\n"
    for i, p in enumerate(odd):
        (u, v, w), _ = entry(p, 2 * D)
        out += "  const N%d: Niels := Niels(\n    %s,\n    %s,\n    %s)\n" % (i, limbs(u), limbs(v), limbs(w))
    out += "\n  const MULTIPLES: seq<Niels> := [\n    %s\n  ]\n\n" % ",\n    ".join(
        ", ".join("N%d" % i for i in range(s, s + 8)) for s in range(0, 32, 8))
    out += """  ghost predicate IsEntry(i: nat) {
    i < 32 && IsNiels(MULTIPLES[i], Mult(2 * i + 1, BASE))
  }

  lemma FromEntries()
    requires forall i :: 0 <= i < 32 ==> IsEntry(i)
    ensures IsTable2(MULTIPLES, BASE)
  {
    hide IsNiels, Mult;
    forall i | 0 <= i < 32
      ensures IsNiels(MULTIPLES[i], Mult(2 * i + 1, BASE))
    {
      assert IsEntry(i);
    }
  }

"""
    out += "  lemma Odd0()\n    requires Fermat()\n    ensures IsMultiple(1, ODD0)\n  {\n    BaseIs();\n  }\n\n"
    for s in range(0, 31, 4):
        end = min(s + 4, 31)
        out += "  lemma Odd%d()\n    requires Fermat()\n" % end
        for i in range(s + 1, end + 1):
            out += "    ensures IsMultiple(%d, ODD%d)\n" % (2 * i + 1, i)
        out += "  {\n    hide Fermat, IsMultiple;\n    Odd%d();\n    Powers6();\n" % s
        for i in range(s, end):
            out += added(2 * i + 1, odd[i], "ODD%d" % i, 2, POWERS[1], "G1", "ODD%d" % (i + 1))[0]
        out += "  }\n\n"
    for s in range(0, 32, 4):
        out += "  lemma Entries%d()\n    requires Fermat()\n    ensures forall i :: %d <= i < %d ==> IsEntry(i)\n  {\n" % (s, s, s + 4)
        out += "    hide Fermat, IsMultiple, IsNiels, Mult;\n"
        for k in sorted({min((i + 3) // 4 * 4, 31) for i in range(s, s + 4)}):
            out += "    Odd%d();\n" % k
        for i in range(s, s + 4):
            (u, v, w), (a, b, e) = entry(odd[i], 2 * D)
            out += "    EntryIs(%d, ODD%d, N%d,\n            %s,\n            %s,\n            %s,\n            %s, %s,\n            %s);\n" % (
                2 * i + 1, i, i, num(u), num(v), num(w), a, b, e)
        out += "  }\n\n"
    out += SLIDING_TAIL % "".join("    Entries%d();\n" % i for i in range(0, 32, 4))
    open(path, "w").write(out)


BASE_HEAD = """/**
 The packed table for fixed-base multiplication (ge25519_niels_base_multiples), row by row. A row is
 written by the three little-endian numbers in it.
 */
module BaseTable {
  import opened Arith
  import opened Bytes
  import opened PrimeField
  import opened Edwards
  import opened ScalarMult
  import opened BaseMult
  import opened BasePoint
  import opened BasePowers
  import opened TableSteps

"""


def write_base_table(path):
    out = BASE_HEAD
    for pos in range(32):
        unit = 2**(8 * pos)
        power = {1: 8 * pos, 2: 8 * pos + 1, 4: 8 * pos + 2, 8: 8 * pos + 3}
        points = {i: POWERS[k] for i, k in power.items()}
        names = {i: "G%d" % k for i, k in power.items()}
        steps = ""
        for i, j in (1, 2), (1, 4), (2, 4), (3, 4):
            names[i + j] = "M%d_%d" % (pos, i + j)
            text, points[i + j] = added(i * unit, points[i], names[i], j * unit, points[j], names[j], names[i + j])
            steps += text
            out += point_const(names[i + j], points[i + j])
        out += "\n  lemma Points%d()\n    requires Fermat()\n" % pos
        for i in range(1, 9):
            out += "    ensures IsMultiple(%s, %s)\n" % (num(i * unit), names[i])
        out += "  {\n    hide Fermat, IsMultiple;\n"
        for k in sorted({(k + 5) // 6 * 6 for k in power.values()}):
            out += "    Powers%d();\n" % k
        out += steps + "  }\n\n"
        factor = 2 if pos == 0 else 2 * D
        entries = {i: entry(points[i], factor) for i in range(1, 9)}
        out += "  const ROWS%d: seq<seq<byte>> := [\n    %s\n  ]\n\n" % (pos, ",\n    ".join(
            "Row(%s,\n        %s,\n        %s)" % tuple(map(num, entries[i][0])) for i in range(1, 9)))
        for lo in (1, 5):
            out += "  lemma Rows%d_%d()\n    requires Fermat()\n    ensures |ROWS%d| == 8\n" % (pos, lo, pos)
            for i in range(lo, lo + 4):
                out += "    ensures IsRow(ROWS%d[%d], Mult(%s, BASE), Factor(%d))\n" % (pos, i - 1, num(i * unit), pos)
            out += "  {\n    hide Fermat, IsMultiple, IsRow, Row, Mult;\n    Points%d();\n" % pos
            for i in range(lo, lo + 4):
                (u, v, w), (a, b, e) = entries[i]
                out += "    RowIs(%s, %s, Factor(%d),\n          %s,\n          %s,\n          %s,\n          %s, %s,\n          %s);\n" % (
                    num(i * unit), names[i], pos, num(u), num(v), num(w), a, b, e)
            out += "  }\n\n"
        out += "  lemma Power%d()\n    ensures Pow(256, %d) == %s\n  {\n" % (pos, pos, num(unit))
        out += "    Power%d();\n    assert Pow(256, %d) == 256 * Pow(256, %d);\n" % (pos - 1, pos, pos - 1) if pos else ""
        out += "  }\n\n"
        table = "[]" if pos == 0 else "TABLE%d" % (pos - 1)
        out += "  const TABLE%d: seq<seq<byte>> := %s\n\n" % (pos, "ROWS0" if pos == 0 else "%s + ROWS%d" % (table, pos))
        out += "  lemma Table%d()\n    requires Fermat()\n    ensures AreRows(TABLE%d, %d)\n  {\n" % (pos, pos, pos + 1)
        out += "    hide Fermat, IsRow, Row, Mult, Pow, Factor, IsBlock, AreRows, ROWS%d%s;\n" % (pos, ", " + table if pos else "")
        out += "    Rows%d_1();\n    Rows%d_5();\n    Power%d();\n" % ((pos,) * 3)
        out += "    Together(ROWS%d, %d, %s);\n" % (pos, pos, num(unit))
        if pos:
            out += "    Table%d();\n    MoreRows(TABLE%d, %d, ROWS%d);\n" % (pos - 1, pos - 1, pos, pos)
        else:
            out += "    FirstRows(ROWS0);\n"
        out += "  }\n\n"
    out += """  const BASE_TABLE: seq<seq<byte>> := TABLE31

  /** All 256 rows. */
  lemma BaseTableIs()
    requires Fermat()
    ensures IsBaseTable(BASE_TABLE, BASE)
  {
    hide Fermat, IsRow, Row, Mult, Pow, Factor, AreRows, IsBaseTable, TABLE31;
    Table31();
    AllRows(TABLE31);
  }
}
"""
    open(path, "w").write(out)


if __name__ == "__main__":
    write_constants("Sha512Constants.dfy")
    write_examples("Sha512Examples.dfy")
    write_powers("BasePowers.dfy")
    write_order("GroupOrder.dfy")
    write_sliding("SlidingTable.dfy")
    write_base_table("BaseTable.dfy")
    write_hashes("SigningHashes.dfy")
    write_multiples("SigningMultiples.dfy")
    write_signing("SigningExample.dfy")
