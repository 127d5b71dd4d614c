/** Little-endian numbers in strings that are written as big-endian words. */
module WordValues {
  import opened Arith
  import opened Bytes
  import opened Compression
  import opened Sha512Standard
  import opened Sha512Words

  /** v is w with its bytes in the opposite order. */
  ghost predicate Reverses(w: nat, v: nat) {
    Le(BeBytes(w, 8)) == v
  }

  lemma Tail(s: seq<byte>, b: byte)
    ensures Le([b] + s) == b + 256 * Le(s)
  {
    assert ([b] + s)[1..] == s;
  }

  lemma LeOfFour(b0: byte, b1: byte, b2: byte, b3: byte, s: seq<byte>)
    ensures Le([b0] + ([b1] + ([b2] + ([b3] + s)))) == b0 + 256 * (b1 + 256 * (b2 + 256 * (b3 + 256 * Le(s))))
  {
    hide Le;
    Tail(s, b3);
    Tail([b3] + s, b2);
    Tail([b2] + ([b3] + s), b1);
    Tail([b1] + ([b2] + ([b3] + s)), b0);
  }

  lemma Reversed(w: nat, b0: byte, b1: byte, b2: byte, b3: byte, b4: byte, b5: byte, b6: byte, b7: byte, v: nat)
    requires w == ((((((b0 * 256 + b1) * 256 + b2) * 256 + b3) * 256 + b4) * 256 + b5) * 256 + b6) * 256 + b7
    requires v == b0 + 256 * (b1 + 256 * (b2 + 256 * (b3 + 256 * (b4 + 256 * (b5 + 256 * (b6 + 256 * b7))))))
    ensures Reverses(w, v)
  {
    EightBytes(b0, b1, b2, b3, b4, b5, b6, b7);
    LeOfFour(b4, b5, b6, b7, []);
    var t := [b4] + ([b5] + ([b6] + ([b7] + [])));
    LeOfFour(b0, b1, b2, b3, t);
    assert Le([]) == 0;
    hide Le, BeBytes;
    assert [b0] + ([b1] + ([b2] + ([b3] + t))) == [b0, b1, b2, b3, b4, b5, b6, b7];
  }

  lemma NextValue(s: seq<byte>, w: nat, v: nat)
    requires Reverses(w, v)
    ensures Le(s + BeBytes(w, 8)) == Le(s) + Exp256(|s|) * v
  {
    LeConcat(s, BeBytes(w, 8));
  }

  /** The number in four words. */
  lemma FourValues(ws: seq<nat>, v0: nat, v1: nat, v2: nat, v3: nat)
    requires |ws| == 4 && Reverses(ws[0], v0) && Reverses(ws[1], v1) && Reverses(ws[2], v2) && Reverses(ws[3], v3)
    ensures Le(FromWords(ws)) == v0 + W64 * v1 + W128 * v2 + W192 * v3
  {
    var a, b, c, d := BeBytes(ws[0], 8), BeBytes(ws[1], 8), BeBytes(ws[2], 8), BeBytes(ws[3], 8);
    FourWords(ws);
    Whole(ws, 4);
    Exp256Values();
    hide Le, BeBytes, FromWords, Exp256;
    NextValue(a, ws[1], v1);
    NextValue(a + b, ws[2], v2);
    NextValue(a + b + c, ws[3], v3);
    assert Le(a) == v0;
  }

  /** The number in a string of thirty-two bytes and more. */
  lemma TwoHalves(us: seq<nat>, vs: seq<nat>, x: nat, y: nat)
    requires |us| == 4 && Le(FromWords(us)) == x && Le(FromWords(vs)) == y
    ensures Le(FromWords(us + vs)) == x + 2 * W255 * y
  {
    FromConcat(us, vs);
    Exp256Of31();
    hide Le, FromWords, Exp256;
    LeConcat(FromWords(us), FromWords(vs));
  }
}
