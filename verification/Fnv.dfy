/** The FNV-1a step on the 24 bits the token checksum keeps: a bijection in the state, injective in the unit, and not
    commutative on ASCII units. Bit-vector facts are proved one operation at a time and then used by name. */
module Fnv {

  function Plus(x: bv24, y: bv24): bv24 {
    x + y
  }

  function Minus(x: bv24, y: bv24): bv24 {
    x - y
  }

  function Mix(x: bv24, y: bv24): bv24 {
    x ^ y
  }

  /** The product with the FNV prime, modulo 2^24. */
  function Times(x: bv24): bv24 {
    x * 0x193
  }

  predicate Ascii(z: bv24) {
    z < 128
  }

  /** Within 127 of zero, modulo 2^24. */
  predicate Near(z: bv24) {
    z < 128 || z > 0xffff80
  }

  // ---- The product ----

  lemma TimesUnfolds(z: bv24)
    ensures Times(z) == z * 0x193
  {
  }

  lemma TimesSum(y: bv24, z: bv24)
    ensures Times(y + z) == Times(y) + z * 0x193
  {
    calc {
      Times(y + z);
      (y + z) * 0x193;
      y * 0x193 + z * 0x193;
      Times(y) + z * 0x193;
    }
  }

  lemma TimesDistributes(y: bv24, z: bv24)
    ensures Times(y + z) == Times(y) + Times(z)
  {
    hide Times;
    TimesSum(y, z);
    TimesUnfolds(z);
  }

  lemma TimesPlus(y: bv24, z: bv24)
    ensures Times(Plus(y, z)) == Plus(Times(y), Times(z))
  {
    hide Times;
    TimesDistributes(y, z);
  }

  lemma NoZeroDivisor(z: bv24)
    requires Times(z) == 0
    ensures z == 0
  {
  }

  /** Only zero stays within 127 of zero: the prime is larger than twice that. */
  lemma TimesSpreads(z: bv24)
    requires Near(z) && Near(Times(z))
    ensures z == 0
  {
  }

  lemma Regain(x: bv24, y: bv24)
    ensures Plus(y, Minus(x, y)) == x
    ensures Minus(x, y) == 0 ==> x == y
  {
  }

  lemma Absorbed(p: bv24, k: bv24)
    requires Plus(p, k) == p
    ensures k == 0
  {
  }

  lemma TimesInjective(x: bv24, y: bv24)
    requires Times(x) == Times(y)
    ensures x == y
  {
    hide *;
    var z := Minus(x, y);
    Regain(x, y);
    TimesPlus(y, z);
    Absorbed(Times(y), Times(z));
    NoZeroDivisor(z);
  }

  // ---- Mixing in a unit ----

  lemma MixInjective(g: bv24, h: bv24, c: bv24)
    requires Mix(g, c) == Mix(h, c)
    ensures g == h
  {
  }

  lemma MixSeparates(h: bv24, c: bv24, d: bv24)
    requires Mix(h, c) == Mix(h, d)
    ensures c == d
  {
  }

  lemma SumNear(p: bv24, k: bv24)
    requires Ascii(Mix(Plus(p, k), p))
    ensures Near(k)
  {
  }

  lemma MixesNear(h: bv24, c: bv24, d: bv24)
    requires Ascii(c) && Ascii(d)
    ensures Ascii(Mix(Mix(h, c), Mix(h, d)))
  {
  }

  lemma Regroup(x: bv24, y: bv24, c: bv24, d: bv24)
    requires Ascii(c) && Ascii(d) && Mix(x, d) == Mix(y, c)
    ensures Ascii(Mix(x, y))
  {
  }

  /** Two states that differ in seven bits at most still do after the product only when they are equal. */
  lemma ProductsApart(x: bv24, y: bv24)
    requires Ascii(Mix(x, y)) && Ascii(Mix(Times(x), Times(y)))
    ensures x == y
  {
    hide *;
    var z := Minus(x, y);
    Regain(x, y);
    SumNear(y, z);
    TimesPlus(y, z);
    SumNear(Times(y), Times(z));
    TimesSpreads(z);
  }

  // ---- The step ----

  function Step(h: bv24, c: bv24): bv24 {
    Times(Mix(h, c))
  }

  lemma StepInjective(g: bv24, h: bv24, c: bv24)
    requires g != h
    ensures Step(g, c) != Step(h, c)
  {
    hide Times, Mix;
    if Step(g, c) == Step(h, c) {
      TimesInjective(Mix(g, c), Mix(h, c));
      MixInjective(g, h, c);
    }
  }

  lemma StepSeparates(h: bv24, c: bv24, d: bv24)
    requires c != d
    ensures Step(h, c) != Step(h, d)
  {
    hide Times, Mix;
    if Step(h, c) == Step(h, d) {
      TimesInjective(Mix(h, c), Mix(h, d));
      MixSeparates(h, c, d);
    }
  }

  /** Different ASCII units mixed in either order lead to different states: the prime spreads their small difference
      out of the seven bits that could cancel it. */
  lemma StepsDoNotCommute(h: bv24, c: bv24, d: bv24)
    requires Ascii(c) && Ascii(d) && c != d
    ensures Step(Step(h, c), d) != Step(Step(h, d), c)
  {
    hide Times, Mix, Ascii;
    if Step(Step(h, c), d) == Step(Step(h, d), c) {
      var x, y := Mix(h, c), Mix(h, d);
      TimesInjective(Mix(Times(x), d), Mix(Times(y), c));
      Regroup(Times(x), Times(y), c, d);
      MixesNear(h, c, d);
      ProductsApart(x, y);
      MixSeparates(h, c, d);
    }
  }

  // ---- The three last letters ----

  /** The bits that the three last letters of the checksum show. */
  function Tail(x: bv24): bv24 {
    x & 0x3ffff
  }

  lemma SameTail(x: bv24, y: bv24)
    requires Tail(x) == Tail(y)
    ensures Tail(Minus(x, y)) == 0
  {
  }

  lemma Remains(p: bv24, k: bv24)
    ensures Minus(Plus(p, k), p) == k
  {
    calc {
      Minus(p + k, p);
      (p + k) - p;
      k;
    }
  }

  lemma NoTailDivisor(z: bv24)
    requires Tail(Times(z)) == 0
    ensures Tail(z) == 0
  {
  }

  lemma NearTail(z: bv24)
    requires Near(z) && Tail(z) == 0
    ensures z == 0
  {
  }

  /** A step with another ASCII unit changes one of the three last letters: their 18 bits hold the whole difference. */
  lemma TailTellsUnits(h: bv24, c: bv24, d: bv24)
    requires Ascii(c) && Ascii(d) && c != d
    ensures Tail(Step(h, c)) != Tail(Step(h, d))
  {
    hide Times, Mix, Ascii, Tail, Minus, Plus, Near;
    if Tail(Step(h, c)) == Tail(Step(h, d)) {
      var x, y := Mix(h, c), Mix(h, d);
      var z := Minus(x, y);
      Regain(x, y);
      TimesPlus(y, z);
      SameTail(Times(x), Times(y));
      Remains(Times(y), Times(z));
      NoTailDivisor(z);
      MixesNear(h, c, d);
      SumNear(y, z);
      NearTail(z);
      MixSeparates(h, c, d);
    }
  }

  // ---- The 32-bit state of the source ----

  function Xor(h: bv32, c: bv16): bv32 {
    h ^ (c as bv32)
  }

  /** The exact 32-bit product with the FNV prime. */
  function Imul(h: bv32): bv32 {
    h * 0x01000193
  }

  /** The low 24 bits. */
  function Low(h: bv32): bv24 {
    (h & 0xffffff) as bv24
  }

  /** A UTF-16 code unit as a state. */
  function Wide(c: bv16): bv24 {
    c as bv24
  }

  lemma LowOfXor(h: bv32, c: bv16)
    ensures Low(h ^ (c as bv32)) == ((h & 0xffffff) as bv24) ^ (c as bv24)
  {
    calc {
      Low(h ^ (c as bv32));
      ((h ^ (c as bv32)) & 0xffffff) as bv24;
      ((h & 0xffffff) as bv24) ^ (c as bv24);
    }
  }

  lemma LowXor(h: bv32, c: bv16)
    ensures Low(Xor(h, c)) == Mix(Low(h), Wide(c))
  {
    LowOfXor(h, c);
  }

  lemma LowProduct(h: bv32)
    ensures Low(h * 0x01000193) == Times((h & 0xffffff) as bv24)
  {
    calc {
      Low(h * 0x01000193);
      ((h & 0xffffff) as bv24) * 0x193;
      Times((h & 0xffffff) as bv24);
    }
  }

  lemma LowImul(h: bv32)
    ensures Low(Imul(h)) == Times(Low(h))
  {
    hide Times;
    LowProduct(h);
  }

  /** The low 24 bits after a step depend on the low 24 bits before it alone. */
  lemma LowStep(h: bv32, c: bv16)
    ensures Low(Imul(Xor(h, c))) == Step(Low(h), Wide(c))
  {
    hide Times, Mix, Low, Imul, Xor, Wide;
    LowXor(h, c);
    LowImul(Xor(h, c));
  }

  /** A unit is the low sixteen bits of its state. */
  function Narrow(x: bv24): bv16 {
    (x & 0xffff) as bv16
  }

  lemma NarrowWide(c: bv16)
    ensures Narrow(Wide(c)) == c
  {
    calc {
      Narrow(c as bv24);
      ((c as bv24) & 0xffff) as bv16;
      c;
    }
  }

  lemma WideInjective(c: bv16, d: bv16)
    requires c != d
    ensures Wide(c) != Wide(d)
  {
    hide Wide, Narrow;
    NarrowWide(c);
    NarrowWide(d);
  }

  lemma WideAscii(c: bv16)
    requires c < 128
    ensures Ascii(Wide(c))
  {
  }
}
