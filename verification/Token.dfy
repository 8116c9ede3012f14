/** The token format and its typo checksum (core/src/token-format.ts): FNV-1a over UTF-16 code units, its low 24 bits
    written as four characters of the base64url alphabet of section 5 of RFC 4648. */
module Token {
  import opened Fnv

  type Unit = bv16

  const OFFSET: bv32 := 0x811c9dc5

  /** "0sink_" */
  const PREFIX: seq<Unit> := [48, 115, 105, 110, 107, 95]

  /** The character at an index of the alphabet: A-Z, a-z, 0-9, then '-' and '_'. */
  function Letter(v: bv24): Unit
    requires v < 64
  {
    if v < 26 then (v + 65) as Unit
    else if v < 52 then (v + 71) as Unit
    else if v < 62 then (v - 4) as Unit
    else if v == 62 then 45
    else 95
  }

  /** [A-Za-z0-9_-] */
  predicate Allowed(c: Unit) {
    65 <= c <= 90 || 97 <= c <= 122 || 48 <= c <= 57 || c == 95 || c == 45
  }

  function Hash(s: seq<Unit>, h: bv32): bv32 {
    if s == [] then h else Hash(s[1..], Imul(Xor(h, s[0])))
  }

  function Encode(v: bv24): (r: seq<Unit>)
    ensures |r| == 4
  {
    [Letter((v >> 18) & 63), Letter((v >> 12) & 63), Letter((v >> 6) & 63), Letter(v & 63)]
  }

  function Checksum(random: seq<Unit>): (r: seq<Unit>)
    ensures |r| == 4
  {
    Encode(Low(Hash(random, OFFSET)))
  }

  method TokenChecksum(random: seq<Unit>) returns (r: seq<Unit>)
    ensures r == Checksum(random)
  {
    hide Imul, Xor, Low, Letter;
    var h := OFFSET;
    for i := 0 to |random|
      invariant Hash(random[i..], h) == Hash(random, OFFSET)
    {
      assert random[i..][1..] == random[i + 1..];
      h := Imul(Xor(h, random[i]));
    }
    var v := Low(h);
    r := [Letter((v >> 18) & 63), Letter((v >> 12) & 63), Letter((v >> 6) & 63), Letter(v & 63)];
  }

  predicate Shaped(token: seq<Unit>) {
    |token| == 53 && token[..6] == PREFIX && forall i :: 6 <= i < 53 ==> Allowed(token[i])
  }

  predicate Valid(token: seq<Unit>) {
    Shaped(token) && Checksum(token[6..49]) == token[49..]
  }

  method IsValidTokenFormat(token: seq<Unit>) returns (ok: bool)
    ensures ok == Valid(token)
  {
    if !Shaped(token) {
      return false;
    }
    var sum := TokenChecksum(token[6..49]);
    ok := sum == token[49..];
  }

  predicate Random(random: seq<Unit>) {
    |random| == 43 && forall i :: 0 <= i < 43 ==> Allowed(random[i])
  }

  /** What both minters build from 43 random characters. */
  function Mint(random: seq<Unit>): seq<Unit> {
    PREFIX + random + Checksum(random)
  }

  // ---- Test vectors ----

  function Copies(c: Unit, n: nat): seq<Unit> {
    if n == 0 then [] else [c] + Copies(c, n - 1)
  }

  lemma {:induction false} CopiesSplit(c: Unit, n: nat, m: nat, h: bv32)
    ensures Hash(Copies(c, n + m), h) == Hash(Copies(c, m), Hash(Copies(c, n), h))
  {
    hide Imul, Xor;
    if n > 0 {
      CopiesSplit(c, n - 1, m, Imul(Xor(h, c)));
      assert Copies(c, n + m)[1..] == Copies(c, n - 1 + m) && Copies(c, n)[1..] == Copies(c, n - 1);
    }
  }

  function Absorbed(h: bv32, c: Unit): bv32 {
    Imul(Xor(h, c))
  }

  lemma SixMore(c: Unit, g: bv32, h: bv32, more: nat)
    requires h == Absorbed(Absorbed(Absorbed(Absorbed(Absorbed(Absorbed(g, c), c), c), c), c), c)
    ensures Hash(Copies(c, more + 6), g) == Hash(Copies(c, more), h)
  {
    hide Imul, Xor;
    CopiesSplit(c, 6, more, g);
    SixCopies(c, g);
  }

  lemma SixCopies(c: Unit, h: bv32)
    ensures Hash(Copies(c, 6), h) == Absorbed(Absorbed(Absorbed(Absorbed(Absorbed(Absorbed(h, c), c), c), c), c), c)
  {
    hide Absorbed, Hash, Copies;
    var one := Absorbed(h, c);
    var two := Absorbed(one, c);
    var three := Absorbed(two, c);
    var four := Absorbed(three, c);
    OneMore(c, 5, h);
    OneMore(c, 4, one);
    OneMore(c, 3, two);
    OneMore(c, 2, three);
    OneMore(c, 1, four);
    OneMore(c, 0, Absorbed(four, c));
    NoCopies(c, Absorbed(Absorbed(four, c), c));
  }

  lemma OneMore(c: Unit, n: nat, g: bv32)
    ensures Hash(Copies(c, n + 1), g) == Hash(Copies(c, n), Absorbed(g, c))
  {
    hide Imul, Xor;
    assert Copies(c, n + 1)[1..] == Copies(c, n);
  }

  lemma NoCopies(c: Unit, g: bv32)
    ensures Hash(Copies(c, 0), g) == g
  {
  }

  lemma HashOfCopies()
    ensures Hash(Copies(97, 43), OFFSET) == 0x586642fa
    ensures Hash(Copies(48, 43), OFFSET) == 0x66c2be67
  {
    hide Hash, Copies;
    SixMore(97, 0x811c9dc5, 0x6cff564b, 37);
    SixMore(97, 0x6cff564b, 0xdc1fe8a1, 31);
    SixMore(97, 0xdc1fe8a1, 0x1b515c47, 25);
    SixMore(97, 0x1b515c47, 0xd1c4f7fd, 19);
    SixMore(97, 0xd1c4f7fd, 0xf262b5c3, 13);
    SixMore(97, 0xf262b5c3, 0x121ef819, 7);
    SixMore(97, 0x121ef819, 0x420cf53f, 1);
    OneMore(97, 0, 0x420cf53f);
    NoCopies(97, 0x586642fa);
    SixMore(48, 0x811c9dc5, 0x68d6565d, 37);
    SixMore(48, 0x68d6565d, 0x86d8a475, 31);
    SixMore(48, 0x86d8a475, 0x4d7d3f8d, 25);
    SixMore(48, 0x4d7d3f8d, 0x541ae125, 19);
    SixMore(48, 0x541ae125, 0x6300a4bd, 13);
    SixMore(48, 0x6300a4bd, 0x842f8155, 7);
    SixMore(48, 0x842f8155, 0x4c40a46d, 1);
    OneMore(48, 0, 0x4c40a46d);
    NoCopies(48, 0x66c2be67);
  }

  /** The checksums the repository's tests expect of 43 times "a", "ZkL6", and of 43 times "0", "wr5n"; and the token
      "0sink_", 43 times "a", "ZkL6" is valid. */
  lemma TestVectors()
    ensures Checksum(Copies(97, 43)) == [90, 107, 76, 54]
    ensures Checksum(Copies(48, 43)) == [119, 114, 53, 110]
    ensures Valid([48, 115, 105, 110, 107, 95] + Copies(97, 43) + [90, 107, 76, 54])
  {
    HashOfCopies();
    CopiesAre(97, 43);
    MintedValid(Copies(97, 43));
    hide Hash, Copies, Valid;
  }

  lemma {:induction false} CopiesAre(c: Unit, n: nat)
    ensures |Copies(c, n)| == n && forall i :: 0 <= i < n ==> Copies(c, n)[i] == c
  {
    if n > 0 {
      CopiesAre(c, n - 1);
    }
  }

  // ---- Exactly the minted tokens are valid ----

  lemma LetterAllowed(v: bv24)
    requires v < 64
    ensures Allowed(Letter(v))
  {
  }

  lemma EncodeAllowed(v: bv24)
    ensures forall i :: 0 <= i < 4 ==> Allowed(Encode(v)[i])
  {
    hide Letter, Allowed;
    LetterAllowed((v >> 18) & 63);
    LetterAllowed((v >> 12) & 63);
    LetterAllowed((v >> 6) & 63);
    LetterAllowed(v & 63);
  }

  lemma MintedValid(random: seq<Unit>)
    requires Random(random)
    ensures Valid(Mint(random))
  {
    hide Hash, Encode, Low, Allowed;
    EncodeAllowed(Low(Hash(random, OFFSET)));
    var token := Mint(random);
    assert token[6..49] == random && token[49..] == Checksum(random);
  }

  /** A string is accepted exactly when some 43 random characters mint it. */
  lemma ValidIffMinted(token: seq<Unit>)
    ensures Valid(token) <==> exists random :: Random(random) && token == Mint(random)
  {
    hide Checksum, Allowed;
    if Valid(token) {
      assert token == token[..6] + token[6..49] + token[49..];
      assert Random(token[6..49]) && token == Mint(token[6..49]);
    }
    if random :| Random(random) && token == Mint(random) {
      MintedValid(random);
    }
  }

  // ---- The low bits of the hash, and the four letters that show them ----

  /** Different low bits stay different through any common suffix. */
  lemma {:induction false} HashInjective(s: seq<Unit>, g: bv32, h: bv32)
    requires Low(g) != Low(h)
    ensures Low(Hash(s, g)) != Low(Hash(s, h))
  {
    hide Imul, Xor, Low, Step, Wide;
    if s != [] {
      LowStep(g, s[0]);
      LowStep(h, s[0]);
      StepInjective(Low(g), Low(h), Wide(s[0]));
      HashInjective(s[1..], Imul(Xor(g, s[0])), Imul(Xor(h, s[0])));
    }
  }

  lemma {:induction false} HashAppend(s: seq<Unit>, t: seq<Unit>, h: bv32)
    ensures Hash(s + t, h) == Hash(t, Hash(s, h))
  {
    hide Imul, Xor;
    if s == [] {
      assert s + t == t;
    } else {
      assert (s + t)[1..] == s[1..] + t;
      HashAppend(s[1..], t, Imul(Xor(h, s[0])));
    }
  }

  lemma LetterInjective(v: bv24, w: bv24)
    requires v < 64 && w < 64 && Letter(v) == Letter(w)
    ensures v == w
  {
  }

  lemma SameLetters(v: bv24, w: bv24)
    requires Encode(v) == Encode(w)
    ensures Letter((v >> 18) & 63) == Letter((w >> 18) & 63) && Letter((v >> 12) & 63) == Letter((w >> 12) & 63)
    ensures Letter((v >> 6) & 63) == Letter((w >> 6) & 63) && Letter(v & 63) == Letter(w & 63)
  {
    hide Letter;
    assert forall i :: 0 <= i < 4 ==> Encode(v)[i] == Encode(w)[i];
  }

  lemma Sextets(v: bv24, w: bv24)
    requires (v >> 18) & 63 == (w >> 18) & 63 && (v >> 12) & 63 == (w >> 12) & 63
    requires (v >> 6) & 63 == (w >> 6) & 63 && v & 63 == w & 63
    ensures v == w
  {
  }

  /** Four letters determine all 24 bits. */
  lemma EncodeInjective(v: bv24, w: bv24)
    requires v != w
    ensures Encode(v) != Encode(w)
  {
    hide Letter, Encode;
    if Encode(v) == Encode(w) {
      SameLetters(v, w);
      LetterInjective((v >> 18) & 63, (w >> 18) & 63);
      LetterInjective((v >> 12) & 63, (w >> 12) & 63);
      LetterInjective((v >> 6) & 63, (w >> 6) & 63);
      LetterInjective(v & 63, w & 63);
      Sextets(v, w);
    }
  }

  /** Strings that differ in the middle only have different checksums as soon as the low bits after the middle
      differ. */
  lemma DifferentMiddles(before: seq<Unit>, one: seq<Unit>, other: seq<Unit>, after: seq<Unit>)
    requires var h := Hash(before, OFFSET); Low(Hash(one, h)) != Low(Hash(other, h))
    ensures Checksum(before + one + after) != Checksum(before + other + after)
  {
    hide Hash, Encode, Low;
    var h := Hash(before, OFFSET);
    HashAppend(before, one, OFFSET);
    HashAppend(before, other, OFFSET);
    HashAppend(before + one, after, OFFSET);
    HashAppend(before + other, after, OFFSET);
    HashInjective(after, Hash(one, h), Hash(other, h));
    EncodeInjective(Low(Hash(before + one + after, OFFSET)), Low(Hash(before + other + after, OFFSET)));
  }

  lemma HashOne(c: Unit, h: bv32)
    ensures Low(Hash([c], h)) == Step(Low(h), Wide(c))
  {
    hide Imul, Xor, Low, Step, Wide;
    LowStep(h, c);
    assert [c][1..] == [];
  }

  lemma HashTwo(c: Unit, d: Unit, h: bv32)
    ensures Low(Hash([c, d], h)) == Step(Step(Low(h), Wide(c)), Wide(d))
  {
    hide Hash, Low, Step, Wide;
    assert [c, d] == [c] + [d];
    HashAppend([c], [d], h);
    HashOne(c, h);
    HashOne(d, Hash([c], h));
  }

  // ---- Single substitutions ----

  /** Changing one random character changes the checksum, whatever the two characters are. */
  lemma SubstitutionChangesChecksum(random: seq<Unit>, i: nat, c: Unit)
    requires i < |random| && c != random[i]
    ensures Checksum(random[i := c]) != Checksum(random)
  {
    hide Hash, Checksum, Low, Step, Wide;
    var before, after, h := random[..i], random[i + 1..], Hash(random[..i], OFFSET);
    assert random == before + [random[i]] + after && random[i := c] == before + [c] + after;
    HashOne(c, h);
    HashOne(random[i], h);
    WideInjective(c, random[i]);
    StepSeparates(Low(h), Wide(c), Wide(random[i]));
    DifferentMiddles(before, [c], [random[i]], after);
  }

  /** One mistyped character anywhere in a valid token is always caught. */
  lemma SingleTypoRejected(token: seq<Unit>, i: nat, c: Unit)
    requires Valid(token) && i < |token| && c != token[i]
    ensures !Valid(token[i := c])
  {
    hide Checksum, Allowed;
    var typo := token[i := c];
    if i < 6 {
      assert typo[..6][i] == c;
      assert token[..6][i] == token[i];
    } else if i < 49 {
      assert typo[6..49] == token[6..49][i - 6 := c];
      assert typo[49..] == token[49..];
      SubstitutionChangesChecksum(token[6..49], i - 6, c);
    } else {
      assert typo[6..49] == token[6..49];
      assert typo[49..][i - 49] == c;
      assert token[49..][i - 49] == token[i];
    }
  }

  // ---- Transpositions ----

  /** Two neighbours of the sequence, exchanged. */
  function Swap(s: seq<Unit>, i: nat): (r: seq<Unit>)
    requires i + 1 < |s|
    ensures |r| == |s|
  {
    s[..i] + [s[i + 1], s[i]] + s[i + 2..]
  }

  lemma AllowedAscii(c: Unit)
    requires Allowed(c)
    ensures c < 128
  {
  }

  lemma SwapChangesChecksum(random: seq<Unit>, i: nat)
    requires i + 1 < |random| && random[i] != random[i + 1] && Allowed(random[i]) && Allowed(random[i + 1])
    ensures Checksum(Swap(random, i)) != Checksum(random)
  {
    hide Hash, Checksum, Low, Step, Wide, Ascii, Allowed;
    var before, after, h := random[..i], random[i + 2..], Hash(random[..i], OFFSET);
    var c, d := random[i], random[i + 1];
    assert random == before + [c, d] + after;
    HashTwo(c, d, h);
    HashTwo(d, c, h);
    AllowedAscii(c);
    AllowedAscii(d);
    WideInjective(c, d);
    WideAscii(c);
    WideAscii(d);
    StepsDoNotCommute(Low(h), Wide(c), Wide(d));
    DifferentMiddles(before, [d, c], [c, d], after);
  }

  lemma TailSextets(v: bv24, w: bv24)
    requires (v >> 12) & 63 == (w >> 12) & 63 && (v >> 6) & 63 == (w >> 6) & 63 && v & 63 == w & 63
    ensures Tail(v) == Tail(w)
  {
  }

  lemma TailLetters(v: bv24, w: bv24)
    requires Encode(v)[1..] == Encode(w)[1..]
    ensures Letter((v >> 12) & 63) == Letter((w >> 12) & 63)
    ensures Letter((v >> 6) & 63) == Letter((w >> 6) & 63) && Letter(v & 63) == Letter(w & 63)
  {
    hide Letter;
    assert forall i :: 0 <= i < 3 ==> Encode(v)[1..][i] == Encode(v)[i + 1] && Encode(w)[1..][i] == Encode(w)[i + 1];
  }

  /** The three last letters determine the low 18 bits. */
  lemma TailInjective(v: bv24, w: bv24)
    requires Encode(v)[1..] == Encode(w)[1..]
    ensures Tail(v) == Tail(w)
  {
    hide Letter, Encode, Tail;
    TailLetters(v, w);
    LetterInjective((v >> 12) & 63, (w >> 12) & 63);
    LetterInjective((v >> 6) & 63, (w >> 6) & 63);
    LetterInjective(v & 63, w & 63);
    TailSextets(v, w);
  }

  /** Replacing the last random character changes one of the three last letters. */
  lemma LastChangesTail(random: seq<Unit>, c: Unit)
    requires random != [] && c != random[|random| - 1] && Allowed(c) && Allowed(random[|random| - 1])
    ensures Checksum(random[|random| - 1 := c])[1..] != Checksum(random)[1..]
  {
    hide Hash, Encode, Low, Step, Wide, Ascii, Allowed, Tail;
    var init, last := random[..|random| - 1], random[|random| - 1];
    var h := Hash(init, OFFSET);
    assert random == init + [last] && random[|random| - 1 := c] == init + [c];
    HashAppend(init, [last], OFFSET);
    HashAppend(init, [c], OFFSET);
    HashOne(last, h);
    HashOne(c, h);
    AllowedAscii(c);
    AllowedAscii(last);
    WideInjective(c, last);
    WideAscii(c);
    WideAscii(last);
    TailTellsUnits(Low(h), Wide(c), Wide(last));
    if Encode(Low(Hash(init + [c], OFFSET)))[1..] == Encode(Low(Hash(init + [last], OFFSET)))[1..] {
      TailInjective(Low(Hash(init + [c], OFFSET)), Low(Hash(init + [last], OFFSET)));
    }
  }

  /** The last random character exchanged with the first letter of the checksum: the three letters after them give the
      exchange away. */
  lemma BorderRejected(token: seq<Unit>)
    requires Valid(token) && token[48] != token[49]
    ensures !Valid(Swap(token, 48))
  {
    hide Checksum, Allowed;
    var typo, random := Swap(token, 48), token[6..49];
    assert Allowed(token[48]) && Allowed(token[49]);
    assert random[42] == token[48];
    assert typo[6..49] == random[42 := token[49]];
    assert typo[49..][1..] == token[49..][1..];
    LastChangesTail(random, token[49]);
  }

  /** Exchanging any two different neighbours of a valid token is always caught. */
  lemma TranspositionRejected(token: seq<Unit>, i: nat)
    requires Valid(token) && i + 1 < |token| && token[i] != token[i + 1]
    ensures !Valid(Swap(token, i))
  {
    hide Checksum, Allowed;
    var typo := Swap(token, i);
    if i < 6 {
      assert typo[..6][i] == token[i + 1];
      assert token[..6][i] == token[i];
    } else if i < 48 {
      assert typo[6..49] == Swap(token[6..49], i - 6);
      assert typo[49..] == token[49..];
      SwapChangesChecksum(token[6..49], i - 6);
    } else if i == 48 {
      BorderRejected(token);
    } else {
      assert typo[6..49] == token[6..49];
      assert typo[49..][i - 49] == token[i + 1];
      assert token[49..][i - 49] == token[i];
    }
  }
}
