/** A word of 32 flags as a set of bit numbers. */
module BitSet {
  // 1 << k
  function Bit(k: nat): bv32
    requires k < 32
  {
    if k == 0 then 1 else Bit(k - 1) << 1
  }

  function Or(u: bv32, b: bv32): bv32 {
    u | b
  }

  function AndNot(u: bv32, b: bv32): bv32 {
    u & !b
  }

  predicate Meets(u: bv32, b: bv32) {
    u & b != 0
  }

  // u & (1 << k), u | (1 << k) and u & ~(1 << k)
  predicate Has(u: bv32, k: nat)
    requires k < 32
  {
    Meets(u, Bit(k))
  }

  function With(u: bv32, k: nat): bv32
    requires k < 32
  {
    Or(u, Bit(k))
  }

  function Without(u: bv32, k: nat): bv32
    requires k < 32
  {
    AndNot(u, Bit(k))
  }

  function Members(u: bv32): set<nat> {
    set k: nat | k < 32 && Has(u, k)
  }

  lemma Values()
    ensures Bit(0) == 0x00000001 && Bit(1) == 0x00000002 && Bit(2) == 0x00000004 && Bit(3) == 0x00000008
    ensures Bit(4) == 0x00000010 && Bit(5) == 0x00000020 && Bit(6) == 0x00000040 && Bit(7) == 0x00000080
    ensures Bit(8) == 0x00000100 && Bit(9) == 0x00000200 && Bit(10) == 0x00000400 && Bit(11) == 0x00000800
    ensures Bit(12) == 0x00001000 && Bit(13) == 0x00002000 && Bit(14) == 0x00004000 && Bit(15) == 0x00008000
    ensures Bit(16) == 0x00010000 && Bit(17) == 0x00020000 && Bit(18) == 0x00040000 && Bit(19) == 0x00080000
    ensures Bit(20) == 0x00100000 && Bit(21) == 0x00200000 && Bit(22) == 0x00400000 && Bit(23) == 0x00800000
    ensures Bit(24) == 0x01000000 && Bit(25) == 0x02000000 && Bit(26) == 0x04000000 && Bit(27) == 0x08000000
    ensures Bit(28) == 0x10000000 && Bit(29) == 0x20000000 && Bit(30) == 0x40000000 && Bit(31) == 0x80000000
  {
    assert Bit(0) == 0x00000001;
    assert Bit(1) == 0x00000002;
    assert Bit(2) == 0x00000004;
    assert Bit(3) == 0x00000008;
    assert Bit(4) == 0x00000010;
    assert Bit(5) == 0x00000020;
    assert Bit(6) == 0x00000040;
    assert Bit(7) == 0x00000080;
    assert Bit(8) == 0x00000100;
    assert Bit(9) == 0x00000200;
    assert Bit(10) == 0x00000400;
    assert Bit(11) == 0x00000800;
    assert Bit(12) == 0x00001000;
    assert Bit(13) == 0x00002000;
    assert Bit(14) == 0x00004000;
    assert Bit(15) == 0x00008000;
    assert Bit(16) == 0x00010000;
    assert Bit(17) == 0x00020000;
    assert Bit(18) == 0x00040000;
    assert Bit(19) == 0x00080000;
    assert Bit(20) == 0x00100000;
    assert Bit(21) == 0x00200000;
    assert Bit(22) == 0x00400000;
    assert Bit(23) == 0x00800000;
    assert Bit(24) == 0x01000000;
    assert Bit(25) == 0x02000000;
    assert Bit(26) == 0x04000000;
    assert Bit(27) == 0x08000000;
    assert Bit(28) == 0x10000000;
    assert Bit(29) == 0x20000000;
    assert Bit(30) == 0x40000000;
    assert Bit(31) == 0x80000000;
  }

  lemma BitNonzero(k: nat)
    requires k < 32
    ensures Bit(k) != 0
  {
    Values();
  }

  lemma {:induction false} BitsDiffer(i: nat, j: nat)
    requires i < j < 32
    ensures Bit(i) & Bit(j) == 0
  {
    var b := Bit(j - 1);
    if i == 0 {
      assert 1 & (b << 1) == 0;
    } else {
      BitsDiffer(i - 1, j - 1);
      var a := Bit(i - 1);
      assert (a << 1) & (b << 1) == (a & b) << 1;
    }
  }

  lemma Commute(b: bv32, c: bv32)
    ensures b & c == c & b
  {
  }

  lemma Apart(i: nat, j: nat)
    requires i < 32 && j < 32 && i != j
    ensures !Meets(Bit(i), Bit(j))
  {
    hide Bit;
    if i < j {
      BitsDiffer(i, j);
    } else {
      BitsDiffer(j, i);
      Commute(Bit(i), Bit(j));
    }
  }

  lemma OrElsewhere(u: bv32, b: bv32, c: bv32)
    requires b & c == 0
    ensures (u | b) & c == u & c
  {
  }

  lemma AndNotElsewhere(u: bv32, b: bv32, c: bv32)
    requires b & c == 0
    ensures (u & !b) & c == u & c
  {
  }

  lemma OtherOr(u: bv32, b: bv32, c: bv32)
    requires !Meets(b, c)
    ensures Meets(Or(u, b), c) == Meets(u, c)
  {
    assert Or(u, b) & c == u & c by { OrElsewhere(u, b, c); }
    hide Or;
  }

  lemma OtherAndNot(u: bv32, b: bv32, c: bv32)
    requires !Meets(b, c)
    ensures Meets(AndNot(u, b), c) == Meets(u, c)
  {
    assert AndNot(u, b) & c == u & c by { AndNotElsewhere(u, b, c); }
    hide AndNot;
  }

  lemma OtherBit(u: bv32, b: bv32, c: bv32)
    requires !Meets(b, c)
    ensures Meets(Or(u, b), c) == Meets(u, c)
    ensures Meets(AndNot(u, b), c) == Meets(u, c)
  {
    hide Or, AndNot, Meets;
    OtherOr(u, b, c);
    OtherAndNot(u, b, c);
  }

  lemma SameBit(u: bv32, b: bv32)
    requires b != 0
    ensures Meets(Or(u, b), b) && !Meets(AndNot(u, b), b)
  {
  }

  lemma HasAfter(u: bv32, k: nat, j: nat)
    requires k < 32 && j < 32
    ensures Has(With(u, k), j) <==> Has(u, j) || j == k
    ensures Has(Without(u, k), j) <==> Has(u, j) && j != k
  {
    hide Bit, Or, AndNot, Meets;
    if j == k {
      BitNonzero(k);
      SameBit(u, Bit(k));
    } else {
      Apart(k, j);
      OtherBit(u, Bit(k), Bit(j));
    }
  }

  lemma Plus(u: bv32, v: bv32, k: nat)
    requires k < 32 && forall j: nat :: j < 32 ==> (Has(v, j) <==> Has(u, j) || j == k)
    ensures Members(v) == Members(u) + {k}
  {
    hide Has;
  }

  lemma Minus(u: bv32, v: bv32, k: nat)
    requires k < 32 && forall j: nat :: j < 32 ==> (Has(v, j) <==> Has(u, j) && j != k)
    ensures Members(v) == Members(u) - {k}
  {
    hide Has;
  }

  // Setting a bit adds its number and clearing it removes its number.
  lemma SetAndClear(u: bv32, k: nat)
    requires k < 32
    ensures Members(With(u, k)) == Members(u) + {k}
    ensures Members(Without(u, k)) == Members(u) - {k}
  {
    hide With, Without, Has, Members;
    var v, w := With(u, k), Without(u, k);
    forall j: nat | j < 32
      ensures Has(v, j) <==> Has(u, j) || j == k
      ensures Has(w, j) <==> Has(u, j) && j != k
    {
      HasAfter(u, k, j);
    }
    Plus(u, v, k);
    Minus(u, w, k);
  }

  // A word is zero exactly when it has no members.
  lemma ZeroIsEmpty(u: bv32)
    ensures u == 0 <==> Members(u) == {}
  {
    if Members(u) == {} {
      forall k: nat | k < 32 ensures !Has(u, k) {
        assert k !in Members(u);
      }
      NoBit(u);
    }
  }

  lemma NoBit(u: bv32)
    requires forall k: nat :: k < 32 ==> !Has(u, k)
    ensures u == 0
  {
    Values();
    hide Bit;
    assert !Has(u, 0) && !Has(u, 1) && !Has(u, 2) && !Has(u, 3);
    assert !Has(u, 4) && !Has(u, 5) && !Has(u, 6) && !Has(u, 7);
    assert !Has(u, 8) && !Has(u, 9) && !Has(u, 10) && !Has(u, 11);
    assert !Has(u, 12) && !Has(u, 13) && !Has(u, 14) && !Has(u, 15);
    assert !Has(u, 16) && !Has(u, 17) && !Has(u, 18) && !Has(u, 19);
    assert !Has(u, 20) && !Has(u, 21) && !Has(u, 22) && !Has(u, 23);
    assert !Has(u, 24) && !Has(u, 25) && !Has(u, 26) && !Has(u, 27);
    assert !Has(u, 28) && !Has(u, 29) && !Has(u, 30) && !Has(u, 31);
  }

  // --- Bytes ---

  // 1 << k in a byte
  function Mask(k: nat): bv8
    requires k < 8
  {
    if k == 0 then 0x01 else if k == 1 then 0x02 else if k == 2 then 0x04 else if k == 3 then 0x08
    else if k == 4 then 0x10 else if k == 5 then 0x20 else if k == 6 then 0x40 else 0x80
  }

  // Bit k + 1 stands to the left of bit k.
  lemma MaskDoubles(k: nat)
    requires k < 8
    ensures Mask(0) == 1
    ensures k < 7 ==> Mask(k + 1) == Mask(k) << 1
  {
  }

  predicate ByteHas(b: bv8, k: nat)
    requires k < 8
  {
    b & Mask(k) != 0
  }

  function ByteWith(b: bv8, k: nat): bv8
    requires k < 8
  {
    b | Mask(k)
  }

  lemma ByteAfter(b: bv8, k: nat, j: nat)
    requires k < 8 && j < 8
    ensures ByteHas(ByteWith(b, k), j) <==> ByteHas(b, j) || j == k
    ensures !ByteHas(0, j)
  {
  }

  // Bit k of a bitmap.
  predicate InMap(s: seq<bv8>, k: nat)
    requires k / 8 < |s|
  {
    ByteHas(s[k / 8], k % 8)
  }

  lemma MapAt(s: seq<bv8>, i: nat, j: nat)
    requires i < |s| && j < 8
    ensures (8 * i + j) / 8 == i && (InMap(s, 8 * i + j) <==> s[i] & Mask(j) != 0)
  {
    hide Mask;
    assert (8 * i + j) / 8 == i && (8 * i + j) % 8 == j;
  }

  // Setting one bit of a bitmap leaves all others as they were.
  lemma MapAfter(s: seq<bv8>, a: nat, k: nat)
    requires a / 8 < |s| && k / 8 < |s|
    ensures InMap(s[a / 8 := ByteWith(s[a / 8], a % 8)], k) <==> InMap(s, k) || k == a
  {
    hide ByteWith, ByteHas;
    ByteAfter(s[a / 8], a % 8, k % 8);
  }
}
