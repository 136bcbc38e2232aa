/** The 32-bit ready mask: one bit per priority, and the de Bruijn lookup of the lowest. */
module ReadyMask {
  // Machine operations, named so that proofs about whole masks need not look inside them.
  function And(a: bv32, b: bv32): bv32 { a & b }
  function Or(a: bv32, b: bv32): bv32 { a | b }
  function Clear(a: bv32, b: bv32): bv32 { a & !b }
  function Double(a: bv32): bv32 { a << 1 }
  function Below(a: bv32): bv32 { a - 1 }

  // 1 << p
  function Bit(p: nat): bv32
    requires p < 32
  {
    if p == 0 then 1 else Double(Bit(p - 1))
  }

  predicate IsSet(mask: bv32, p: nat)
    requires p < 32
  {
    And(mask, Bit(p)) != 0
  }

  lemma BitValues()
    ensures Bit(0) == 0x1 && Bit(1) == 0x2 && Bit(2) == 0x4 && Bit(3) == 0x8
    ensures Bit(4) == 0x10 && Bit(5) == 0x20 && Bit(6) == 0x40 && Bit(7) == 0x80
    ensures Bit(8) == 0x100 && Bit(9) == 0x200 && Bit(10) == 0x400 && Bit(11) == 0x800
    ensures Bit(12) == 0x1000 && Bit(13) == 0x2000 && Bit(14) == 0x4000 && Bit(15) == 0x8000
    ensures Bit(16) == 0x1_0000 && Bit(17) == 0x2_0000 && Bit(18) == 0x4_0000 && Bit(19) == 0x8_0000
    ensures Bit(20) == 0x10_0000 && Bit(21) == 0x20_0000 && Bit(22) == 0x40_0000 && Bit(23) == 0x80_0000
    ensures Bit(24) == 0x100_0000 && Bit(25) == 0x200_0000 && Bit(26) == 0x400_0000 && Bit(27) == 0x800_0000
    ensures Bit(28) == 0x1000_0000 && Bit(29) == 0x2000_0000 && Bit(30) == 0x4000_0000 && Bit(31) == 0x8000_0000
  {
    assert Bit(0) == 0x1; assert Bit(1) == 0x2; assert Bit(2) == 0x4; assert Bit(3) == 0x8;
    assert Bit(4) == 0x10; assert Bit(5) == 0x20; assert Bit(6) == 0x40; assert Bit(7) == 0x80;
    assert Bit(8) == 0x100; assert Bit(9) == 0x200; assert Bit(10) == 0x400; assert Bit(11) == 0x800;
    assert Bit(12) == 0x1000; assert Bit(13) == 0x2000; assert Bit(14) == 0x4000; assert Bit(15) == 0x8000;
    assert Bit(16) == 0x1_0000; assert Bit(17) == 0x2_0000; assert Bit(18) == 0x4_0000; assert Bit(19) == 0x8_0000;
    assert Bit(20) == 0x10_0000; assert Bit(21) == 0x20_0000; assert Bit(22) == 0x40_0000; assert Bit(23) == 0x80_0000;
    assert Bit(24) == 0x100_0000; assert Bit(25) == 0x200_0000; assert Bit(26) == 0x400_0000;
           assert Bit(27) == 0x800_0000;
    assert Bit(28) == 0x1000_0000; assert Bit(29) == 0x2000_0000; assert Bit(30) == 0x4000_0000;
           assert Bit(31) == 0x8000_0000;
  }

  // ---------------------------------------------------------------- bits are apart

  lemma ShiftedIsEven(x: bv32)
    ensures And(1, Double(x)) == 0 && And(Double(x), 1) == 0
  {
  }

  lemma ShiftedApart(x: bv32, y: bv32)
    requires And(x, y) == 0
    ensures And(Double(x), Double(y)) == 0
  {
  }

  lemma {:induction false} OneHot(p: nat, q: nat)
    requires p < 32 && q < 32 && p != q
    ensures And(Bit(p), Bit(q)) == 0
    decreases p
  {
    hide And, Double;
    if p == 0 {
      ShiftedIsEven(Bit(q - 1));
    } else if q == 0 {
      ShiftedIsEven(Bit(p - 1));
    } else {
      OneHot(p - 1, q - 1);
      ShiftedApart(Bit(p - 1), Bit(q - 1));
    }
  }

  lemma {:induction false} NotZero(p: nat)
    requires p < 32
    ensures Bit(p) != 0 && And(Bit(p), Bit(p)) == Bit(p)
  {
    BitValues();
    AndSelf(Bit(p));
  }

  lemma AndSelf(b: bv32)
    ensures And(b, b) == b
  {
  }

  // ---------------------------------------------------------------- setting and clearing

  lemma OrApart(m: bv32, b: bv32, c: bv32)
    requires And(b, c) == 0
    ensures And(Or(m, b), c) == And(m, c)
  {
  }

  lemma ClearApart(m: bv32, b: bv32, c: bv32)
    requires And(b, c) == 0
    ensures And(Clear(m, b), c) == And(m, c)
  {
  }

  lemma SameBit(m: bv32, b: bv32)
    ensures And(Or(m, b), b) == b && And(Clear(m, b), b) == 0
  {
  }

  /** Setting or clearing one bit changes that bit only. */
  lemma OneBitChanges(m: bv32, p: nat, q: nat)
    requires p < 32 && q < 32
    ensures IsSet(Or(m, Bit(p)), q) <==> p == q || IsSet(m, q)
    ensures IsSet(Clear(m, Bit(p)), q) <==> p != q && IsSet(m, q)
  {
    hide Bit, And, Or, Clear;
    if p == q {
      NotZero(p);
      SameBit(m, Bit(p));
    } else {
      OneHot(p, q);
      OrApart(m, Bit(p), Bit(q));
      ClearApart(m, Bit(p), Bit(q));
    }
  }

  // ---------------------------------------------------------------- the lowest set bit

  // The mask without all its bits but the lowest.
  function Isolated(mask: bv32): bv32 { mask & (!mask + 1) }

  // The top five bits of the de Bruijn product name the bit.
  function Product(isolated: bv32): bv32 { (isolated * 0x077C_B531) >> 27 }

  function Table(product: bv32): nat {
    match product
    case 0 => 0 case 1 => 1 case 2 => 28 case 3 => 2 case 4 => 29 case 5 => 14 case 6 => 24 case 7 => 3
    case 8 => 30 case 9 => 22 case 10 => 20 case 11 => 15 case 12 => 25 case 13 => 17 case 14 => 4 case 15 => 8
    case 16 => 31 case 17 => 27 case 18 => 13 case 19 => 23 case 20 => 21 case 21 => 19 case 22 => 16 case 23 => 7
    case 24 => 26 case 25 => 12 case 26 => 18 case 27 => 6 case 28 => 11 case 29 => 5 case 30 => 10 case _ => 9
  }

  function LowestSetBit(mask: bv32): nat { Table(Product(Isolated(mask))) }

  lemma ProductValues()
    ensures Product(0x1) == 0 && Product(0x2) == 1 && Product(0x4) == 3 && Product(0x8) == 7
    ensures Product(0x10) == 14 && Product(0x20) == 29 && Product(0x40) == 27 && Product(0x80) == 23
    ensures Product(0x100) == 15 && Product(0x200) == 31 && Product(0x400) == 30 && Product(0x800) == 28
    ensures Product(0x1000) == 25 && Product(0x2000) == 18 && Product(0x4000) == 5 && Product(0x8000) == 11
    ensures Product(0x1_0000) == 22 && Product(0x2_0000) == 13 && Product(0x4_0000) == 26 && Product(0x8_0000) == 21
    ensures Product(0x10_0000) == 10 && Product(0x20_0000) == 20 && Product(0x40_0000) == 9 && Product(0x80_0000) == 19
    ensures Product(0x100_0000) == 6 && Product(0x200_0000) == 12 && Product(0x400_0000) == 24
            && Product(0x800_0000) == 17
    ensures Product(0x1000_0000) == 2 && Product(0x2000_0000) == 4 && Product(0x4000_0000) == 8
            && Product(0x8000_0000) == 16
  {
  }

  lemma TableFirstQuarter()
    ensures Table(0) == 0 && Table(1) == 1 && Table(2) == 28 && Table(3) == 2 && Table(4) == 29 && Table(5) == 14
            && Table(6) == 24 && Table(7) == 3
  {
  }

  lemma TableSecondQuarter()
    ensures Table(8) == 30 && Table(9) == 22 && Table(10) == 20 && Table(11) == 15 && Table(12) == 25
            && Table(13) == 17 && Table(14) == 4 && Table(15) == 8
  {
  }

  lemma TableThirdQuarter()
    ensures Table(16) == 31 && Table(17) == 27 && Table(18) == 13 && Table(19) == 23 && Table(20) == 21
            && Table(21) == 19 && Table(22) == 16 && Table(23) == 7
  {
  }

  lemma TableFourthQuarter()
    ensures Table(24) == 26 && Table(25) == 12 && Table(26) == 18 && Table(27) == 6 && Table(28) == 11
            && Table(29) == 5 && Table(30) == 10 && Table(31) == 9
  {
  }

  /** The table inverts the product for every single bit. */
  lemma TableInverts(p: nat)
    requires p < 32
    ensures Table(Product(Bit(p))) == p
  {
    hide Bit, Table, Product;
    BitValues();
    ProductValues();
    TableFirstQuarter();
    TableSecondQuarter();
    TableThirdQuarter();
    TableFourthQuarter();
  }

  lemma BelowSplits(m: bv32, b: bv32)
    requires And(b, Below(b)) == 0 && b < 0x8000_0000
    ensures And(m, Below(Double(b))) == Or(And(m, Below(b)), And(m, b))
  {
  }

  lemma OrIsZero(a: bv32, b: bv32)
    ensures Or(a, b) == 0 <==> a == 0 && b == 0
  {
  }

  lemma Powers()
    ensures forall p: nat :: p < 32 ==> And(Bit(p), Below(Bit(p))) == 0 && (p < 31 ==> Bit(p) < 0x8000_0000)
  {
    BitValues();
  }

  /** Nothing below p is set exactly when the bits below p are all clear. */
  lemma {:induction false} NoneBelow(mask: bv32, p: nat)
    requires p < 32
    ensures And(mask, Below(Bit(p))) == 0 <==> forall q: nat :: q < p ==> !IsSet(mask, q)
    decreases p
  {
    hide And, Below, Or, Double;
    if p == 0 {
      NothingBelowZero(mask);
    } else {
      var b := Bit(p - 1);
      NoneBelow(mask, p - 1);
      Powers();
      BelowSplits(mask, b);
      OrIsZero(And(mask, Below(b)), And(mask, b));
      assert (forall q: nat :: q < p ==> !IsSet(mask, q)) <==>
             (!IsSet(mask, p - 1) && forall q: nat :: q < p - 1 ==> !IsSet(mask, q));
    }
  }

  lemma NothingBelowZero(mask: bv32)
    ensures And(mask, Below(Bit(0))) == 0
  {
  }

  lemma Isolates(m: bv32, b: bv32)
    requires And(b, Below(b)) == 0 && And(m, Below(b)) == 0 && And(m, b) != 0
    ensures Isolated(m) == b
  {
  }

  lemma TopBit(m: bv32)
    requires And(m, Below(0x8000_0000)) == 0 && And(m, 0x8000_0000) == 0
    ensures m == 0
  {
  }

  lemma {:induction false} SomeBitSet(mask: bv32, p: nat) returns (q: nat)
    requires p < 32 && mask != 0 && And(mask, Below(Bit(p))) == 0
    ensures p <= q < 32 && IsSet(mask, q) && And(mask, Below(Bit(q))) == 0
    decreases 32 - p
  {
    hide And, Below, Or, Double;
    q := p;
    if !IsSet(mask, p) {
      if p == 31 {
        BitValues();
        TopBit(mask);
      } else {
        var b := Bit(p);
        Powers();
        BelowSplits(mask, b);
        OrIsZero(And(mask, Below(b)), And(mask, b));
        q := SomeBitSet(mask, p + 1);
      }
    }
  }

  /** For every non-zero 32-bit mask, the lookup returns its lowest set bit. */
  lemma LowestIsLeast(mask: bv32)
    requires mask != 0
    ensures LowestSetBit(mask) < 32 && IsSet(mask, LowestSetBit(mask))
    ensures forall q: nat :: q < LowestSetBit(mask) ==> !IsSet(mask, q)
  {
    hide And, Below, Or, Double, Bit, Isolated, Table, Product;
    NothingBelowZero(mask);
    var p := SomeBitSet(mask, 0);
    NoneBelow(mask, p);
    Powers();
    Isolates(mask, Bit(p));
    TableInverts(p);
  }
}
