/** The packed user bitmap: two bits per reserve in one 128-bit word, refined to two sets of reserve indices. */
module Bitmap {

  type u8 = x: int | 0 <= x < 256

  const MAX_RESERVES: u8 := 64
  const COLLATERAL_BIT_OFFSET: bv8 := 0
  const BORROWING_BIT_OFFSET: bv8 := 1

  /** Position of a flag inside the word. */
  function BitPosition(index: u8, offset: bv8): bv8 {
    (index as bv8) * 2 + offset
  }

  predicate TestBit(bitmap: bv128, position: bv8)
    requires position < 128
  {
    (bitmap >> position) & 1 == 1
  }

  predicate IsUsingAsCollateral(bitmap: bv128, index: u8) {
    if index >= MAX_RESERVES then false
    else
      PositionFits(index);
      TestBit(bitmap, BitPosition(index, COLLATERAL_BIT_OFFSET))
  }

  predicate IsBorrowing(bitmap: bv128, index: u8) {
    if index >= MAX_RESERVES then false
    else
      PositionFits(index);
      TestBit(bitmap, BitPosition(index, BORROWING_BIT_OFFSET))
  }

  /** What the word stands for. */
  ghost function Collateral(bitmap: bv128): set<nat> {
    set i: nat | i < 64 && IsUsingAsCollateral(bitmap, i)
  }

  ghost function Borrowed(bitmap: bv128): set<nat> {
    set i: nat | i < 64 && IsBorrowing(bitmap, i)
  }

  // ----- bit arithmetic -----

  lemma ByteRoundTrip(i: nat)
    requires i < 64
    ensures (i as bv8) as nat == i
  {
  }

  lemma ByteOrder(b: bv8)
    ensures (b < 64) == ((b as nat) < 64)
  {
  }

  lemma DoubledBelow128(b: bv8)
    requires b < 64
    ensures b * 2 < 128 && b * 2 + 1 < 128
  {
  }

  lemma PositionFits(index: nat)
    requires index < 64
    ensures BitPosition(index, 0) < 128 && BitPosition(index, 1) < 128
  {
    ByteRoundTrip(index);
    ByteOrder(index as bv8);
    DoubledBelow128(index as bv8);
  }

  lemma DoublingIsInjective(a: bv8, b: bv8)
    requires a < 64 && b < 64
    ensures a * 2 == b * 2 <==> a == b
    ensures a * 2 + 1 == b * 2 + 1 <==> a == b
    ensures a * 2 != b * 2 + 1
  {
  }

  /** Different reserves, and the two flags of one reserve, never share a bit. */
  lemma PositionsDistinct(i: nat, j: nat)
    requires i < 64 && j < 64
    ensures BitPosition(i, 0) == BitPosition(j, 0) <==> i == j
    ensures BitPosition(i, 1) == BitPosition(j, 1) <==> i == j
    ensures BitPosition(i, 0) != BitPosition(j, 1)
  {
    ByteRoundTrip(i);
    ByteRoundTrip(j);
    ByteOrder(i as bv8);
    ByteOrder(j as bv8);
    DoublingIsInjective(i as bv8, j as bv8);
  }

  function WithBit(bitmap: bv128, position: bv8, value: bool): bv128
    requires position < 128
  {
    if value then bitmap | ((1 as bv128) << position) else bitmap & !((1 as bv128) << position)
  }

  lemma WithBitChangesOneBit(bitmap: bv128, p: bv8, q: bv8, value: bool)
    requires p < 128 && q < 128
    ensures TestBit(WithBit(bitmap, p, value), q) <==> if p == q then value else TestBit(bitmap, q)
  {
    SetOneBit(bitmap, p, q);
    ClearOneBit(bitmap, p, q);
  }

  lemma SetOneBit(bitmap: bv128, p: bv8, q: bv8)
    requires p < 128 && q < 128
    ensures TestBit(bitmap | ((1 as bv128) << p), q) == (p == q || TestBit(bitmap, q))
  {
  }

  lemma ClearOneBit(bitmap: bv128, p: bv8, q: bv8)
    requires p < 128 && q < 128
    ensures TestBit(bitmap & !((1 as bv128) << p), q) == (p != q && TestBit(bitmap, q))
  {
  }

  // ----- setters: each changes one membership of one set -----

  ghost function Membership(s: set<nat>, i: nat, value: bool): set<nat> {
    if i >= 64 then s else if value then s + {i} else s - {i}
  }

  lemma CollateralBitWritten(bitmap: bv128, i: nat, j: nat, value: bool)
    requires i < 64 && j < 64
    ensures BitPosition(i, 0) < 128
    ensures var r := WithBit(bitmap, BitPosition(i, 0), value);
            && (IsUsingAsCollateral(r, j) <==> if j == i then value else IsUsingAsCollateral(bitmap, j))
            && (IsBorrowing(r, j) <==> IsBorrowing(bitmap, j))
  {
    PositionFits(i);
    PositionFits(j);
    PositionsDistinct(i, j);
    WithBitChangesOneBit(bitmap, BitPosition(i, 0), BitPosition(j, 0), value);
    WithBitChangesOneBit(bitmap, BitPosition(i, 0), BitPosition(j, 1), value);
  }

  lemma BorrowingBitWritten(bitmap: bv128, i: nat, j: nat, value: bool)
    requires i < 64 && j < 64
    ensures BitPosition(i, 1) < 128
    ensures var r := WithBit(bitmap, BitPosition(i, 1), value);
            && (IsBorrowing(r, j) <==> if j == i then value else IsBorrowing(bitmap, j))
            && (IsUsingAsCollateral(r, j) <==> IsUsingAsCollateral(bitmap, j))
  {
    PositionFits(i);
    PositionFits(j);
    PositionsDistinct(i, j);
    PositionsDistinct(j, i);
    WithBitChangesOneBit(bitmap, BitPosition(i, 1), BitPosition(j, 1), value);
    WithBitChangesOneBit(bitmap, BitPosition(i, 1), BitPosition(j, 0), value);
  }

  method SetUsingAsCollateral(bitmap: bv128, index: u8, value: bool) returns (r: bv128)
    ensures Collateral(r) == Membership(Collateral(bitmap), index, value)
    ensures Borrowed(r) == Borrowed(bitmap)
  {
    if index >= MAX_RESERVES { return bitmap; }
    PositionFits(index);
    r := WithBit(bitmap, BitPosition(index, COLLATERAL_BIT_OFFSET), value);
    forall j: nat | j < 64
      ensures IsUsingAsCollateral(r, j) <==> if j == index then value else IsUsingAsCollateral(bitmap, j)
      ensures IsBorrowing(r, j) <==> IsBorrowing(bitmap, j)
    {
      CollateralBitWritten(bitmap, index, j, value);
    }
  }

  method SetBorrowing(bitmap: bv128, index: u8, value: bool) returns (r: bv128)
    ensures Borrowed(r) == Membership(Borrowed(bitmap), index, value)
    ensures Collateral(r) == Collateral(bitmap)
  {
    if index >= MAX_RESERVES { return bitmap; }
    PositionFits(index);
    r := WithBit(bitmap, BitPosition(index, BORROWING_BIT_OFFSET), value);
    forall j: nat | j < 64
      ensures IsBorrowing(r, j) <==> if j == index then value else IsBorrowing(bitmap, j)
      ensures IsUsingAsCollateral(r, j) <==> IsUsingAsCollateral(bitmap, j)
    {
      BorrowingBitWritten(bitmap, index, j, value);
    }
  }

  // ----- queries -----

  method ReadCollateral(bitmap: bv128, index: u8) returns (r: bool)
    ensures r <==> index in Collateral(bitmap)
  {
    r := IsUsingAsCollateral(bitmap, index);
  }

  method ReadBorrowing(bitmap: bv128, index: u8) returns (r: bool)
    ensures r <==> index in Borrowed(bitmap)
  {
    r := IsBorrowing(bitmap, index);
  }

  method HasAnyCollateral(bitmap: bv128) returns (r: bool)
    ensures r <==> Collateral(bitmap) != {}
  {
    ghost var flags := Collateral(bitmap);
    for i := 0 to 64
      invariant Below(flags, i) == {}
    {
      var flagged := ReadCollateral(bitmap, i);
      if flagged { return true; }
    }
    assert flags == Below(flags, 64);
    r := false;
  }

  method HasAnyBorrows(bitmap: bv128) returns (r: bool)
    ensures r <==> Borrowed(bitmap) != {}
  {
    ghost var flags := Borrowed(bitmap);
    for i := 0 to 64
      invariant Below(flags, i) == {}
    {
      var flagged := ReadBorrowing(bitmap, i);
      if flagged { return true; }
    }
    assert flags == Below(flags, 64);
    r := false;
  }

  method CountCollateralPositions(bitmap: bv128) returns (count: u8)
    ensures count == |Collateral(bitmap)|
  {
    ghost var flags := Collateral(bitmap);
    count := 0;
    for i := 0 to 64
      invariant count == |Below(flags, i)| && count <= i
    {
      BelowNext(flags, i);
      var flagged := ReadCollateral(bitmap, i);
      if flagged { count := count + 1; }
    }
    assert flags == Below(flags, 64);
  }

  method CountBorrowPositions(bitmap: bv128) returns (count: u8)
    ensures count == |Borrowed(bitmap)|
  {
    ghost var flags := Borrowed(bitmap);
    count := 0;
    for i := 0 to 64
      invariant count == |Below(flags, i)| && count <= i
    {
      BelowNext(flags, i);
      var flagged := ReadBorrowing(bitmap, i);
      if flagged { count := count + 1; }
    }
    assert flags == Below(flags, 64);
  }

  ghost function Below(s: set<nat>, bound: nat): set<nat> {
    set j <- s | j < bound
  }

  lemma BelowNext(s: set<nat>, i: nat)
    ensures Below(s, i + 1) == if i in s then Below(s, i) + {i} else Below(s, i)
    ensures |Below(s, i + 1)| == |Below(s, i)| + if i in s then 1 else 0
  {
    assert Below(s, i + 1) == if i in s then Below(s, i) + {i} else Below(s, i);
  }

  lemma BorrowedBelow64(bitmap: bv128)
    ensures forall j <- Borrowed(bitmap) :: j < 64
  {
  }

  lemma EmptyWord()
    ensures Collateral(0) == {} && Borrowed(0) == {}
  {
    forall j: nat | j < 64 ensures !IsUsingAsCollateral(0, j) && !IsBorrowing(0, j) {
      PositionFits(j);
      ZeroBit(BitPosition(j, 0));
      ZeroBit(BitPosition(j, 1));
    }
  }

  lemma ZeroBit(p: bv8)
    requires p < 128
    ensures !TestBit(0, p)
  {
  }
}
