/** The CRC-32 (IEEE) that guards a write-ahead-log payload; index.html spells it out, RFC 1952 section 8 defines it. */
module Crc {

  const POLY: bv32 := 0xEDB88320
  const ONES: bv32 := 0xFFFFFFFF

  // The word operations have names so that proofs about sequences need not look at bits.
  function Xor(x: bv32, y: bv32): bv32 { x ^ y }
  function Low(x: bv32): bv32 { x & 0xFF }
  function Down(x: bv32): bv32 { x >> 8 }
  function Up(x: bv32): bv32 { x << 8 }
  function Wide(b: bv8): bv32 { b as bv32 }

  function Shift(c: bv32): bv32 {
    if c & 1 == 1 then POLY ^ (c >> 1) else c >> 1
  }

  function Shifts(c: bv32, k: nat): bv32
    decreases k
  {
    if k == 0 then c else Shifts(Shift(c), k - 1)
  }

  /** One byte through the register; the table entry for a byte is the byte shifted eight times. */
  function Step(c: bv32, b: bv8): bv32 {
    Xor(Shifts(Low(Xor(c, Wide(b))), 8), Down(c))
  }

  function Run(c: bv32, data: seq<bv8>): bv32
    decreases |data|
  {
    if data == [] then c else Run(Step(c, data[0]), data[1..])
  }

  function Checksum(data: seq<bv8>): bv32 {
    Xor(Run(ONES, data), ONES)
  }

  // ---------- facts about bits ----------

  lemma ShiftInjective(x: bv32, y: bv32)
    requires Shift(x) == Shift(y)
    ensures x == y
  {
  }

  lemma XorBits(x: bv32, y: bv32)
    ensures (x ^ y) >> 1 == (x >> 1) ^ (y >> 1)
    ensures (x ^ y) & 1 == (x & 1) ^ (y & 1)
    ensures x & 1 == 0 || x & 1 == 1
    ensures y & 1 == 0 || y & 1 == 1
  {
  }

  lemma XorPoly(a: bv32, b: bv32)
    ensures POLY ^ (a ^ b) == (POLY ^ a) ^ b == a ^ (POLY ^ b)
    ensures (POLY ^ a) ^ (POLY ^ b) == a ^ b
  {
  }

  lemma ShiftOfXor(x: bv32, y: bv32)
    ensures Shift(x ^ y) == Shift(x) ^ Shift(y)
  {
    XorBits(x, y);
    XorPoly(x >> 1, y >> 1);
  }

  lemma ShiftXor(x: bv32, y: bv32)
    ensures Shift(Xor(x, y)) == Xor(Shift(x), Shift(y))
  {
    hide Shift;
    ShiftOfXor(x, y);
  }

  lemma XorAssoc(x: bv32, y: bv32, z: bv32)
    ensures Xor(Xor(x, y), z) == Xor(x, Xor(y, z))
  {
  }

  lemma XorZero(x: bv32)
    ensures Xor(x, 0) == x
  {
  }

  lemma XorCancelRight(x: bv32, y: bv32, z: bv32)
    requires Xor(x, z) == Xor(y, z)
    ensures x == y
  {
  }

  lemma XorCancelLeft(z: bv32, x: bv32, y: bv32)
    requires Xor(z, x) == Xor(z, y)
    ensures x == y
  {
  }

  lemma SplitByte(x: bv32)
    ensures x == Xor(Low(x), Up(Down(x))) && Down(x) <= 0xFFFFFF
  {
  }

  lemma MixByte(c: bv32, b: bv8)
    ensures Down(Xor(c, Wide(b))) == Down(c)
  {
  }

  lemma WideInjective(b: bv8, b': bv8)
    requires Wide(b) == Wide(b')
    ensures b == b'
  {
  }

  lemma LowOf(b: bv8, w: bv32)
    ensures Low(Xor(Wide(b), Up(w))) == Wide(b)
  {
  }

  lemma HighOf(b: bv8, w: bv32)
    requires w <= 0xFFFFFF
    ensures Down(Xor(Wide(b), Up(w))) == w
  {
  }

  lemma GrowWord(b: bv8, w: bv32)
    ensures w == 0 ==> Xor(Wide(b), Up(w)) <= 0xFF
    ensures w <= 0xFF ==> Xor(Wide(b), Up(w)) <= 0xFFFF
    ensures w <= 0xFFFF ==> Xor(Wide(b), Up(w)) <= 0xFFFFFF
  {
  }

  function Double(x: bv32): bv32 { x << 1 }

  lemma ShiftOut(z: bv32)
    requires z <= 0x7FFFFFFF
    ensures Shift(Double(z)) == z
  {
  }

  lemma UpIsDoubles(y: bv32)
    requires y <= 0xFFFFFF
    ensures Up(y) == Double(Double(Double(Double(Double(Double(Double(Double(y))))))))
  {
  }

  lemma DoubleBound(y: bv32)
    ensures y <= 0xFFFFFF ==> Double(y) <= 0x1FFFFFF
    ensures y <= 0x1FFFFFF ==> Double(y) <= 0x3FFFFFF
    ensures y <= 0x3FFFFFF ==> Double(y) <= 0x7FFFFFF
    ensures y <= 0x7FFFFFF ==> Double(y) <= 0xFFFFFFF
    ensures y <= 0xFFFFFFF ==> Double(y) <= 0x1FFFFFFF
    ensures y <= 0x1FFFFFFF ==> Double(y) <= 0x3FFFFFFF
    ensures y <= 0x3FFFFFFF ==> Double(y) <= 0x7FFFFFFF
  {
  }

  lemma MaskIndex(x: bv32)
    ensures 0 <= (Low(x) as int) < 256 && ((Low(x) as int) as bv32) == Low(x)
  {
  }

  // ---------- the register is linear and loses nothing ----------

  lemma {:induction false} ShiftsInjective(x: bv32, y: bv32, k: nat)
    requires Shifts(x, k) == Shifts(y, k)
    ensures x == y
    decreases k
  {
    hide Shift;
    if k > 0 {
      ShiftsInjective(Shift(x), Shift(y), k - 1);
      ShiftInjective(x, y);
    }
  }

  lemma {:induction false} ShiftsXor(x: bv32, y: bv32, k: nat)
    ensures Shifts(Xor(x, y), k) == Xor(Shifts(x, k), Shifts(y, k))
    decreases k
  {
    hide Shift, Xor;
    if k > 0 {
      ShiftXor(x, y);
      ShiftsXor(Shift(x), Shift(y), k - 1);
    }
  }

  lemma {:induction false} ShiftsAdd(c: bv32, j: nat, k: nat)
    ensures Shifts(Shifts(c, j), k) == Shifts(c, j + k)
    decreases j
  {
    hide Shift;
    if j > 0 { ShiftsAdd(Shift(c), j - 1, k); }
  }

  lemma {:induction false} ShiftsSnoc(c: bv32, k: nat)
    ensures Shifts(c, k + 1) == Shift(Shifts(c, k))
    decreases k
  {
    hide Shift;
    if k > 0 { ShiftsSnoc(Shift(c), k - 1); }
  }

  lemma ShiftsDouble(z: bv32, k: nat)
    requires z <= 0x7FFFFFFF
    ensures Shifts(Double(z), k + 1) == Shifts(z, k)
  {
    hide Shift, Double;
    ShiftOut(z);
  }

  /** Eight shifts undo a shift by a byte when no bit is lost. */
  lemma ByteOut(y: bv32)
    requires y <= 0xFFFFFF
    ensures Shifts(Up(y), 8) == y
  {
    hide Shifts, Double, Up;
    var d1 := Double(y);
    var d2 := Double(d1);
    var d3 := Double(d2);
    var d4 := Double(d3);
    var d5 := Double(d4);
    var d6 := Double(d5);
    var d7 := Double(d6);
    UpIsDoubles(y);
    DoubleBound(y);
    DoubleBound(d1);
    DoubleBound(d2);
    DoubleBound(d3);
    DoubleBound(d4);
    DoubleBound(d5);
    DoubleBound(d6);
    ShiftsDouble(d7, 7);
    ShiftsDouble(d6, 6);
    ShiftsDouble(d5, 5);
    ShiftsDouble(d4, 4);
    ShiftsDouble(d3, 3);
    ShiftsDouble(d2, 2);
    ShiftsDouble(d1, 1);
    ShiftsDouble(y, 0);
    ShiftsNone(y);
  }

  lemma ShiftsNone(c: bv32)
    ensures Shifts(c, 0) == c
  {
  }

  /** The table form is the bitwise form: mix the byte in and shift eight times. */
  lemma StepIsShifts(c: bv32, b: bv8)
    ensures Step(c, b) == Shifts(Xor(c, Wide(b)), 8)
  {
    hide Shifts, Xor, Low, Down, Up, Wide;
    var x := Xor(c, Wide(b));
    SplitByte(x);
    MixByte(c, b);
    ShiftsXor(Low(x), Up(Down(x)), 8);
    ByteOut(Down(x));
  }

  // ---------- bursts ----------

  /** Up to four bytes as one word, the first byte lowest. */
  function Word(data: seq<bv8>): bv32
    decreases |data|
  {
    if data == [] then 0 else Xor(Wide(data[0]), Up(Word(data[1..])))
  }

  lemma {:induction false} WordBound(data: seq<bv8>)
    requires |data| <= 3
    ensures Word(data) <= 0xFFFFFF
    ensures |data| <= 2 ==> Word(data) <= 0xFFFF
    ensures |data| <= 1 ==> Word(data) <= 0xFF
    ensures |data| == 0 ==> Word(data) == 0
    decreases |data|
  {
    hide Xor, Wide, Up;
    if data != [] {
      WordBound(data[1..]);
      GrowWord(data[0], Word(data[1..]));
    }
  }

  lemma {:induction false} WordInjective(a: seq<bv8>, b: seq<bv8>)
    requires |a| == |b| <= 4 && Word(a) == Word(b)
    ensures a == b
    decreases |a|
  {
    hide Xor, Wide, Up, Low, Down;
    if a != [] {
      var wa, wb := Word(a[1..]), Word(b[1..]);
      WordBound(a[1..]);
      WordBound(b[1..]);
      LowOf(a[0], wa);
      LowOf(b[0], wb);
      HighOf(a[0], wa);
      HighOf(b[0], wb);
      WideInjective(a[0], b[0]);
      WordInjective(a[1..], b[1..]);
      assert a == [a[0]] + a[1..] && b == [b[0]] + b[1..];
    }
  }

  /** Up to four bytes act on the register like one word mixed in before all their shifts. */
  lemma {:induction false} RunIsWord(c: bv32, data: seq<bv8>)
    requires |data| <= 4
    ensures Run(c, data) == Shifts(Xor(c, Word(data)), 8 * |data|)
    decreases |data|
  {
    hide Shifts, Step, Xor, Wide, Up;
    if data == [] {
      XorZero(c);
      ShiftsNone(c);
    } else {
      var b, w := Wide(data[0]), Word(data[1..]);
      WordBound(data[1..]);
      StepIsShifts(c, data[0]);
      ByteOut(w);
      ShiftsXor(Xor(c, b), Up(w), 8);
      XorAssoc(c, b, Up(w));
      RunIsWord(Step(c, data[0]), data[1..]);
      ShiftsAdd(Xor(c, Word(data)), 8, 8 * |data[1..]|);
    }
  }

  lemma {:induction false} RunConcat(c: bv32, a: seq<bv8>, b: seq<bv8>)
    ensures Run(c, a + b) == Run(Run(c, a), b)
    decreases |a|
  {
    hide Step;
    if a == [] {
      assert a + b == b;
    } else {
      assert (a + b)[1..] == a[1..] + b;
      RunConcat(Step(c, a[0]), a[1..], b);
    }
  }

  lemma {:induction false} RunInjective(c: bv32, c': bv32, data: seq<bv8>)
    requires Run(c, data) == Run(c', data)
    ensures c == c'
    decreases |data|
  {
    hide Step, Shifts, Xor, Wide;
    if data != [] {
      RunInjective(Step(c, data[0]), Step(c', data[0]), data[1..]);
      StepIsShifts(c, data[0]);
      StepIsShifts(c', data[0]);
      ShiftsInjective(Xor(c, Wide(data[0])), Xor(c', Wide(data[0])), 8);
      XorCancelRight(c, c', Wide(data[0]));
    }
  }

  /** Equal registers after equally many, at most four, bytes from one register: the bytes were equal. */
  lemma BurstInjective(c: bv32, data: seq<bv8>, data': seq<bv8>)
    requires |data| == |data'| <= 4 && Run(c, data) == Run(c, data')
    ensures data == data'
  {
    hide Run, Shifts, Xor, Word;
    RunIsWord(c, data);
    RunIsWord(c, data');
    ShiftsInjective(Xor(c, Word(data)), Xor(c, Word(data')), 8 * |data|);
    XorCancelLeft(c, Word(data), Word(data'));
    WordInjective(data, data');
  }

  /** A change confined to at most four consecutive bytes always changes the checksum. */
  lemma BurstDetected(before: seq<bv8>, data: seq<bv8>, data': seq<bv8>, after: seq<bv8>)
    requires |data| == |data'| <= 4 && Checksum(before + data + after) == Checksum(before + data' + after)
    ensures data == data'
  {
    hide Run, Xor;
    var c := Run(ONES, before);
    RunConcat(ONES, before, data);
    RunConcat(ONES, before, data');
    RunConcat(ONES, before + data, after);
    RunConcat(ONES, before + data', after);
    XorCancelRight(Run(ONES, before + data + after), Run(ONES, before + data' + after), ONES);
    RunInjective(Run(c, data), Run(c, data'), after);
    BurstInjective(c, data, data');
  }

  // ---------- the standard check value ----------

  lemma CheckValue()
    ensures Checksum([0x31, 0x32, 0x33, 0x34, 0x35, 0x36, 0x37, 0x38, 0x39]) == 0xCBF43926
  {
    assert Step(0xFFFFFFFF, 0x31) == 0x7C231048;
    assert Step(0x7C231048, 0x32) == 0xB0ACBB32;
    assert Step(0xB0ACBB32, 0x33) == 0x77B79C2D;
    assert Step(0x77B79C2D, 0x34) == 0x641C1F5C;
    assert Step(0x641C1F5C, 0x35) == 0x340AC5E3;
    assert Step(0x340AC5E3, 0x36) == 0xF68D2C9E;
    assert Step(0xF68D2C9E, 0x37) == 0xAFFC9660;
    assert Step(0xAFFC9660, 0x38) == 0x651F2550;
    assert Step(0x651F2550, 0x39) == 0x340BC6D9;
  }

  // ---------- the program ----------

  /** The nested loops that fill the 256-entry table. */
  method BuildTable() returns (table: array<bv32>)
    ensures fresh(table) && table.Length == 256
    ensures forall n :: 0 <= n < 256 ==> table[n] == Shifts(n as bv32, 8)
  {
    hide Shifts;
    table := new bv32[256];
    var n := 0;
    while n < 256
      invariant 0 <= n <= 256
      invariant forall i :: 0 <= i < n ==> table[i] == Shifts(i as bv32, 8)
    {
      table[n] := TableEntry(n as bv32);
      n := n + 1;
    }
  }

  method TableEntry(n: bv32) returns (c: bv32)
    ensures c == Shifts(n, 8)
  {
    hide Shifts;
    c := n;
    var k := 0;
    ShiftsNone(n);
    while k < 8
      invariant 0 <= k <= 8
      invariant c == Shifts(n, k)
    {
      ShiftsSnoc(n, k);
      c := if c & 1 == 1 then POLY ^ (c >> 1) else c >> 1;
      k := k + 1;
    }
  }

  lemma RunNone(c: bv32)
    ensures Run(c, []) == c
  {
  }

  lemma RunSnoc(c: bv32, data: seq<bv8>, i: nat)
    requires i < |data|
    ensures Run(c, data[..i + 1]) == Step(Run(c, data[..i]), data[i])
  {
    hide Step;
    assert data[..i + 1] == data[..i] + [data[i]];
    RunConcat(c, data[..i], [data[i]]);
  }

  method Crc32(table: array<bv32>, data: seq<bv8>) returns (sum: bv32)
    requires table.Length == 256
    requires forall n :: 0 <= n < 256 ==> table[n] == Shifts(n as bv32, 8)
    ensures sum == Checksum(data)
  {
    hide Shifts, Run, Xor, Low, Down, Wide;
    var c := ONES;
    var i := 0;
    RunNone(c);
    assert data[..0] == [];
    while i < |data|
      invariant 0 <= i <= |data|
      invariant c == Run(ONES, data[..i])
    {
      RunSnoc(ONES, data, i);
      var x := Xor(c, Wide(data[i]));
      MaskIndex(x);
      c := Xor(table[Low(x) as int], Down(c));
      i := i + 1;
    }
    assert data[..|data|] == data;
    sum := Xor(c, ONES);
  }
}
