/** The write-ahead log as bytes: frames of length, checksum and payload (internal/storage/wal.go). */
module Wal {
  import opened Storage
  import opened Replica
  import opened Crc

  const LIMIT: nat := 0x1_0000_0000

  /** The serialisation of records. Nothing is assumed of it but what `Faithful` says of the records at hand. */
  datatype Codec = Codec(encode: Record -> seq<bv8>, decode: seq<bv8> -> Option<Record>)

  /** These records survive encoding, and their payload length fits the header. */
  ghost predicate Faithful(codec: Codec, records: seq<Record>) {
    forall i :: 0 <= i < |records| ==>
      codec.decode(codec.encode(records[i])) == Some(records[i]) && |codec.encode(records[i])| < LIMIT
  }

  // ---------- headers ----------

  // Bytes and their values, bit by bit.
  function Pack(b7: bool, b6: bool, b5: bool, b4: bool, b3: bool, b2: bool, b1: bool, b0: bool): bv8 {
    (if b7 then 0x80 else 0) | (if b6 then 0x40 else 0) | (if b5 then 0x20 else 0) | (if b4 then 0x10 else 0)
    | (if b3 then 0x08 else 0) | (if b2 then 0x04 else 0) | (if b1 then 0x02 else 0) | (if b0 then 0x01 else 0)
  }

  function Has(x: bv8, bit: bv8): bool { x & bit != 0 }

  function ByteOf(n: nat): bv8 {
    var n1 := n / 2; var n2 := n1 / 2; var n3 := n2 / 2; var n4 := n3 / 2; var n5 := n4 / 2; var n6 := n5 / 2; var n7 := n6 / 2;
    Pack(n7 % 2 == 1, n6 % 2 == 1, n5 % 2 == 1, n4 % 2 == 1, n3 % 2 == 1, n2 % 2 == 1, n1 % 2 == 1, n % 2 == 1)
  }

  function Value(on: bool, weight: nat): nat { if on then weight else 0 }

  function IntOf(x: bv8): nat {
    Value(Has(x, 0x80), 128) + Value(Has(x, 0x40), 64) + Value(Has(x, 0x20), 32) + Value(Has(x, 0x10), 16)
    + Value(Has(x, 0x08), 8) + Value(Has(x, 0x04), 4) + Value(Has(x, 0x02), 2) + Value(Has(x, 0x01), 1)
  }

  lemma PackHas(b7: bool, b6: bool, b5: bool, b4: bool, b3: bool, b2: bool, b1: bool, b0: bool)
    ensures var x := Pack(b7, b6, b5, b4, b3, b2, b1, b0);
      && Has(x, 0x80) == b7 && Has(x, 0x40) == b6 && Has(x, 0x20) == b5 && Has(x, 0x10) == b4
      && Has(x, 0x08) == b3 && Has(x, 0x04) == b2 && Has(x, 0x02) == b1 && Has(x, 0x01) == b0
  {
  }

  lemma ByteBack(n: nat)
    requires n < 0x100
    ensures IntOf(ByteOf(n)) == n
  {
    hide Pack, Has, Value;
    var n1 := n / 2; var n2 := n1 / 2; var n3 := n2 / 2; var n4 := n3 / 2; var n5 := n4 / 2; var n6 := n5 / 2; var n7 := n6 / 2;
    PackHas(n7 % 2 == 1, n6 % 2 == 1, n5 % 2 == 1, n4 % 2 == 1, n3 % 2 == 1, n2 % 2 == 1, n1 % 2 == 1, n % 2 == 1);
    LowHalves(n, n1, n2, n3, n4);
    HighHalves(n4, n5, n6, n7);
  }

  lemma LowHalves(n: nat, n1: nat, n2: nat, n3: nat, n4: nat)
    requires n < 0x100 && n1 == n / 2 && n2 == n1 / 2 && n3 == n2 / 2 && n4 == n3 / 2
    ensures n == n4 * 16 + Value(n3 % 2 == 1, 8) + Value(n2 % 2 == 1, 4) + Value(n1 % 2 == 1, 2) + Value(n % 2 == 1, 1)
    ensures n4 < 0x10
  {
  }

  lemma HighHalves(n4: nat, n5: nat, n6: nat, n7: nat)
    requires n4 < 0x10 && n5 == n4 / 2 && n6 == n5 / 2 && n7 == n6 / 2
    ensures n4 * 16 == Value(n7 % 2 == 1, 128) + Value(n6 % 2 == 1, 64) + Value(n5 % 2 == 1, 32) + Value(n4 % 2 == 1, 16)
  {
  }

  /** A length as four big-endian bytes; a length of 2^32 or more wraps around. */
  function PutLength(n: nat): (s: seq<bv8>)
    ensures |s| == 4
  {
    var n1 := n / 0x100;
    var n2 := n1 / 0x100;
    [ByteOf(n2 / 0x100 % 0x100), ByteOf(n2 % 0x100), ByteOf(n1 % 0x100), ByteOf(n % 0x100)]
  }

  function GetLength(s: seq<bv8>): nat
    requires |s| == 4
  {
    IntOf(s[0]) * 0x100_0000 + IntOf(s[1]) * 0x1_0000 + IntOf(s[2]) * 0x100 + IntOf(s[3])
  }

  lemma LengthBack(n: nat)
    requires n < LIMIT
    ensures GetLength(PutLength(n)) == n
  {
    hide ByteOf, IntOf;
    var n1 := n / 0x100;
    var n2 := n1 / 0x100;
    ByteBack(n2 / 0x100 % 0x100);
    ByteBack(n2 % 0x100);
    ByteBack(n1 % 0x100);
    ByteBack(n % 0x100);
    Digits(n, n1, n2, n2 / 0x100);
  }

  lemma Digits(n: nat, n1: nat, n2: nat, n3: nat)
    requires n < LIMIT && n1 == n / 0x100 && n2 == n1 / 0x100 && n3 == n2 / 0x100
    ensures n3 % 0x100 * 0x100_0000 + n2 % 0x100 * 0x1_0000 + n1 % 0x100 * 0x100 + n % 0x100 == n
  {
    assert n3 < 0x100;
  }

  function PutChecksum(x: bv32): (s: seq<bv8>)
    ensures |s| == 4
  {
    [(x >> 24) as bv8, ((x >> 16) & 0xFF) as bv8, ((x >> 8) & 0xFF) as bv8, (x & 0xFF) as bv8]
  }

  function GetChecksum(s: seq<bv8>): bv32
    requires |s| == 4
  {
    ((s[0] as bv32) << 24) | ((s[1] as bv32) << 16) | ((s[2] as bv32) << 8) | (s[3] as bv32)
  }

  lemma ChecksumBack(x: bv32)
    ensures GetChecksum(PutChecksum(x)) == x
  {
  }

  // ---------- frames ----------

  function Header(payload: seq<bv8>): (s: seq<bv8>)
    ensures |s| == 8
  {
    PutLength(|payload|) + PutChecksum(Checksum(payload))
  }

  function Frame(codec: Codec, r: Record): (s: seq<bv8>)
    ensures |s| == 8 + |codec.encode(r)|
  {
    Header(codec.encode(r)) + codec.encode(r)
  }

  function Frames(codec: Codec, records: seq<Record>): seq<bv8>
    decreases |records|
  {
    if records == [] then [] else Frame(codec, records[0]) + Frames(codec, records[1..])
  }

  /** The first record of a file, if its frame is complete, intact and decodable. */
  function First(codec: Codec, file: seq<bv8>): (r: Option<Record>)
    ensures r.Some? ==> |file| >= 8 && 8 + GetLength(file[..4]) <= |file|
  {
    if |file| < 8 then None
    else
      var length := GetLength(file[..4]);
      if |file| - 8 < length then None
      else
        var payload := file[8..8 + length];
        if Checksum(payload) != GetChecksum(file[4..8]) then None
        else codec.decode(payload)
  }

  /** All records up to the first frame that is incomplete, corrupt or undecodable. */
  function ReadRecords(codec: Codec, file: seq<bv8>): seq<Record>
    decreases |file|
  {
    var r := First(codec, file);
    if r.None? then [] else [r.value] + ReadRecords(codec, file[8 + GetLength(file[..4])..])
  }

  // ---------- reading back ----------

  /** A payload under its own header, followed by anything. */
  lemma FirstOfFrame(codec: Codec, payload: seq<bv8>, rest: seq<bv8>)
    requires |payload| < LIMIT
    ensures var file := Header(payload) + payload + rest;
      && GetLength(file[..4]) == |payload| && GetChecksum(file[4..8]) == Checksum(payload)
      && First(codec, file) == codec.decode(payload)
      && file[8 + |payload|..] == rest
  {
    hide PutLength, GetLength, PutChecksum, GetChecksum, Checksum;
    var file := Header(payload) + payload + rest;
    LengthBack(|payload|);
    ChecksumBack(Checksum(payload));
    assert file[..4] == PutLength(|payload|);
    assert file[4..8] == PutChecksum(Checksum(payload));
    assert file[8..8 + |payload|] == payload;
  }

  lemma ReadOne(codec: Codec, r: Record, rest: seq<bv8>)
    requires codec.decode(codec.encode(r)) == Some(r) && |codec.encode(r)| < LIMIT
    ensures ReadRecords(codec, Frame(codec, r) + rest) == [r] + ReadRecords(codec, rest)
  {
    hide Header, GetLength, First;
    FirstOfFrame(codec, codec.encode(r), rest);
  }

  /** Complete frames are read, and reading goes on with whatever follows them. */
  lemma {:induction false} ReadFrames(codec: Codec, records: seq<Record>, rest: seq<bv8>)
    requires Faithful(codec, records)
    ensures ReadRecords(codec, Frames(codec, records) + rest) == records + ReadRecords(codec, rest)
    decreases |records|
  {
    hide Frame, ReadRecords;
    if records == [] {
      assert Frames(codec, records) + rest == rest;
    } else {
      var r, more := records[0], records[1..];
      var tail := Frames(codec, more) + rest;
      assert Frames(codec, records) + rest == Frame(codec, r) + tail;
      ReadOne(codec, r, tail);
      ReadFrames(codec, more, rest);
    }
  }

  /** The round trip: what has been appended is what is read. */
  lemma RoundTrip(codec: Codec, records: seq<Record>)
    requires Faithful(codec, records)
    ensures ReadRecords(codec, Frames(codec, records)) == records
  {
    hide First;
    ReadFrames(codec, records, []);
    assert Frames(codec, records) + [] == Frames(codec, records);
    assert ReadRecords(codec, []) == [] by { NothingToRead(codec); }
  }

  lemma NothingToRead(codec: Codec)
    ensures ReadRecords(codec, []) == []
  {
  }

  /** Appending to a file that ends on a frame boundary. */
  lemma AppendAfterCleanTail(codec: Codec, records: seq<Record>, more: seq<Record>)
    requires Faithful(codec, records) && Faithful(codec, more)
    ensures ReadRecords(codec, Frames(codec, records) + Frames(codec, more)) == records + more
  {
    ReadFrames(codec, records, Frames(codec, more));
    RoundTrip(codec, more);
  }

  // ---------- torn writes ----------

  /** How many whole frames of `records` fit in the first `cut` bytes of their file. */
  function Whole(codec: Codec, records: seq<Record>, cut: nat): (k: nat)
    ensures k <= |records|
    decreases |records|
  {
    if records == [] || cut < |Frame(codec, records[0])| then 0
    else 1 + Whole(codec, records[1..], cut - |Frame(codec, records[0])|)
  }

  lemma {:induction false} FramesSplit(codec: Codec, a: seq<Record>, b: seq<Record>)
    ensures Frames(codec, a + b) == Frames(codec, a) + Frames(codec, b)
    decreases |a|
  {
    hide Frame;
    if a == [] {
      assert a + b == b;
    } else {
      assert (a + b)[1..] == a[1..] + b;
      FramesSplit(codec, a[1..], b);
    }
  }

  /** The count is exactly the number of frames that end at or before the cut. */
  lemma {:induction false} WholeIsExact(codec: Codec, records: seq<Record>, cut: nat, k: nat)
    requires k <= |records|
    ensures k <= Whole(codec, records, cut) <==> |Frames(codec, records[..k])| <= cut
    decreases |records|
  {
    hide Frame;
    if k > 0 {
      var r, more := records[0], records[1..];
      assert records[..k][1..] == more[..k - 1];
      if cut >= |Frame(codec, r)| {
        WholeIsExact(codec, more, cut - |Frame(codec, r)|, k - 1);
      }
    }
  }

  /** A cut file is its whole frames and a proper beginning of the next one. */
  lemma {:induction false} CutShape(codec: Codec, records: seq<Record>, cut: nat) returns (torn: nat)
    requires cut <= |Frames(codec, records)|
    ensures var k := Whole(codec, records, cut);
      if k == |records| then torn == 0 && Frames(codec, records)[..cut] == Frames(codec, records)
      else torn < |Frame(codec, records[k])|
           && Frames(codec, records)[..cut] == Frames(codec, records[..k]) + Frame(codec, records[k])[..torn]
    decreases |records|
  {
    hide Frame;
    var k := Whole(codec, records, cut);
    var file := Frames(codec, records);
    if records == [] {
      torn := 0;
    } else {
      var r, more := records[0], records[1..];
      var size := |Frame(codec, r)|;
      if cut < size {
        torn := cut;
        assert file[..cut] == Frame(codec, r)[..cut];
        assert records[..0] == [];
      } else {
        torn := CutShape(codec, more, cut - size);
        assert file[..cut] == Frame(codec, r) + Frames(codec, more)[..cut - size];
        if k < |records| {
          assert records[..k][1..] == more[..k - 1];
        }
      }
    }
  }

  /** A proper beginning of a frame holds no record. */
  lemma TornFrame(codec: Codec, payload: seq<bv8>, torn: nat)
    requires |payload| < LIMIT && torn < 8 + |payload|
    ensures ReadRecords(codec, (Header(payload) + payload)[..torn]) == []
  {
    hide PutLength, GetLength, PutChecksum, GetChecksum, Checksum;
    var t := (Header(payload) + payload)[..torn];
    if torn >= 8 {
      LengthBack(|payload|);
      assert t[..4] == PutLength(|payload|);
    }
  }

  /** A file cut at any byte gives back exactly the records whose frames are complete. */
  lemma TornWrite(codec: Codec, records: seq<Record>, cut: nat)
    requires Faithful(codec, records) && cut <= |Frames(codec, records)|
    ensures ReadRecords(codec, Frames(codec, records)[..cut]) == records[..Whole(codec, records, cut)]
  {
    hide ReadRecords, Frame, Header;
    var k := Whole(codec, records, cut);
    var torn := CutShape(codec, records, cut);
    if k == |records| {
      RoundTrip(codec, records);
      assert records[..k] == records;
    } else {
      FrameIs(codec, records[k]);
      ReadFrames(codec, records[..k], Frame(codec, records[k])[..torn]);
      TornFrame(codec, codec.encode(records[k]), torn);
    }
  }

  lemma FrameIs(codec: Codec, r: Record)
    ensures Frame(codec, r) == Header(codec.encode(r)) + codec.encode(r)
  {
  }

  // ---------- appending after a torn write ----------

  /**
   Bytes written behind a torn frame whose header is complete are taken for the rest of its payload. Reading goes past
   the torn frame exactly when there are enough of them and they happen to complete a payload with the recorded checksum
   that decodes.
   */
  lemma TornTailSwallows(codec: Codec, payload: seq<bv8>, torn: nat, later: seq<bv8>)
    requires |payload| < LIMIT && 8 <= torn < 8 + |payload|
    ensures var missing := 8 + |payload| - torn;
      var file := (Header(payload) + payload)[..torn] + later;
      First(codec, file).Some? <==>
        && |later| >= missing
        && Checksum(payload[..torn - 8] + later[..missing]) == Checksum(payload)
        && codec.decode(payload[..torn - 8] + later[..missing]).Some?
  {
    hide PutLength, GetLength, PutChecksum, GetChecksum, Checksum;
    var file := (Header(payload) + payload)[..torn] + later;
    var missing := 8 + |payload| - torn;
    LengthBack(|payload|);
    ChecksumBack(Checksum(payload));
    assert file[..4] == PutLength(|payload|);
    assert file[4..8] == PutChecksum(Checksum(payload));
    if |later| >= missing {
      assert file[8..8 + |payload|] == payload[..torn - 8] + later[..missing];
    }
  }

  /** Too short for a header, or announcing more payload than there is. */
  predicate Overrun(file: seq<bv8>) {
    |file| < 8 || |file| - 8 < GetLength(file[..4])
  }

  /**
   The file of `records` is cut, the node recovers from the first `k` of them and appends `more`. Behind a clean cut the
   appended records are found. Behind a torn frame none of them ever is, whatever the checksums, while what is announced
   at the torn bytes exceeds what has been written since.
   */
  lemma AppendAfterTornWrite(codec: Codec, records: seq<Record>, k: nat, torn: nat, more: seq<Record>)
    requires Faithful(codec, records) && Faithful(codec, more) && k < |records| && torn < |Frame(codec, records[k])|
    ensures var tail := Frame(codec, records[k])[..torn];
      var found := ReadRecords(codec, Frames(codec, records[..k]) + tail + Frames(codec, more));
      && (torn == 0 ==> found == records[..k] + more)
      && (Overrun(tail + Frames(codec, more)) ==> found == records[..k])
  {
    hide ReadRecords, Frame, Header, Overrun, First;
    var whole, tail, late := Frames(codec, records[..k]), Frame(codec, records[k])[..torn], Frames(codec, more);
    assert (whole + tail) + late == whole + (tail + late);
    ReadFrames(codec, records[..k], tail + late);
    if torn == 0 {
      assert tail + late == late;
      RoundTrip(codec, more);
    }
    if Overrun(tail + late) {
      OverrunStops(codec, tail + late);
    }
  }

  lemma OverrunStops(codec: Codec, file: seq<bv8>)
    requires Overrun(file)
    ensures ReadRecords(codec, file) == []
  {
    hide GetLength;
  }

  lemma StopsHere(codec: Codec, file: seq<bv8>)
    requires First(codec, file).None?
    ensures ReadRecords(codec, file) == []
  {
  }

  const BIG: Record := StateRecord(1, "a")
  const SMALL: Record := CommitRecord(0)

  function Toy(): Codec {
    Codec(r => if r == BIG then seq(40, _ => 0) else [1],
          s => if s == [1] then Some(SMALL) else if s == seq(40, _ => 0) then Some(BIG) else None)
  }

  /** The promise at line 125 of the repository's README.md fails: a record appended behind a torn one is lost to every later recovery. */
  lemma TornTailExample()
    ensures Faithful(Toy(), [BIG, SMALL]) && Canonical(Toy())
    ensures var file := Frame(Toy(), BIG)[..8];
      ReadRecords(Toy(), file) == [] && ReadRecords(Toy(), file + Frames(Toy(), [SMALL])) == []
  {
    hide Header, First, ReadRecords;
    var codec := Toy();
    assert codec.encode(SMALL) == [1] && |codec.encode(BIG)| == 40;
    assert Faithful(codec, [BIG]) && Faithful(codec, [SMALL]);
    assert Frames(codec, [SMALL]) == Frame(codec, SMALL) + Frames(codec, []);
    FrameIs(codec, BIG);
    TornTailSwallows(codec, codec.encode(BIG), 8, []);
    TornTailSwallows(codec, codec.encode(BIG), 8, Frames(codec, [SMALL]));
    var file := Frame(codec, BIG)[..8];
    assert file + [] == file;
    StopsHere(codec, file);
    StopsHere(codec, file + Frames(codec, [SMALL]));
  }

  // ---------- what exactly is read ----------

  /** The codec accepts no payload it would not have written. */
  ghost predicate Canonical(codec: Codec) {
    forall payload: seq<bv8> :: codec.decode(payload).Some? ==> codec.encode(codec.decode(payload).value) == payload
  }

  lemma HasPack(x: bv8)
    ensures Pack(Has(x, 0x80), Has(x, 0x40), Has(x, 0x20), Has(x, 0x10), Has(x, 0x08), Has(x, 0x04), Has(x, 0x02), Has(x, 0x01)) == x
  {
  }

  /** Four more binary digits behind those of `m`. */
  function Nibble(m: nat, b3: bool, b2: bool, b1: bool, b0: bool): nat {
    16 * m + (Value(b3, 8) + Value(b2, 4) + Value(b1, 2) + Value(b0, 1))
  }

  lemma NibbleHalves(m: nat, b3: bool, b2: bool, b1: bool, b0: bool)
    ensures var n := Nibble(m, b3, b2, b1, b0);
      && (n % 2 == 1 <==> b0) && (n / 2 % 2 == 1 <==> b1) && (n / 2 / 2 % 2 == 1 <==> b2) && (n / 2 / 2 / 2 % 2 == 1 <==> b3)
      && n / 2 / 2 / 2 / 2 == m
  {
    var n := Nibble(m, b3, b2, b1, b0);
    assert n / 2 == 8 * m + Value(b3, 4) + Value(b2, 2) + Value(b1, 1);
    assert n / 2 / 2 == 4 * m + Value(b3, 2) + Value(b2, 1);
    assert n / 2 / 2 / 2 == 2 * m + Value(b3, 1);
  }

  lemma IntOfIsNibbles(b7: bool, b6: bool, b5: bool, b4: bool, b3: bool, b2: bool, b1: bool, b0: bool)
    ensures Value(b7, 128) + Value(b6, 64) + Value(b5, 32) + Value(b4, 16) + Value(b3, 8) + Value(b2, 4) + Value(b1, 2) + Value(b0, 1)
         == Nibble(Nibble(0, b7, b6, b5, b4), b3, b2, b1, b0) < 0x100
  {
  }

  lemma ByteOfNibbles(b7: bool, b6: bool, b5: bool, b4: bool, b3: bool, b2: bool, b1: bool, b0: bool)
    ensures ByteOf(Nibble(Nibble(0, b7, b6, b5, b4), b3, b2, b1, b0)) == Pack(b7, b6, b5, b4, b3, b2, b1, b0)
  {
    hide Pack, Nibble;
    NibbleHalves(Nibble(0, b7, b6, b5, b4), b3, b2, b1, b0);
    NibbleHalves(0, b7, b6, b5, b4);
  }

  lemma ByteFront(x: bv8)
    ensures IntOf(x) < 0x100 && ByteOf(IntOf(x)) == x
  {
    hide Pack, Has, Value, Nibble, ByteOf;
    HasPack(x);
    IntOfIsNibbles(Has(x, 0x80), Has(x, 0x40), Has(x, 0x20), Has(x, 0x10), Has(x, 0x08), Has(x, 0x04), Has(x, 0x02), Has(x, 0x01));
    ByteOfNibbles(Has(x, 0x80), Has(x, 0x40), Has(x, 0x20), Has(x, 0x10), Has(x, 0x08), Has(x, 0x04), Has(x, 0x02), Has(x, 0x01));
  }

  lemma LengthFront(s: seq<bv8>)
    requires |s| == 4
    ensures PutLength(GetLength(s)) == s
  {
    hide ByteOf, IntOf;
    ByteFront(s[0]);
    ByteFront(s[1]);
    ByteFront(s[2]);
    ByteFront(s[3]);
    Undigits(IntOf(s[0]), IntOf(s[1]), IntOf(s[2]), IntOf(s[3]));
  }

  lemma Undigits(a: nat, b: nat, c: nat, d: nat)
    requires a < 0x100 && b < 0x100 && c < 0x100 && d < 0x100
    ensures var n := a * 0x100_0000 + b * 0x1_0000 + c * 0x100 + d;
      n % 0x100 == d && n / 0x100 % 0x100 == c && n / 0x100 / 0x100 % 0x100 == b && n / 0x100 / 0x100 / 0x100 % 0x100 == a
  {
    var n := a * 0x100_0000 + b * 0x1_0000 + c * 0x100 + d;
    assert n / 0x100 == a * 0x1_0000 + b * 0x100 + c;
    assert n / 0x100 / 0x100 == a * 0x100 + b;
  }

  lemma ChecksumFront(s: seq<bv8>)
    requires |s| == 4
    ensures PutChecksum(GetChecksum(s)) == s
  {
    assert s == [s[0], s[1], s[2], s[3]];
  }

  /** A record is read from nothing but its own frame. */
  lemma FirstIsFrame(codec: Codec, file: seq<bv8>)
    requires Canonical(codec) && First(codec, file).Some?
    ensures var r := First(codec, file).value;
      Frame(codec, r) <= file && |Frame(codec, r)| == 8 + GetLength(file[..4])
  {
    hide PutLength, GetLength, PutChecksum, GetChecksum, Checksum;
    LengthFront(file[..4]);
    ChecksumFront(file[4..8]);
    var payload := file[8..8 + GetLength(file[..4])];
    assert codec.encode(codec.decode(payload).value) == payload;
    assert file[..8] == Header(payload);
    assert file[..8 + |payload|] == Header(payload) + payload;
  }

  /** Every file begins with the frames of the records read from it. */
  lemma {:induction false} ReadIsSound(codec: Codec, file: seq<bv8>)
    requires Canonical(codec)
    ensures Frames(codec, ReadRecords(codec, file)) <= file
    decreases |file|
  {
    hide Canonical, First, Frame, GetLength;
    var r := First(codec, file);
    if r.Some? {
      FirstIsFrame(codec, file);
      var rest := file[8 + GetLength(file[..4])..];
      ReadIsSound(codec, rest);
      assert file == Frame(codec, r.value) + rest;
    }
  }

  /** Reading finds the longest list of records whose frames the file begins with. */
  lemma ReadIsLongest(codec: Codec, file: seq<bv8>, records: seq<Record>)
    requires Canonical(codec) && Faithful(codec, records)
    ensures records <= ReadRecords(codec, file) <==> Frames(codec, records) <= file
  {
    hide Canonical, Faithful, Frames, ReadRecords;
    var found, frames := ReadRecords(codec, file), Frames(codec, records);
    ReadIsSound(codec, file);
    if records <= found {
      assert found == records + found[|records|..];
      FramesSplit(codec, records, found[|records|..]);
    }
    if frames <= file {
      assert file == frames + file[|frames|..];
      ReadFrames(codec, records, file[|frames|..]);
    }
  }

  /**
   Exactly when records appended behind any leftover bytes are found again: when the new frames, read from the first
   leftover byte, are the new frames. Without leftovers they are; with leftovers the new frames would have to repeat them.
   */
  lemma AppendBehindLeftovers(codec: Codec, records: seq<Record>, tail: seq<bv8>, more: seq<Record>)
    requires Canonical(codec) && Faithful(codec, records) && Faithful(codec, more)
    ensures records + more <= ReadRecords(codec, Frames(codec, records) + tail + Frames(codec, more))
       <==> Frames(codec, more) <= tail + Frames(codec, more)
  {
    hide Canonical, Faithful, Frames, ReadRecords;
    var late := tail + Frames(codec, more);
    assert Frames(codec, records) + tail + Frames(codec, more) == Frames(codec, records) + late;
    ReadFrames(codec, records, late);
    ReadIsLongest(codec, late, more);
    var found := ReadRecords(codec, late);
    assert records + more <= records + found <==> more <= found by {
      if records + more <= records + found {
        assert (records + found)[|records|..] == found && (records + more)[|records|..] == more;
      }
    }
  }

  // ---------- corruption ----------

  /** A frame whose payload has been changed within at most four consecutive bytes is not read, nor anything behind it. */
  lemma CorruptPayload(codec: Codec, before: seq<bv8>, data: seq<bv8>, data': seq<bv8>, after: seq<bv8>, rest: seq<bv8>)
    requires |data| == |data'| <= 4 && data != data' && |before + data + after| < LIMIT
    ensures ReadRecords(codec, Header(before + data + after) + (before + data' + after) + rest) == []
  {
    hide PutLength, GetLength, PutChecksum, GetChecksum, Checksum;
    var payload, changed := before + data + after, before + data' + after;
    var file := Header(payload) + changed + rest;
    LengthBack(|payload|);
    ChecksumBack(Checksum(payload));
    assert file[..4] == PutLength(|payload|);
    assert file[4..8] == PutChecksum(Checksum(payload));
    assert file[8..8 + |payload|] == changed;
    assert Checksum(changed) != Checksum(payload) by {
      if Checksum(changed) == Checksum(payload) { BurstDetected(before, data, data', after); }
    }
  }

  /** The corruption boundary: recovery returns exactly the records before the changed one. */
  lemma CorruptionBoundary(codec: Codec, records: seq<Record>, k: nat,
                           before: seq<bv8>, data: seq<bv8>, data': seq<bv8>, after: seq<bv8>)
    requires Faithful(codec, records) && k < |records| && codec.encode(records[k]) == before + data + after
    requires |data| == |data'| <= 4 && data != data'
    ensures var changed := Header(codec.encode(records[k])) + (before + data' + after);
      ReadRecords(codec, Frames(codec, records[..k]) + (changed + Frames(codec, records[k + 1..]))) == records[..k]
  {
    hide ReadRecords, Header;
    var rest := Frames(codec, records[k + 1..]);
    var changed := Header(codec.encode(records[k])) + (before + data' + after);
    ReadFrames(codec, records[..k], changed + rest);
    CorruptPayload(codec, before, data, data', after, rest);
  }

  // ---------- the format, byte for byte ----------

  /** The header of the payload "123456789": its length, then the standard check value, both most significant byte first. */
  lemma HeaderExample()
    ensures Header([0x31, 0x32, 0x33, 0x34, 0x35, 0x36, 0x37, 0x38, 0x39]) == [0, 0, 0, 9, 0xCB, 0xF4, 0x39, 0x26]
    ensures PutLength(0x01020304) == [1, 2, 3, 4]
  {
    hide Checksum, PutLength, PutChecksum;
    CheckValue();
    LengthExample();
    ChecksumExample();
  }

  lemma LengthExample()
    ensures PutLength(9) == [0, 0, 0, 9] && PutLength(0x01020304) == [1, 2, 3, 4]
  {
    hide ByteOf;
    DigitExample();
  }

  lemma ChecksumExample()
    ensures PutChecksum(0xCBF43926) == [0xCB, 0xF4, 0x39, 0x26]
  {
  }

  lemma DigitExample()
    ensures ByteOf(0) == 0 && ByteOf(1) == 1 && ByteOf(2) == 2 && ByteOf(3) == 3 && ByteOf(4) == 4 && ByteOf(9) == 9
  {
  }

  // ---------- the program ----------

  class Log {
    const codec: Codec
    const table: array<bv32>
    var file: seq<bv8>
    var position: nat

    ghost predicate Valid()
      reads this, table
    {
      && position <= |file|
      && table.Length == 256
      && forall n :: 0 <= n < 256 ==> table[n] == Shifts(n as bv32, 8)
    }

    /** Opening positions the file for appending. */
    constructor (codec: Codec, file: seq<bv8>)
      ensures Valid() && this.codec == codec && this.file == file && position == |file| && fresh(table)
    {
      this.codec := codec;
      this.file := file;
      position := |file|;
      var t := BuildTable();
      table := t;
    }

    /** Writes at the current position, over what is there, and moves behind it. */
    method Write(data: seq<bv8>)
      requires Valid()
      modifies this
      ensures Valid() && position == old(position) + |data|
      ensures file == old(file[..position]) + data + (if position < |old(file)| then old(file)[position..] else [])
    {
      var end := position + |data|;
      file := file[..position] + data + (if end < |file| then file[end..] else []);
      position := end;
    }

    method Append(r: Record)
      requires Valid() && position == |file|
      modifies this
      ensures Valid() && position == |file|
      ensures file == old(file) + Frame(codec, r)
    {
      hide Shifts, PutLength, PutChecksum;
      var data := codec.encode(r);
      var checksum := Crc32(table, data);
      var header := PutLength(|data|) + PutChecksum(checksum);
      Write(header);
      Write(data);
    }

    /** The frame at the front of `rest`: header, length, checksum, payload. */
    method ReadFrame(rest: seq<bv8>) returns (r: Option<Record>, size: nat)
      requires Valid()
      ensures r == First(codec, rest)
      ensures r.Some? ==> size == 8 + GetLength(rest[..4])
    {
      hide Shifts, GetLength, GetChecksum, Checksum;
      if |rest| < 8 {
        return None, 0;
      }
      var length := GetLength(rest[..4]);
      var expected := GetChecksum(rest[4..8]);
      if |rest| - 8 < length {
        return None, 0;
      }
      var data := rest[8..8 + length];
      var checksum := Crc32(table, data);
      if checksum != expected {
        return None, 0;
      }
      r, size := codec.decode(data), 8 + length;
    }

    /** Reads from the start until a frame is incomplete, corrupt or undecodable, then returns to the end of the file. */
    method ReadAll() returns (records: seq<Record>)
      requires Valid()
      modifies this
      ensures Valid() && file == old(file) && position == |file|
      ensures records == ReadRecords(codec, file)
    {
      hide Shifts, GetLength, First;
      position := 0;
      records := [];
      assert file[0..] == file;
      while true
        invariant Valid() && file == old(file)
        invariant records + ReadRecords(codec, file[position..]) == ReadRecords(codec, file)
        decreases |file| - position
      {
        var rest := file[position..];
        var r, size := ReadFrame(rest);
        if r.None? {
          break;
        }
        assert rest[size..] == file[position + size..];
        records := records + [r.value];
        position := position + size;
      }
      position := |file|;
    }
  }
}
