/** A folder listing as Windows fills a buffer with it: a chain of
    `FILE_ID_EXTD_DIR_INFO` records, each naming the next by its offset. */
module DirChain {
  import opened Bytes
  import opened Wrappers
  import opened Times
  import opened StatCache

  type U32 = n: int | 0 <= n < 0x1_0000_0000
  type I64 = n: int | I64_MIN <= n <= I64_MAX
  type Unit = n: int | 0 <= n < 0x1_0000

  datatype ChainError = PastEnd | NameOutOfBounds | OffsetOutOfBounds | NegativeLength | BadTime

  datatype Kind = Dir | File | Other

  /** One record: its name in UTF-16 units, and the fields a listing uses. */
  datatype Record = Record(name: seq<Unit>, attributes: U32, reparseTag: U32, endOfFile: I64, lastWrite: I64,
                           change: I64, fileId: U128)

  datatype Found = Found(name: seq<Unit>, kind: Kind, stamp: FileStamp)

  // ---- Fields ----

  const NEXT_ENTRY_OFFSET := 0
  const LAST_WRITE_TIME := 24
  const CHANGE_TIME := 32
  const END_OF_FILE := 40
  const FILE_ATTRIBUTES := 56
  const FILE_NAME_LENGTH := 60
  const REPARSE_POINT_TAG := 68
  const FILE_ID := 72
  const FILE_NAME := 88

  function U32At(bytes: seq<Byte>, at: nat): U32
    requires at + 4 <= |bytes|
  {
    FromLeBytesBound(bytes[at..at + 4]);
    Powers();
    FromLeBytes(bytes[at..at + 4])
  }

  function I64At(bytes: seq<Byte>, at: nat): I64
    requires at + 8 <= |bytes|
  {
    FromLeBytesBound(bytes[at..at + 8]);
    Powers();
    var n := FromLeBytes(bytes[at..at + 8]);
    if n <= I64_MAX then n else n - 0x1_0000_0000_0000_0000
  }

  function U128At(bytes: seq<Byte>, at: nat): U128
    requires at + 16 <= |bytes|
  {
    FromLeBytesBound(bytes[at..at + 16]);
    Powers();
    FromLeBytes(bytes[at..at + 16])
  }

  function Wide(bytes: seq<Byte>): (units: seq<Unit>)
    requires |bytes| % 2 == 0
    ensures |units| == |bytes| / 2
  {
    if bytes == [] then []
    else
      FromLeBytesBound(bytes[..2]);
      Powers();
      [FromLeBytes(bytes[..2])] + Wide(bytes[2..])
  }

  predicate HasBit(n: int, bit: int)
    requires bit > 0
  {
    n / bit % 2 == 1
  }

  const REPARSE_POINT := 0x400
  const DIRECTORY := 0x10
  const NAME_SURROGATE := 0x2000_0000

  function KindOf(attributes: U32, reparseTag: U32): Kind {
    if HasBit(attributes, REPARSE_POINT) && HasBit(reparseTag, NAME_SURROGATE) then Other
    else if HasBit(attributes, DIRECTORY) then Dir
    else File
  }

  /** What a listing shows of a record. A folder or a link counts no length, and
      a change time of zero is none. */
  function Stamped(record: Record, volume: U64): Result<Found, ChainError> {
    var kind := KindOf(record.attributes, record.reparseTag);
    if kind.File? && record.endOfFile < 0 then Err(NegativeLength)
    else
      var size := if kind.File? then record.endOfFile else 0;
      var changed := Filetime(record.change);
      var modified := Filetime(record.lastWrite);
      if (record.change != 0 && changed.Err?) || modified.Err? then Err(BadTime)
      else
        Ok(Found(record.name, kind,
                 FileStamp(size, modified.value, if record.change == 0 then None else Some(changed.value),
                           Some(FileId(volume, record.fileId)))))
  }

  const DOT := '.' as int

  /** The folder itself and the one above it. */
  predicate IsDots(name: seq<Unit>) {
    name == [DOT] || name == [DOT, DOT]
  }

  /** The listing of a chain's records: all but the dots, in order. */
  function Listed(records: seq<Record>, volume: U64): Result<seq<Found>, ChainError> {
    if records == [] then Ok([])
    else if IsDots(records[0].name) then Listed(records[1..], volume)
    else
      var found := Stamped(records[0], volume);
      if found.Err? then Err(found.error)
      else
        var rest := Listed(records[1..], volume);
        if rest.Err? then rest else Ok([found.value] + rest.value)
  }

  // ---- What a listing shows ----

  /** A link, by the two bits that say so. */
  predicate IsLink(record: Record) {
    record.attributes / 0x400 % 2 == 1 && record.reparseTag / 0x2000_0000 % 2 == 1
  }

  predicate IsFolder(record: Record) {
    !IsLink(record) && record.attributes / 0x10 % 2 == 1
  }

  predicate IsFile(record: Record) {
    !IsLink(record) && record.attributes / 0x10 % 2 == 0
  }

  /** Ticks of 100 nanoseconds since 1601 that can be counted from 1970. */
  predicate Countable(ticks: I64) {
    ticks - 116_444_736_000_000_000 >= I64_MIN
  }

  /** The record's own fields, each where it belongs. */
  predicate Shows(found: Found, record: Record, volume: U64) {
    && found.name == record.name
    && (found.kind == Other <==> IsLink(record)) && (found.kind == Dir <==> IsFolder(record))
    && found.stamp.size == (if IsFile(record) then record.endOfFile else 0)
    && found.stamp.modified == (record.lastWrite - 116_444_736_000_000_000) * 100
    && (found.stamp.changed.None? <==> record.change == 0)
    && (record.change != 0 ==> found.stamp.changed == Some((record.change - 116_444_736_000_000_000) * 100))
    && found.stamp.id == Some(FileId(volume, record.fileId))
  }

  /** Why a record cannot be shown. */
  predicate Refuses(record: Record, error: ChainError) {
    match error
    case NegativeLength => IsFile(record) && record.endOfFile < 0
    case BadTime =>
      && !(IsFile(record) && record.endOfFile < 0)
      && (!Countable(record.lastWrite) || (record.change != 0 && !Countable(record.change)))
    case _ => false
  }

  lemma StampedShows(record: Record, volume: U64)
    ensures match Stamped(record, volume)
            case Ok(found) => Shows(found, record, volume) && forall error :: !Refuses(record, error)
            case Err(error) => Refuses(record, error)
  {
    FiletimeExact(record.lastWrite);
    FiletimeExact(record.change);
  }

  /** The records but for the folder itself and the one above it. */
  function Named(records: seq<Record>): seq<Record> {
    if records == [] then []
    else (if records[0].name in {[46], [46, 46]} then [] else [records[0]]) + Named(records[1..])
  }

  /** **Field by field.** A listing shows the named records, one each and in
      order, or has the error of the first that cannot be shown. */
  predicate ShowsAll(listing: Listing, records: seq<Record>, volume: U64) {
    match listing
    case Ok(found) =>
      |found| == |records| && forall i | 0 <= i < |records| :: Shows(found[i], records[i], volume)
    case Err(error) =>
      exists k | 0 <= k < |records| :: Refuses(records[k], error) && NoneRefused(records[..k])
  }

  predicate NoneRefused(records: seq<Record>) {
    forall i | 0 <= i < |records| :: !Refuses(records[i], NegativeLength) && !Refuses(records[i], BadTime)
  }

  lemma {:induction false} ListedShows(records: seq<Record>, volume: U64)
    ensures ShowsAll(Listed(records, volume), Named(records), volume)
  {
    if records != [] {
      ListedShows(records[1..], volume);
      if !IsDots(records[0].name) {
        assert Named(records) == [records[0]] + Named(records[1..]);
        ShowsOneMore(records[0], Named(records[1..]), Listed(records[1..], volume), volume);
      } else {
        assert Named(records) == Named(records[1..]);
      }
    }
  }

  lemma ShowsOneMore(record: Record, named: seq<Record>, rest: Listing, volume: U64)
    requires ShowsAll(rest, named, volume)
    ensures var here := Stamped(record, volume);
            ShowsAll(if here.Err? then Err(here.error) else After([here.value], rest), [record] + named, volume)
  {
    StampedShows(record, volume);
    var here, all := Stamped(record, volume), [record] + named;
    if here.Err? {
      assert Refuses(all[0], here.error) && NoneRefused(all[..0]);
    } else if rest.Err? {
      var k :| 0 <= k < |named| && Refuses(named[k], rest.error) && NoneRefused(named[..k]);
      assert all[..k + 1] == [record] + named[..k];
      assert Refuses(all[k + 1], rest.error) && NoneRefused(all[..k + 1]);
    }
  }

  // ---- Parsing ----

  /** The record whose header starts at `pos` and whose name is all there. */
  function RecordAt(bytes: seq<Byte>, pos: nat): Record
    requires pos + FILE_NAME <= |bytes|
    requires U32At(bytes, pos + FILE_NAME_LENGTH) % 2 == 0
    requires pos + FILE_NAME + U32At(bytes, pos + FILE_NAME_LENGTH) <= |bytes|
  {
    var nameAt := pos + FILE_NAME;
    Record(Wide(bytes[nameAt..nameAt + U32At(bytes, pos + FILE_NAME_LENGTH)]),
           U32At(bytes, pos + FILE_ATTRIBUTES), U32At(bytes, pos + REPARSE_POINT_TAG),
           I64At(bytes, pos + END_OF_FILE), I64At(bytes, pos + LAST_WRITE_TIME), I64At(bytes, pos + CHANGE_TIME),
           U128At(bytes, pos + FILE_ID))
  }

  /** Whether a record starts at `pos` with its name within the buffer. */
  predicate HasRecord(bytes: seq<Byte>, pos: nat) {
    && pos + FILE_NAME <= |bytes|
    && U32At(bytes, pos + FILE_NAME_LENGTH) % 2 == 0
    && pos + FILE_NAME + U32At(bytes, pos + FILE_NAME_LENGTH) <= |bytes|
  }

  /** The buffer holds `records`, each at the offset the one before names, and
      the last one names none. */
  predicate Holds(bytes: seq<Byte>, pos: nat, records: seq<Record>)
    decreases |records|
  {
    && records != [] && HasRecord(bytes, pos) && RecordAt(bytes, pos) == records[0]
    && var next := U32At(bytes, pos + NEXT_ENTRY_OFFSET);
       if |records| == 1 then next == 0
       else next > 0 && pos + next < |bytes| && Holds(bytes, pos + next, records[1..])
  }

  function Pair(low: int, high: int): int {
    low + 256 * high
  }

  /** Where a record's fields are, by the structure's layout: its name from byte
      88 on in little-endian units, its times at 24 and 32, the rest between. */
  lemma RecordFields(bytes: seq<Byte>, pos: nat, i: nat)
    requires HasRecord(bytes, pos)
    ensures var record := RecordAt(bytes, pos);
            && record.lastWrite == I64At(bytes, pos + 24) && record.change == I64At(bytes, pos + 32)
            && record.endOfFile == I64At(bytes, pos + 40) && record.attributes == U32At(bytes, pos + 56)
            && record.reparseTag == U32At(bytes, pos + 68) && record.fileId == U128At(bytes, pos + 72)
            && 2 * |record.name| == U32At(bytes, pos + 60)
            && (i < |record.name| ==> record.name[i] == Pair(bytes[pos + 88 + 2 * i], bytes[pos + 89 + 2 * i]))
  {
    var name := bytes[pos + 88..pos + 88 + U32At(bytes, pos + 60)];
    if i < |RecordAt(bytes, pos).name| {
      WideAt(name, i);
    }
  }

  lemma {:induction false} WideAt(bytes: seq<Byte>, i: nat)
    requires |bytes| % 2 == 0 && 2 * i < |bytes|
    ensures Wide(bytes)[i] == Pair(bytes[2 * i], bytes[2 * i + 1])
  {
    if i == 0 {
      var two := bytes[..2];
      assert two[1..][1..] == [];
      assert FromLeBytes(two[1..]) == two[1];
    } else {
      WideAt(bytes[2..], i - 1);
    }
  }

  type Listing = Result<seq<Found>, ChainError>

  /** A listing with what came before it. */
  function After(found: seq<Found>, rest: Listing): Listing {
    if rest.Err? then rest else Ok(found + rest.value)
  }

  /** What the record at `pos` adds: itself, nothing for the dots, or an error. */
  function Here(bytes: seq<Byte>, volume: U64, pos: nat): (r: Listing)
    ensures r.Ok? ==> HasRecord(bytes, pos)
  {
    if pos + FILE_NAME_LENGTH + 4 > |bytes| then Err(PastEnd)
    else if !HasRecord(bytes, pos) then Err(NameOutOfBounds)
    else Listed([RecordAt(bytes, pos)], volume)
  }

  /** What parsing the chain from `pos` on finds, or its first error. */
  function Chain(bytes: seq<Byte>, volume: U64, pos: nat): Listing
    decreases |bytes| - pos
  {
    var here := Here(bytes, volume, pos);
    if here.Err? then here
    else
      var next := U32At(bytes, pos + NEXT_ENTRY_OFFSET);
      if next == 0 then here
      else if pos + next >= |bytes| then Err(OffsetOutOfBounds)
      else After(here.value, Chain(bytes, volume, pos + next))
  }

  /** Reads one record; no read passes the end of the buffer. */
  method ParseRecord(bytes: seq<Byte>, volume: U64, pos: nat) returns (here: Listing, next: U32)
    ensures here == Here(bytes, volume, pos)
    ensures here.Ok? ==> next == U32At(bytes, pos + NEXT_ENTRY_OFFSET)
    ensures HasRecord(bytes, pos) ==> ShowsAll(here, Named([RecordAt(bytes, pos)]), volume)
  {
    next := 0;
    if pos + NEXT_ENTRY_OFFSET + 4 > |bytes| {
      return Err(PastEnd), next;
    }
    next := U32At(bytes, pos + NEXT_ENTRY_OFFSET);
    if pos + FILE_NAME_LENGTH + 4 > |bytes| {
      return Err(PastEnd), next;
    }
    var nameLength := U32At(bytes, pos + FILE_NAME_LENGTH);
    var nameAt := pos + FILE_NAME;
    if nameLength % 2 != 0 || nameAt + nameLength > |bytes| {
      return Err(NameOutOfBounds), next;
    }
    var record := RecordAt(bytes, pos);
    ListedOne(record, volume);
    ListedShows([record], volume);
    if IsDots(record.name) {
      return Ok([]), next;
    }
    var stamped := Stamped(record, volume);
    if stamped.Err? {
      return Err(stamped.error), next;
    }
    return Ok([stamped.value]), next;
  }

  /** The same with what was found before carried along, as the loop has it. */
  function ChainOn(bytes: seq<Byte>, volume: U64, pos: nat, found: seq<Found>): Listing
    decreases |bytes| - pos
  {
    var here := Here(bytes, volume, pos);
    if here.Err? then here
    else
      var next := U32At(bytes, pos + NEXT_ENTRY_OFFSET);
      if next == 0 then Ok(found + here.value)
      else if pos + next >= |bytes| then Err(OffsetOutOfBounds)
      else ChainOn(bytes, volume, pos + next, found + here.value)
  }

  lemma {:induction false} ChainOnIsChain(bytes: seq<Byte>, volume: U64, pos: nat, found: seq<Found>)
    ensures ChainOn(bytes, volume, pos, found) == After(found, Chain(bytes, volume, pos))
    decreases |bytes| - pos
  {
    var here := Here(bytes, volume, pos);
    if here.Err? {
    } else {
      var next := U32At(bytes, pos + NEXT_ENTRY_OFFSET);
      if next == 0 {
      } else if pos + next >= |bytes| {
      } else {
        var rest := Chain(bytes, volume, pos + next);
        ChainOnIsChain(bytes, volume, pos + next, found + here.value);
        AfterAfter(found, here.value, rest);
        assert Chain(bytes, volume, pos) == After(here.value, rest);
      }
    }
  }

  /** Goes through the chain record by record. Each offset leads on and stays
      inside the buffer, so it ends. */
  method ParseChain(bytes: seq<Byte>, volume: U64, out: seq<Found>) returns (r: Listing)
    ensures r == ChainOn(bytes, volume, 0, out)
    ensures r.Ok? ==> ShowsBuffer(bytes, volume, out, r.value)
  {
    ghost var all := ChainOn(bytes, volume, 0, out);
    ChainShows(bytes, volume, out);
    var found := out;
    var pos := 0;
    while true
      invariant 0 <= pos
      invariant all == ChainOn(bytes, volume, pos, found)
      decreases |bytes| - pos
    {
      var here, next := ParseRecord(bytes, volume, pos);
      if here.Err? {
        return here;
      }
      found := found + here.value;
      if next == 0 {
        return Ok(found);
      }
      if pos + next >= |bytes| {
        return Err(OffsetOutOfBounds);
      }
      pos := pos + next;
    }
  }

  lemma AfterAfter(a: seq<Found>, b: seq<Found>, rest: Listing)
    ensures After(a, After(b, rest)) == After(a + b, rest)
  {
    if rest.Ok? {
      assert a + (b + rest.value) == a + b + rest.value;
    }
  }

  lemma ListedOne(record: Record, volume: U64)
    ensures Listed([record], volume) ==
              if IsDots(record.name) then Ok([])
              else if Stamped(record, volume).Err? then Err(Stamped(record, volume).error)
              else Ok([Stamped(record, volume).value])
  {
    assert [record][1..] == [];
    var stamped := Stamped(record, volume);
    assert stamped.Ok? ==> [stamped.value] + [] == [stamped.value];
  }

  lemma ListedCons(record: Record, rest: seq<Record>, volume: U64)
    ensures Listed([record] + rest, volume) ==
              var here := Listed([record], volume);
              if here.Err? then here else After(here.value, Listed(rest, volume))
  {
    ListedOne(record, volume);
    assert ([record] + rest)[1..] == rest;
    var more := Listed(rest, volume);
    assert more.Ok? ==> [] + more.value == more.value;
  }

  /** **A buffer that holds records lists them**, the dots left out, in order. */
  lemma {:induction false} ChainLists(bytes: seq<Byte>, volume: U64, pos: nat, records: seq<Record>)
    requires Holds(bytes, pos, records)
    ensures Chain(bytes, volume, pos) == Listed(records, volume)
    decreases |records|
  {
    var next := U32At(bytes, pos + NEXT_ENTRY_OFFSET);
    if |records| > 1 {
      ChainLists(bytes, volume, pos + next, records[1..]);
      ListedCons(records[0], records[1..], volume);
      assert records == [records[0]] + records[1..];
    } else {
      assert records == [records[0]];
    }
  }

  /** **And lists nothing else**: a listing comes only of a buffer that holds
      such records. */
  lemma {:induction false} ChainHolds(bytes: seq<Byte>, volume: U64, pos: nat) returns (records: seq<Record>)
    requires Chain(bytes, volume, pos).Ok?
    ensures Holds(bytes, pos, records) && Chain(bytes, volume, pos) == Listed(records, volume)
    decreases |bytes| - pos
  {
    var next := U32At(bytes, pos + NEXT_ENTRY_OFFSET);
    records := [RecordAt(bytes, pos)];
    if next != 0 {
      var rest := ChainHolds(bytes, volume, pos + next);
      records := records + rest;
      assert records[1..] == rest;
    }
    ChainLists(bytes, volume, pos, records);
  }

  /** What was found before, then what the records in the buffer show. */
  ghost predicate ShowsBuffer(bytes: seq<Byte>, volume: U64, out: seq<Found>, found: seq<Found>) {
    out <= found && exists records ::
      Holds(bytes, 0, records) && ShowsAll(Ok(found[|out|..]), Named(records), volume)
  }

  lemma ChainShows(bytes: seq<Byte>, volume: U64, out: seq<Found>)
    ensures var r := ChainOn(bytes, volume, 0, out);
            r.Ok? ==> ShowsBuffer(bytes, volume, out, r.value)
  {
    ChainOnIsChain(bytes, volume, 0, out);
    var chain := Chain(bytes, volume, 0);
    if chain.Ok? {
      var records := ChainHolds(bytes, volume, 0);
      ListedShows(records, volume);
      assert (out + chain.value)[|out|..] == chain.value;
    }
  }

  // ---- Writing a chain ----

  function Unsigned(n: I64): nat {
    if n >= 0 then n else n + 0x1_0000_0000_0000_0000
  }

  function NameBytes(name: seq<Unit>): (bytes: seq<Byte>)
    ensures |bytes| == 2 * |name|
  {
    if name == [] then [] else LeBytes(name[0], 2) + NameBytes(name[1..])
  }

  function Zeros(count: nat): seq<Byte> {
    seq(count, _ => 0)
  }

  /** A record's first fields, from the offset of the next record on. */
  function TimeFields(record: Record, next: U32): seq<Byte> {
    LeBytes(next, 4) + Zeros(20) + LeBytes(Unsigned(record.lastWrite), 8) + LeBytes(Unsigned(record.change), 8)
    + LeBytes(Unsigned(record.endOfFile), 8)
  }

  /** The others before its name. */
  function OtherFields(record: Record): seq<Byte> {
    Zeros(8) + LeBytes(record.attributes, 4) + LeBytes(2 * |record.name|, 4) + Zeros(4)
    + LeBytes(record.reparseTag, 4) + LeBytes(record.fileId, 16)
  }

  /** Records start at multiples of eight bytes. */
  function Padding(name: seq<Unit>): nat {
    (8 - 2 * |name| % 8) % 8
  }

  function Length(record: Record): nat {
    FILE_NAME + 2 * |record.name| + Padding(record.name)
  }

  predicate Fits(records: seq<Record>) {
    forall i | 0 <= i < |records| :: Length(records[i]) < 0x1_0000_0000
  }

  lemma {:induction false} NameReads(name: seq<Unit>)
    ensures Wide(NameBytes(name)) == name
  {
    if name != [] {
      NameReads(name[1..]);
      Powers();
      LeBytesRoundTrip(name[0], 2);
      assert NameBytes(name)[..2] == LeBytes(name[0], 2);
      assert NameBytes(name)[2..] == NameBytes(name[1..]);
    }
  }

  /** The buffer has `part` at `pos`. */
  predicate HasAt(bytes: seq<Byte>, pos: nat, part: seq<Byte>) {
    pos + |part| <= |bytes| && bytes[pos..pos + |part|] == part
  }

  lemma HasParts(bytes: seq<Byte>, pos: nat, a: seq<Byte>, b: seq<Byte>)
    requires HasAt(bytes, pos, a + b)
    ensures HasAt(bytes, pos, a) && HasAt(bytes, pos + |a|, b)
  {
    var both := bytes[pos..pos + |a + b|];
    assert both[..|a|] == a && both[|a|..] == b;
    assert bytes[pos..pos + |a|] == both[..|a|] && bytes[pos + |a|..pos + |a| + |b|] == both[|a|..];
  }

  lemma U32Reads(bytes: seq<Byte>, pos: nat, n: U32)
    requires HasAt(bytes, pos, LeBytes(n, 4))
    ensures U32At(bytes, pos) == n
  {
    Powers();
    LeBytesRoundTrip(n, 4);
  }

  lemma I64Reads(bytes: seq<Byte>, pos: nat, n: I64)
    requires HasAt(bytes, pos, LeBytes(Unsigned(n), 8))
    ensures I64At(bytes, pos) == n
  {
    Powers();
    LeBytesRoundTrip(Unsigned(n), 8);
  }

  lemma U128Reads(bytes: seq<Byte>, pos: nat, n: U128)
    requires HasAt(bytes, pos, LeBytes(n, 16))
    ensures U128At(bytes, pos) == n
  {
    Powers();
    LeBytesRoundTrip(n, 16);
  }

  lemma TimeFieldsRead(bytes: seq<Byte>, pos: nat, record: Record, next: U32)
    requires HasAt(bytes, pos, TimeFields(record, next))
    ensures pos + FILE_ATTRIBUTES - 8 <= |bytes| && U32At(bytes, pos + NEXT_ENTRY_OFFSET) == next
    ensures I64At(bytes, pos + LAST_WRITE_TIME) == record.lastWrite && I64At(bytes, pos + CHANGE_TIME) == record.change
    ensures I64At(bytes, pos + END_OF_FILE) == record.endOfFile
  {
    var a, b, c := LeBytes(next, 4), Zeros(20), LeBytes(Unsigned(record.lastWrite), 8);
    var d, e := LeBytes(Unsigned(record.change), 8), LeBytes(Unsigned(record.endOfFile), 8);
    HasParts(bytes, pos, a + b + c + d, e);
    HasParts(bytes, pos, a + b + c, d);
    HasParts(bytes, pos, a + b, c);
    HasParts(bytes, pos, a, b);
    U32Reads(bytes, pos, next);
    I64Reads(bytes, pos + LAST_WRITE_TIME, record.lastWrite);
    I64Reads(bytes, pos + CHANGE_TIME, record.change);
    I64Reads(bytes, pos + END_OF_FILE, record.endOfFile);
  }

  lemma OtherFieldsRead(bytes: seq<Byte>, pos: nat, record: Record)
    requires 2 * |record.name| < 0x1_0000_0000
    requires HasAt(bytes, pos + FILE_ATTRIBUTES - 8, OtherFields(record))
    ensures pos + FILE_NAME <= |bytes|
    ensures U32At(bytes, pos + FILE_ATTRIBUTES) == record.attributes
    ensures U32At(bytes, pos + FILE_NAME_LENGTH) == 2 * |record.name|
    ensures U32At(bytes, pos + REPARSE_POINT_TAG) == record.reparseTag && U128At(bytes, pos + FILE_ID) == record.fileId
  {
    var at := pos + FILE_ATTRIBUTES - 8;
    var a, b, c := Zeros(8), LeBytes(record.attributes, 4), LeBytes(2 * |record.name|, 4);
    var d, e, f := Zeros(4), LeBytes(record.reparseTag, 4), LeBytes(record.fileId, 16);
    HasParts(bytes, at, a + b + c + d + e, f);
    HasParts(bytes, at, a + b + c + d, e);
    HasParts(bytes, at, a + b + c, d);
    HasParts(bytes, at, a + b, c);
    HasParts(bytes, at, a, b);
    U32Reads(bytes, pos + FILE_ATTRIBUTES, record.attributes);
    U32Reads(bytes, pos + FILE_NAME_LENGTH, 2 * |record.name|);
    U32Reads(bytes, pos + REPARSE_POINT_TAG, record.reparseTag);
    U128Reads(bytes, pos + FILE_ID, record.fileId);
  }

  /** A record as it is written, with the offset of the next. */
  function OneRecord(record: Record, next: U32): seq<Byte> {
    TimeFields(record, next) + OtherFields(record) + NameBytes(record.name) + Zeros(Padding(record.name))
  }

  /** The buffer has the record at `pos`, with this offset of the next. */
  predicate HasRecordOf(bytes: seq<Byte>, pos: nat, record: Record, next: U32) {
    && HasRecord(bytes, pos) && RecordAt(bytes, pos) == record && U32At(bytes, pos + NEXT_ENTRY_OFFSET) == next
  }

  lemma OneRecordParts(bytes: seq<Byte>, pos: nat, record: Record, next: U32)
    requires HasAt(bytes, pos, OneRecord(record, next))
    ensures |OneRecord(record, next)| == Length(record)
    ensures HasAt(bytes, pos, TimeFields(record, next))
    ensures HasAt(bytes, pos + FILE_ATTRIBUTES - 8, OtherFields(record))
    ensures HasAt(bytes, pos + FILE_NAME, NameBytes(record.name))
  {
    var times, others, name := TimeFields(record, next), OtherFields(record), NameBytes(record.name);
    HasParts(bytes, pos, times + others + name, Zeros(Padding(record.name)));
    HasParts(bytes, pos, times + others, name);
    HasParts(bytes, pos, times, others);
  }

  /** A written record is read back, wherever it is in the buffer. */
  lemma OneRecordReads(bytes: seq<Byte>, pos: nat, record: Record, next: U32)
    requires 2 * |record.name| < 0x1_0000_0000 && HasAt(bytes, pos, OneRecord(record, next))
    ensures |OneRecord(record, next)| == Length(record) && HasRecordOf(bytes, pos, record, next)
  {
    OneRecordParts(bytes, pos, record, next);
    TimeFieldsRead(bytes, pos, record, next);
    OtherFieldsRead(bytes, pos, record);
    NameReads(record.name);
  }

  type Writer = (Record, U32) -> seq<Byte>

  /** A way to write records such that `has` holds of each, wherever it is in the
      buffer. */
  ghost predicate IsWriter(write: Writer, bytes: seq<Byte>, has: (nat, Record, U32) -> bool) {
    forall pos: nat, record: Record, next: U32 | HasAt(bytes, pos, write(record, next)) ::
      2 * |record.name| < 0x1_0000_0000 ==> |write(record, next)| == Length(record) && has(pos, record, next)
  }

  function HasIn(bytes: seq<Byte>): (nat, Record, U32) -> bool {
    (pos: nat, record: Record, next: U32) => HasRecordOf(bytes, pos, record, next)
  }

  lemma OneRecordIsWriter(bytes: seq<Byte>)
    ensures IsWriter(OneRecord, bytes, HasIn(bytes))
  {
    forall pos: nat, record: Record, next: U32
      | HasAt(bytes, pos, OneRecord(record, next)) && 2 * |record.name| < 0x1_0000_0000
      ensures |OneRecord(record, next)| == Length(record) && HasRecordOf(bytes, pos, record, next)
    {
      OneRecordReads(bytes, pos, record, next);
    }
  }

  /** The offset of the next record that the first of `records` names. */
  function NextOf(records: seq<Record>): U32
    requires records != [] && Fits(records)
  {
    if |records| == 1 then 0 else Length(records[0])
  }

  /** The records one after another, each with its length but the last. */
  function Encode(write: Writer, records: seq<Record>): seq<Byte>
    requires Fits(records)
  {
    if records == [] then [] else write(records[0], NextOf(records)) + Encode(write, records[1..])
  }

  /** Records one after another, each as long as it is written. */
  predicate Laid(has: (nat, Record, U32) -> bool, pos: nat, records: seq<Record>)
    requires Fits(records)
    decreases |records|
  {
    records == [] || (has(pos, records[0], NextOf(records)) && Laid(has, pos + Length(records[0]), records[1..]))
  }

  lemma {:induction false} EncodedLaid(write: Writer, has: (nat, Record, U32) -> bool, bytes: seq<Byte>, pos: nat,
                                       records: seq<Record>)
    requires IsWriter(write, bytes, has) && Fits(records) && HasAt(bytes, pos, Encode(write, records))
    ensures Laid(has, pos, records)
    decreases |records|
  {
    if records != [] {
      FitsOn(records);
      HasParts(bytes, pos, write(records[0], NextOf(records)), Encode(write, records[1..]));
      EncodedLaid(write, has, bytes, pos + Length(records[0]), records[1..]);
    }
  }

  /** Records laid out so are held by the buffer. */
  lemma {:induction false} LaidHolds(bytes: seq<Byte>, pos: nat, records: seq<Record>)
    requires records != [] && Fits(records)
    requires Laid(HasIn(bytes), pos, records)
    ensures Holds(bytes, pos, records)
    decreases |records|
  {
    if |records| == 1 {
      HoldsOne(bytes, pos, records);
    } else {
      FitsOn(records);
      LaidHolds(bytes, pos + Length(records[0]), records[1..]);
      HoldsMore(bytes, pos, records);
    }
  }

  lemma FitsOn(records: seq<Record>)
    requires records != [] && Fits(records)
    ensures Fits(records[1..])
  {
    assert forall i | 0 <= i < |records| - 1 :: records[1..][i] == records[i + 1];
  }

  lemma HoldsOne(bytes: seq<Byte>, pos: nat, records: seq<Record>)
    requires |records| == 1
    ensures HasRecordOf(bytes, pos, records[0], 0) ==> Holds(bytes, pos, records)
  {
  }

  lemma HoldsMore(bytes: seq<Byte>, pos: nat, records: seq<Record>)
    requires |records| > 1 && Fits(records)
    ensures HasRecordOf(bytes, pos, records[0], Length(records[0])) ==>
              Holds(bytes, pos + Length(records[0]), records[1..]) ==> Holds(bytes, pos, records)
  {
  }

  /** **Write, then parse**: a buffer written for records lists them, the dots
      left out and the order kept, whatever the buffer has past them. */
  lemma EncodedLists(records: seq<Record>, volume: U64, rest: seq<Byte>)
    requires records != [] && Fits(records)
    ensures Chain(Encode(OneRecord, records) + rest, volume, 0) == Listed(records, volume)
  {
    var bytes := Encode(OneRecord, records) + rest;
    OneRecordIsWriter(bytes);
    EncodedLaid(OneRecord, HasIn(bytes), bytes, 0, records);
    LaidHolds(bytes, 0, records);
    ChainLists(bytes, volume, 0, records);
  }
  /** Field by field, too: what is written is what is shown. */
  lemma EncodedShows(records: seq<Record>, volume: U64, rest: seq<Byte>)
    requires records != [] && Fits(records)
    ensures ShowsAll(Chain(Encode(OneRecord, records) + rest, volume, 0), Named(records), volume)
  {
    EncodedLists(records, volume, rest);
    ListedShows(records, volume);
  }
}
