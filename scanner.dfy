/** The size-class table of a property header (StaticMeshActorUtil.getSize):
    classes 0-4 are fixed widths, classes 5-7 read an explicit length. */
module SizeCodec {
  import opened JavaLib

  /** The fixed payload width of size classes 0 to 4. */
  function FixedWidth(sizeClass: nat): nat
    requires sizeClass <= 4
  {
    [1, 2, 4, 12, 16][sizeClass]
  }

  /** getSize: the payload length and the cursor after any length prefix. The
      length is an int; only class 7 can yield a negative one. */
  function PayloadSize(sizeClass: int, s: seq<Byte>, pos: nat): (r: Result<(int, nat)>)
    ensures 0 <= sizeClass <= 4 ==> r == Ok((FixedWidth(sizeClass), pos))
    ensures (sizeClass < 0 || sizeClass > 7) ==> r == Err(InvalidSize(sizeClass))
    ensures r.Ok? && 5 <= sizeClass <= 7 ==> r.value.1 == pos + PrefixWidth(sizeClass) <= |s|
    ensures r.Ok? && sizeClass != 7 ==> r.value.0 >= 0
  {
    match sizeClass
    case 0 => Ok((1, pos))
    case 1 => Ok((2, pos))
    case 2 => Ok((4, pos))
    case 3 => Ok((12, pos))
    case 4 => Ok((16, pos))
    case 5 => if pos + 1 > |s| then Err(BufferUnderflow) else Ok((s[pos] as int, pos + 1))
    case 6 => if pos + 2 > |s| then Err(BufferUnderflow) else Ok((ReadLE16(s, pos) as int, pos + 2))
    case 7 => if pos + 4 > |s| then Err(BufferUnderflow) else Ok((Int32Of(ReadLE32(s, pos)) as int, pos + 4))
    case _ => Err(InvalidSize(sizeClass))
  }

  function PrefixWidth(sizeClass: nat): nat
  {
    if sizeClass == 5 then 1 else if sizeClass == 6 then 2 else if sizeClass == 7 then 4 else 0
  }

  /** A payload length the size class can describe. */
  predicate Describes(sizeClass: nat, n: nat)
  {
    if sizeClass <= 4 then n == FixedWidth(sizeClass)
    else if sizeClass == 5 then n < 0x100
    else if sizeClass == 6 then n < 0x1_0000
    else sizeClass == 7 && n < 0x8000_0000
  }

  /** The explicit length a writer puts after the header for classes 5-7. */
  function SizePrefix(sizeClass: nat, n: nat): (r: seq<Byte>)
    requires Describes(sizeClass, n)
    ensures |r| == PrefixWidth(sizeClass)
  {
    if sizeClass <= 4 then []
    else if sizeClass == 5 then [n]
    else if sizeClass == 6 then LE16(n)
    else LE32(n)
  }

  /** Every size class reads back the length written for it, prefixed or not. */
  lemma SizeRoundTrip(sizeClass: nat, n: nat, s: seq<Byte>, pos: nat)
    requires Describes(sizeClass, n) && IsAt(s, pos, SizePrefix(sizeClass, n))
    ensures PayloadSize(sizeClass, s, pos) == Ok((n as int, pos + PrefixWidth(sizeClass)))
  {
    if sizeClass == 5 {
      assert s[pos] == SizePrefix(sizeClass, n)[0];
    } else if sizeClass == 6 {
      var e := LE16(n);
      assert s[pos] == e[0] == n % 256 && s[pos + 1] == e[1] == n / 256;
    } else if sizeClass == 7 {
      LE32RoundTrip(s, pos, n);
    }
  }
}

/** The tagged property-list reader of helpers/Util.java: the "HasStack" state
    frame, the record scanner, and the tab / newLine text helpers. */
module PropertyScanner {
  import opened JavaLib
  import opened Compact
  import opened SizeCodec

  const NONE: string := "None"
  const TYPE_BOOL: nat := 3
  const TYPE_STRUCT: nat := 10

  /** The header byte: type in bits 0-3, size class in bits 4-6, array flag in bit 7. */
  datatype Header = Header(typ: nat, sizeClass: nat, isArray: bool)

  predicate ValidHeader(h: Header) { h.typ < 16 && h.sizeClass < 8 }

  function DecodeHeader(info: Byte): (h: Header)
    ensures ValidHeader(h) && EncodeHeader(h) == info
  {
    Header(info % 16, (info / 16) % 8, info >= 128)
  }

  function EncodeHeader(h: Header): Byte
    requires ValidHeader(h)
  {
    h.typ + 16 * h.sizeClass + (if h.isArray then 128 else 0)
  }

  lemma HeaderRoundTrip(h: Header)
    requires ValidHeader(h)
    ensures DecodeHeader(EncodeHeader(h)) == h
  {
  }

  /** What the callback of iterateProperties receives: the name, the offset of
      the payload in the blob, and a copy of the payload. */
  datatype Record = Record(name: string, offset: nat, payload: seq<Byte>)

  /** One step of the scan: the terminating "None" or one record. */
  datatype Step = Stop(end: nat) | Next(record: Record, next: nat)

  datatype Scan = Scan(records: seq<Record>, end: nat)

  /** A compact name reference resolved through the name table. */
  function ReadName(s: seq<Byte>, pos: nat, names: seq<string>): (r: Result<(string, nat)>)
    ensures r.Ok? ==> pos < r.value.1 <= |s|
  {
    var c :- Decode(s, pos);
    if 0 <= c.0 < |names| then Ok((names[c.0], c.1)) else Err(IndexOutOfBounds(c.0))
  }

  /** readStateFrame: a compact int, a compact int, a long, an int, a compact int. */
  function SkipStateFrame(s: seq<Byte>, pos: nat): (r: Result<nat>)
    ensures r.Ok? ==> pos + 15 <= r.value <= |s|
  {
    var a :- Skip(s, pos);
    var b :- Skip(s, a);
    if b + 12 > |s| then Err(BufferUnderflow) else Skip(s, b + 12)
  }

  /** The layout readStateFrame expects, as a writer lays it out. */
  function StateFrame(a: CompactValue, b: CompactValue, eight: seq<Byte>, four: seq<Byte>, c: CompactValue): seq<Byte>
  {
    Encode(a) + Encode(b) + eight + four + Encode(c)
  }

  /** readStateFrame consumes exactly the frame: two compacts, eight bytes, four bytes, a compact. */
  lemma StateFrameRoundTrip(s: seq<Byte>, pos: nat, a: CompactValue, b: CompactValue, eight: seq<Byte>, four: seq<Byte>, c: CompactValue)
    requires |eight| == 8 && |four| == 4
    requires IsAt(s, pos, StateFrame(a, b, eight, four, c))
    ensures SkipStateFrame(s, pos) == Ok(pos + |StateFrame(a, b, eight, four, c)|)
  {
    StateFrameParts(s, pos, a, b, eight, four, c);
    StateFrameFromParts(s, pos, a, b, c, pos + |StateFrame(a, b, eight, four, c)|);
  }

  lemma StateFrameParts(s: seq<Byte>, pos: nat, a: CompactValue, b: CompactValue, eight: seq<Byte>, four: seq<Byte>, c: CompactValue)
    requires |eight| == 8 && |four| == 4
    requires IsAt(s, pos, StateFrame(a, b, eight, four, c))
    ensures IsAt(s, pos, Encode(a)) && IsAt(s, pos + |Encode(a)|, Encode(b))
    ensures IsAt(s, pos + |Encode(a)| + |Encode(b)| + 12, Encode(c))
    ensures |StateFrame(a, b, eight, four, c)| == |Encode(a)| + |Encode(b)| + 12 + |Encode(c)|
    ensures pos + |StateFrame(a, b, eight, four, c)| <= |s|
  {
    var ea, eb, ec := Encode(a), Encode(b), Encode(c);
    assert StateFrame(a, b, eight, four, c) == (ea + eb) + (eight + four + ec);
    IsAtSplit(s, pos, ea + eb, eight + four + ec);
    IsAtSplit(s, pos, ea, eb);
    assert eight + four + ec == (eight + four) + ec;
    IsAtSplit(s, pos + |ea| + |eb|, eight + four, ec);
  }

  /** StateFrameRoundTrip from the three compacts taken apart. */
  lemma StateFrameFromParts(s: seq<Byte>, pos: nat, a: CompactValue, b: CompactValue, c: CompactValue, end: nat)
    requires IsAt(s, pos, Encode(a)) && IsAt(s, pos + |Encode(a)|, Encode(b))
    requires IsAt(s, pos + |Encode(a)| + |Encode(b)| + 12, Encode(c))
    requires end == pos + |Encode(a)| + |Encode(b)| + 12 + |Encode(c)| <= |s|
    ensures SkipStateFrame(s, pos) == Ok(end)
  {
    SkipRoundTrip(s, pos, a);
    SkipRoundTrip(s, pos + |Encode(a)|, b);
    SkipRoundTrip(s, pos + |Encode(a)| + |Encode(b)| + 12, c);
    StateFrameSteps(s, pos, |Encode(a)|, |Encode(b)|, |Encode(c)|, end);
  }

  lemma StateFrameSteps(s: seq<Byte>, pos: nat, la: nat, lb: nat, lc: nat, end: nat)
    requires end == pos + la + lb + 12 + lc <= |s|
    requires Skip(s, pos) == Ok(pos + la) && Skip(s, pos + la) == Ok(pos + la + lb)
    requires Skip(s, pos + la + lb + 12) == Ok(pos + la + lb + 12 + lc)
    ensures SkipStateFrame(s, pos) == Ok(end)
  {
  }

  /** One iteration of the loop in iterateProperties. */
  function ScanRecord(s: seq<Byte>, pos: nat, names: seq<string>): (r: Result<Step>)
    ensures r.Ok? && r.value.Stop? ==> pos < r.value.end <= |s|
    ensures r.Ok? && r.value.Next? ==>
      var rec := r.value.record;
      && rec.name != NONE
      && pos + 2 <= rec.offset && rec.offset + |rec.payload| == r.value.next <= |s|
      && rec.payload == s[rec.offset..r.value.next]
  {
    var n :- ReadName(s, pos, names);
    if n.0 == NONE then Ok(Stop(n.1))
    else
      var size :- PayloadStart(s, n.1);
      if size.0 < 0 then Err(NegativeArraySize(size.0))
      else if size.1 + size.0 > |s| then Err(BufferUnderflow)
      else Ok(Next(Record(n.0, size.1, s[size.1..size.1 + size.0]), size.1 + size.0))
  }

  /** The loop stops exactly at a name that resolves to "None", with the cursor
      just after that name. */
  lemma StopsAtNone(s: seq<Byte>, pos: nat, names: seq<string>, end: nat)
    ensures ScanRecord(s, pos, names) == Ok(Stop(end)) <==> ReadName(s, pos, names) == Ok((NONE, end))
  {
  }

  /** What follows a name other than "None": the header byte, the struct name of
      a struct, the explicit length of classes 5-7 and the array index of an
      array that is not a boolean. Gives the payload length and its offset. */
  function PayloadStart(s: seq<Byte>, at: nat): (r: Result<(int, nat)>)
    ensures r.Ok? ==> at < r.value.1 <= |s|
  {
    if at >= |s| then Err(BufferUnderflow)
    else
      var h := DecodeHeader(s[at]);
      var p :- if h.typ == TYPE_STRUCT then Skip(s, at + 1) else Ok(at + 1);
      var size :- PayloadSize(h.sizeClass, s, p);
      var q :- if h.isArray && h.typ != TYPE_BOOL then SkipByte(s, size.1) else Ok(size.1);
      Ok((size.0, q))
  }

  function SkipByte(s: seq<Byte>, pos: nat): (r: Result<nat>)
    ensures r.Ok? ==> r.value == pos + 1 <= |s|
  {
    if pos < |s| then Ok(pos + 1) else Err(BufferUnderflow)
  }

  /** PayloadStart, step by step, for a header byte that encodes `h`: one
      compact skipped for a struct, the size read by the size class, one byte
      skipped for a non-boolean array. */
  lemma PayloadStartSteps(s: seq<Byte>, at: nat, h: Header, p: nat, len: int, q: nat)
    requires at < |s| && ValidHeader(h) && s[at] == EncodeHeader(h)
    requires h.typ == TYPE_STRUCT ==> Skip(s, at + 1) == Ok(p)
    requires h.typ != TYPE_STRUCT ==> p == at + 1
    requires PayloadSize(h.sizeClass, s, p) == Ok((len, p + PrefixWidth(h.sizeClass)))
    requires q == p + PrefixWidth(h.sizeClass) + (if h.isArray && h.typ != TYPE_BOOL then 1 else 0) <= |s|
    ensures PayloadStart(s, at) == Ok((len, q))
  {
    HeaderRoundTrip(h);
  }

  lemma ScanRecordNext(s: seq<Byte>, pos: nat, names: seq<string>, name: string, at: nat, q: nat, payload: seq<Byte>, next: nat)
    requires ReadName(s, pos, names) == Ok((name, at)) && name != NONE
    requires PayloadStart(s, at) == Ok((|payload| as int, q))
    requires IsAt(s, q, payload) && next == q + |payload|
    ensures ScanRecord(s, pos, names) == Ok(Next(Record(name, q, payload), next))
  {
    IsAtSlice(s, q, payload);
  }

  /** The record lies inside the blob between `from` and `to`, its payload is
      the blob's bytes at its offset, and it is not the terminator. */
  ghost predicate DeliveredFrom(s: seq<Byte>, from: nat, to: nat, rec: Record)
  {
    && rec.name != NONE
    && from < rec.offset && rec.offset + |rec.payload| < to <= |s|
    && rec.payload == s[rec.offset..rec.offset + |rec.payload|]
  }

  /** Records come in blob order and do not overlap. */
  ghost predicate InBlobOrder(recs: seq<Record>)
  {
    forall i, j :: 0 <= i < j < |recs| ==> recs[i].offset + |recs[i].payload| < recs[j].offset
  }

  /** iterateProperties: every record up to the first name that resolves to "None". */
  function ScanProperties(s: seq<Byte>, pos: nat, names: seq<string>): (r: Result<Scan>)
    ensures r.Ok? ==> pos < r.value.end <= |s|
    decreases |s| - pos
  {
    var step :- ScanRecord(s, pos, names);
    match step
    case Stop(end) => Ok(Scan([], end))
    case Next(rec, next) =>
      var rest :- ScanProperties(s, next, names);
      Ok(Scan([rec] + rest.records, rest.end))
  }

  /** The records found so far, followed by whatever the rest of the scan yields. */
  function Prepend(done: seq<Record>, rest: Result<Scan>): Result<Scan>
  {
    match rest
    case Err(e) => Err(e)
    case Ok(sc) => Ok(Scan(done + sc.records, sc.end))
  }

  lemma ScanStop(s: seq<Byte>, pos: nat, names: seq<string>, end: nat)
    requires ScanRecord(s, pos, names) == Ok(Stop(end))
    ensures ScanProperties(s, pos, names) == Ok(Scan([], end))
  {
  }

  lemma ScanNext(s: seq<Byte>, pos: nat, names: seq<string>, rec: Record, next: nat)
    requires ScanRecord(s, pos, names) == Ok(Next(rec, next))
    ensures ScanProperties(s, pos, names) == Prepend([rec], ScanProperties(s, next, names))
  {
  }

  /** Where the terminating name of a scan from `pos` that found `recs` stands:
      right after the last payload, or at `pos` for an empty list. */
  function TerminatorAt(pos: nat, recs: seq<Record>): nat
  {
    if recs == [] then pos else recs[|recs| - 1].offset + |recs[|recs| - 1].payload|
  }

  /** A successful scan stops at the first name that resolves to "None": that
      name follows the last record handed on, and the cursor ends just after it. */
  lemma {:induction false} ScanEndsAtNone(s: seq<Byte>, pos: nat, names: seq<string>)
    requires ScanProperties(s, pos, names).Ok?
    ensures var sc := ScanProperties(s, pos, names).value;
      ReadName(s, TerminatorAt(pos, sc.records), names) == Ok((NONE, sc.end))
    decreases |s| - pos
  {
    var step := ScanRecord(s, pos, names).value;
    match step
    case Stop(end) =>
      ScanStop(s, pos, names, end);
      StopsAtNone(s, pos, names, end);
    case Next(rec, next) =>
      ScanNext(s, pos, names, rec, next);
      var rest := ScanProperties(s, next, names).value;
      ScanEndsAtNone(s, next, names);
      assert TerminatorAt(pos, [rec] + rest.records) == TerminatorAt(next, rest.records);
  }

  /** A successful scan hands on records that lie in the blob in order, copy
      the blob's bytes, and are never named "None". */
  lemma {:induction false} ScanDelivers(s: seq<Byte>, pos: nat, names: seq<string>)
    requires ScanProperties(s, pos, names).Ok?
    ensures var sc := ScanProperties(s, pos, names).value;
      && (forall i :: 0 <= i < |sc.records| ==> DeliveredFrom(s, pos, sc.end, sc.records[i]))
      && InBlobOrder(sc.records)
    decreases |s| - pos
  {
    var step := ScanRecord(s, pos, names).value;
    match step
    case Stop(end) =>
      ScanStop(s, pos, names, end);
    case Next(rec, next) =>
      ScanNext(s, pos, names, rec, next);
      var rest := ScanProperties(s, next, names).value;
      ScanDelivers(s, next, names);
      DeliveredCons(s, pos, next, rec, rest.records, rest.end);
  }

  lemma DeliveredCons(s: seq<Byte>, pos: nat, next: nat, rec: Record, rest: seq<Record>, end: nat)
    requires rec.name != NONE && pos < rec.offset && rec.offset + |rec.payload| == next < end <= |s|
    requires rec.payload == s[rec.offset..next]
    requires forall i :: 0 <= i < |rest| ==> DeliveredFrom(s, next, end, rest[i])
    requires InBlobOrder(rest)
    ensures forall i :: 0 <= i < |[rec] + rest| ==> DeliveredFrom(s, pos, end, ([rec] + rest)[i])
    ensures InBlobOrder([rec] + rest)
  {
    var recs := [rec] + rest;
    forall i, j | 0 <= i < j < |recs|
      ensures recs[i].offset + |recs[i].payload| < recs[j].offset
    {
      assert recs[j] == rest[j - 1];
      if i > 0 {
        assert recs[i] == rest[i - 1];
      }
    }
    forall i | 0 <= i < |recs|
      ensures DeliveredFrom(s, pos, end, recs[i])
    {
      if i > 0 {
        assert recs[i] == rest[i - 1];
      }
    }
  }

  /** iterateProperties over a buffer: the while loop, handing each record on in
      blob order (collected here in `records`). */
  method IterateProperties(buffer: array<Byte>, start: nat, names: seq<string>) returns (r: Result<Scan>)
    ensures r == ScanProperties(buffer[..], start, names)
  {
    var s := buffer[..];
    var pos := start;
    var records: seq<Record> := [];
    PrependNothing(ScanProperties(s, start, names));
    while true
      invariant ScanProperties(s, start, names) == Prepend(records, ScanProperties(s, pos, names))
      decreases |s| - pos
    {
      var step := ScanRecord(s, pos, names);
      if step.Err? {
        return Err(step.error);
      }
      match step.value
      case Stop(end) =>
        ScanStop(s, pos, names, end);
        assert records + [] == records;
        return Ok(Scan(records, end));
      case Next(rec, next) =>
        ScanNext(s, pos, names, rec, next);
        PrependTwice(records, rec, ScanProperties(s, next, names));
        records := records + [rec];
        pos := next;
    }
  }

  lemma PrependNothing(x: Result<Scan>)
    ensures Prepend([], x) == x
  {
    if x.Ok? {
      assert [] + x.value.records == x.value.records;
    }
  }

  lemma PrependTwice(done: seq<Record>, rec: Record, x: Result<Scan>)
    ensures Prepend(done, Prepend([rec], x)) == Prepend(done + [rec], x)
  {
    if x.Ok? {
      assert done + ([rec] + x.value.records) == (done + [rec]) + x.value.records;
    }
  }

  /** A record as a writer lays it out: name reference, header byte, struct name
      (struct records only), explicit length (size classes 5-7), array index
      (arrays that are not booleans), payload. */
  datatype RawRecord = RawRecord(
    nameIndex: CompactValue, typ: nat, sizeClass: nat, isArray: bool,
    structName: CompactValue, arrayIndex: Byte, payload: seq<Byte>)

  predicate WellFormed(r: RawRecord)
  {
    r.typ < 16 && r.sizeClass < 8 && Describes(r.sizeClass, |r.payload|)
  }

  function StructPart(r: RawRecord): seq<Byte>
  {
    if r.typ == TYPE_STRUCT then Encode(r.structName) else []
  }

  function IndexPart(r: RawRecord): seq<Byte>
  {
    if r.isArray && r.typ != TYPE_BOOL then [r.arrayIndex] else []
  }

  /** Everything between the name reference and the payload. */
  function HeadAfterName(r: RawRecord): seq<Byte>
    requires WellFormed(r)
  {
    [EncodeHeader(Header(r.typ, r.sizeClass, r.isArray))] + StructPart(r)
    + SizePrefix(r.sizeClass, |r.payload|) + IndexPart(r)
  }

  function RecordHead(r: RawRecord): seq<Byte>
    requires WellFormed(r)
  {
    Encode(r.nameIndex) + HeadAfterName(r)
  }

  function EncodeRecord(r: RawRecord): seq<Byte>
    requires WellFormed(r)
  {
    RecordHead(r) + r.payload
  }

  /** A property list as a writer lays it out: records, then the "None" name reference. */
  datatype PropertyList = Terminator(noneIndex: CompactValue) | Property(head: RawRecord, tail: PropertyList)

  predicate ListWellFormed(l: PropertyList)
  {
    match l
    case Terminator(_) => true
    case Property(r, t) => WellFormed(r) && ListWellFormed(t)
  }

  /** Every record name resolves to something other than "None"; the terminator to "None". */
  predicate NamesFit(l: PropertyList, names: seq<string>)
  {
    match l
    case Terminator(n) => 0 <= n < |names| && names[n] == NONE
    case Property(r, t) => 0 <= r.nameIndex < |names| && names[r.nameIndex] != NONE && NamesFit(t, names)
  }

  function EncodeList(l: PropertyList): seq<Byte>
    requires ListWellFormed(l)
  {
    match l
    case Terminator(n) => Encode(n)
    case Property(r, t) => EncodeRecord(r) + EncodeList(t)
  }

  /** The records a scan of EncodeList(l) placed at `at` delivers. */
  function Delivered(l: PropertyList, names: seq<string>, at: nat): seq<Record>
    requires ListWellFormed(l) && NamesFit(l, names)
  {
    match l
    case Terminator(_) => []
    case Property(r, t) =>
      [Record(names[r.nameIndex], at + |RecordHead(r)|, r.payload)] + Delivered(t, names, at + |EncodeRecord(r)|)
  }

  lemma HeadParts(s: seq<Byte>, at: nat, r: RawRecord)
    requires WellFormed(r) && IsAt(s, at, HeadAfterName(r))
    ensures s[at] == EncodeHeader(Header(r.typ, r.sizeClass, r.isArray))
    ensures IsAt(s, at + 1, StructPart(r))
    ensures IsAt(s, at + 1 + |StructPart(r)|, SizePrefix(r.sizeClass, |r.payload|))
    ensures |HeadAfterName(r)|
         == 1 + |StructPart(r)| + PrefixWidth(r.sizeClass) + (if r.isArray && r.typ != TYPE_BOOL then 1 else 0)
    ensures at + |HeadAfterName(r)| <= |s|
  {
    var info := [EncodeHeader(Header(r.typ, r.sizeClass, r.isArray))];
    var prefix := SizePrefix(r.sizeClass, |r.payload|);
    IsAtSplit(s, at, info + StructPart(r) + prefix, IndexPart(r));
    IsAtSplit(s, at, info + StructPart(r), prefix);
    IsAtSplit(s, at, info, StructPart(r));
    assert s[at] == info[0];
  }

  /** After a name, the reader consumes exactly the header bytes a writer put
      there and finds the payload length the writer meant. */
  lemma HeadRoundTrip(s: seq<Byte>, at: nat, r: RawRecord, q: nat)
    requires WellFormed(r) && IsAt(s, at, HeadAfterName(r)) && q == at + |HeadAfterName(r)|
    ensures PayloadStart(s, at) == Ok((|r.payload| as int, q))
  {
    HeadParts(s, at, r);
    HeadFromParts(s, at, r, q);
  }

  /** HeadRoundTrip from the separate pieces of the head. */
  lemma HeadFromParts(s: seq<Byte>, at: nat, r: RawRecord, q: nat)
    requires WellFormed(r) && at < |s| && s[at] == EncodeHeader(Header(r.typ, r.sizeClass, r.isArray))
    requires IsAt(s, at + 1, StructPart(r))
    requires IsAt(s, at + 1 + |StructPart(r)|, SizePrefix(r.sizeClass, |r.payload|))
    requires q == at + 1 + |StructPart(r)| + PrefixWidth(r.sizeClass) + (if r.isArray && r.typ != TYPE_BOOL then 1 else 0) <= |s|
    ensures PayloadStart(s, at) == Ok((|r.payload| as int, q))
  {
    StructStep(s, at, r);
    SizeRoundTrip(r.sizeClass, |r.payload|, s, at + 1 + |StructPart(r)|);
    PayloadStartSteps(s, at, Header(r.typ, r.sizeClass, r.isArray), at + 1 + |StructPart(r)|, |r.payload|, q);
  }

  /** The struct name, when there is one, is skipped exactly. */
  lemma StructStep(s: seq<Byte>, at: nat, r: RawRecord)
    requires IsAt(s, at + 1, StructPart(r))
    ensures r.typ == TYPE_STRUCT ==> Skip(s, at + 1) == Ok(at + 1 + |StructPart(r)|)
    ensures r.typ != TYPE_STRUCT ==> |StructPart(r)| == 0
  {
    if r.typ == TYPE_STRUCT {
      SkipRoundTrip(s, at + 1, r.structName);
    }
  }

  lemma ReadNameRoundTrip(s: seq<Byte>, pos: nat, i: CompactValue, names: seq<string>)
    requires IsAt(s, pos, Encode(i)) && 0 <= i < |names|
    ensures ReadName(s, pos, names) == Ok((names[i], pos + |Encode(i)|))
  {
    RoundTrip(s, pos, i);
  }

  lemma RecordParts(s: seq<Byte>, pos: nat, r: RawRecord)
    requires WellFormed(r) && IsAt(s, pos, EncodeRecord(r))
    ensures IsAt(s, pos, Encode(r.nameIndex)) && IsAt(s, pos + |Encode(r.nameIndex)|, HeadAfterName(r))
    ensures IsAt(s, pos + |RecordHead(r)|, r.payload)
    ensures |RecordHead(r)| == |Encode(r.nameIndex)| + |HeadAfterName(r)|
    ensures |EncodeRecord(r)| == |RecordHead(r)| + |r.payload|
  {
    IsAtSplit3(s, pos, Encode(r.nameIndex), HeadAfterName(r), r.payload);
  }

  lemma RecordRoundTrip(s: seq<Byte>, pos: nat, r: RawRecord, names: seq<string>)
    requires WellFormed(r) && 0 <= r.nameIndex < |names| && names[r.nameIndex] != NONE
    requires IsAt(s, pos, EncodeRecord(r))
    ensures ScanRecord(s, pos, names)
         == Ok(Next(Record(names[r.nameIndex], pos + |RecordHead(r)|, r.payload), pos + |EncodeRecord(r)|))
  {
    RecordParts(s, pos, r);
    RecordFromPieces(s, pos, r, names, pos + |Encode(r.nameIndex)|, pos + |RecordHead(r)|, pos + |EncodeRecord(r)|);
  }

  /** RecordRoundTrip from the name, the head and the payload written one after
      the other at `pos`, `at` and `q`. */
  lemma RecordFromPieces(s: seq<Byte>, pos: nat, r: RawRecord, names: seq<string>, at: nat, q: nat, next: nat)
    requires WellFormed(r) && 0 <= r.nameIndex < |names| && names[r.nameIndex] != NONE
    requires IsAt(s, pos, Encode(r.nameIndex)) && at == pos + |Encode(r.nameIndex)|
    requires IsAt(s, at, HeadAfterName(r)) && q == at + |HeadAfterName(r)|
    requires IsAt(s, q, r.payload) && next == q + |r.payload|
    ensures ScanRecord(s, pos, names) == Ok(Next(Record(names[r.nameIndex], q, r.payload), next))
  {
    ReadNameRoundTrip(s, pos, r.nameIndex, names);
    HeadRoundTrip(s, at, r, q);
    ScanRecordNext(s, pos, names, names[r.nameIndex], at, q, r.payload, next);
  }

  /** The scan from `pos` succeeds with these records and this end. */
  ghost predicate Yields(s: seq<Byte>, pos: nat, names: seq<string>, recs: seq<Record>, end: nat)
  {
    ScanProperties(s, pos, names) == Ok(Scan(recs, end))
  }

  lemma YieldsStop(s: seq<Byte>, pos: nat, names: seq<string>, end: nat)
    requires ScanRecord(s, pos, names) == Ok(Stop(end))
    ensures Yields(s, pos, names, [], end)
  {
  }

  lemma YieldsCons(s: seq<Byte>, pos: nat, names: seq<string>, rec: Record, next: nat, rest: seq<Record>, end: nat)
    requires ScanRecord(s, pos, names) == Ok(Next(rec, next))
    requires Yields(s, next, names, rest, end)
    ensures Yields(s, pos, names, [rec] + rest, end)
  {
  }

  /** One record written at `pos` in front of a list the scan already reads. */
  lemma ConsYields(s: seq<Byte>, pos: nat, r: RawRecord, names: seq<string>, rest: seq<Record>, end: nat, recs: seq<Record>)
    requires WellFormed(r) && 0 <= r.nameIndex < |names| && names[r.nameIndex] != NONE
    requires IsAt(s, pos, EncodeRecord(r))
    requires Yields(s, pos + |EncodeRecord(r)|, names, rest, end)
    requires recs == [Record(names[r.nameIndex], pos + |RecordHead(r)|, r.payload)] + rest
    ensures Yields(s, pos, names, recs, end)
  {
    RecordRoundTrip(s, pos, r, names);
    YieldsCons(s, pos, names, Record(names[r.nameIndex], pos + |RecordHead(r)|, r.payload),
      pos + |EncodeRecord(r)|, rest, end);
  }

  /** The "None" reference written at `pos` ends the scan with no record. */
  lemma TerminatorYields(s: seq<Byte>, pos: nat, n: CompactValue, names: seq<string>, recs: seq<Record>, end: nat)
    requires 0 <= n < |names| && names[n] == NONE
    requires IsAt(s, pos, Encode(n))
    requires recs == [] && end == pos + |Encode(n)|
    ensures Yields(s, pos, names, recs, end)
  {
    ReadNameRoundTrip(s, pos, n, names);
    StopsAtNone(s, pos, names, pos + |Encode(n)|);
    YieldsStop(s, pos, names, pos + |Encode(n)|);
  }

  /** EncodeList(l) lies at `pos`, record by record. */
  ghost predicate ListAt(s: seq<Byte>, pos: nat, l: PropertyList)
    requires ListWellFormed(l)
    decreases l
  {
    match l
    case Terminator(n) => IsAt(s, pos, Encode(n))
    case Property(r, t) => IsAt(s, pos, EncodeRecord(r)) && ListAt(s, pos + |EncodeRecord(r)|, t)
  }

  lemma {:induction false} ListAtSplit(s: seq<Byte>, pos: nat, l: PropertyList)
    requires ListWellFormed(l) && IsAt(s, pos, EncodeList(l))
    ensures ListAt(s, pos, l)
    decreases l
  {
    match l
    case Terminator(_) =>
    case Property(r, t) =>
      IsAtSplit(s, pos, EncodeRecord(r), EncodeList(t));
      ListAtSplit(s, pos + |EncodeRecord(r)|, t);
  }

  lemma {:induction false} ListYields(s: seq<Byte>, pos: nat, l: PropertyList, names: seq<string>, recs: seq<Record>, end: nat)
    requires ListWellFormed(l) && NamesFit(l, names) && ListAt(s, pos, l)
    requires recs == Delivered(l, names, pos) && end == pos + |EncodeList(l)|
    ensures Yields(s, pos, names, recs, end)
    decreases l
  {
    match l
    case Terminator(n) =>
      TerminatorYields(s, pos, n, names, recs, end);
    case Property(r, t) =>
      PropertyFacts(s, pos, l, names);
      var rest := Delivered(t, names, pos + |EncodeRecord(r)|);
      ListYields(s, pos + |EncodeRecord(r)|, t, names, rest, end);
      ConsYields(s, pos, r, names, rest, end, recs);
  }

  /** What a list that starts with a record says about that record and the rest. */
  lemma PropertyFacts(s: seq<Byte>, pos: nat, l: PropertyList, names: seq<string>)
    requires l.Property? && ListWellFormed(l) && NamesFit(l, names) && ListAt(s, pos, l)
    ensures WellFormed(l.head) && 0 <= l.head.nameIndex < |names| && names[l.head.nameIndex] != NONE
    ensures IsAt(s, pos, EncodeRecord(l.head))
    ensures ListWellFormed(l.tail) && NamesFit(l.tail, names) && ListAt(s, pos + |EncodeRecord(l.head)|, l.tail)
    ensures |EncodeList(l)| == |EncodeRecord(l.head)| + |EncodeList(l.tail)|
    ensures Delivered(l, names, pos)
         == [Record(names[l.head.nameIndex], pos + |RecordHead(l.head)|, l.head.payload)]
            + Delivered(l.tail, names, pos + |EncodeRecord(l.head)|)
  {
  }

  /** Scanning what EncodeList wrote delivers every record, in order, with its
      payload offset, and ends just after the "None" reference. */
  lemma ScanRoundTrip(s: seq<Byte>, pos: nat, l: PropertyList, names: seq<string>)
    requires ListWellFormed(l) && NamesFit(l, names)
    requires IsAt(s, pos, EncodeList(l))
    ensures Yields(s, pos, names, Delivered(l, names, pos), pos + |EncodeList(l)|)
  {
    ListAtSplit(s, pos, l);
    ListScan(s, pos, l, names);
  }

  lemma ListScan(s: seq<Byte>, pos: nat, l: PropertyList, names: seq<string>)
    requires ListWellFormed(l) && NamesFit(l, names) && ListAt(s, pos, l)
    ensures Yields(s, pos, names, Delivered(l, names, pos), pos + |EncodeList(l)|)
  {
    ListYields(s, pos, l, names, Delivered(l, names, pos), pos + |EncodeList(l)|);
  }

  /** ScanRoundTrip for a list that makes up the whole tail of the buffer. */
  lemma ScanSuffix(s: seq<Byte>, pos: nat, l: PropertyList, names: seq<string>)
    requires ListWellFormed(l) && NamesFit(l, names)
    requires pos <= |s| && s[pos..] == EncodeList(l)
    ensures ScanProperties(s, pos, names) == Ok(Scan(Delivered(l, names, pos), |s|))
  {
    SliceIsAt(s, pos, EncodeList(l));
    ScanRoundTrip(s, pos, l, names);
    YieldsToEnd(s, pos, EncodeList(l), names, Delivered(l, names, pos));
  }

  /** A scan that ends where the tail it covers ends, ends at the end. */
  lemma YieldsToEnd(s: seq<Byte>, pos: nat, tail: seq<Byte>, names: seq<string>, recs: seq<Record>)
    requires pos <= |s| && s[pos..] == tail && Yields(s, pos, names, recs, pos + |tail|)
    ensures ScanProperties(s, pos, names) == Ok(Scan(recs, |s|))
  {
    assert pos + |tail| == |s|;
  }

  /** n tab characters. */
  function Tabs(n: nat): (r: string)
    ensures |r| == n
    ensures forall i :: 0 <= i < |r| ==> r[i] == '\t'
  {
    if n == 0 then "" else Tabs(n - 1) + "\t"
  }

  /** tab(indent) as the source builds it: `new StringBuilder(indent)` throws
      NegativeArraySizeException for a negative capacity, then one append per
      iteration. */
  method Tab(indent: int) returns (r: Result<string>)
    ensures indent < 0 ==> r == Err(NegativeArraySize(indent))
    ensures indent >= 0 ==> r.Ok? && |r.value| == indent
    ensures r.Ok? ==> forall i :: 0 <= i < |r.value| ==> r.value[i] == '\t'
  {
    if indent < 0 {
      return Err(NegativeArraySize(indent));
    }
    var sb := "";
    var i := 0;
    while i < indent
      invariant 0 <= i <= indent
      invariant sb == Tabs(i)
    {
      sb := sb + "\t";
      i := i + 1;
    }
    return Ok(sb);
  }

  /** A line break followed by `indent` tabs, for an indent that is never negative. */
  function LineBreak(indent: nat): (r: string)
    ensures |r| == 2 + indent && r[..2] == "\r\n"
    ensures forall i :: 2 <= i < |r| ==> r[i] == '\t'
  {
    "\r\n" + Tabs(indent)
  }

  /** newLine(indent): CR LF, then tab(indent), which throws for a negative indent. */
  function NewLine(indent: int): (r: Result<string>)
    ensures r.Err? <==> indent < 0
    ensures r.Err? ==> r.error == NegativeArraySize(indent)
    ensures r.Ok? ==> |r.value| == 2 + indent && r.value[..2] == "\r\n"
    ensures r.Ok? ==> forall i :: 2 <= i < |r.value| ==> r.value[i] == '\t'
  {
    if indent < 0 then Err(NegativeArraySize(indent)) else Ok(LineBreak(indent))
  }

  /** newLine(): never throws, and is a bare CR LF. */
  function NewLineNoIndent(): (r: Result<string>)
    ensures r == Ok("\r\n")
  {
    assert Tabs(0) == "";
    assert LineBreak(0) == "\r\n";
    NewLine(0)
  }
}
