/** StaticMeshActorUtil.createActor, which lays out the raw data of a new
    StaticMeshActor in a 256-byte ByteBuffer, and sm, which picks the number
    for the new actor's name. */
module ActorBuilder {
  import opened JavaLib
  import opened JavaText
  import opened Compact
  import opened SizeCodec
  import opened PropertyScanner

  /** The part of java.nio.ByteBuffer that createActor uses: a fixed backing
      array, a position, relative puts, and flip() followed by get() into an
      array of exactly the written bytes. */
  class ByteBuffer {
    var data: array<Byte>
    var position: nat
    /** The bytes written so far. */
    ghost var written: seq<Byte>

    ghost predicate Valid()
      reads this, data
    {
      position == |written| <= data.Length && data[..position] == written
    }

    /** ByteBuffer.allocate: a zeroed array, position 0. */
    constructor Allocate(capacity: nat)
      ensures Valid() && fresh(data) && data.Length == capacity && written == []
    {
      data := new Byte[capacity](_ => 0);
      position := 0;
      written := [];
    }

    /** A relative put of `bytes`; the caller has checked they fit, so the
        BufferOverflowException a put into a full buffer throws never arises. */
    method Put(bytes: seq<Byte>)
      requires Valid() && position + |bytes| <= data.Length
      modifies this, data
      ensures Valid() && data == old(data) && written == old(written) + bytes
    {
      forall i | 0 <= i < |bytes| {
        data[position + i] := bytes[i];
      }
      position := position + |bytes|;
      written := written + bytes;
    }

    /** flip() then get(new byte[limit]): a fresh array holding what was written. */
    method Contents() returns (out: array<Byte>)
      requires Valid()
      ensures fresh(out) && out[..] == written
    {
      out := new Byte[position];
      forall i | 0 <= i < position {
        out[i] := data[i];
      }
    }
  }

  /** The package lookups createActor calls: objectReferenceByName for the
      actor's class and for LevelInfo0, and nameReference for each property
      name. They belong to the package library and are taken as given. */
  datatype Lookups = Lookups(classRef: CompactValue, levelInfoRef: CompactValue, nameRef: string -> CompactValue)

  /** putLong(-1) and putInt(0). */
  const ALL_ONES_LONG: seq<Byte> := [255, 255, 255, 255, 255, 255, 255, 255]
  const ZERO_INT: seq<Byte> := [0, 0, 0, 0]

  /** putFloat(1): the bit pattern of 1.0f. */
  const FLOAT_ONE: Word := 0x3F80_0000

  /** Type.OBJECT.ordinal() and Type.NAME.ordinal(). */
  const TYPE_OBJECT: nat := 5
  const TYPE_NAME: nat := 6

  /** The state frame: the class reference twice, a long -1, an int 0, compact -1. */
  function Frame(up: Lookups): seq<Byte>
  {
    Encode(up.classRef) + Encode(up.classRef) + ALL_ONES_LONG + ZERO_INT + Encode(-1)
  }

  /** A property whose payload is one compact reference, with the header
      `typ | (length - 1) << 4`. */
  function RefProperty(up: Lookups, name: string, typ: nat, ref: CompactValue): (r: seq<Byte>)
    requires typ < 16
    ensures |r| <= 11
  {
    Encode(up.nameRef(name)) + [typ + 16 * (|Encode(ref)| - 1)] + Encode(ref)
  }

  /** A boolean property: its name, its header (which carries the value) and a zero size. */
  function BoolProperty(up: Lookups, name: string, header: Byte): (r: seq<Byte>)
    ensures |r| <= 7
  {
    Encode(up.nameRef(name)) + [header, 0]
  }

  /** A Vector or Rotator property: header 0x3a (struct, twelve bytes), the
      struct name, then three words. */
  function StructProperty(up: Lookups, name: string, structName: string, ws: seq<Word>): (r: seq<Byte>)
    ensures |r| <= 11 + 4 * |ws|
  {
    Encode(up.nameRef(name)) + [0x3a] + Encode(up.nameRef(structName)) + LE32s(ws)
  }

  /** ZoneRenderState (an array of one int, 1) and bDynamicActorFilterState. */
  function ZoneSection(up: Lookups): seq<Byte>
  {
    Encode(up.nameRef("ZoneRenderState")) + [0x59, 0x05, 0x01] + LE32(1)
    + BoolProperty(up, "bDynamicActorFilterState", 0xD3)
  }

  /** Physics = 5 (PHYS_Rotating). */
  function PhysicsSection(up: Lookups): seq<Byte>
  {
    Encode(up.nameRef("Physics")) + [0x01, 0x05]
  }

  /** bFixedRotationDir and a zero RotationRate. */
  function RotationRateSection(up: Lookups): seq<Byte>
  {
    BoolProperty(up, "bFixedRotationDir", 0xd3) + StructProperty(up, "RotationRate", "Rotator", [0, 0, 0])
  }

  /** DrawScale = 1.0 (header 0x24: float, four bytes). */
  function DrawScaleSection(up: Lookups): seq<Byte>
  {
    Encode(up.nameRef("DrawScale")) + [0x24] + LE32(FLOAT_ONE)
  }

  /** What createActor puts between the state frame and the placement:
      the optional zone and physics records, StaticMesh, the optional bStatic,
      Level, bSunAffect and Tag. */
  function ObjectSection(up: Lookups, mesh: CompactValue, rotating: bool, zoneRenderState: bool): (r: seq<Byte>)
    ensures |r| <= 73
  {
    (if zoneRenderState then ZoneSection(up) else [])
    + (if rotating then PhysicsSection(up) else [])
    + RefProperty(up, "StaticMesh", TYPE_OBJECT, mesh)
    + (if rotating then BoolProperty(up, "bStatic", 0x53) else [])
    + RefProperty(up, "Level", TYPE_OBJECT, up.levelInfoRef)
    + BoolProperty(up, "bSunAffect", 0xd3)
    + RefProperty(up, "Tag", TYPE_NAME, up.nameRef("StaticMeshActor"))
  }

  /** The placement records: zero Location, ColLocation, Rotation and
      SwayRotationOrig, the optional rotation rate, unit DrawScale and
      DrawScale3D. */
  function PlacementSection(up: Lookups, rotating: bool): (r: seq<Byte>)
    ensures |r| <= 155
  {
    StructProperty(up, "Location", "Vector", [0, 0, 0])
    + StructProperty(up, "ColLocation", "Vector", [0, 0, 0])
    + StructProperty(up, "Rotation", "Rotator", [0, 0, 0])
    + StructProperty(up, "SwayRotationOrig", "Rotator", [0, 0, 0])
    + (if rotating then RotationRateSection(up) else [])
    + DrawScaleSection(up)
    + StructProperty(up, "DrawScale3D", "Vector", [FLOAT_ONE, FLOAT_ONE, FLOAT_ONE])
  }

  /** The blob createActor returns, in the order of its puts. */
  function ActorBytes(up: Lookups, mesh: CompactValue, rotating: bool, zoneRenderState: bool): seq<Byte>
  {
    Frame(up) + ObjectSection(up, mesh, rotating, zoneRenderState) + PlacementSection(up, rotating)
    + Encode(up.nameRef("None"))
  }

  /** Whatever the references, the actor fits the 0x100-byte buffer: with
      every compact index at its widest (five bytes) it is exactly 256 bytes. */
  lemma ActorFits(up: Lookups, mesh: CompactValue, rotating: bool, zoneRenderState: bool)
    ensures |ActorBytes(up, mesh, rotating, zoneRenderState)| <= 0x100
  {
  }

  /** createActor: the puts in source order into a 0x100-byte buffer, then
      flip() and a copy of what was written. */
  method CreateActor(up: Lookups, mesh: CompactValue, rotating: bool, zoneRenderState: bool) returns (actor: array<Byte>)
    ensures fresh(actor) && actor[..] == ActorBytes(up, mesh, rotating, zoneRenderState)
  {
    var buffer := new ByteBuffer.Allocate(0x100);
    var frame := Frame(up);
    ghost var objects := ObjectSection(up, mesh, rotating, zoneRenderState);
    ghost var placement := PlacementSection(up, rotating);
    assert |frame| <= 23;
    buffer.Put(frame);
    assert buffer.written == frame;
    PutObjectSection(buffer, up, mesh, rotating, zoneRenderState);
    assert buffer.written == frame + objects;
    PutPlacementSection(buffer, up, rotating);
    assert buffer.written == frame + objects + placement;
    buffer.Put(Encode(up.nameRef("None")));
    actor := buffer.Contents();
  }

  /** The puts between the state frame and the placement records. */
  method PutObjectSection(buffer: ByteBuffer, up: Lookups, mesh: CompactValue, rotating: bool, zoneRenderState: bool)
    requires buffer.Valid() && buffer.position + 73 <= buffer.data.Length
    modifies buffer, buffer.data
    ensures buffer.Valid() && buffer.data == old(buffer.data)
    ensures buffer.written == old(buffer.written) + ObjectSection(up, mesh, rotating, zoneRenderState)
  {
    ghost var start := buffer.written;
    var zone := if zoneRenderState then ZoneSection(up) else [];
    var physics := if rotating then PhysicsSection(up) else [];
    var staticFlag := if rotating then BoolProperty(up, "bStatic", 0x53) else [];
    assert |zone| <= 19 && |physics| <= 7 && |staticFlag| <= 7;
    if zoneRenderState {
      buffer.Put(zone);
    } else {
      Appended(start, [], []);
    }
    ghost var done := zone;
    assert buffer.written == start + done;
    if rotating {
      buffer.Put(physics);
    }
    Appended(start, done, physics);
    done := done + physics;
    assert buffer.written == start + done;
    var staticMesh := RefProperty(up, "StaticMesh", TYPE_OBJECT, mesh);
    buffer.Put(staticMesh);
    Appended(start, done, staticMesh);
    done := done + staticMesh;
    assert buffer.written == start + done;
    if rotating {
      buffer.Put(staticFlag);
    }
    Appended(start, done, staticFlag);
    done := done + staticFlag;
    assert buffer.written == start + done;
    var level := RefProperty(up, "Level", TYPE_OBJECT, up.levelInfoRef);
    buffer.Put(level);
    Appended(start, done, level);
    done := done + level;
    assert buffer.written == start + done;
    var sunAffect := BoolProperty(up, "bSunAffect", 0xd3);
    buffer.Put(sunAffect);
    Appended(start, done, sunAffect);
    done := done + sunAffect;
    assert buffer.written == start + done;
    var tag := RefProperty(up, "Tag", TYPE_NAME, up.nameRef("StaticMeshActor"));
    buffer.Put(tag);
    Appended(start, done, tag);
    done := done + tag;
    assert done == ObjectSection(up, mesh, rotating, zoneRenderState);
  }

  /** The placement puts. */
  method PutPlacementSection(buffer: ByteBuffer, up: Lookups, rotating: bool)
    requires buffer.Valid() && buffer.position + 155 <= buffer.data.Length
    modifies buffer, buffer.data
    ensures buffer.Valid() && buffer.data == old(buffer.data)
    ensures buffer.written == old(buffer.written) + PlacementSection(up, rotating)
  {
    ghost var start := buffer.written;
    var location := StructProperty(up, "Location", "Vector", [0, 0, 0]);
    buffer.Put(location);
    ghost var done := location;
    var colLocation := StructProperty(up, "ColLocation", "Vector", [0, 0, 0]);
    buffer.Put(colLocation);
    Appended(start, done, colLocation);
    done := done + colLocation;
    assert buffer.written == start + done;
    var rotation := StructProperty(up, "Rotation", "Rotator", [0, 0, 0]);
    buffer.Put(rotation);
    Appended(start, done, rotation);
    done := done + rotation;
    assert buffer.written == start + done;
    var sway := StructProperty(up, "SwayRotationOrig", "Rotator", [0, 0, 0]);
    buffer.Put(sway);
    Appended(start, done, sway);
    done := done + sway;
    assert buffer.written == start + done;
    var rate := if rotating then RotationRateSection(up) else [];
    assert |rate| <= 30;
    if rotating {
      buffer.Put(rate);
    }
    Appended(start, done, rate);
    done := done + rate;
    assert buffer.written == start + done;
    var drawScale := DrawScaleSection(up);
    buffer.Put(drawScale);
    Appended(start, done, drawScale);
    done := done + drawScale;
    assert buffer.written == start + done;
    var drawScale3D := StructProperty(up, "DrawScale3D", "Vector", [FLOAT_ONE, FLOAT_ONE, FLOAT_ONE]);
    buffer.Put(drawScale3D);
    Appended(start, done, drawScale3D);
    done := done + drawScale3D;
    assert done == PlacementSection(up, rotating);
  }

  /** Regrouping one more put onto what a section has written so far. */
  lemma Appended(start: seq<Byte>, done: seq<Byte>, next: seq<Byte>)
    ensures start + done + next == start + (done + next)
  {
  }

  // The layout createActor writes, read back as records.

  /** An object or name property whose payload is one compact reference. Its
      size class is the reference's width less one, which names the width
      only while the reference takes one or two bytes. */
  function RefRecord(up: Lookups, name: string, typ: nat, ref: CompactValue): RawRecord
  {
    RawRecord(up.nameRef(name), typ, |Encode(ref)| - 1, false, 0, 0, Encode(ref))
  }

  /** A boolean property: size class 5 with length 0, the value in the array bit. */
  function BoolRecord(up: Lookups, name: string, value: bool): RawRecord
  {
    RawRecord(up.nameRef(name), TYPE_BOOL, 5, value, 0, 0, [])
  }

  /** A twelve-byte struct property. */
  function StructRecord(up: Lookups, name: string, structName: string, ws: seq<Word>): RawRecord
  {
    RawRecord(up.nameRef(name), TYPE_STRUCT, 3, false, up.nameRef(structName), 0, LE32s(ws))
  }

  /** ZoneRenderState: an array property (type 9) of five bytes, count 1 then the int 1. */
  function ZoneRecord(up: Lookups): RawRecord
  {
    RawRecord(up.nameRef("ZoneRenderState"), 9, 5, false, 0, 0, Encode(1) + LE32(1))
  }

  /** Physics: a byte property (type 1, one byte). */
  function PhysicsRecord(up: Lookups): RawRecord
  {
    RawRecord(up.nameRef("Physics"), 1, 0, false, 0, 0, [5])
  }

  /** DrawScale: a float property (type 4, four bytes). */
  function DrawScaleRecord(up: Lookups): RawRecord
  {
    RawRecord(up.nameRef("DrawScale"), 4, 2, false, 0, 0, LE32(FLOAT_ONE))
  }

  /** The references whose width the object and name headers describe. */
  predicate NarrowRefs(up: Lookups, mesh: CompactValue)
  {
    |Encode(mesh)| <= 2 && |Encode(up.levelInfoRef)| <= 2 && |Encode(up.nameRef("StaticMeshActor"))| <= 2
  }

  function ObjectRecords(up: Lookups, mesh: CompactValue, rotating: bool, zoneRenderState: bool): seq<RawRecord>
  {
    (if zoneRenderState then [ZoneRecord(up), BoolRecord(up, "bDynamicActorFilterState", true)] else [])
    + (if rotating then [PhysicsRecord(up)] else [])
    + [RefRecord(up, "StaticMesh", TYPE_OBJECT, mesh)]
    + (if rotating then [BoolRecord(up, "bStatic", false)] else [])
    + [RefRecord(up, "Level", TYPE_OBJECT, up.levelInfoRef)]
    + [BoolRecord(up, "bSunAffect", true)]
    + [RefRecord(up, "Tag", TYPE_NAME, up.nameRef("StaticMeshActor"))]
  }

  function PlacementRecords(up: Lookups, rotating: bool): seq<RawRecord>
  {
    [StructRecord(up, "Location", "Vector", [0, 0, 0])]
    + [StructRecord(up, "ColLocation", "Vector", [0, 0, 0])]
    + [StructRecord(up, "Rotation", "Rotator", [0, 0, 0])]
    + [StructRecord(up, "SwayRotationOrig", "Rotator", [0, 0, 0])]
    + (if rotating then [BoolRecord(up, "bFixedRotationDir", true), StructRecord(up, "RotationRate", "Rotator", [0, 0, 0])] else [])
    + [DrawScaleRecord(up)]
    + [StructRecord(up, "DrawScale3D", "Vector", [FLOAT_ONE, FLOAT_ONE, FLOAT_ONE])]
  }

  /** The property list of a created actor, terminated by the "None" reference. */
  function ActorList(up: Lookups, mesh: CompactValue, rotating: bool, zoneRenderState: bool): PropertyList
  {
    Listed(ObjectRecords(up, mesh, rotating, zoneRenderState) + PlacementRecords(up, rotating), up.nameRef("None"))
  }

  predicate AllWellFormed(recs: seq<RawRecord>)
  {
    forall i :: 0 <= i < |recs| ==> WellFormed(recs[i])
  }

  /** The records written one after another. */
  function Records(recs: seq<RawRecord>): seq<Byte>
    requires AllWellFormed(recs)
  {
    if recs == [] then [] else EncodeRecord(recs[0]) + Records(recs[1..])
  }

  function Listed(recs: seq<RawRecord>, none: CompactValue): PropertyList
  {
    if recs == [] then Terminator(none) else Property(recs[0], Listed(recs[1..], none))
  }

  lemma {:induction false} RecordsAppend(a: seq<RawRecord>, b: seq<RawRecord>)
    requires AllWellFormed(a) && AllWellFormed(b)
    ensures AllWellFormed(a + b) && Records(a + b) == Records(a) + Records(b)
    decreases |a|
  {
    if a == [] {
      assert a + b == b;
    } else {
      var rest := a[1..];
      assert AllWellFormed(rest) by {
        assert forall i :: 0 <= i < |rest| ==> rest[i] == a[i + 1];
      }
      RecordsAppend(rest, b);
      WellFormedAppend(a, b);
      var c := a + b;
      assert c[0] == a[0] && c[1..] == rest + b;
      RecordsUnfold(c);
      RecordsUnfold(a);
      Appended(EncodeRecord(a[0]), Records(rest), Records(b));
    }
  }

  lemma WellFormedAppend(a: seq<RawRecord>, b: seq<RawRecord>)
    requires AllWellFormed(a) && AllWellFormed(b)
    ensures AllWellFormed(a + b)
  {
    assert forall i :: 0 <= i < |a + b| ==> (a + b)[i] == if i < |a| then a[i] else b[i - |a|];
  }

  lemma RecordsUnfold(c: seq<RawRecord>)
    requires c != [] && AllWellFormed(c)
    ensures AllWellFormed(c[1..]) && Records(c) == EncodeRecord(c[0]) + Records(c[1..])
  {
    assert forall i :: 0 <= i < |c[1..]| ==> c[1..][i] == c[i + 1];
  }

  lemma {:induction false} ListedEncodes(recs: seq<RawRecord>, none: CompactValue)
    requires AllWellFormed(recs)
    ensures ListWellFormed(Listed(recs, none))
    ensures EncodeList(Listed(recs, none)) == Records(recs) + Encode(none)
    decreases |recs|
  {
    if recs != [] {
      ListedEncodes(recs[1..], none);
    }
  }

  /** The records resolve to property names other than "None", the
      terminator to "None". */
  lemma {:induction false} ListedFits(recs: seq<RawRecord>, none: CompactValue, names: seq<string>)
    requires forall i :: 0 <= i < |recs| ==> 0 <= recs[i].nameIndex < |names| && names[recs[i].nameIndex] != NONE
    requires 0 <= none < |names| && names[none] == NONE
    ensures NamesFit(Listed(recs, none), names)
    decreases |recs|
  {
    if recs != [] {
      ListedFits(recs[1..], none, names);
    }
  }

  lemma RefRecordBytes(up: Lookups, name: string, typ: nat, ref: CompactValue)
    requires typ < 16 && typ != TYPE_STRUCT && |Encode(ref)| <= 2
    ensures WellFormed(RefRecord(up, name, typ, ref))
    ensures EncodeRecord(RefRecord(up, name, typ, ref)) == RefProperty(up, name, typ, ref)
  {
    var r := RefRecord(up, name, typ, ref);
    assert Describes(r.sizeClass, |r.payload|);
    assert HeadAfterName(r) == [typ + 16 * (|Encode(ref)| - 1)];
  }

  lemma BoolRecordBytes(up: Lookups, name: string, value: bool)
    ensures WellFormed(BoolRecord(up, name, value))
    ensures EncodeRecord(BoolRecord(up, name, value)) == BoolProperty(up, name, if value then 0xD3 else 0x53)
  {
    var r := BoolRecord(up, name, value);
    assert HeadAfterName(r) == [if value then 0xD3 else 0x53, 0];
  }

  lemma StructRecordBytes(up: Lookups, name: string, structName: string, ws: seq<Word>)
    requires |ws| == 3
    ensures WellFormed(StructRecord(up, name, structName, ws))
    ensures EncodeRecord(StructRecord(up, name, structName, ws)) == StructProperty(up, name, structName, ws)
  {
    var r := StructRecord(up, name, structName, ws);
    assert HeadAfterName(r) == [0x3a] + Encode(up.nameRef(structName));
  }

  lemma ZoneRecordBytes(up: Lookups)
    ensures WellFormed(ZoneRecord(up))
    ensures EncodeRecord(ZoneRecord(up)) == Encode(up.nameRef("ZoneRenderState")) + [0x59, 0x05, 0x01] + LE32(1)
  {
    assert HeadAfterName(ZoneRecord(up)) == [0x59, 0x05];
  }

  lemma PhysicsRecordBytes(up: Lookups)
    ensures WellFormed(PhysicsRecord(up)) && EncodeRecord(PhysicsRecord(up)) == PhysicsSection(up)
  {
    assert HeadAfterName(PhysicsRecord(up)) == [0x01];
  }

  lemma DrawScaleRecordBytes(up: Lookups)
    ensures WellFormed(DrawScaleRecord(up)) && EncodeRecord(DrawScaleRecord(up)) == DrawScaleSection(up)
  {
    assert HeadAfterName(DrawScaleRecord(up)) == [0x24];
  }

  lemma RecordsSingle(r: RawRecord)
    requires WellFormed(r)
    ensures AllWellFormed([r]) && Records([r]) == EncodeRecord(r)
  {
    assert [r][1..] == [];
  }

  /** The zone records: ZoneRenderState and bDynamicActorFilterState. */
  lemma ZoneLayout(up: Lookups, zoneRenderState: bool)
    ensures var zone := if zoneRenderState then [ZoneRecord(up), BoolRecord(up, "bDynamicActorFilterState", true)] else [];
      AllWellFormed(zone) && Records(zone) == if zoneRenderState then ZoneSection(up) else []
  {
    if zoneRenderState {
      var filter := BoolRecord(up, "bDynamicActorFilterState", true);
      BoolRecordBytes(up, "bDynamicActorFilterState", true);
      ZoneRecordBytes(up);
      RecordsSingle(ZoneRecord(up));
      RecordsSingle(filter);
      RecordsAppend([ZoneRecord(up)], [filter]);
      assert [ZoneRecord(up)] + [filter] == [ZoneRecord(up), filter];
    }
  }

  lemma ObjectLayout(up: Lookups, mesh: CompactValue, rotating: bool, zoneRenderState: bool)
    requires NarrowRefs(up, mesh)
    ensures AllWellFormed(ObjectRecords(up, mesh, rotating, zoneRenderState))
    ensures Records(ObjectRecords(up, mesh, rotating, zoneRenderState)) == ObjectSection(up, mesh, rotating, zoneRenderState)
  {
    var zone := if zoneRenderState then [ZoneRecord(up), BoolRecord(up, "bDynamicActorFilterState", true)] else [];
    var physics := if rotating then [PhysicsRecord(up)] else [];
    var staticMesh := [RefRecord(up, "StaticMesh", TYPE_OBJECT, mesh)];
    var staticFlag := if rotating then [BoolRecord(up, "bStatic", false)] else [];
    var level := [RefRecord(up, "Level", TYPE_OBJECT, up.levelInfoRef)];
    var sunAffect := [BoolRecord(up, "bSunAffect", true)];
    var tag := [RefRecord(up, "Tag", TYPE_NAME, up.nameRef("StaticMeshActor"))];
    ZoneLayout(up, zoneRenderState);
    if rotating {
      PhysicsRecordBytes(up);
      RecordsSingle(PhysicsRecord(up));
      BoolRecordBytes(up, "bStatic", false);
      RecordsSingle(BoolRecord(up, "bStatic", false));
    }
    RefRecordBytes(up, "StaticMesh", TYPE_OBJECT, mesh);
    RecordsSingle(staticMesh[0]);
    RefRecordBytes(up, "Level", TYPE_OBJECT, up.levelInfoRef);
    RecordsSingle(level[0]);
    BoolRecordBytes(up, "bSunAffect", true);
    RecordsSingle(sunAffect[0]);
    RefRecordBytes(up, "Tag", TYPE_NAME, up.nameRef("StaticMeshActor"));
    RecordsSingle(tag[0]);
    RecordsAppend(zone, physics);
    RecordsAppend(zone + physics, staticMesh);
    RecordsAppend(zone + physics + staticMesh, staticFlag);
    RecordsAppend(zone + physics + staticMesh + staticFlag, level);
    RecordsAppend(zone + physics + staticMesh + staticFlag + level, sunAffect);
    RecordsAppend(zone + physics + staticMesh + staticFlag + level + sunAffect, tag);
  }

  /** The rotation-rate records: bFixedRotationDir and RotationRate. */
  lemma RateLayout(up: Lookups, rotating: bool)
    ensures var rate := if rotating then [BoolRecord(up, "bFixedRotationDir", true), StructRecord(up, "RotationRate", "Rotator", [0, 0, 0])] else [];
      AllWellFormed(rate) && Records(rate) == if rotating then RotationRateSection(up) else []
  {
    if rotating {
      var fixed := BoolRecord(up, "bFixedRotationDir", true);
      var rate := StructRecord(up, "RotationRate", "Rotator", [0, 0, 0]);
      BoolRecordBytes(up, "bFixedRotationDir", true);
      StructRecordBytes(up, "RotationRate", "Rotator", [0, 0, 0]);
      RecordsSingle(fixed);
      RecordsSingle(rate);
      RecordsAppend([fixed], [rate]);
      assert [fixed] + [rate] == [fixed, rate];
    }
  }

  lemma StructSingle(up: Lookups, name: string, structName: string, ws: seq<Word>)
    requires |ws| == 3
    ensures AllWellFormed([StructRecord(up, name, structName, ws)])
    ensures Records([StructRecord(up, name, structName, ws)]) == StructProperty(up, name, structName, ws)
  {
    StructRecordBytes(up, name, structName, ws);
    RecordsSingle(StructRecord(up, name, structName, ws));
  }

  /** Location, ColLocation, Rotation and SwayRotationOrig. */
  lemma PlacementStructs(up: Lookups)
    ensures var four := [StructRecord(up, "Location", "Vector", [0, 0, 0])] + [StructRecord(up, "ColLocation", "Vector", [0, 0, 0])]
      + [StructRecord(up, "Rotation", "Rotator", [0, 0, 0])] + [StructRecord(up, "SwayRotationOrig", "Rotator", [0, 0, 0])];
      AllWellFormed(four)
      && Records(four) == StructProperty(up, "Location", "Vector", [0, 0, 0]) + StructProperty(up, "ColLocation", "Vector", [0, 0, 0])
         + StructProperty(up, "Rotation", "Rotator", [0, 0, 0]) + StructProperty(up, "SwayRotationOrig", "Rotator", [0, 0, 0])
  {
    var location := [StructRecord(up, "Location", "Vector", [0, 0, 0])];
    var colLocation := [StructRecord(up, "ColLocation", "Vector", [0, 0, 0])];
    var rotation := [StructRecord(up, "Rotation", "Rotator", [0, 0, 0])];
    var sway := [StructRecord(up, "SwayRotationOrig", "Rotator", [0, 0, 0])];
    StructSingle(up, "Location", "Vector", [0, 0, 0]);
    StructSingle(up, "ColLocation", "Vector", [0, 0, 0]);
    StructSingle(up, "Rotation", "Rotator", [0, 0, 0]);
    StructSingle(up, "SwayRotationOrig", "Rotator", [0, 0, 0]);
    RecordsAppend(location, colLocation);
    RecordsAppend(location + colLocation, rotation);
    RecordsAppend(location + colLocation + rotation, sway);
  }

  lemma PlacementLayout(up: Lookups, rotating: bool)
    ensures AllWellFormed(PlacementRecords(up, rotating))
    ensures Records(PlacementRecords(up, rotating)) == PlacementSection(up, rotating)
  {
    var four := [StructRecord(up, "Location", "Vector", [0, 0, 0])] + [StructRecord(up, "ColLocation", "Vector", [0, 0, 0])]
      + [StructRecord(up, "Rotation", "Rotator", [0, 0, 0])] + [StructRecord(up, "SwayRotationOrig", "Rotator", [0, 0, 0])];
    var rate := if rotating then [BoolRecord(up, "bFixedRotationDir", true), StructRecord(up, "RotationRate", "Rotator", [0, 0, 0])] else [];
    var drawScale := [DrawScaleRecord(up)];
    var drawScale3D := [StructRecord(up, "DrawScale3D", "Vector", [FLOAT_ONE, FLOAT_ONE, FLOAT_ONE])];
    PlacementStructs(up);
    RateLayout(up, rotating);
    DrawScaleRecordBytes(up);
    RecordsSingle(DrawScaleRecord(up));
    StructSingle(up, "DrawScale3D", "Vector", [FLOAT_ONE, FLOAT_ONE, FLOAT_ONE]);
    RecordsAppend(four, rate);
    RecordsAppend(four + rate, drawScale);
    RecordsAppend(four + rate + drawScale, drawScale3D);
    assert PlacementRecords(up, rotating) == four + rate + drawScale + drawScale3D;
  }

  /** The name table resolves `name`'s reference back to `name`. */
  predicate Named(up: Lookups, names: seq<string>, name: string)
  {
    0 <= up.nameRef(name) < |names| && names[up.nameRef(name)] == name
  }

  /** The name references createActor asks for resolve to the names it asked for. */
  predicate Resolves(up: Lookups, names: seq<string>)
  {
    Named(up, names, "ZoneRenderState") && Named(up, names, "bDynamicActorFilterState")
    && Named(up, names, "Physics") && Named(up, names, "StaticMesh") && Named(up, names, "bStatic")
    && Named(up, names, "Level") && Named(up, names, "bSunAffect") && Named(up, names, "Tag")
    && Named(up, names, "Location") && Named(up, names, "ColLocation") && Named(up, names, "Rotation")
    && Named(up, names, "SwayRotationOrig") && Named(up, names, "bFixedRotationDir")
    && Named(up, names, "RotationRate") && Named(up, names, "DrawScale") && Named(up, names, "DrawScale3D")
    && Named(up, names, NONE)
  }

  predicate Fits(r: RawRecord, names: seq<string>)
  {
    0 <= r.nameIndex < |names| && names[r.nameIndex] != NONE
  }

  /** The created actor is a state frame followed by a property list, as long
      as the references the object and name headers describe are narrow. */
  lemma ActorLayout(up: Lookups, mesh: CompactValue, rotating: bool, zoneRenderState: bool)
    requires NarrowRefs(up, mesh)
    ensures ListWellFormed(ActorList(up, mesh, rotating, zoneRenderState))
    ensures ActorBytes(up, mesh, rotating, zoneRenderState)
         == StateFrame(up.classRef, up.classRef, ALL_ONES_LONG, ZERO_INT, -1) + EncodeList(ActorList(up, mesh, rotating, zoneRenderState))
  {
    var objects := ObjectRecords(up, mesh, rotating, zoneRenderState);
    var placement := PlacementRecords(up, rotating);
    ObjectLayout(up, mesh, rotating, zoneRenderState);
    PlacementLayout(up, rotating);
    RecordsAppend(objects, placement);
    ListedEncodes(objects + placement, up.nameRef("None"));
    assert Frame(up) == StateFrame(up.classRef, up.classRef, ALL_ONES_LONG, ZERO_INT, -1);
    Regroup(Frame(up), ObjectSection(up, mesh, rotating, zoneRenderState), PlacementSection(up, rotating), Encode(up.nameRef("None")));
  }

  lemma Regroup(a: seq<Byte>, b: seq<Byte>, c: seq<Byte>, d: seq<Byte>)
    ensures a + b + c + d == a + ((b + c) + d)
  {
  }

  lemma ActorNamesFit(up: Lookups, mesh: CompactValue, rotating: bool, zoneRenderState: bool, names: seq<string>)
    requires Resolves(up, names)
    ensures NamesFit(ActorList(up, mesh, rotating, zoneRenderState), names)
  {
    var objects := ObjectRecords(up, mesh, rotating, zoneRenderState);
    var placement := PlacementRecords(up, rotating);
    ObjectsFit(up, mesh, rotating, zoneRenderState, names);
    PlacementFits(up, rotating, names);
    FitsAppend(objects, placement, names);
    ListedFits(objects + placement, up.nameRef("None"), names);
  }

  lemma ObjectsFit(up: Lookups, mesh: CompactValue, rotating: bool, zoneRenderState: bool, names: seq<string>)
    requires Resolves(up, names)
    ensures forall i :: 0 <= i < |ObjectRecords(up, mesh, rotating, zoneRenderState)| ==>
      Fits(ObjectRecords(up, mesh, rotating, zoneRenderState)[i], names)
  {
    var objects := ObjectRecords(up, mesh, rotating, zoneRenderState);
    assert forall i :: 0 <= i < |objects| ==> Fits(objects[i], names);
  }

  lemma PlacementFits(up: Lookups, rotating: bool, names: seq<string>)
    requires Resolves(up, names)
    ensures forall i :: 0 <= i < |PlacementRecords(up, rotating)| ==> Fits(PlacementRecords(up, rotating)[i], names)
  {
    var placement := PlacementRecords(up, rotating);
    assert forall i :: 0 <= i < |placement| ==> Fits(placement[i], names);
  }

  lemma FitsAppend(a: seq<RawRecord>, b: seq<RawRecord>, names: seq<string>)
    requires forall i :: 0 <= i < |a| ==> Fits(a[i], names)
    requires forall i :: 0 <= i < |b| ==> Fits(b[i], names)
    ensures forall i :: 0 <= i < |a + b| ==> Fits((a + b)[i], names)
  {
  }

  /** What createActor writes reads back: readStateFrame consumes exactly the
      frame, and iterateProperties then delivers every record createActor put,
      in order, and stops just after the "None" reference at the end. */
  lemma ActorScans(up: Lookups, mesh: CompactValue, rotating: bool, zoneRenderState: bool, names: seq<string>)
    requires NarrowRefs(up, mesh) && Resolves(up, names)
    ensures var s := ActorBytes(up, mesh, rotating, zoneRenderState);
      ListWellFormed(ActorList(up, mesh, rotating, zoneRenderState))
      && NamesFit(ActorList(up, mesh, rotating, zoneRenderState), names)
      && SkipStateFrame(s, 0) == Ok(|Frame(up)|)
      && ScanProperties(s, |Frame(up)|, names)
         == Ok(Scan(Delivered(ActorList(up, mesh, rotating, zoneRenderState), names, |Frame(up)|), |s|))
  {
    ActorLayout(up, mesh, rotating, zoneRenderState);
    ActorNamesFit(up, mesh, rotating, zoneRenderState, names);
    var frame := StateFrame(up.classRef, up.classRef, ALL_ONES_LONG, ZERO_INT, -1);
    var l := ActorList(up, mesh, rotating, zoneRenderState);
    assert Frame(up) == frame;
    FrameSkips(up.classRef, up.classRef, ALL_ONES_LONG, ZERO_INT, -1, EncodeList(l));
    ScanBehind(ActorBytes(up, mesh, rotating, zoneRenderState), frame, l, names);
  }

  /** iterateProperties over a blob made of a prefix and a property list. */
  lemma ScanBehind(s: seq<Byte>, prefix: seq<Byte>, l: PropertyList, names: seq<string>)
    requires ListWellFormed(l) && NamesFit(l, names) && s == prefix + EncodeList(l)
    ensures ScanProperties(s, |prefix|, names) == Ok(Scan(Delivered(l, names, |prefix|), |s|))
  {
    TailOfAppend(prefix, EncodeList(l));
    ScanSuffix(s, |prefix|, l, names);
  }

  lemma TailOfAppend(a: seq<Byte>, b: seq<Byte>)
    ensures (a + b)[|a|..] == b
  {
  }

  /** readStateFrame consumes exactly the state frame at the head of a blob. */
  lemma FrameSkips(a: CompactValue, b: CompactValue, eight: seq<Byte>, four: seq<Byte>, c: CompactValue, rest: seq<Byte>)
    requires |eight| == 8 && |four| == 4
    ensures SkipStateFrame(StateFrame(a, b, eight, four, c) + rest, 0) == Ok(|StateFrame(a, b, eight, four, c)|)
  {
    var frame := StateFrame(a, b, eight, four, c);
    Prefixed(frame, rest);
    StateFrameRoundTrip(frame + rest, 0, a, b, eight, four, c);
  }

  lemma Prefixed(a: seq<Byte>, b: seq<Byte>)
    ensures IsAt(a + b, 0, a)
  {
  }
}
