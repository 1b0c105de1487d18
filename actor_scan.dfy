/** StaticMeshActorUtil.getOffsets: one pass of the property scanner over a
    StaticMeshActor blob whose callback records, in an Offsets object, where the
    payload of each tracked property starts. */
module ActorScan {
  import opened JavaLib
  import opened Compact
  import opened PropertyScanner
  import opened ActorOffsets

  /** The names getOffsets' switch has a case for, in case order. */
  const TRACKED: seq<string> := ["StaticMesh", "Location", "Rotation", "SwayRotationOrig",
    "ColLocation", "BasePos", "BaseRot", "DrawScale", "DrawScale3D", "RotationRate",
    "ZoneRenderState"]

  const MESH_SLOT := 0
  const ZONE_SLOT := 10

  /** The case a property name selects: its index in TRACKED (names compare
      case-sensitively, as String.equals does), or -1 for no case. */
  function Slot(name: string): (k: int)
    ensures -1 <= k < |TRACKED|
  {
    SlotFrom(name, 0)
  }

  function SlotFrom(name: string, i: nat): (k: int)
    requires i <= |TRACKED|
    ensures k == -1 || i <= k < |TRACKED|
    decreases |TRACKED| - i
  {
    if i == |TRACKED| then -1
    else if TRACKED[i] == name then i
    else SlotFrom(name, i + 1)
  }

  /** A name selects the first case whose label it equals, and no case when it
      equals none of them. */
  lemma SlotMeaning(name: string)
    ensures Slot(name) >= 0 ==>
      (TRACKED[Slot(name)] == name && forall j :: 0 <= j < Slot(name) ==> TRACKED[j] != name)
    ensures Slot(name) == -1 <==> name !in TRACKED
  {
    SlotFromMeaning(name, 0);
  }

  lemma {:induction false} SlotFromMeaning(name: string, i: nat)
    requires i <= |TRACKED|
    ensures SlotFrom(name, i) >= 0 ==>
      (TRACKED[SlotFrom(name, i)] == name && forall j :: i <= j < SlotFrom(name, i) ==> TRACKED[j] != name)
    ensures SlotFrom(name, i) == -1 <==> forall j :: i <= j < |TRACKED| ==> TRACKED[j] != name
    decreases |TRACKED| - i
  {
    if i < |TRACKED| && TRACKED[i] != name {
      SlotFromMeaning(name, i + 1);
    }
  }

  /** The offset field that case `k` records. */
  function OffsetAt(t: OffsetTable, k: nat): Int32
    requires k < |TRACKED|
  {
    if k == 0 then t.mesh else if k == 1 then t.location else if k == 2 then t.rotation
    else if k == 3 then t.swayRotationOrig else if k == 4 then t.colLocation
    else if k == 5 then t.basePos else if k == 6 then t.baseRot else if k == 7 then t.drawScale
    else if k == 8 then t.drawScale3D else if k == 9 then t.rotationRate else t.zoneRenderState
  }

  /** A record whose offset and length fit a Java int, as in any Java array. */
  predicate Addressable(rec: Record)
  {
    rec.offset < TWO_31 && |rec.payload| < TWO_31
  }

  /** The callback: the switch on the record's name. StaticMesh also records
      its payload length; ZoneRenderState also reads the element count at the
      start of its payload, which fails on an empty or truncated payload. */
  function Visit(t: OffsetTable, rec: Record): (r: Result<OffsetTable>)
    requires Addressable(rec)
    ensures r.Err? <==> Slot(rec.name) == ZONE_SLOT && Decode(rec.payload, 0).Err?
  {
    var o := rec.offset;
    match Slot(rec.name)
    case 0 => Ok(t.(mesh := o, meshSize := |rec.payload|))
    case 1 => Ok(t.(location := o))
    case 2 => Ok(t.(rotation := o))
    case 3 => Ok(t.(swayRotationOrig := o))
    case 4 => Ok(t.(colLocation := o))
    case 5 => Ok(t.(basePos := o))
    case 6 => Ok(t.(baseRot := o))
    case 7 => Ok(t.(drawScale := o))
    case 8 => Ok(t.(drawScale3D := o))
    case 9 => Ok(t.(rotationRate := o))
    case 10 =>
      var c :- Decode(rec.payload, 0);
      DecodeRange(rec.payload, 0);
      Ok(t.(zoneRenderState := o, zoneRenderStateCount := c.0))
    case _ => Ok(t)
  }

  /** One callback sets the offset of its own case and leaves every other
      offset alone. */
  lemma VisitSetsOffset(t: OffsetTable, rec: Record, k: nat)
    requires Addressable(rec) && Visit(t, rec).Ok? && k < |TRACKED|
    ensures OffsetAt(Visit(t, rec).value, k) == if Slot(rec.name) == k then rec.offset else OffsetAt(t, k)
  {
    var j := Slot(rec.name);
    if j == ZONE_SLOT {
      DecodeRange(rec.payload, 0);
      assert Visit(t, rec).value == t.(zoneRenderState := rec.offset, zoneRenderStateCount := Decode(rec.payload, 0).value.0);
    }
  }

  /** meshSize changes only on StaticMesh, to its payload length;
      zoneRenderStateCount only on ZoneRenderState, to the count its payload starts with. */
  lemma VisitSetsCounts(t: OffsetTable, rec: Record)
    requires Addressable(rec) && Visit(t, rec).Ok?
    ensures Visit(t, rec).value.meshSize == if Slot(rec.name) == MESH_SLOT then |rec.payload| else t.meshSize
    ensures Visit(t, rec).value.zoneRenderStateCount ==
      if Slot(rec.name) == ZONE_SLOT then Decode(rec.payload, 0).value.0 else t.zoneRenderStateCount
  {
  }

  /** iterateProperties with the switch as its callback, from `pos` on. */
  function CollectFrom(s: seq<Byte>, pos: nat, names: seq<string>, t: OffsetTable): Result<OffsetTable>
    requires |s| < TWO_31
    decreases |s| - pos
  {
    var step :- ScanRecord(s, pos, names);
    match step
    case Stop(_) => Ok(t)
    case Next(rec, next) =>
      var u :- Visit(t, rec);
      CollectFrom(s, next, names, u)
  }

  /** getOffsets: the state frame, then the scan, starting from a fresh Offsets. */
  function OffsetsOf(s: seq<Byte>, names: seq<string>): (r: Result<OffsetTable>)
    requires |s| < TWO_31
    ensures r.Ok? ==> SkipStateFrame(s, 0).Ok? && ScanProperties(s, SkipStateFrame(s, 0).value, names).Ok?
    ensures r.Ok? ==> var recs := ScanProperties(s, SkipStateFrame(s, 0).value, names).value.records;
      forall k :: 0 <= k < |TRACKED| ==> OffsetAt(r.value, k) == Final(recs, ABSENT, k)
    ensures r.Ok? ==> var recs := ScanProperties(s, SkipStateFrame(s, 0).value, names).value.records;
      r.value.meshSize == match LastWith(recs, MESH_SLOT) case Some(rec) => |rec.payload| case None => 0
    ensures r.Ok? ==> var recs := ScanProperties(s, SkipStateFrame(s, 0).value, names).value.records;
      r.value.zoneRenderStateCount ==
        match LastWith(recs, ZONE_SLOT)
        case Some(rec) => (if Decode(rec.payload, 0).Ok? then Decode(rec.payload, 0).value.0 else 0)
        case None => 0
  {
    var start :- SkipStateFrame(s, 0);
    var t := CollectFrom(s, start, names, ABSENT);
    CollectIsFold(s, start, names, ABSENT);
    if t.Ok? then FoldFields(ScanProperties(s, start, names).value.records, ABSENT); t else t
  }

  /** The callback applied to each record in turn. */
  function Fold(recs: seq<Record>, t: OffsetTable): Result<OffsetTable>
    requires forall i :: 0 <= i < |recs| ==> Addressable(recs[i])
  {
    if recs == [] then Ok(t)
    else
      var u :- Visit(t, recs[0]);
      Fold(recs[1..], u)
  }

  /** The record a case sees last, or None. */
  function LastWith(recs: seq<Record>, k: int): (r: Option<Record>)
    ensures r.Some? ==> r.value in recs && Slot(r.value.name) == k
  {
    if recs == [] then None
    else match LastWith(recs[1..], k)
      case Some(rec) => Some(rec)
      case None => if Slot(recs[0].name) == k then Some(recs[0]) else None
  }

  /** LastWith is the last record of the case: none after it has the same case,
      and None means no record has it. */
  lemma {:induction false} LastWithIsLast(recs: seq<Record>, k: int)
    ensures LastWith(recs, k).None? ==> forall i :: 0 <= i < |recs| ==> Slot(recs[i].name) != k
    ensures LastWith(recs, k).Some? ==> exists i :: 0 <= i < |recs| && recs[i] == LastWith(recs, k).value
                                          && forall j :: i < j < |recs| ==> Slot(recs[j].name) != k
  {
    if recs != [] {
      LastWithIsLast(recs[1..], k);
      var tail := recs[1..];
      if LastWith(tail, k).Some? {
        var i :| 0 <= i < |tail| && tail[i] == LastWith(tail, k).value
          && forall j :: i < j < |tail| ==> Slot(tail[j].name) != k;
        assert recs[i + 1] == tail[i];
        forall j | i + 1 < j < |recs| ensures Slot(recs[j].name) != k {
          assert recs[j] == tail[j - 1];
        }
      } else {
        forall j | 0 < j < |recs| ensures Slot(recs[j].name) != k {
          assert recs[j] == tail[j - 1];
        }
      }
    }
  }

  /** The offset a case ends with: the last matching record's, or the start value. */
  function Final(recs: seq<Record>, t: OffsetTable, k: nat): int
    requires k < |TRACKED|
  {
    match LastWith(recs, k)
    case Some(rec) => rec.offset
    case None => OffsetAt(t, k)
  }

  /** A later occurrence of a tracked name overwrites an earlier one; a field
      whose name never occurs keeps its start value. meshSize is the length of
      the last StaticMesh payload and zoneRenderStateCount the count at the
      start of the last ZoneRenderState payload. */
  lemma {:induction false} FoldFields(recs: seq<Record>, t: OffsetTable)
    requires forall i :: 0 <= i < |recs| ==> Addressable(recs[i])
    requires Fold(recs, t).Ok?
    ensures forall k :: 0 <= k < |TRACKED| ==> OffsetAt(Fold(recs, t).value, k) == Final(recs, t, k)
    ensures Fold(recs, t).value.meshSize ==
      match LastWith(recs, MESH_SLOT) case Some(rec) => |rec.payload| case None => t.meshSize
    ensures Fold(recs, t).value.zoneRenderStateCount ==
      match LastWith(recs, ZONE_SLOT)
      case Some(rec) => (if Decode(rec.payload, 0).Ok? then Decode(rec.payload, 0).value.0 else 0)
      case None => t.zoneRenderStateCount
    decreases |recs|
  {
    if recs != [] {
      var u := Visit(t, recs[0]).value;
      VisitSetsCounts(t, recs[0]);
      forall k | 0 <= k < |TRACKED| ensures OffsetAt(u, k) == if Slot(recs[0].name) == k then recs[0].offset else OffsetAt(t, k) {
        VisitSetsOffset(t, recs[0], k);
      }
      FoldFields(recs[1..], u);
    }
  }

  /** Collecting during the scan is the fold of the callback over the records the
      scan delivers; a failed scan fails the collection too. */
  lemma {:induction false} CollectIsFold(s: seq<Byte>, pos: nat, names: seq<string>, t: OffsetTable)
    requires |s| < TWO_31
    ensures ScanProperties(s, pos, names).Ok? ==>
      (forall i :: 0 <= i < |ScanProperties(s, pos, names).value.records| ==>
        Addressable(ScanProperties(s, pos, names).value.records[i]))
      && CollectFrom(s, pos, names, t) == Fold(ScanProperties(s, pos, names).value.records, t)
    ensures ScanProperties(s, pos, names).Err? ==> CollectFrom(s, pos, names, t).Err?
    decreases |s| - pos
  {
    var step := ScanRecord(s, pos, names);
    if step.Ok? && step.value.Next? {
      var rec, next := step.value.record, step.value.next;
      ScanNext(s, pos, names, rec, next);
      var v := Visit(t, rec);
      if v.Ok? {
        CollectIsFold(s, next, names, v.value);
      } else {
        CollectIsFold(s, next, names, t);
      }
      var rest := ScanProperties(s, next, names);
      if rest.Ok? {
        var recs := [rec] + rest.value.records;
        assert recs[1..] == rest.value.records;
        forall i | 0 <= i < |recs| ensures Addressable(recs[i]) {
          if i > 0 {
            assert recs[i] == rest.value.records[i - 1];
          }
        }
      }
    }
  }

  lemma CollectNext(s: seq<Byte>, pos: nat, names: seq<string>, t: OffsetTable, rec: Record, next: nat)
    requires |s| < TWO_31 && ScanRecord(s, pos, names) == Ok(Next(rec, next))
    ensures Addressable(rec)
    ensures Visit(t, rec).Ok? ==> CollectFrom(s, pos, names, t) == CollectFrom(s, next, names, Visit(t, rec).value)
    ensures Visit(t, rec).Err? ==> CollectFrom(s, pos, names, t) == Err(Visit(t, rec).error)
  {
  }

  /** The callback as getOffsets runs it, assigning in source order: on a
      ZoneRenderState whose count cannot be read, the offset is already set
      when the exception leaves. */
  method OnProperty(o: Offsets, rec: Record) returns (r: Result<()>)
    requires Addressable(rec)
    modifies o
    ensures Visit(old(o.Table()), rec).Ok? ==> r.Ok? && o.Table() == Visit(old(o.Table()), rec).value
    ensures Visit(old(o.Table()), rec).Err? ==>
      r == Err(BufferUnderflow) && o.Table() == old(o.Table()).(zoneRenderState := rec.offset)
  {
    r := Ok(());
    var k := Slot(rec.name);
    if k == 0 {
      o.mesh := rec.offset;
      o.meshSize := |rec.payload|;
    } else if k == 1 {
      o.location := rec.offset;
    } else if k == 2 {
      o.rotation := rec.offset;
    } else if k == 3 {
      o.swayRotationOrig := rec.offset;
    } else if k == 4 {
      o.colLocation := rec.offset;
    } else if k == 5 {
      o.basePos := rec.offset;
    } else if k == 6 {
      o.baseRot := rec.offset;
    } else if k == 7 {
      o.drawScale := rec.offset;
    } else if k == 8 {
      o.drawScale3D := rec.offset;
    } else if k == 9 {
      o.rotationRate := rec.offset;
    } else if k == 10 {
      o.zoneRenderState := rec.offset;
      var c := Decode(rec.payload, 0);
      if c.Err? {
        return Err(c.error);
      }
      DecodeRange(rec.payload, 0);
      o.zoneRenderStateCount := c.value.0;
    }
  }

  /** getOffsets over a blob: readStateFrame, then the iterateProperties loop
      with OnProperty as its callback. */
  method GetOffsets(blob: array<Byte>, names: seq<string>) returns (r: Result<Offsets>)
    requires blob.Length < TWO_31
    ensures r.Ok? <==> OffsetsOf(blob[..], names).Ok?
    ensures r.Ok? ==> fresh(r.value) && r.value.Table() == OffsetsOf(blob[..], names).value
    ensures r.Err? ==> r.error == OffsetsOf(blob[..], names).error
  {
    var s := blob[..];
    var offsets := new Offsets();
    var start := SkipStateFrame(s, 0);
    if start.Err? {
      return Err(start.error);
    }
    var pos := start.value;
    while true
      invariant fresh(offsets)
      invariant OffsetsOf(s, names) == CollectFrom(s, pos, names, offsets.Table())
      decreases |s| - pos
    {
      var step := ScanRecord(s, pos, names);
      if step.Err? {
        return Err(step.error);
      }
      match step.value
      case Stop(_) =>
        return Ok(offsets);
      case Next(rec, next) =>
        CollectNext(s, pos, names, offsets.Table(), rec, next);
        var done := OnProperty(offsets, rec);
        if done.Err? {
          return Err(done.error);
        }
        pos := next;
    }
  }
}
