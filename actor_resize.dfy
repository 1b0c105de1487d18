/** The two writes of StaticMeshActorUtil that can change the length of the
    blob: setStaticMesh, whose compact reference may need one byte more or one
    less, and setZoneRenderState, whose count-prefixed int array may grow or
    shrink. Each either patches the blob in place or copies it into a new
    array around the new bytes. */
module ActorResize {
  import opened JavaLib
  import opened Compact
  import opened SizeCodec
  import opened ActorOffsets
  import opened ActorFields

  /** getByteCount: the width setStaticMesh assumes a reference takes. Math.abs
      of Integer.MIN_VALUE is still negative, so that value counts as one byte. */
  function ByteCount(v: Int32): (n: nat)
    ensures n == 1 || n == 2
  {
    if v != -TWO_31 && Abs(v) > 63 then 2 else 1
  }

  /** getByteCount is the width putCompactInt writes exactly for references
      below 8192 in magnitude. */
  lemma ByteCountWidth(v: CompactValue)
    ensures ByteCount(v) == |Encode(v)| <==> Abs(v) < 8192
  {
    Width(v);
  }

  /** The header byte the resizing branch writes in front of the reference:
      21 for two bytes, 5 for one. */
  function MeshHeader(v: Int32): Byte
  {
    if ByteCount(v) == 2 then 21 else 5
  }

  /** That header is an object property (type 5), not an array, whose size
      class gives the width of the reference written after it. */
  lemma MeshHeaderDescribes(v: CompactValue)
    requires Abs(v) < 8192
    ensures MeshHeader(v) % 16 == 5 && MeshHeader(v) < 128
    ensures (MeshHeader(v) / 16) % 8 <= 1 && FixedWidth((MeshHeader(v) / 16) % 8) == |Encode(v)|
  {
    Width(v);
  }

  /** A copy of `s` in which the `oldLen` bytes at `at` are replaced by `middle`:
      the new array, System.arraycopy / put of the bytes before, the new bytes,
      and the bytes after. */
  function Splice(s: seq<Byte>, at: nat, oldLen: nat, middle: seq<Byte>): seq<Byte>
    requires at + oldLen <= |s|
  {
    s[..at] + middle + s[at + oldLen..]
  }

  /** The spliced copy keeps the bytes before `at`, holds `middle` at `at`, and
      moves every byte after the replaced ones by the change in length. */
  lemma SpliceParts(s: seq<Byte>, at: nat, oldLen: nat, middle: seq<Byte>)
    requires at + oldLen <= |s|
    ensures |Splice(s, at, oldLen, middle)| == |s| - oldLen + |middle|
    ensures Splice(s, at, oldLen, middle)[..at] == s[..at]
    ensures IsAt(Splice(s, at, oldLen, middle), at, middle)
    ensures forall i :: at + oldLen <= i < |s| ==> Splice(s, at, oldLen, middle)[i + |middle| - oldLen] == s[i]
  {
    var m := Splice(s, at, oldLen, middle);
    forall i | 0 <= i < |middle| ensures m[at + i] == middle[i] {
    }
    forall i | at + oldLen <= i < |s| ensures m[i + |middle| - oldLen] == s[i] {
      assert m[at + |middle| + (i - at - oldLen)] == s[at + oldLen..][i - at - oldLen];
    }
  }

  /** Splice, byte by byte. */
  lemma SpliceAt(s: seq<Byte>, at: nat, oldLen: nat, middle: seq<Byte>, r: seq<Byte>)
    requires at + oldLen <= |s| && |r| == |s| - oldLen + |middle|
    requires forall i :: 0 <= i < at ==> r[i] == s[i]
    requires forall i :: 0 <= i < |middle| ==> r[at + i] == middle[i]
    requires forall i :: at + |middle| <= i < |r| ==> r[i] == s[i - |middle| + oldLen]
    ensures r == Splice(s, at, oldLen, middle)
  {
    var m := Splice(s, at, oldLen, middle);
    forall i | 0 <= i < |r| ensures r[i] == m[i] {
      if at <= i < at + |middle| {
        assert r[at + (i - at)] == middle[i - at];
      }
    }
  }

  /** The three copies into a new array. */
  method CopySpliced(blob: array<Byte>, at: nat, oldLen: nat, middle: seq<Byte>) returns (out: array<Byte>)
    requires at + oldLen <= blob.Length
    ensures fresh(out) && out[..] == Splice(blob[..], at, oldLen, middle)
  {
    out := new Byte[blob.Length - oldLen + |middle|];
    forall i | 0 <= i < at {
      out[i] := blob[i];
    }
    forall i | 0 <= i < |middle| {
      out[at + i] := middle[i];
    }
    forall i | at + |middle| <= i < out.Length {
      out[i] := blob[i - |middle| + oldLen];
    }
    SpliceAt(blob[..], at, oldLen, middle, out[..]);
  }

  /** The blob the resizing branch of setStaticMesh builds: the old header and
      reference give way to the new header and reference. */
  function MeshResized(s: seq<Byte>, mesh: nat, meshSize: nat, v: CompactValue): (r: seq<Byte>)
    requires 0 < mesh && mesh + meshSize <= |s|
    ensures |r| == |s| - meshSize + |Encode(v)|
    ensures r[..mesh - 1] == s[..mesh - 1] && r[mesh - 1] == MeshHeader(v) && IsAt(r, mesh, Encode(v))
    ensures forall i :: mesh + meshSize <= i < |s| ==> r[i + |Encode(v)| - meshSize] == s[i]
  {
    SpliceParts(s, mesh - 1, meshSize + 1, [MeshHeader(v)] + Encode(v));
    IsAtSplit(Splice(s, mesh - 1, meshSize + 1, [MeshHeader(v)] + Encode(v)), mesh - 1, [MeshHeader(v)], Encode(v));
    Splice(s, mesh - 1, meshSize + 1, [MeshHeader(v)] + Encode(v))
  }

  /** `offset += getByteCount(v) - meshSize` on a present offset, in int arithmetic. */
  function Move(offset: Int32, delta: int): Int32
  {
    if offset != 0 then Wrap32(offset + delta) else offset
  }

  /** An absent offset stays absent; a present one moves by `d`, modulo 2^32. */
  predicate MovedBy(before: Int32, after: Int32, d: int)
  {
    if before == 0 then after == 0 else (after - (before + d)) % TWO_32 == 0
  }

  /** The offsets after a resize: Location, Rotation, SwayRotationOrig and
      ColLocation move by the change in width, the mesh size becomes the new
      width, and every other offset keeps its value. */
  function Shifted(t: OffsetTable, width: Int32): (r: OffsetTable)
    ensures r.meshSize == width
    ensures r.(location := t.location, rotation := t.rotation, swayRotationOrig := t.swayRotationOrig,
               colLocation := t.colLocation, meshSize := t.meshSize) == t
    ensures MovedBy(t.location, r.location, width - t.meshSize)
    ensures MovedBy(t.rotation, r.rotation, width - t.meshSize)
    ensures MovedBy(t.swayRotationOrig, r.swayRotationOrig, width - t.meshSize)
    ensures MovedBy(t.colLocation, r.colLocation, width - t.meshSize)
  {
    var d := width - t.meshSize;
    t.(location := Move(t.location, d), rotation := Move(t.rotation, d),
       swayRotationOrig := Move(t.swayRotationOrig, d), colLocation := Move(t.colLocation, d),
       meshSize := width)
  }

  /** setStaticMesh. When the recorded width differs from getByteCount, a new
      array is built and four offsets are moved; otherwise the reference is
      overwritten in place. */
  method SetStaticMesh(blob: array<Byte>, o: Offsets, v: CompactValue) returns (out: array<Byte>)
    requires 0 < o.mesh && 0 <= o.meshSize && o.mesh + o.meshSize <= blob.Length
    requires Abs(v) < 8192
    modifies blob, o
    ensures old(o.meshSize) == ByteCount(v) ==>
      out == blob && blob[..] == Put(old(blob[..]), old(o.mesh), Encode(v)) && o.Table() == old(o.Table())
    ensures old(o.meshSize) != ByteCount(v) ==>
      fresh(out) && out[..] == MeshResized(old(blob[..]), old(o.mesh), old(o.meshSize), v)
      && blob[..] == old(blob[..]) && o.Table() == Shifted(old(o.Table()), ByteCount(v))
  {
    var width := ByteCount(v);
    ByteCountWidth(v);
    if o.meshSize != width {
      out := CopySpliced(blob, o.mesh - 1, o.meshSize + 1, [MeshHeader(v)] + Encode(v));
      MoveOffsets(o, width);
      return;
    }
    PutBytes(blob, o.mesh, Encode(v));
    out := blob;
  }

  /** The bookkeeping half: each present offset of the four is moved, then
      meshSize takes the new width. */
  method MoveOffsets(o: Offsets, width: Int32)
    modifies o
    ensures o.Table() == Shifted(old(o.Table()), width)
  {
    ghost var t := o.Table();
    var d := width - o.meshSize;
    // Move leaves an absent (zero) offset alone, as each `if (x != 0)` does.
    o.location := Move(o.location, d);
    o.rotation := Move(o.rotation, d);
    o.swayRotationOrig := Move(o.swayRotationOrig, d);
    o.colLocation := Move(o.colLocation, d);
    o.meshSize := width;
    ShiftedFields(t, width);
  }

  /** Shifted, field by field. */
  lemma ShiftedFields(t: OffsetTable, width: Int32)
    ensures var d := width - t.meshSize;
      Shifted(t, width) == OffsetTable(t.mesh, width, Move(t.location, d), Move(t.colLocation, d), t.basePos,
        t.drawScale, t.drawScale3D, Move(t.rotation, d), Move(t.swayRotationOrig, d), t.baseRot, t.rotationRate,
        t.zoneRenderState, t.zoneRenderStateCount)
  {
  }

  /** What the resized blob holds: the bytes before the header, the header and
      the reference. */
  lemma ResizedParts(s: seq<Byte>, mesh: nat, meshSize: nat, v: CompactValue)
    requires 0 < mesh && mesh + meshSize <= |s|
    ensures |MeshResized(s, mesh, meshSize, v)| == |s| + |Encode(v)| - meshSize
    ensures MeshResized(s, mesh, meshSize, v)[..mesh - 1] == s[..mesh - 1]
    ensures MeshResized(s, mesh, meshSize, v)[mesh - 1] == MeshHeader(v)
    ensures IsAt(MeshResized(s, mesh, meshSize, v), mesh, Encode(v))
  {
    var m := MeshResized(s, mesh, meshSize, v);
    SpliceParts(s, mesh - 1, meshSize + 1, [MeshHeader(v)] + Encode(v));
    IsAtSplit(m, mesh - 1, [MeshHeader(v)], Encode(v));
    assert m[mesh - 1] == ([MeshHeader(v)] + Encode(v))[0];
  }

  /** Every byte after the old reference moves by the change in width. */
  lemma ResizedMoves(s: seq<Byte>, mesh: nat, meshSize: nat, v: CompactValue)
    requires 0 < mesh && mesh + meshSize <= |s|
    ensures |MeshResized(s, mesh, meshSize, v)| == |s| + |Encode(v)| - meshSize
    ensures forall i :: mesh + meshSize <= i < |s| ==>
      MeshResized(s, mesh, meshSize, v)[i + |Encode(v)| - meshSize] == s[i]
  {
    SpliceParts(s, mesh - 1, meshSize + 1, [MeshHeader(v)] + Encode(v));
  }

  /** After setStaticMesh, getStaticMesh returns the new reference, on either
      branch; the resized blob is longer by the change in width. */
  lemma MeshAfterSet(s: seq<Byte>, t: OffsetTable, v: CompactValue)
    requires 0 < t.mesh && 0 <= t.meshSize && t.mesh + t.meshSize <= |s| && Abs(v) < 8192
    ensures t.meshSize == ByteCount(v) ==> GetStaticMesh(Put(s, t.mesh, Encode(v)), t) == Ok(v as int)
    ensures t.meshSize != ByteCount(v) ==>
      |MeshResized(s, t.mesh, t.meshSize, v)| == |s| + ByteCount(v) - t.meshSize
      && GetStaticMesh(MeshResized(s, t.mesh, t.meshSize, v), Shifted(t, ByteCount(v))) == Ok(v as int)
  {
    ByteCountWidth(v);
    if t.meshSize == ByteCount(v) {
      RoundTrip(Put(s, t.mesh, Encode(v)), t.mesh, v);
    } else {
      ResizedParts(s, t.mesh, t.meshSize, v);
      RoundTrip(MeshResized(s, t.mesh, t.meshSize, v), t.mesh, v);
    }
  }

  /** Reading `n` words from a region that moved by `d` reads the same words,
      and fails the same way when the region does not fit. */
  lemma ReadWordsMoved(s: seq<Byte>, r: seq<Byte>, p: nat, d: int, n: nat)
    requires |r| == |s| + d && 0 <= p + d
    requires forall i :: p <= i < |s| ==> r[i + d] == s[i]
    ensures ReadWords(r, p + d, n) == ReadWords(s, p, n)
  {
    if PositionOk(s, p) && p + 4 * n <= |s| {
      var a, b := ReadWords(r, p + d, n).value, ReadWords(s, p, n).value;
      forall k | 0 <= k < n ensures a[k] == b[k] {
        var q := p + 4 * k;
        assert r[q + d] == s[q] && r[q + 1 + d] == s[q + 1] && r[q + 2 + d] == s[q + 2] && r[q + 3 + d] == s[q + 3];
      }
      assert a == b;
    }
  }

  /** The offset a getter reads from on the resized blob reads what the old
      offset read on the old blob. */
  lemma ReadBehindMesh(s: seq<Byte>, t: OffsetTable, v: CompactValue, p: Int32)
    requires 0 < t.mesh && 0 <= t.meshSize && t.mesh + t.meshSize <= |s| && Abs(v) < 8192
    requires |s| + 2 < TWO_31 && t.mesh + t.meshSize <= p
    ensures ReadWords(MeshResized(s, t.mesh, t.meshSize, v), Move(p, ByteCount(v) - t.meshSize), 3) == ReadWords(s, p, 3)
  {
    var d := ByteCount(v) - t.meshSize;
    var r := MeshResized(s, t.mesh, t.meshSize, v);
    ByteCountWidth(v);
    ResizedMoves(s, t.mesh, t.meshSize, v);
    if p <= |s| {
      assert Move(p, d) == p + d;
      ReadWordsMoved(s, r, p, d, 3);
    } else {
      ReadPastEnd(s, r, p, d);
    }
  }

  /** An offset past the end stays past the end (or wraps negative) when it
      moves with the blob's length. */
  lemma ReadPastEnd(s: seq<Byte>, r: seq<Byte>, p: Int32, d: int)
    requires |s| < p && |r| == |s| + d && d < TWO_31
    ensures ReadWords(r, Move(p, d), 3) == ReadWords(s, p, 3) == Err(IllegalArgument)
  {
    assert !PositionOk(r, Move(p, d));
  }

  /** When Location and ColLocation lie behind the old reference (or are
      absent), getLocation on the resized blob with the moved offsets returns
      what it returned before. */
  lemma LocationSurvivesResize(s: seq<Byte>, t: OffsetTable, v: CompactValue)
    requires 0 < t.mesh && 0 <= t.meshSize && t.mesh + t.meshSize <= |s| && Abs(v) < 8192
    requires |s| + 2 < TWO_31
    requires t.location == 0 || t.mesh + t.meshSize <= t.location
    requires t.colLocation == 0 || t.mesh + t.meshSize <= t.colLocation
    ensures GetLocation(MeshResized(s, t.mesh, t.meshSize, v), Shifted(t, ByteCount(v))) == GetLocation(s, t)
  {
    var u := Shifted(t, ByteCount(v));
    ShiftedFields(t, ByteCount(v));
    MovePresence(t.location, ByteCount(v) - t.meshSize);
    MovePresence(t.colLocation, ByteCount(v) - t.meshSize);
    if t.location != 0 {
      ReadBehindMesh(s, t, v, t.location);
    } else if t.colLocation != 0 {
      ReadBehindMesh(s, t, v, t.colLocation);
    }
    SameLocation(MeshResized(s, t.mesh, t.meshSize, v), u, s, t);
  }

  /** setStaticMesh leaves every offset but the four it moves where it was,
      even one behind a mesh that changes width: the basePos vector now
      starts d bytes later while basePos still names the old position. */
  lemma BasePosLeftBehind(s: seq<Byte>, t: OffsetTable, v: CompactValue)
    requires 0 < t.mesh && 0 <= t.meshSize && t.mesh + t.meshSize <= |s| && Abs(v) < 8192
    requires |s| + 2 < TWO_31 && ByteCount(v) != t.meshSize
    requires t.mesh + t.meshSize <= t.basePos && t.basePos + 12 <= |s|
    ensures var u := Shifted(t, ByteCount(v));
      u.basePos == t.basePos && u.baseRot == t.baseRot && u.drawScale == t.drawScale &&
      u.drawScale3D == t.drawScale3D && u.rotationRate == t.rotationRate &&
      u.zoneRenderState == t.zoneRenderState
    ensures var d := ByteCount(v) - t.meshSize;
      d != 0 && ReadWords(MeshResized(s, t.mesh, t.meshSize, v), t.basePos + d, 3) == ReadWords(s, t.basePos, 3)
  {
    var d := ByteCount(v) - t.meshSize;
    ByteCountWidth(v);
    assert Move(t.basePos, d) == t.basePos + d;
    ReadBehindMesh(s, t, v, t.basePos);
  }

  /** Moving keeps an offset absent or present. */
  lemma MovePresence(p: Int32, d: int)
    requires p == 0 || (0 < p + d && d < TWO_31)
    ensures (Move(p, d) == 0) == (p == 0)
  {
  }

  /** getLocation reads the same on two blobs whose preferred offsets are
      present together and read the same words. */
  lemma SameLocation(r: seq<Byte>, u: OffsetTable, s: seq<Byte>, t: OffsetTable)
    requires (u.location == 0) == (t.location == 0) && (u.colLocation == 0) == (t.colLocation == 0)
    requires t.location != 0 || t.colLocation != 0 ==>
      ReadWords(r, Preferred(u.location, u.colLocation), 3) == ReadWords(s, Preferred(t.location, t.colLocation), 3)
    ensures GetLocation(r, u) == GetLocation(s, t)
  {
  }

  /** The same for getRotation over Rotation and SwayRotationOrig. */
  lemma RotationSurvivesResize(s: seq<Byte>, t: OffsetTable, v: CompactValue)
    requires 0 < t.mesh && 0 <= t.meshSize && t.mesh + t.meshSize <= |s| && Abs(v) < 8192
    requires |s| + 2 < TWO_31
    requires t.rotation == 0 || t.mesh + t.meshSize <= t.rotation
    requires t.swayRotationOrig == 0 || t.mesh + t.meshSize <= t.swayRotationOrig
    ensures GetRotation(MeshResized(s, t.mesh, t.meshSize, v), Shifted(t, ByteCount(v))) == GetRotation(s, t)
  {
    var u := Shifted(t, ByteCount(v));
    ShiftedFields(t, ByteCount(v));
    MovePresence(t.rotation, ByteCount(v) - t.meshSize);
    MovePresence(t.swayRotationOrig, ByteCount(v) - t.meshSize);
    if t.rotation != 0 {
      ReadBehindMesh(s, t, v, t.rotation);
    } else if t.swayRotationOrig != 0 {
      ReadBehindMesh(s, t, v, t.swayRotationOrig);
    }
    SameRotation(MeshResized(s, t.mesh, t.meshSize, v), u, s, t);
  }

  /** The same for getRotation. */
  lemma SameRotation(r: seq<Byte>, u: OffsetTable, s: seq<Byte>, t: OffsetTable)
    requires (u.rotation == 0) == (t.rotation == 0) && (u.swayRotationOrig == 0) == (t.swayRotationOrig == 0)
    requires t.rotation != 0 || t.swayRotationOrig != 0 ==>
      ReadWords(r, Preferred(u.rotation, u.swayRotationOrig), 3) == ReadWords(s, Preferred(t.rotation, t.swayRotationOrig), 3)
    ensures GetRotation(r, u) == GetRotation(s, t)
  {
  }

  /** getIntArraySizeByCount: the bytes setZoneRenderState reserves for `count`
      states, in int arithmetic. */
  function IntArraySizeByCount(count: int): (r: Int32)
    ensures 0 <= count < 8192 ==> r == |Encode(count)| + 4 * count
  {
    var size := Wrap32(count * 4 + (if count > 63 then 2 else 1));
    if 0 <= count < 8192 then Width(count); size else size
  }

  /** The temporary array setZoneRenderState fills: `new byte[size]` (negative
      sizes throw), putCompactInt of the count and one putInt per state, which
      overflows when the compact count needs more bytes than were reserved. */
  function EncodeStates(states: seq<Int32>): (r: Result<seq<Byte>>)
    requires |states| < TWO_31
    ensures r.Ok? ==> |r.value| == IntArraySizeByCount(|states|)
  {
    var n := |states|;
    var size := IntArraySizeByCount(n);
    Width(n);
    if size < 0 then Err(NegativeArraySize(size))
    else if |Encode(n)| + 4 * n > size then Err(BufferOverflow)
    else Ok(Encode(n) + LE32s(WordsOf(states)))
  }

  /** The temporary array can be built exactly for fewer than 8192 states, and
      then holds 4 bytes per state after a count of one byte (up to 63 states)
      or two. */
  lemma EncodeStatesOk(states: seq<Int32>)
    requires |states| < TWO_31
    ensures EncodeStates(states).Ok? <==> |states| < 8192
    ensures EncodeStates(states).Ok? ==>
      |EncodeStates(states).value| == 4 * |states| + (if |states| < 64 then 1 else 2)
  {
    Width(|states|);
  }

  /** The zone offsets a caller passes: the array lies inside the blob, with its
      one-byte size in front of it. */
  predicate ZoneFits(s: seq<Byte>, t: OffsetTable)
  {
    t.zoneRenderState != 0 ==>
      0 < t.zoneRenderState && 0 <= t.zoneRenderStateCount
      && 0 <= IntArraySizeByCount(t.zoneRenderStateCount)
      && t.zoneRenderState + IntArraySizeByCount(t.zoneRenderStateCount) <= |s|
  }

  /** setZoneRenderState as written: the blob itself when ZoneRenderState is
      absent; a new array when the count changed, whose size byte is
      `(byte) zrs.length`; otherwise the array overwritten in place. */
  function ZoneWrittenAsIs(s: seq<Byte>, t: OffsetTable, states: seq<Int32>): (r: Result<seq<Byte>>)
    requires ZoneFits(s, t) && |states| < TWO_31
    ensures t.zoneRenderState == 0 ==> r == Ok(s)
    ensures r.Err? ==> r.error == BufferOverflow || r.error.NegativeArraySize?
    ensures r.Ok? && |states| == t.zoneRenderStateCount ==> |r.value| == |s|
  {
    if t.zoneRenderState == 0 then Ok(s)
    else
      var zrs :- EncodeStates(states);
      var oldSize := IntArraySizeByCount(t.zoneRenderStateCount);
      if |states| != t.zoneRenderStateCount then
        var n := |s| - oldSize + |zrs|;
        if n >= TWO_31 then Err(NegativeArraySize(Wrap32(n)))
        else Ok(Splice(s, t.zoneRenderState - 1, oldSize + 1, [|zrs| % 256] + zrs))
      else
        Ok(Put(s, t.zoneRenderState, zrs))
  }

  /** The size byte is the length of the array only while that length fits in
      a byte; a new array of 64 states is 258 bytes long, and the size byte
      written for it says 2. */
  lemma ZoneSizeByteWraps()
    ensures var s, t, states := [5, 1, 0, 0, 0, 0], ABSENT.(zoneRenderState := 1, zoneRenderStateCount := 1), seq(64, _ => 0);
      ZoneFits(s, t) && ZoneWrittenAsIs(s, t, states).Ok?
      && |ZoneWrittenAsIs(s, t, states).value| == 259
      && PayloadSize(5, ZoneWrittenAsIs(s, t, states).value, 0) == Ok((2, 1))
  {
    var s, t, states := [5, 1, 0, 0, 0, 0], ABSENT.(zoneRenderState := 1, zoneRenderStateCount := 1), seq(64, _ => 0);
    EncodeStatesOk(states);
    var zrs := EncodeStates(states).value;
    assert |zrs| == 258;
    var r := Splice(s, 0, 6, [2] + zrs);
    assert ZoneWrittenAsIs(s, t, states) == Ok(r);
    assert r[0] == 2;
  }

  /** setZoneRenderState with the size byte checked: where the code as written
      would build a new array longer than its one-byte size can describe, the
      write is refused instead. */
  function ZoneWritten(s: seq<Byte>, t: OffsetTable, states: seq<Int32>): (r: Result<seq<Byte>>)
    requires ZoneFits(s, t) && |states| < TWO_31
    ensures r.Ok? ==> r == ZoneWrittenAsIs(s, t, states)
    ensures r.Err? && ZoneWrittenAsIs(s, t, states).Ok? ==>
      r.error == IllegalArgument && t.zoneRenderState != 0 && |states| != t.zoneRenderStateCount && |states| >= 64
  {
    var w := ZoneWrittenAsIs(s, t, states);
    if w.Ok? && t.zoneRenderState != 0 && |states| != t.zoneRenderStateCount
       && IntArraySizeByCount(|states|) > 255
    then Err(IllegalArgument)
    else w
  }

  /** Where ZoneRenderState is present, the new array sits at its offset after
      either write. */
  lemma ZoneArrayAt(s: seq<Byte>, t: OffsetTable, states: seq<Int32>)
    requires ZoneFits(s, t) && |states| < TWO_31 && t.zoneRenderState != 0
    requires ZoneWritten(s, t, states).Ok?
    ensures EncodeStates(states).Ok?
    ensures IsAt(ZoneWritten(s, t, states).value, t.zoneRenderState, EncodeStates(states).value)
  {
    ZoneWrittenCases(s, t, states);
    var zrs := EncodeStates(states).value;
    var off := t.zoneRenderState;
    if |states| != t.zoneRenderStateCount {
      ArraySpliced(s, off - 1, IntArraySizeByCount(t.zoneRenderStateCount) + 1, zrs);
    }
  }

  /** After setZoneRenderState, getZoneRenderState returns the new states. The
      offsets are not updated, and none need be: the getter reads the count
      from the blob. */
  lemma ZoneReadBack(s: seq<Byte>, t: OffsetTable, states: seq<Int32>)
    requires ZoneFits(s, t) && |states| < TWO_31 && t.zoneRenderState != 0
    requires ZoneWritten(s, t, states).Ok?
    ensures ZoneStates(ZoneWritten(s, t, states).value, t) == Ok(Some(states))
  {
    ZoneArrayAt(s, t, states);
    StatesReadBack(ZoneWritten(s, t, states).value, t, states);
  }

  /** Wherever the temporary array stands at the ZoneRenderState offset, the
      getter reads the states back. */
  lemma StatesReadBack(r: seq<Byte>, t: OffsetTable, states: seq<Int32>)
    requires |states| < TWO_31 && 0 < t.zoneRenderState && EncodeStates(states).Ok?
    requires IsAt(r, t.zoneRenderState, EncodeStates(states).value)
    ensures ZoneStates(r, t) == Ok(Some(states))
  {
    var off := t.zoneRenderState;
    var n := |states|;
    assert EncodeStates(states).value == Encode(n) + LE32s(WordsOf(states));
    IsAtSplit(r, off, Encode(n), LE32s(WordsOf(states)));
    RoundTrip(r, off, n);
    ReadWhatWasPut(r, off + |Encode(n)|, WordsOf(states));
    assert IntsOf(WordsOf(states)) == states;
    assert ZoneStates(r, t) == Ok(Some(IntsOf(WordsOf(states))));
  }

  /** On the resizing branch, the property's one-byte size in front of the new
      array reads back as the array's length, the bytes before it are kept, and
      the blob changes length by the change in array length. */
  lemma ZoneSizeByte(s: seq<Byte>, t: OffsetTable, states: seq<Int32>)
    requires ZoneFits(s, t) && |states| < TWO_31 && t.zoneRenderState != 0
    requires |states| != t.zoneRenderStateCount && ZoneWritten(s, t, states).Ok?
    ensures var r, off := ZoneWritten(s, t, states).value, t.zoneRenderState;
      |r| == |s| - IntArraySizeByCount(t.zoneRenderStateCount) + IntArraySizeByCount(|states|)
      && PayloadSize(5, r, off - 1) == Ok((IntArraySizeByCount(|states|), off))
      && r[..off - 1] == s[..off - 1]
  {
    ZoneWrittenCases(s, t, states);
    var zrs := EncodeStates(states).value;
    var off := t.zoneRenderState;
    var oldSize := IntArraySizeByCount(t.zoneRenderStateCount);
    SizeByteSpliced(s, off - 1, oldSize + 1, zrs);
  }

  /** Splicing in a one-byte size followed by the array keeps the prefix and
      makes the size read back as the array's length. */
  lemma SizeByteSpliced(s: seq<Byte>, at: nat, oldLen: nat, zrs: seq<Byte>)
    requires at + oldLen <= |s| && |zrs| < 0x100
    ensures var r := Splice(s, at, oldLen, [|zrs|] + zrs);
      |r| == |s| - oldLen + 1 + |zrs|
      && PayloadSize(5, r, at) == Ok((|zrs|, at + 1))
      && r[..at] == s[..at]
  {
    var r := Splice(s, at, oldLen, [|zrs|] + zrs);
    SpliceParts(s, at, oldLen, [|zrs|] + zrs);
    assert r[at] == |zrs|;
    SizeRoundTrip(5, |zrs|, r, at);
  }

  /** ... and holds the array itself right behind the size byte. */
  lemma ArraySpliced(s: seq<Byte>, at: nat, oldLen: nat, zrs: seq<Byte>)
    requires at + oldLen <= |s| && |zrs| < 0x100
    ensures IsAt(Splice(s, at, oldLen, [|zrs|] + zrs), at + 1, zrs)
  {
    var r := Splice(s, at, oldLen, [|zrs|] + zrs);
    forall i | 0 <= i < |zrs| ensures r[at + 1 + i] == zrs[i] {
      assert r[at + 1 + i] == ([|zrs|] + zrs)[1 + i];
    }
  }

  /** The temporary array: putCompactInt of the count, then putInt for each
      state. Its size is checked before the puts, which is where the puts would
      overflow it. */
  method BuildStates(states: seq<Int32>) returns (r: Result<array<Byte>>)
    requires |states| < TWO_31
    ensures r.Ok? <==> EncodeStates(states).Ok?
    ensures r.Err? ==> r.error == EncodeStates(states).error
    ensures r.Ok? ==> fresh(r.value) && r.value[..] == EncodeStates(states).value
  {
    var n := |states|;
    var size := IntArraySizeByCount(n);
    if size < 0 {
      return Err(NegativeArraySize(size));
    }
    var code := Encode(n);
    if |code| + 4 * n > size {
      return Err(BufferOverflow);
    }
    EncodeStatesValue(states);
    var zrs := new Byte[size];
    forall i | 0 <= i < |code| {
      zrs[i] := code[i];
    }
    var pos := |code|;
    for k := 0 to n
      invariant pos == |code| + 4 * k
      invariant zrs[..pos] == code + LE32s(WordsOf(states[..k]))
    {
      ghost var before := zrs[..];
      PutWord(zrs, pos, BitsOf(states[k]));
      WordAppended(before, zrs[..], pos, BitsOf(states[k]));
      WordsOfSnoc(states, k);
      LE32sSnoc(WordsOf(states[..k]), BitsOf(states[k]));
      pos := pos + 4;
    }
    assert states[..n] == states;
    assert zrs[..] == zrs[..pos];
    r := Ok(zrs);
  }

  /** When the reserved size is not negative and holds the count and the ints,
      it is exactly their length and the array can be built. */
  lemma EncodeStatesValue(states: seq<Int32>)
    requires |states| < TWO_31
    requires var size := IntArraySizeByCount(|states|); 0 <= size && |Encode(|states|)| + 4 * |states| <= size
    ensures EncodeStates(states) == Ok(Encode(|states|) + LE32s(WordsOf(states)))
    ensures IntArraySizeByCount(|states|) == |Encode(|states|)| + 4 * |states|
  {
  }

  lemma WordAppended(before: seq<Byte>, after: seq<Byte>, pos: nat, w: Word)
    requires pos + 4 <= |before| && after == Put(before, pos, LE32(w))
    ensures after[..pos + 4] == before[..pos] + LE32(w)
  {
  }

  lemma WordsOfSnoc(states: seq<Int32>, k: nat)
    requires k < |states|
    ensures WordsOf(states[..k + 1]) == WordsOf(states[..k]) + [BitsOf(states[k])]
  {
  }

  /** setZoneRenderState on a present ZoneRenderState, branch by branch. */
  lemma ZoneWrittenCases(s: seq<Byte>, t: OffsetTable, states: seq<Int32>)
    requires ZoneFits(s, t) && |states| < TWO_31 && t.zoneRenderState != 0
    ensures EncodeStates(states).Err? ==> ZoneWritten(s, t, states) == Err(EncodeStates(states).error)
    ensures EncodeStates(states).Ok? && |states| == t.zoneRenderStateCount ==>
      ZoneWritten(s, t, states) == Ok(Put(s, t.zoneRenderState, EncodeStates(states).value))
    ensures EncodeStates(states).Ok? && |states| != t.zoneRenderStateCount ==>
      var zrs := EncodeStates(states).value;
      var n := |s| - IntArraySizeByCount(t.zoneRenderStateCount) + |zrs|;
      ZoneWritten(s, t, states)
      == if n >= TWO_31 then Err(NegativeArraySize(Wrap32(n)))
         else if |zrs| > 255 then Err(IllegalArgument)
         else Ok(Splice(s, t.zoneRenderState - 1, IntArraySizeByCount(t.zoneRenderStateCount) + 1, [|zrs|] + zrs))
  {
  }

  /** setZoneRenderState, with the size byte checked. */
  method SetZoneRenderState(blob: array<Byte>, o: Offsets, states: seq<Int32>) returns (r: Result<array<Byte>>)
    requires ZoneFits(blob[..], o.Table()) && |states| < TWO_31
    modifies blob
    ensures r.Ok? <==> ZoneWritten(old(blob[..]), o.Table(), states).Ok?
    ensures r.Err? ==> r.error == ZoneWritten(old(blob[..]), o.Table(), states).error && blob[..] == old(blob[..])
    ensures r.Ok? ==> r.value[..] == ZoneWritten(old(blob[..]), o.Table(), states).value
    ensures r.Ok? && (o.zoneRenderState == 0 || |states| == o.zoneRenderStateCount) ==> r.value == blob
    ensures r.Ok? && o.zoneRenderState != 0 && |states| != o.zoneRenderStateCount ==>
      fresh(r.value) && blob[..] == old(blob[..])
  {
    if o.zoneRenderState == 0 {
      return Ok(blob);
    }
    ghost var before := blob[..];
    ZoneWrittenCases(before, o.Table(), states);
    var built := BuildStates(states);
    if built.Err? {
      return Err(built.error);
    }
    var zrs := built.value;
    var off := o.zoneRenderState;
    var oldSize := IntArraySizeByCount(o.zoneRenderStateCount);
    if |states| != o.zoneRenderStateCount {
      var n := blob.Length - oldSize + zrs.Length;
      if n >= TWO_31 {
        return Err(NegativeArraySize(Wrap32(n)));
      }
      if zrs.Length > 255 {
        return Err(IllegalArgument);
      }
      var out := CopySpliced(blob, off - 1, oldSize + 1, [zrs.Length] + zrs[..]);
      assert ZoneWritten(before, o.Table(), states) == Ok(out[..]);
      return Ok(out);
    }
    PutBytes(blob, off, zrs[..]);
    assert ZoneWritten(before, o.Table(), states) == Ok(blob[..]);
    return Ok(blob);
  }

  /** ByteBuffer.put(byte[]) at `at`: the bytes of `src` overwrite those of `dst`. */
  method PutBytes(dst: array<Byte>, at: nat, src: seq<Byte>)
    requires at + |src| <= dst.Length
    modifies dst
    ensures dst[..] == Put(old(dst[..]), at, src)
  {
    forall i | 0 <= i < |src| {
      dst[at + i] := src[i];
    }
    assert dst[..] == Put(old(dst[..]), at, src);
  }
}
