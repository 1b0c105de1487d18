/** The fixed-width accessors of StaticMeshActorUtil: each reads or overwrites
    the payload at an offset getOffsets recorded, through a little-endian
    ByteBuffer wrapped around the blob. Floats are handled as their 32-bit
    patterns. */
module ActorFields {
  import opened JavaLib
  import opened Compact
  import opened ActorOffsets

  /** ByteBuffer.position(p) accepts 0..limit and throws IllegalArgumentException otherwise. */
  predicate PositionOk(s: seq<Byte>, p: int)
  {
    0 <= p <= |s|
  }

  /** The 32-bit patterns of `n` relative getInt / getFloat calls after position(p). */
  function ReadWords(s: seq<Byte>, p: int, n: nat): (r: Result<seq<Word>>)
    ensures r.Ok? ==> |r.value| == n && WordsAt(s, p, r.value)
    ensures r.Ok? <==> PositionOk(s, p) && p + 4 * n <= |s|
  {
    if !PositionOk(s, p) then Err(IllegalArgument)
    else if p + 4 * n > |s| then Err(BufferUnderflow)
    else Ok(seq(n, i requires 0 <= i < n => ReadLE32(s, p + 4 * i)))
  }

  /** `ws` are the little-endian words stored one after another from `at`. */
  predicate WordsAt(s: seq<Byte>, at: int, ws: seq<Word>)
  {
    0 <= at && at + 4 * |ws| <= |s| && forall k :: 0 <= k < |ws| ==> ws[k] == ReadLE32(s, at + 4 * k)
  }

  /** The offset a getter with a fallback reads: the property's own, or the
      fallback's when the property is absent. */
  function Preferred(own: Int32, fallback: Int32): Int32
  {
    if own != 0 then own else fallback
  }

  function IntsOf(ws: seq<Word>): (r: seq<Int32>)
    ensures |r| == |ws| && forall i :: 0 <= i < |ws| ==> BitsOf(r[i]) == ws[i]
  {
    seq(|ws|, i requires 0 <= i < |ws| => Int32Of(ws[i]))
  }

  function WordsOf(xs: seq<Int32>): (r: seq<Word>)
    ensures |r| == |xs| && forall i :: 0 <= i < |xs| ==> Int32Of(r[i]) == xs[i]
  {
    seq(|xs|, i requires 0 <= i < |xs| => BitsOf(xs[i]))
  }

  /** getStaticMesh: 0 when there is no StaticMesh, else the compact reference at `mesh`. */
  function GetStaticMesh(s: seq<Byte>, t: OffsetTable): (r: Result<int>)
    ensures t.mesh == 0 ==> r == Ok(0)
  {
    if t.mesh == 0 then Ok(0)
    else if !PositionOk(s, t.mesh) then Err(IllegalArgument)
    else
      var c :- Decode(s, t.mesh);
      Ok(c.0)
  }

  /** getLocation: null when neither Location nor ColLocation is present, else
      the three floats at Location, or at ColLocation when Location is absent. */
  function GetLocation(s: seq<Byte>, t: OffsetTable): (r: Result<Option<seq<Word>>>)
    ensures t.location == 0 && t.colLocation == 0 ==> r == Ok(None)
    ensures t.location != 0 || t.colLocation != 0 ==>
      (r.Ok? <==> PositionOk(s, Preferred(t.location, t.colLocation)) && Preferred(t.location, t.colLocation) + 12 <= |s|)
    ensures r.Ok? && r.value.Some? ==> |r.value.value| == 3 && WordsAt(s, Preferred(t.location, t.colLocation), r.value.value)
  {
    if t.location == 0 && t.colLocation == 0 then Ok(None)
    else
      var ws :- ReadWords(s, Preferred(t.location, t.colLocation), 3);
      Ok(Some(ws))
  }

  /** getRotation: the same, over Rotation with SwayRotationOrig as fallback, as ints. */
  function GetRotation(s: seq<Byte>, t: OffsetTable): (r: Result<Option<seq<Int32>>>)
    ensures t.rotation == 0 && t.swayRotationOrig == 0 ==> r == Ok(None)
    ensures t.rotation != 0 || t.swayRotationOrig != 0 ==>
      (r.Ok? <==> PositionOk(s, Preferred(t.rotation, t.swayRotationOrig)) && Preferred(t.rotation, t.swayRotationOrig) + 12 <= |s|)
    ensures r.Ok? && r.value.Some? ==>
      |r.value.value| == 3 && WordsAt(s, Preferred(t.rotation, t.swayRotationOrig), WordsOf(r.value.value))
  {
    if t.rotation == 0 && t.swayRotationOrig == 0 then Ok(None)
    else
      var ws :- ReadWords(s, Preferred(t.rotation, t.swayRotationOrig), 3);
      assert WordsOf(IntsOf(ws)) == ws;
      Ok(Some(IntsOf(ws)))
  }

  /** getRotationRate. */
  function GetRotationRate(s: seq<Byte>, t: OffsetTable): (r: Result<Option<seq<Int32>>>)
    ensures t.rotationRate == 0 ==> r == Ok(None)
    ensures t.rotationRate != 0 ==> (r.Ok? <==> PositionOk(s, t.rotationRate) && t.rotationRate + 12 <= |s|)
    ensures r.Ok? && r.value.Some? ==> |r.value.value| == 3 && WordsAt(s, t.rotationRate, WordsOf(r.value.value))
  {
    if t.rotationRate == 0 then Ok(None)
    else
      var ws :- ReadWords(s, t.rotationRate, 3);
      assert WordsOf(IntsOf(ws)) == ws;
      Ok(Some(IntsOf(ws)))
  }

  /** getDrawScale: an absolute getFloat(index), which throws
      IndexOutOfBoundsException unless four bytes start at the index. */
  function GetDrawScale(s: seq<Byte>, t: OffsetTable): (r: Result<Option<Word>>)
    ensures t.drawScale == 0 ==> r == Ok(None)
    ensures t.drawScale != 0 ==> (r.Ok? <==> 0 <= t.drawScale && t.drawScale + 4 <= |s|)
    ensures r.Err? ==> r.error == IndexOutOfBounds(t.drawScale)
    ensures r.Ok? && r.value.Some? ==> WordsAt(s, t.drawScale, [r.value.value])
  {
    if t.drawScale == 0 then Ok(None)
    else if t.drawScale < 0 || t.drawScale + 4 > |s| then Err(IndexOutOfBounds(t.drawScale))
    else Ok(Some(ReadLE32(s, t.drawScale)))
  }

  /** getDrawScale3D. */
  function GetDrawScale3D(s: seq<Byte>, t: OffsetTable): (r: Result<Option<seq<Word>>>)
    ensures t.drawScale3D == 0 ==> r == Ok(None)
    ensures t.drawScale3D != 0 ==> (r.Ok? <==> PositionOk(s, t.drawScale3D) && t.drawScale3D + 12 <= |s|)
    ensures r.Ok? && r.value.Some? ==> |r.value.value| == 3 && WordsAt(s, t.drawScale3D, r.value.value)
  {
    if t.drawScale3D == 0 then Ok(None)
    else
      var ws :- ReadWords(s, t.drawScale3D, 3);
      Ok(Some(ws))
  }

  /** The blob after a run of puts, and the exception that ended it, if any. */
  datatype Written = Written(bytes: seq<Byte>, result: Result<()>)

  /** Relative putInt / putFloat calls from `p`: each checks that four bytes
      remain and throws BufferOverflowException otherwise, so the words that
      fit before the failing one stay written. */
  function PutFrom(s: seq<Byte>, p: nat, ws: seq<Word>): (r: Written)
    requires p <= |s|
    ensures |r.bytes| == |s|
    ensures r.result.Err? ==> r.result.error == BufferOverflow
    decreases |ws|
  {
    if ws == [] then Written(s, Ok(()))
    else if p + 4 > |s| then Written(s, Err(BufferOverflow))
    else PutFrom(Put(s, p, LE32(ws[0])), p + 4, ws[1..])
  }

  /** position(p) followed by the puts. */
  function PutAt(s: seq<Byte>, p: int, ws: seq<Word>): (r: Written)
    ensures |r.bytes| == |s|
  {
    if PositionOk(s, p) then PutFrom(s, p, ws) else Written(s, Err(IllegalArgument))
  }

  /** A setter's groups of puts: the same words at each non-zero offset in
      turn, stopping at the first exception. */
  function PutGroups(s: seq<Byte>, ps: seq<int>, ws: seq<Word>): (r: Written)
    ensures |r.bytes| == |s|
    decreases |ps|
  {
    if ps == [] then Written(s, Ok(()))
    else if ps[0] == 0 then PutGroups(s, ps[1..], ws)
    else
      var w := PutAt(s, ps[0], ws);
      if w.result.Err? then w else PutGroups(w.bytes, ps[1..], ws)
  }

  /** Puts that fit write exactly the little-endian words and nothing else. */
  lemma {:induction false} PutFromFits(s: seq<Byte>, p: nat, ws: seq<Word>)
    requires p + 4 * |ws| <= |s|
    ensures PutFrom(s, p, ws).result == Ok(())
    ensures IsAt(PutFrom(s, p, ws).bytes, p, LE32s(ws))
    ensures forall i :: 0 <= i < |s| && !(p <= i < p + 4 * |ws|) ==> PutFrom(s, p, ws).bytes[i] == s[i]
    decreases |ws|
  {
    if ws != [] {
      var s1 := Put(s, p, LE32(ws[0]));
      PutFromFits(s1, p + 4, ws[1..]);
      var r := PutFrom(s1, p + 4, ws[1..]).bytes;
      forall i | 0 <= i < 4 ensures r[p + i] == LE32(ws[0])[i] {
        assert s1[p + i] == LE32(ws[0])[i];
      }
      IsAtJoin(r, p, LE32(ws[0]), LE32s(ws[1..]));
    }
  }

  /** Reading back what fitting puts wrote gives the words. */
  lemma {:induction false} ReadWhatWasPut(s: seq<Byte>, p: nat, ws: seq<Word>)
    requires IsAt(s, p, LE32s(ws))
    ensures ReadWords(s, p, |ws|) == Ok(ws)
    decreases |ws|
  {
    if ws != [] {
      IsAtSplit(s, p, LE32(ws[0]), LE32s(ws[1..]));
      LE32RoundTrip(s, p, ws[0]);
      ReadWhatWasPut(s, p + 4, ws[1..]);
      ReadWordsCons(s, p, ws);
    }
  }

  lemma ReadWordsCons(s: seq<Byte>, p: nat, ws: seq<Word>)
    requires ws != [] && p + 4 * |ws| <= |s| && ReadLE32(s, p) == ws[0]
    requires ReadWords(s, p + 4, |ws| - 1) == Ok(ws[1..])
    ensures ReadWords(s, p, |ws|) == Ok(ws)
  {
    var r := ReadWords(s, p, |ws|).value;
    forall k | 0 <= k < |ws| ensures r[k] == ws[k] {
      if k > 0 {
        assert ws[k] == ws[1..][k - 1] == ReadLE32(s, p + 4 + 4 * (k - 1));
      }
    }
    assert r == ws;
  }

  /** Every non-zero offset leaves room for `n` bytes. */
  predicate Fits(s: seq<Byte>, ps: seq<int>, n: nat)
  {
    forall i :: 0 <= i < |ps| && ps[i] != 0 ==> 0 <= ps[i] && ps[i] + n <= |s|
  }

  /** The group at `p` is apart from every other non-zero offset of the setter. */
  predicate ApartFrom(p: int, ps: seq<int>, n: nat)
  {
    forall i :: 0 <= i < |ps| && ps[i] != 0 ==> ps[i] + n <= p || p + n <= ps[i]
  }

  /** Groups that fit raise no exception, and the words written at a non-zero
      offset `p` that later groups do not touch are still there at the end. */
  lemma {:induction false} PutGroupsKeep(s: seq<Byte>, ps: seq<int>, ws: seq<Word>, p: nat)
    requires Fits(s, ps, 4 * |ws|) && ApartFrom(p, ps, 4 * |ws|)
    requires p + 4 * |ws| <= |s| && IsAt(s, p, LE32s(ws))
    ensures PutGroups(s, ps, ws).result == Ok(())
    ensures IsAt(PutGroups(s, ps, ws).bytes, p, LE32s(ws))
    decreases |ps|
  {
    if ps != [] {
      if ps[0] == 0 {
        PutGroupsKeep(s, ps[1..], ws, p);
      } else {
        PutFromFits(s, ps[0], ws);
        var s1 := PutAt(s, ps[0], ws).bytes;
        forall i | 0 <= i < |LE32s(ws)| ensures s1[p + i] == LE32s(ws)[i] {
          assert s[p + i] == LE32s(ws)[i];
        }
        PutGroupsKeep(s1, ps[1..], ws, p);
      }
    }
  }

  /** The non-zero offsets of a setter lie `n` bytes or more apart. */
  predicate Separate(ps: seq<int>, n: nat)
  {
    forall i, j :: 0 <= i < j < |ps| && ps[i] != 0 && ps[j] != 0 ==> ps[i] + n <= ps[j] || ps[j] + n <= ps[i]
  }

  /** When every group fits and the groups do not overlap, the setter raises no
      exception and each group's words read back. */
  lemma {:induction false} GroupsReadBack(s: seq<Byte>, ps: seq<int>, ws: seq<Word>, k: nat)
    requires Fits(s, ps, 4 * |ws|) && Separate(ps, 4 * |ws|)
    requires k < |ps| && ps[k] != 0
    ensures PutGroups(s, ps, ws).result == Ok(())
    ensures ReadWords(PutGroups(s, ps, ws).bytes, ps[k], |ws|) == Ok(ws)
    decreases |ps|
  {
    var s1 := if ps[0] == 0 then s else PutAt(s, ps[0], ws).bytes;
    if ps[0] != 0 {
      PutFromFits(s, ps[0], ws);
    }
    TailGroups(s, s1, ps, 4 * |ws|);
    assert PutGroups(s, ps, ws) == PutGroups(s1, ps[1..], ws);
    if k == 0 {
      PutGroupsKeep(s1, ps[1..], ws, ps[0]);
      ReadWhatWasPut(PutGroups(s1, ps[1..], ws).bytes, ps[0], ws);
    } else {
      assert ps[1..][k - 1] == ps[k];
      GroupsReadBack(s1, ps[1..], ws, k - 1);
      if ps[0] == 0 {
        GroupsFits(s, ps[1..], ws);
      }
    }
  }

  /** What holds of a setter's offsets holds of the offsets after its first,
      over a blob of the same length. */
  lemma TailGroups(s: seq<Byte>, s1: seq<Byte>, ps: seq<int>, n: nat)
    requires Fits(s, ps, n) && Separate(ps, n) && |ps| > 0 && |s1| == |s|
    ensures Fits(s1, ps[1..], n) && Separate(ps[1..], n)
    ensures ps[0] != 0 ==> ApartFrom(ps[0], ps[1..], n)
  {
    forall i | 0 <= i < |ps[1..]| && ps[1..][i] != 0 ensures 0 <= ps[1..][i] && ps[1..][i] + n <= |s1| {
      assert ps[1..][i] == ps[i + 1];
    }
    forall i, j | 0 <= i < j < |ps[1..]| && ps[1..][i] != 0 && ps[1..][j] != 0
      ensures ps[1..][i] + n <= ps[1..][j] || ps[1..][j] + n <= ps[1..][i]
    {
      assert ps[1..][i] == ps[i + 1] && ps[1..][j] == ps[j + 1];
    }
    if ps[0] != 0 {
      forall i | 0 <= i < |ps[1..]| && ps[1..][i] != 0 ensures ps[1..][i] + n <= ps[0] || ps[0] + n <= ps[1..][i] {
        assert ps[1..][i] == ps[i + 1];
      }
    }
  }

  /** Groups that fit raise no exception. */
  lemma {:induction false} GroupsFits(s: seq<Byte>, ps: seq<int>, ws: seq<Word>)
    requires Fits(s, ps, 4 * |ws|)
    ensures PutGroups(s, ps, ws).result == Ok(())
    decreases |ps|
  {
    if ps != [] {
      var s1 := if ps[0] == 0 then s else PutAt(s, ps[0], ws).bytes;
      if ps[0] != 0 {
        PutFromFits(s, ps[0], ws);
      }
      assert Fits(s1, ps[1..], 4 * |ws|) by {
        forall i | 0 <= i < |ps[1..]| && ps[1..][i] != 0 ensures 0 <= ps[1..][i] && ps[1..][i] + 4 * |ws| <= |s1| {
          assert ps[1..][i] == ps[i + 1];
        }
      }
      GroupsFits(s1, ps[1..], ws);
    }
  }

  /** A byte outside every group's window is never written, whether the setter
      completes or stops at an exception. */
  lemma {:induction false} GroupsFrame(s: seq<Byte>, ps: seq<int>, ws: seq<Word>, i: nat)
    requires i < |s|
    requires forall k :: 0 <= k < |ps| && ps[k] != 0 ==> !(ps[k] <= i < ps[k] + 4 * |ws|)
    ensures PutGroups(s, ps, ws).bytes[i] == s[i]
    decreases |ps|
  {
    if ps != [] {
      var s1 := if ps[0] == 0 then s else PutAt(s, ps[0], ws).bytes;
      if ps[0] != 0 && PositionOk(s, ps[0]) {
        PutFromFrame(s, ps[0], ws, i);
      }
      forall k | 0 <= k < |ps[1..]| && ps[1..][k] != 0 ensures !(ps[1..][k] <= i < ps[1..][k] + 4 * |ws|) {
        assert ps[1..][k] == ps[k + 1];
      }
      GroupsFrame(s1, ps[1..], ws, i);
    }
  }

  lemma {:induction false} PutFromFrame(s: seq<Byte>, p: nat, ws: seq<Word>, i: nat)
    requires p <= |s| && i < |s| && !(p <= i < p + 4 * |ws|)
    ensures PutFrom(s, p, ws).bytes[i] == s[i]
    decreases |ws|
  {
    if ws != [] && p + 4 <= |s| {
      PutFromFrame(Put(s, p, LE32(ws[0])), p + 4, ws[1..], i);
    }
  }

  /** A setter all of whose offsets are 0 changes nothing and raises nothing. */
  lemma {:induction false} GroupsAbsent(s: seq<Byte>, ps: seq<int>, ws: seq<Word>)
    requires forall k :: 0 <= k < |ps| ==> ps[k] == 0
    ensures PutGroups(s, ps, ws) == Written(s, Ok(()))
    decreases |ps|
  {
    if ps != [] {
      assert forall k :: 0 <= k < |ps[1..]| ==> ps[1..][k] == ps[k + 1];
      GroupsAbsent(s, ps[1..], ws);
    }
  }

  /** One little-endian putInt / putFloat into the array. */
  method PutWord(blob: array<Byte>, at: nat, w: Word)
    requires at + 4 <= blob.Length
    modifies blob
    ensures blob[..] == Put(old(blob[..]), at, LE32(w))
  {
    var b := LE32(w);
    blob[at], blob[at + 1], blob[at + 2], blob[at + 3] := b[0], b[1], b[2], b[3];
    assert blob[..] == Put(old(blob[..]), at, b);
  }

  /** position(p) and relative puts on the array itself. */
  method PutWords(blob: array<Byte>, p: int, ws: seq<Word>) returns (r: Result<()>)
    modifies blob
    ensures Written(blob[..], r) == PutAt(old(blob[..]), p, ws)
    ensures r.Ok? ==> r == Ok(())
  {
    if !(0 <= p <= blob.Length) {
      return Err(IllegalArgument);
    }
    var pos: nat := p;
    var i := 0;
    while i < |ws|
      invariant 0 <= i <= |ws| && pos <= blob.Length
      invariant PutAt(old(blob[..]), p, ws) == PutFrom(blob[..], pos, ws[i..])
    {
      if pos + 4 > blob.Length {
        return Err(BufferOverflow);
      }
      PutWord(blob, pos, ws[i]);
      assert ws[i..][1..] == ws[i + 1..];
      pos, i := pos + 4, i + 1;
    }
    return Ok(());
  }

  /** `if (offset != 0) { position(offset); put... }`: one group of a setter. */
  method PutGroup(blob: array<Byte>, p: int, ws: seq<Word>, ghost rest: seq<int>) returns (r: Result<()>)
    modifies blob
    ensures r.Ok? ==> r == Ok(()) && PutGroups(old(blob[..]), [p] + rest, ws) == PutGroups(blob[..], rest, ws)
    ensures r.Err? ==> PutGroups(old(blob[..]), [p] + rest, ws) == Written(blob[..], r)
  {
    r := Ok(());
    if p != 0 {
      r := PutWords(blob, p, ws);
    }
    assert ([p] + rest)[1..] == rest;
  }

  /** setLocation: the three floats at Location, ColLocation and BasePos, each if present. */
  method SetLocation(blob: array<Byte>, o: Offsets, x: Word, y: Word, z: Word) returns (r: Result<()>)
    modifies blob
    ensures Written(blob[..], r) == PutGroups(old(blob[..]), [o.location, o.colLocation, o.basePos], [x, y, z])
  {
    assert [o.location, o.colLocation, o.basePos] == [o.location] + [o.colLocation, o.basePos];
    assert [o.colLocation, o.basePos] == [o.colLocation] + [o.basePos];
    r := PutGroup(blob, o.location, [x, y, z], [o.colLocation, o.basePos]);
    if r.Err? {
      return;
    }
    r := PutGroup(blob, o.colLocation, [x, y, z], [o.basePos]);
    if r.Err? {
      return;
    }
    assert [o.basePos] == [o.basePos] + [];
    r := PutGroup(blob, o.basePos, [x, y, z], []);
  }

  /** setRotation: the three ints at Rotation, SwayRotationOrig and BaseRot, each if present. */
  method SetRotation(blob: array<Byte>, o: Offsets, p: Int32, y: Int32, r: Int32) returns (res: Result<()>)
    modifies blob
    ensures Written(blob[..], res) == PutGroups(old(blob[..]), [o.rotation, o.swayRotationOrig, o.baseRot], WordsOf([p, y, r]))
  {
    var ws := [BitsOf(p), BitsOf(y), BitsOf(r)];
    assert ws == WordsOf([p, y, r]);
    assert [o.rotation, o.swayRotationOrig, o.baseRot] == [o.rotation] + [o.swayRotationOrig, o.baseRot];
    assert [o.swayRotationOrig, o.baseRot] == [o.swayRotationOrig] + [o.baseRot];
    res := PutGroup(blob, o.rotation, ws, [o.swayRotationOrig, o.baseRot]);
    if res.Err? {
      return;
    }
    res := PutGroup(blob, o.swayRotationOrig, ws, [o.baseRot]);
    if res.Err? {
      return;
    }
    assert [o.baseRot] == [o.baseRot] + [];
    res := PutGroup(blob, o.baseRot, ws, []);
  }

  /** setRotationRate. */
  method SetRotationRate(blob: array<Byte>, o: Offsets, p: Int32, y: Int32, r: Int32) returns (res: Result<()>)
    modifies blob
    ensures Written(blob[..], res) == PutGroups(old(blob[..]), [o.rotationRate], WordsOf([p, y, r]))
  {
    var ws := [BitsOf(p), BitsOf(y), BitsOf(r)];
    assert ws == WordsOf([p, y, r]);
    assert [o.rotationRate] == [o.rotationRate] + [];
    res := PutGroup(blob, o.rotationRate, ws, []);
  }

  /** setDrawScale3D. */
  method SetDrawScale3D(blob: array<Byte>, o: Offsets, x: Word, y: Word, z: Word) returns (r: Result<()>)
    modifies blob
    ensures Written(blob[..], r) == PutGroups(old(blob[..]), [o.drawScale3D], [x, y, z])
  {
    assert [o.drawScale3D] == [o.drawScale3D] + [];
    r := PutGroup(blob, o.drawScale3D, [x, y, z], []);
  }

  /** putFloat(index, value): absolute, all or nothing. */
  function PutAbsolute(s: seq<Byte>, index: int, w: Word): (r: Written)
    ensures |r.bytes| == |s|
  {
    if index < 0 || index + 4 > |s| then Written(s, Err(IndexOutOfBounds(index)))
    else Written(Put(s, index, LE32(w)), Ok(()))
  }

  /** setDrawScale: nothing when DrawScale is absent, else an absolute putFloat. */
  method SetDrawScale(blob: array<Byte>, o: Offsets, scale: Word) returns (r: Result<()>)
    modifies blob
    ensures o.drawScale == 0 ==> r == Ok(()) && blob[..] == old(blob[..])
    ensures o.drawScale != 0 ==> Written(blob[..], r) == PutAbsolute(old(blob[..]), o.drawScale, scale)
  {
    if o.drawScale == 0 {
      return Ok(());
    }
    var i := o.drawScale;
    if i < 0 || i + 4 > blob.Length {
      return Err(IndexOutOfBounds(i));
    }
    PutWord(blob, i, scale);
    r := Ok(());
  }

  /** The offsets each setter writes, in the order it writes them. */
  function LocationGroups(t: OffsetTable): seq<int> { [t.location, t.colLocation, t.basePos] }
  function RotationGroups(t: OffsetTable): seq<int> { [t.rotation, t.swayRotationOrig, t.baseRot] }

  /** After setLocation on a blob where its offsets fit and do not overlap,
      getLocation returns the written floats (or null when neither Location
      nor ColLocation is present). */
  lemma LocationAfterSet(s: seq<Byte>, t: OffsetTable, ws: seq<Word>)
    requires |ws| == 3 && Fits(s, LocationGroups(t), 12) && Separate(LocationGroups(t), 12)
    ensures PutGroups(s, LocationGroups(t), ws).result == Ok(())
    ensures GetLocation(PutGroups(s, LocationGroups(t), ws).bytes, t)
         == if t.location == 0 && t.colLocation == 0 then Ok(None) else Ok(Some(ws))
  {
    var ps := LocationGroups(t);
    if t.location != 0 {
      GroupsReadBack(s, ps, ws, 0);
    } else if t.colLocation != 0 {
      GroupsReadBack(s, ps, ws, 1);
    } else {
      GroupsFits(s, ps, ws);
    }
  }

  /** After setRotation, getRotation returns the written ints. */
  lemma RotationAfterSet(s: seq<Byte>, t: OffsetTable, xs: seq<Int32>)
    requires |xs| == 3 && Fits(s, RotationGroups(t), 12) && Separate(RotationGroups(t), 12)
    ensures PutGroups(s, RotationGroups(t), WordsOf(xs)).result == Ok(())
    ensures GetRotation(PutGroups(s, RotationGroups(t), WordsOf(xs)).bytes, t)
         == if t.rotation == 0 && t.swayRotationOrig == 0 then Ok(None) else Ok(Some(xs))
  {
    var ps, ws := RotationGroups(t), WordsOf(xs);
    assert IntsOf(ws) == xs;
    if t.rotation != 0 {
      GroupsReadBack(s, ps, ws, 0);
    } else if t.swayRotationOrig != 0 {
      GroupsReadBack(s, ps, ws, 1);
    } else {
      GroupsFits(s, ps, ws);
    }
  }

  /** After setRotationRate, getRotationRate returns the written ints. */
  lemma RotationRateAfterSet(s: seq<Byte>, t: OffsetTable, xs: seq<Int32>)
    requires |xs| == 3 && Fits(s, [t.rotationRate], 12)
    ensures PutGroups(s, [t.rotationRate], WordsOf(xs)).result == Ok(())
    ensures GetRotationRate(PutGroups(s, [t.rotationRate], WordsOf(xs)).bytes, t)
         == if t.rotationRate == 0 then Ok(None) else Ok(Some(xs))
  {
    assert IntsOf(WordsOf(xs)) == xs;
    if t.rotationRate != 0 {
      GroupsReadBack(s, [t.rotationRate], WordsOf(xs), 0);
    }
  }

  /** After setDrawScale3D, getDrawScale3D returns the written floats. */
  lemma DrawScale3DAfterSet(s: seq<Byte>, t: OffsetTable, ws: seq<Word>)
    requires |ws| == 3 && Fits(s, [t.drawScale3D], 12)
    ensures PutGroups(s, [t.drawScale3D], ws).result == Ok(())
    ensures GetDrawScale3D(PutGroups(s, [t.drawScale3D], ws).bytes, t)
         == if t.drawScale3D == 0 then Ok(None) else Ok(Some(ws))
  {
    if t.drawScale3D != 0 {
      GroupsReadBack(s, [t.drawScale3D], ws, 0);
    }
  }

  /** After setDrawScale, getDrawScale returns the written float; out of range,
      both throw IndexOutOfBoundsException and the blob is unchanged. */
  lemma DrawScaleAfterSet(s: seq<Byte>, t: OffsetTable, w: Word)
    requires t.drawScale != 0
    ensures 0 <= t.drawScale && t.drawScale + 4 <= |s| ==>
      PutAbsolute(s, t.drawScale, w).result == Ok(())
      && GetDrawScale(PutAbsolute(s, t.drawScale, w).bytes, t) == Ok(Some(w))
    ensures !(0 <= t.drawScale && t.drawScale + 4 <= |s|) ==>
      PutAbsolute(s, t.drawScale, w) == Written(s, Err(IndexOutOfBounds(t.drawScale)))
      && GetDrawScale(s, t) == Err(IndexOutOfBounds(t.drawScale))
  {
    if 0 <= t.drawScale && t.drawScale + 4 <= |s| {
      LE32RoundTrip(PutAbsolute(s, t.drawScale, w).bytes, t.drawScale, w);
    }
  }

  /** getZoneRenderState: null when the property is absent; otherwise the
      compact count at the offset, `new int[count]` (which throws
      NegativeArraySizeException for a negative count) and that many ints. */
  function ZoneStates(s: seq<Byte>, t: OffsetTable): (r: Result<Option<seq<Int32>>>)
    ensures t.zoneRenderState == 0 ==> r == Ok(None)
    ensures r.Ok? && r.value.Some? ==> t.zoneRenderState != 0
  {
    if t.zoneRenderState == 0 then Ok(None)
    else if !PositionOk(s, t.zoneRenderState) then Err(IllegalArgument)
    else
      var c :- Decode(s, t.zoneRenderState);
      if c.0 < 0 then Err(NegativeArraySize(c.0))
      else
        var ws :- ReadWords(s, c.1, c.0);
        Ok(Some(IntsOf(ws)))
  }

  method GetZoneRenderState(blob: array<Byte>, o: Offsets) returns (r: Result<Option<array<Int32>>>)
    ensures r.Err? <==> ZoneStates(blob[..], o.Table()).Err?
    ensures r.Err? ==> r.error == ZoneStates(blob[..], o.Table()).error
    ensures r.Ok? ==> (r.value.None? <==> ZoneStates(blob[..], o.Table()).value.None?)
    ensures r.Ok? && r.value.Some? ==>
      fresh(r.value.value) && r.value.value[..] == ZoneStates(blob[..], o.Table()).value.value
  {
    if o.zoneRenderState == 0 {
      return Ok(None);
    }
    if !(0 <= o.zoneRenderState <= blob.Length) {
      return Err(IllegalArgument);
    }
    var c := Decode(blob[..], o.zoneRenderState);
    if c.Err? {
      return Err(c.error);
    }
    var count := c.value.0;
    if count < 0 {
      return Err(NegativeArraySize(count));
    }
    var zrs := new Int32[count];
    var pos := c.value.1;
    for i := 0 to count
      invariant pos == c.value.1 + 4 * i
      invariant forall j :: 0 <= j < i ==> c.value.1 + 4 * j + 4 <= blob.Length && zrs[j] == Int32Of(ReadLE32(blob[..], c.value.1 + 4 * j))
    {
      if pos + 4 > blob.Length {
        return Err(BufferUnderflow);
      }
      zrs[i] := Int32Of(ReadLE32(blob[..], pos));
      pos := pos + 4;
    }
    assert c.value.1 + 4 * count <= blob.Length by {
      if count > 0 {
        assert c.value.1 + 4 * (count - 1) + 4 <= blob.Length;
      }
    }
    ghost var ws := ReadWords(blob[..], c.value.1, count).value;
    assert zrs[..] == IntsOf(ws);
    r := Ok(Some(zrs));
  }
}
