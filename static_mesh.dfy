/** The material pass of StaticMesh.readStaticMesh: a scan of the mesh's
    property list in which a "Materials" property starts, for each of its
    elements, a nested scan over the same payload cursor that collects the
    object reference of every "Material" sub-property. */
module StaticMeshMaterials {
  import opened JavaLib
  import opened JavaText
  import opened Compact
  import opened SizeCodec
  import opened PropertyScanner

  /** The package entry an object reference resolves to; the pass reads only
      its full name and its full class name. */
  datatype Entry = Entry(objectFullName: string, fullClassName: string)

  /** What readStaticMesh returns of the pass: one slot per material (None
      where the reference resolved to null) and the offset at which the
      positional geometry read starts. */
  datatype MaterialPass = MaterialPass(materials: seq<Option<(string, string)>>, geometryStart: nat)

  /** iterateProperties with a callback that contributes entries to one shared
      list: each record's callback runs before the next record is scanned.
      Gives the entries in order and the cursor after "None". */
  function ScanWith<T>(s: seq<Byte>, pos: nat, names: seq<string>, f: Record -> Result<seq<T>>): (r: Result<(seq<T>, nat)>)
    ensures r.Ok? ==> pos < r.value.1 <= |s|
    decreases |s| - pos
  {
    var step :- ScanRecord(s, pos, names);
    match step
    case Stop(end) => Ok(([], end))
    case Next(rec, next) =>
      var here :- f(rec);
      var rest :- ScanWith(s, next, names, f);
      Ok((here + rest.0, rest.1))
  }

  /** The inner callback: a "Material" sub-property (any case) adds
      up.objectReference of the compact index at the start of its payload. */
  function MaterialSlot(rec: Record, resolve: int -> Option<Entry>): Result<seq<Option<Entry>>>
  {
    if EqualsIgnoreCase("Material", rec.name) then
      var c :- Decode(rec.payload, 0);
      Ok([resolve(c.0)])
    else Ok([])
  }

  /** The lambda the inner iterateProperties is given. */
  function InnerCallback(resolve: int -> Option<Entry>): Record -> Result<seq<Option<Entry>>>
  {
    rec => MaterialSlot(rec, resolve)
  }

  /** `remaining` scans, each starting where the previous one stopped, their
      entries in order. */
  function Repeat<T>(scan: nat -> Result<(seq<T>, nat)>, cursor: nat, remaining: int): Result<seq<T>>
    decreases remaining
  {
    if remaining <= 0 then Ok([])
    else
      var one :- scan(cursor);
      var rest :- Repeat(scan, one.1, remaining - 1);
      Ok(one.0 + rest)
  }

  /** The inner iterateProperties over one element, as a function of its start. */
  function ElementScan(data: seq<Byte>, names: seq<string>, resolve: int -> Option<Entry>)
    : nat -> Result<(seq<Option<Entry>>, nat)>
  {
    cursor => ScanWith(data, cursor, names, InnerCallback(resolve))
  }

  /** `remaining` nested scans over the elements of a "Materials" payload. */
  function ElementScans(data: seq<Byte>, cursor: nat, remaining: int, names: seq<string>, resolve: int -> Option<Entry>)
    : Result<seq<Option<Entry>>>
  {
    Repeat(ElementScan(data, names, resolve), cursor, remaining)
  }

  /** The outer callback for a "Materials" property: the compact element
      count at the start of the payload, then that many nested scans. */
  function MaterialsOf(data: seq<Byte>, names: seq<string>, resolve: int -> Option<Entry>): Result<seq<Option<Entry>>>
  {
    var count :- Decode(data, 0);
    ElementScans(data, count.1, count.0, names, resolve)
  }

  function MaterialsSlot(rec: Record, names: seq<string>, resolve: int -> Option<Entry>): Result<seq<Option<Entry>>>
  {
    if EqualsIgnoreCase("Materials", rec.name) then MaterialsOf(rec.payload, names, resolve) else Ok([])
  }

  /** The lambda the outer iterateProperties is given. */
  function OuterCallback(names: seq<string>, resolve: int -> Option<Entry>): Record -> Result<seq<Option<Entry>>>
  {
    rec => MaterialsSlot(rec, names, resolve)
  }

  /** The (full name, class name) pair of a resolved entry, null kept as null. */
  function PairOf(e: Option<Entry>): Option<(string, string)>
  {
    match e
    case None => None
    case Some(x) => Some((x.objectFullName, x.fullClassName))
  }

  /** The stream map to pairs: one pair per entry, in order, null kept in its slot. */
  function Pairs(entries: seq<Option<Entry>>): (r: seq<Option<(string, string)>>)
    ensures |r| == |entries|
    ensures forall i :: 0 <= i < |r| ==> (r[i].None? <==> entries[i].None?)
    ensures forall i :: 0 <= i < |r| && entries[i].Some? ==>
      r[i] == Some((entries[i].value.objectFullName, entries[i].value.fullClassName))
  {
    seq(|entries|, i requires 0 <= i < |entries| => PairOf(entries[i]))
  }

  /** readStaticMesh's material pass over the whole raw data, from offset 0. */
  function ReadMaterials(s: seq<Byte>, names: seq<string>, resolve: int -> Option<Entry>): (r: Result<MaterialPass>)
    ensures r.Ok? ==> 0 < r.value.geometryStart <= |s|
  {
    var found :- ScanWith(s, 0, names, OuterCallback(names, resolve));
    Ok(MaterialPass(Pairs(found.0), found.1))
  }

  // A reference definition: scan first, then run the callbacks over the records.

  function Collect<T>(recs: seq<Record>, f: Record -> Result<seq<T>>): Result<seq<T>>
  {
    if recs == [] then Ok([])
    else
      var here :- f(recs[0]);
      var rest :- Collect(recs[1..], f);
      Ok(here + rest)
  }

  /** Interleaving the callbacks with the scan succeeds exactly when the scan
      and every callback succeed, and then it yields what collecting over the
      scanned records yields, ending where the scan ends. */
  lemma {:induction false} ScanWithIsCollect<T>(s: seq<Byte>, pos: nat, names: seq<string>, f: Record -> Result<seq<T>>)
    ensures ScanWith(s, pos, names, f).Ok?
        <==> ScanProperties(s, pos, names).Ok? && Collect(ScanProperties(s, pos, names).value.records, f).Ok?
    ensures ScanWith(s, pos, names, f).Ok? ==>
      ScanWith(s, pos, names, f).value
        == (Collect(ScanProperties(s, pos, names).value.records, f).value, ScanProperties(s, pos, names).value.end)
    decreases |s| - pos
  {
    var step := ScanRecord(s, pos, names);
    if step.Ok? && step.value.Next? {
      var rec, next := step.value.record, step.value.next;
      ScanWithIsCollect(s, next, names, f);
      var rest := ScanProperties(s, next, names);
      if rest.Ok? {
        assert ([rec] + rest.value.records)[0] == rec;
        assert ([rec] + rest.value.records)[1..] == rest.value.records;
      }
    }
  }

  /** Records whose callback adds nothing add nothing to the list. */
  lemma {:induction false} CollectNothing<T>(recs: seq<Record>, f: Record -> Result<seq<T>>)
    requires forall i :: 0 <= i < |recs| ==> f(recs[i]) == Ok([])
    ensures Collect(recs, f) == Ok([])
    decreases |recs|
  {
    if recs != [] {
      assert forall i :: 0 <= i < |recs[1..]| ==> recs[1..][i] == recs[i + 1];
      CollectNothing(recs[1..], f);
      assert f(recs[0]) == Ok([]);
      assert Collect(recs[1..], f) == Ok([]);
      var none: seq<T> := [];
      assert none + none == none;
    }
  }

  /** Only properties named "Materials" (in any case) contribute: a mesh
      without one has an empty material list whenever its list scans. */
  lemma OnlyMaterialsContribute(s: seq<Byte>, names: seq<string>, resolve: int -> Option<Entry>)
    requires ScanProperties(s, 0, names).Ok?
    requires var recs := ScanProperties(s, 0, names).value.records;
      forall i :: 0 <= i < |recs| ==> !EqualsIgnoreCase("Materials", recs[i].name)
    ensures ReadMaterials(s, names, resolve).Ok?
    ensures ReadMaterials(s, names, resolve).value.materials == []
  {
    var f := OuterCallback(names, resolve);
    CollectNothing(ScanProperties(s, 0, names).value.records, f);
    ScanWithIsCollect(s, 0, names, f);
  }

  /** One entry per "Material" sub-property, in scan order, the reference as
      resolved (None stays in its slot). */
  lemma {:induction false} OneSlotPerMaterial(recs: seq<Record>, resolve: int -> Option<Entry>)
    requires Collect(recs, InnerCallback(resolve)).Ok?
    ensures |Collect(recs, InnerCallback(resolve)).value| == CountMaterial(recs)
    decreases |recs|
  {
    if recs != [] {
      OneSlotPerMaterial(recs[1..], resolve);
    }
  }

  /** One nested scan gives exactly one slot per "Material" sub-property of
      the element it walks. */
  lemma SlotsPerElement(data: seq<Byte>, pos: nat, names: seq<string>, resolve: int -> Option<Entry>)
    requires ScanWith(data, pos, names, InnerCallback(resolve)).Ok?
    ensures ScanProperties(data, pos, names).Ok?
    ensures |ScanWith(data, pos, names, InnerCallback(resolve)).value.0|
         == CountMaterial(ScanProperties(data, pos, names).value.records)
  {
    ScanWithIsCollect(data, pos, names, InnerCallback(resolve));
    OneSlotPerMaterial(ScanProperties(data, pos, names).value.records, resolve);
  }

  /** The number of records named "Material" in some case. */
  function CountMaterial(recs: seq<Record>): nat
  {
    if recs == [] then 0
    else (if EqualsIgnoreCase("Material", recs[0].name) then 1 else 0) + CountMaterial(recs[1..])
  }

  /** The geometry read starts just after the "None" that ends the top-level
      property list. */
  lemma GeometryAfterNone(s: seq<Byte>, names: seq<string>, resolve: int -> Option<Entry>)
    requires ReadMaterials(s, names, resolve).Ok?
    ensures ScanProperties(s, 0, names).Ok?
    ensures ReadMaterials(s, names, resolve).value.geometryStart == ScanProperties(s, 0, names).value.end
    ensures var sc := ScanProperties(s, 0, names).value;
      ReadName(s, TerminatorAt(0, sc.records), names) == Ok((NONE, sc.end))
  {
    ScanWithIsCollect(s, 0, names, OuterCallback(names, resolve));
    ScanEndsAtNone(s, 0, names);
  }

  /** The element count does not bound the material count: one element (the
      count 1) whose sub-list holds two "Material" properties (name 1, header
      0x05, reference 1) before "None" (name 0) gives two slots. */
  lemma CountIsNotSlots(resolve: int -> Option<Entry>)
    ensures MaterialsOf([1, 1, 0x05, 0x01, 1, 0x05, 0x01, 0], ["None", "Material"], resolve)
         == Ok([resolve(1), resolve(1)])
  {
    var names := ["None", "Material"];
    var data: seq<Byte> := [1, 1, 5, 1, 1, 5, 1, 0];
    assert Decode(data, 0) == Ok((1, 1));
    TwoMaterials(data, names, resolve);
    OneElement(data, 1, names, resolve, [resolve(1), resolve(1)], 8);
  }

  /** The sub-list of the example: two "Material" properties, then "None". */
  lemma TwoMaterials(data: seq<Byte>, names: seq<string>, resolve: int -> Option<Entry>)
    requires data == [1, 1, 5, 1, 1, 5, 1, 0] && names == ["None", "Material"]
    ensures ScanWith(data, 1, names, InnerCallback(resolve)) == Ok(([resolve(1), resolve(1)], 8))
  {
    var f := InnerCallback(resolve);
    MaterialAt(data, 1, names, resolve);
    MaterialAt(data, 4, names, resolve);
    assert Decode(data, 7) == Ok((0, 8));
    assert ScanRecord(data, 7, names) == Ok(Stop(8));
    assert ScanWith(data, 7, names, f) == Ok(([], 8));
    ScanWithNext(data, 4, names, f, Record("Material", 6, [1]), 7, [resolve(1)], [], 8);
    assert [resolve(1)] + [] == [resolve(1)];
    ScanWithNext(data, 1, names, f, Record("Material", 3, [1]), 4, [resolve(1)], [resolve(1)], 8);
    assert [resolve(1)] + [resolve(1)] == [resolve(1), resolve(1)];
  }

  /** A count of one runs exactly one nested scan. */
  lemma OneElement(data: seq<Byte>, cursor: nat, names: seq<string>, resolve: int -> Option<Entry>,
                   entries: seq<Option<Entry>>, end: nat)
    requires ScanWith(data, cursor, names, InnerCallback(resolve)) == Ok((entries, end))
    ensures ElementScans(data, cursor, 1, names, resolve) == Ok(entries)
  {
    assert ElementScans(data, end, 0, names, resolve) == Ok([]);
    assert entries + [] == entries;
  }

  /** One step of ScanWith: the callback's entries, then the rest's. */
  lemma ScanWithNext<T>(s: seq<Byte>, pos: nat, names: seq<string>, f: Record -> Result<seq<T>>,
                        rec: Record, next: nat, here: seq<T>, rest: seq<T>, end: nat)
    requires ScanRecord(s, pos, names) == Ok(Next(rec, next))
    requires f(rec) == Ok(here)
    requires ScanWith(s, next, names, f) == Ok((rest, end))
    ensures ScanWith(s, pos, names, f) == Ok((here + rest, end))
  {
  }

  /** The three bytes [1, 0x05, 0x01] at `pos`: name 1, an object header of
      size class 0 and the one-byte reference 1. */
  lemma MaterialAt(data: seq<Byte>, pos: nat, names: seq<string>, resolve: int -> Option<Entry>)
    requires pos + 3 <= |data| && data[pos..pos + 3] == [1, 0x05, 0x01]
    requires |names| == 2 && names[1] == "Material"
    ensures ScanRecord(data, pos, names) == Ok(Next(Record("Material", pos + 2, [1]), pos + 3))
    ensures MaterialSlot(Record("Material", pos + 2, [1]), resolve) == Ok([resolve(1)])
  {
    assert data[pos] == 1 && data[pos + 1] == 5 && data[pos + 2] == 1;
    assert Decode(data, pos) == Ok((1, pos + 1));
    assert ReadName(data, pos, names) == Ok(("Material", pos + 1));
    assert DecodeHeader(5) == Header(5, 0, false);
    assert PayloadStart(data, pos + 1) == Ok((1, pos + 2));
    assert data[pos + 2..pos + 3] == [1];
    assert Decode([1], 0) == Ok((1, 1));
    assert EqualsIgnoreCase("Material", "Material");
  }

  // The pass as the source runs it: loops over one shared cursor and one list.

  /** The entries gathered so far, then what the rest of a scan gathers. */
  function With<T>(done: seq<T>, r: Result<(seq<T>, nat)>): Result<(seq<T>, nat)>
  {
    match r
    case Err(e) => Err(e)
    case Ok(p) => Ok((done + p.0, p.1))
  }

  lemma WithNothing<T>(r: Result<(seq<T>, nat)>)
    ensures With([], r) == r
  {
    if r.Ok? {
      assert [] + r.value.0 == r.value.0;
    }
  }

  lemma WithMore<T>(done: seq<T>, here: seq<T>, r: Result<(seq<T>, nat)>)
    ensures With(done, With(here, r)) == With(done + here, r)
  {
    if r.Ok? {
      assert done + (here + r.value.0) == (done + here) + r.value.0;
    }
  }

  /** The inner iterateProperties over one element of a "Materials" payload. */
  method ScanElement(data: seq<Byte>, start: nat, names: seq<string>, resolve: int -> Option<Entry>)
    returns (r: Result<(seq<Option<Entry>>, nat)>)
    ensures r == ScanWith(data, start, names, InnerCallback(resolve))
  {
    var f := InnerCallback(resolve);
    var materials: seq<Option<Entry>> := [];
    var pos := start;
    WithNothing(ScanWith(data, start, names, f));
    while true
      invariant ScanWith(data, start, names, f) == With(materials, ScanWith(data, pos, names, f))
      decreases |data| - pos
    {
      var step := ScanRecord(data, pos, names);
      if step.Err? {
        return Err(step.error);
      }
      match step.value
      case Stop(end) =>
        assert materials + [] == materials;
        return Ok((materials, end));
      case Next(rec, next) =>
        var here: seq<Option<Entry>> := [];
        if EqualsIgnoreCase("Material", rec.name) {
          var c := Decode(rec.payload, 0);
          if c.Err? {
            return Err(c.error);
          }
          here := [resolve(c.value.0)];
        }
        WithMore(materials, here, ScanWith(data, next, names, f));
        materials := materials + here;
        pos := next;
    }
  }

  /** The callback for "Materials": the count, then that many nested scans
      advancing one cursor. */
  method MaterialsCallback(data: seq<Byte>, names: seq<string>, resolve: int -> Option<Entry>)
    returns (r: Result<seq<Option<Entry>>>)
    ensures r == MaterialsOf(data, names, resolve)
  {
    var count := Decode(data, 0);
    if count.Err? {
      return Err(count.error);
    }
    r := ElementLoop(ElementScan(data, names, resolve), data, count.value.1, count.value.0, names, resolve);
  }

  /** The `for (int i = 0; i < size; i++)` loop of nested scans, one cursor
      carried from each scan to the next; `scan` names what each turn computes. */
  method ElementLoop(ghost scan: nat -> Result<(seq<Option<Entry>>, nat)>, data: seq<Byte>, start: nat, size: int,
                     names: seq<string>, resolve: int -> Option<Entry>)
    returns (r: Result<seq<Option<Entry>>>)
    requires forall c {:trigger ScanWith(data, c, names, InnerCallback(resolve))} ::
      scan(c) == ScanWith(data, c, names, InnerCallback(resolve))
    ensures r == Repeat(scan, start, size)
  {
    ghost var total := Repeat(scan, start, size);
    var cursor := start;
    var materials: seq<Option<Entry>> := [];
    var left := size;
    FoundNothing(total);
    while left > 0
      invariant total == Found(materials, Repeat(scan, cursor, left))
    {
      var one := ScanElement(data, cursor, names, resolve);
      RepeatStep(total, scan, materials, cursor, left, one);
      if one.Err? {
        return Err(one.error);
      }
      materials := materials + one.value.0;
      cursor := one.value.1;
      left := left - 1;
    }
    RepeatDone(total, scan, materials, cursor, left);
    return Ok(materials);
  }

  /** When no scan is left the list is complete. */
  lemma RepeatDone<T>(total: Result<seq<T>>, scan: nat -> Result<(seq<T>, nat)>, done: seq<T>, cursor: nat, left: int)
    requires left <= 0
    requires total == Found(done, Repeat(scan, cursor, left))
    ensures total == Ok(done)
  {
    assert done + [] == done;
  }

  /** What one turn keeps: the scans still to run after this one, behind the
      entries found so far and this scan's. */
  lemma RepeatStep<T>(total: Result<seq<T>>, scan: nat -> Result<(seq<T>, nat)>, done: seq<T>, cursor: nat, left: int,
                      one: Result<(seq<T>, nat)>)
    requires left > 0
    requires total == Found(done, Repeat(scan, cursor, left))
    requires one == scan(cursor)
    ensures one.Err? ==> total == Err(one.error)
    ensures one.Ok? ==> total == Found(done + one.value.0, Repeat(scan, one.value.1, left - 1))
  {
    if one.Ok? {
      FoundMore(done, one.value.0, Repeat(scan, one.value.1, left - 1));
    }
  }

  function Found<T>(done: seq<T>, r: Result<seq<T>>): Result<seq<T>>
  {
    match r
    case Err(e) => Err(e)
    case Ok(more) => Ok(done + more)
  }

  lemma FoundNothing<T>(r: Result<seq<T>>)
    ensures Found([], r) == r
  {
    if r.Ok? {
      assert [] + r.value == r.value;
    }
  }

  lemma FoundMore<T>(done: seq<T>, here: seq<T>, r: Result<seq<T>>)
    ensures Found(done, Found(here, r)) == Found(done + here, r)
  {
    if r.Ok? {
      assert done + (here + r.value) == (done + here) + r.value;
    }
  }

  /** readStaticMesh up to the geometry read: the outer iterateProperties,
      the material list, and its mapping to pairs. */
  method ReadStaticMeshMaterials(bytes: array<Byte>, names: seq<string>, resolve: int -> Option<Entry>)
    returns (r: Result<MaterialPass>)
    ensures r == ReadMaterials(bytes[..], names, resolve)
  {
    var s := bytes[..];
    var f := OuterCallback(names, resolve);
    var materials: seq<Option<Entry>> := [];
    var pos := 0;
    WithNothing(ScanWith(s, 0, names, f));
    while true
      invariant ScanWith(s, 0, names, f) == With(materials, ScanWith(s, pos, names, f))
      decreases |s| - pos
    {
      var step := ScanRecord(s, pos, names);
      if step.Err? {
        return Err(step.error);
      }
      match step.value
      case Stop(end) =>
        assert materials + [] == materials;
        return Ok(MaterialPass(Pairs(materials), end));
      case Next(rec, next) =>
        var here: seq<Option<Entry>> := [];
        if EqualsIgnoreCase("Materials", rec.name) {
          var found := MaterialsCallback(rec.payload, names, resolve);
          if found.Err? {
            return Err(found.error);
          }
          here := found.value;
        }
        WithMore(materials, here, ScanWith(s, next, names, f));
        materials := materials + here;
        pos := next;
    }
  }
}
