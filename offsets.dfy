/** The mutable offset record of view/model/Offsets.java: where each tracked
    property's payload starts in a StaticMeshActor blob (0 = absent), plus the
    StaticMesh payload width and the ZoneRenderState element count. */
module ActorOffsets {
  import opened JavaLib
  import opened JavaText

  /** The thirteen int fields, as a value. */
  datatype OffsetTable = OffsetTable(
    mesh: Int32, meshSize: Int32,
    location: Int32, colLocation: Int32, basePos: Int32,
    drawScale: Int32, drawScale3D: Int32,
    rotation: Int32, swayRotationOrig: Int32, baseRot: Int32,
    rotationRate: Int32,
    zoneRenderState: Int32, zoneRenderStateCount: Int32)

  /** A fresh Offsets: every property absent. */
  const ABSENT := OffsetTable(0, 0, 0, 0, 0, 0, 0, 0, 0, 0, 0, 0, 0)

  class Offsets {
    var mesh: Int32
    var meshSize: Int32
    var location: Int32
    var colLocation: Int32
    var basePos: Int32
    var drawScale: Int32
    var drawScale3D: Int32
    var rotation: Int32
    var swayRotationOrig: Int32
    var baseRot: Int32
    var rotationRate: Int32
    var zoneRenderState: Int32
    var zoneRenderStateCount: Int32

    /** The implicit constructor: Java zero-initialises every int field. */
    constructor()
      ensures Table() == ABSENT
    {
      mesh, meshSize := 0, 0;
      location, colLocation, basePos := 0, 0, 0;
      drawScale, drawScale3D := 0, 0;
      rotation, swayRotationOrig, baseRot := 0, 0, 0;
      rotationRate := 0;
      zoneRenderState, zoneRenderStateCount := 0, 0;
    }

    function Table(): OffsetTable
      reads this
    {
      OffsetTable(mesh, meshSize, location, colLocation, basePos, drawScale, drawScale3D,
        rotation, swayRotationOrig, baseRot, rotationRate, zoneRenderState, zoneRenderStateCount)
    }

    /** Overwrites every field with the values of `t`. */
    method Assign(t: OffsetTable)
      modifies this
      ensures Table() == t
    {
      mesh, meshSize := t.mesh, t.meshSize;
      location, colLocation, basePos := t.location, t.colLocation, t.basePos;
      drawScale, drawScale3D := t.drawScale, t.drawScale3D;
      rotation, swayRotationOrig, baseRot := t.rotation, t.swayRotationOrig, t.baseRot;
      rotationRate := t.rotationRate;
      zoneRenderState, zoneRenderStateCount := t.zoneRenderState, t.zoneRenderStateCount;
    }

    /** clone(): a shallow copy, which for int fields is a full and independent one. */
    method Clone() returns (c: Offsets)
      ensures fresh(c) && c.Table() == Table()
    {
      c := new Offsets();
      c.Assign(Table());
    }

    /** toString(). */
    function ToString(): (r: string)
      reads this
      ensures |r| >= 9 && r[..8] == "Offsets{" && r[|r| - 1] == '}'
    {
      Render(Table())
    }
  }

  /** One `name=value` part of toString. */
  datatype Entry = Entry(name: string, text: string)

  /** The field names in the order toString lists them. */
  const LISTED: seq<string> := ["mesh", "meshSize", "location", "rotation", "swayRotationOrig",
    "colLocation", "basePos", "baseRot", "drawScale", "rotationRate", "zoneRenderState",
    "zoneRenderStateCount"]

  /** The value of the field LISTED[k]. */
  function Field(t: OffsetTable, k: nat): Int32
    requires k < 12
  {
    if k == 0 then t.mesh else if k == 1 then t.meshSize
    else if k == 2 then t.location else if k == 3 then t.rotation
    else if k == 4 then t.swayRotationOrig else if k == 5 then t.colLocation
    else if k == 6 then t.basePos else if k == 7 then t.baseRot
    else if k == 8 then t.drawScale else if k == 9 then t.rotationRate
    else if k == 10 then t.zoneRenderState else t.zoneRenderStateCount
  }

  /** meshSize and zoneRenderStateCount print in decimal; the offsets print as
      "0x" and Integer.toHexString. */
  function Text(k: nat, v: Int32): string
  {
    if k == 1 || k == 11 then Decimal(v) else "0x" + ToHexString(v)
  }

  /** The parts toString lists, in its order. */
  function Entries(t: OffsetTable): (es: seq<Entry>)
    ensures |es| == 12
  {
    seq(12, k requires 0 <= k < 12 => Entry(LISTED[k], Text(k, Field(t, k))))
  }

  function EntryTexts(es: seq<Entry>): (r: seq<string>)
    ensures |r| == |es|
  {
    if es == [] then [] else [es[0].name + "=" + es[0].text] + EntryTexts(es[1..])
  }

  /** Offsets.toString: `Offsets{` + the entries separated by ", " + `}`. */
  function Render(t: OffsetTable): string
  {
    "Offsets{" + Join(EntryTexts(Entries(t)), ", ") + "}"
  }

  /** drawScale3D is the one field toString leaves out. */
  lemma DrawScale3DNotListed()
    ensures "drawScale3D" !in LISTED
  {
    forall k | 0 <= k < 12
      ensures LISTED[k] != "drawScale3D"
    {
      assert |LISTED[k]| != 11 || LISTED[k][0] != 'd';
    }
  }

  /** drawScale3D does not show in toString. */
  lemma RenderIgnoresDrawScale3D(t: OffsetTable, d: Int32)
    ensures Render(t.(drawScale3D := d)) == Render(t)
  {
    assert Entries(t.(drawScale3D := d)) == Entries(t);
  }

  /** Reading an offset's text back: "0x", then hex digits that spell the
      field's 32-bit pattern. */
  lemma HexTextValue(k: nat, v: Int32)
    requires k != 1 && k != 11
    ensures |Text(k, v)| >= 3 && Text(k, v)[..2] == "0x"
    ensures forall i :: 2 <= i < |Text(k, v)| ==> IsHexChar(Text(k, v)[i])
    ensures HexDigitsValue(Text(k, v)[2..]) == BitsOf(v)
  {
    assert Text(k, v)[2..] == ToHexString(v);
  }

  /** Reading a count's text back: its digits, after a '-' when negative. */
  lemma DecimalTextValue(k: nat, v: Int32)
    requires k == 1 || k == 11
    ensures v >= 0 ==> DigitsValue(Text(k, v)) == v
    ensures v < 0 ==> |Text(k, v)| >= 2 && Text(k, v)[0] == '-' && DigitsValue(Text(k, v)[1..]) == -(v as int)
  {
    DecimalRoundTrip(v);
  }

  /** The text of an entry determines its value. */
  lemma TextInjective(k: nat, a: Int32, b: Int32)
    requires Text(k, a) == Text(k, b)
    ensures a == b
  {
    if k == 1 || k == 11 {
      DecimalTextValue(k, a);
      DecimalTextValue(k, b);
    } else {
      HexTextValue(k, a);
      HexTextValue(k, b);
    }
  }

  /** Two tables with the same entries agree on every field but drawScale3D:
      toString loses nothing else. */
  lemma EntriesDetermineTable(a: OffsetTable, b: OffsetTable)
    requires Entries(a) == Entries(b)
    ensures a.(drawScale3D := 0) == b.(drawScale3D := 0)
  {
    forall k | 0 <= k < 12
      ensures Field(a, k) == Field(b, k)
    {
      assert Entries(a)[k].text == Entries(b)[k].text;
      TextInjective(k, Field(a, k), Field(b, k));
    }
    assert Field(a, 0) == Field(b, 0) && Field(a, 1) == Field(b, 1) && Field(a, 2) == Field(b, 2);
    assert Field(a, 3) == Field(b, 3) && Field(a, 4) == Field(b, 4) && Field(a, 5) == Field(b, 5);
    assert Field(a, 6) == Field(b, 6) && Field(a, 7) == Field(b, 7) && Field(a, 8) == Field(b, 8);
    assert Field(a, 9) == Field(b, 9) && Field(a, 10) == Field(b, 10) && Field(a, 11) == Field(b, 11);
  }
}
