/** Decompiler: the T3D text of an object's properties. Each property renders
    as `name=value` lines (`name(i)=` for multi-slot properties), structs and
    arrays inline as parenthesised lists, and references to exports flagged
    ExportObject or EditInlineNotify pull in a nested Begin Object ... End
    Object block, emitted before the line that refers to it. */
module Decompiler {
  import opened JavaLib
  import opened JavaText
  import opened PropertyScanner

  /** The property classes the renderer distinguishes; an enum byte carries
      its value names. */
  datatype Kind =
    | ByteKind(enumValues: Option<seq<string>>)
    | IntKind
    | BoolKind
    | FloatKind
    | ObjectKind
    | NameKind
    | ArrayKind(inner: Template)
    | StructKind
    | StrKind
    | OtherKind

  /** A property template: its class, its number of slots and the two
      property flags the renderer tests. */
  datatype Template = Template(kind: Kind, arrayDimension: int, exportObject: bool, editInlineNotify: bool)

  /** A slot value as the deserializer leaves it: object and name references
      and byte and int values are Integer indices, an array is a list, a
      struct a list of properties. */
  datatype Value =
    | Null
    | IntV(i: int)
    | BoolV(b: bool)
    | FloatV(w: Word)
    | StrV(s: string)
    | ListV(items: seq<Value>)
    | StructV(props: seq<Prop>)

  /** An L2Property: slot i holds values[i], a missing slot reads as null. */
  datatype Prop = Prop(name: string, template: Template, values: seq<Value>)

  /** The parts of an export entry the renderer reads. */
  datatype ExportData = ExportData(
    objectClass: Option<string>,   // getObjectClass().getObjectName(), null for a class
    objectName: string,
    innerFullName: string,
    fullClassName: string,
    superClassFullName: string)

  datatype Entry = ImportEntry(className: string, objectFullName: string) | ExportEntry(exported: ExportData)

  /** The package and serializer calls, as oracles: objectReference,
      nameReference, the properties of the object instantiated for an
      export, PropertiesUtil.removeDefaults, String.format("%f") and the
      toString of a slot value that is not an Integer, Boolean or String. */
  datatype Context = Context(
    objectReference: int -> Option<Entry>,
    nameReference: int -> string,
    properties: ExportData -> seq<Prop>,
    removeDefaults: (seq<Prop>, string) -> seq<Prop>,
    formatFloat: Word -> string,
    describe: Value -> string)

  function ShowBool(b: bool): string
  {
    if b then "true" else "false"
  }

  /** String.valueOf of a slot value, as StringBuilder.append(Object) and
      Objects.toString give it: "null", an Integer in decimal, a Boolean as
      true or false, a String as itself, any other object by its own toString. */
  function ValueText(ctx: Context, v: Value): string
  {
    match v
    case Null => "null"
    case IntV(i) => Decimal(i)
    case BoolV(b) => ShowBool(b)
    case StrV(s) => s
    case _ => ctx.describe(v)
  }

  /** The exceptions inlineProperty can throw: unboxing or dereferencing a
      null slot, a failed cast, an enum index out of range. */
  predicate InlineFailure(e: Error)
  {
    e == NullPointer || e == ClassCast || e.IndexOutOfBounds?
  }

  /** The class name of an export, "Class" when it has none. */
  function ClassOf(e: ExportData): string
  {
    match e.objectClass
    case None => "Class"
    case Some(c) => c
  }

  /** needExport: a non-null export referenced through a template flagged
      ExportObject or EditInlineNotify. */
  predicate NeedExport(entry: Option<Entry>, t: Template)
    ensures NeedExport(entry, t) ==>
      entry.Some? && entry.value.ExportEntry?
      && DecompiledRef(entry) == ClassOf(entry.value.exported) + "'" + entry.value.exported.innerFullName + "'"
  {
    entry.Some? && entry.value.ExportEntry? && (t.exportObject || t.editInlineNotify)
  }

  /** The `name=` or `name(i)=` that starts a slot. */
  function Head(p: Prop, i: int): string
  {
    p.name + (if p.template.arrayDimension > 1 then "(" + Decimal(i) + ")" else "") + "="
  }

  // inlineProperty and inlineStruct: one-line renderings.

  /** A null slot, which needs no recursion: null structs are "None", the
      object and name casts and the array's size() throw. */
  function NullSlot(t: Template): (r: Result<string>)
    ensures r.Err? ==> r.error == NullPointer
  {
    match t.kind
    case ByteKind(en) => if en.Some? then Err(NullPointer) else Ok("null")
    case IntKind => Ok("null")
    case BoolKind => Ok("null")
    case FloatKind => Ok("null")
    case ObjectKind => Err(NullPointer)
    case NameKind => Ok("'null'")
    case ArrayKind(_) => Err(NullPointer)
    case StructKind => Ok("None")
    case StrKind => Ok("\"null\"")
    case OtherKind => Ok("")
  }

  /** An object reference inline: None, Class'FullName' for an import, and
      for an export "Name" under ExportObject or Class'Name' otherwise. */
  function InlineRef(ctx: Context, t: Template, r: int): string
  {
    match ctx.objectReference(r)
    case None => "None"
    case Some(ImportEntry(c, full)) => c + "'" + full + "'"
    case Some(ExportEntry(e)) =>
      if t.exportObject then "\"" + e.objectName + "\"" else ClassOf(e) + "'" + e.objectName + "'"
  }

  /** The value text of one slot under inlineProperty. */
  function Slot(ctx: Context, t: Template, v: Value): (r: Result<string>)
    ensures r.Err? ==> InlineFailure(r.error)
    ensures t.kind.IntKind? || t.kind.BoolKind? || t.kind.StrKind? || t.kind == ByteKind(None) ==> r.Ok?
    ensures !v.Null? && (t.kind.IntKind? || t.kind.BoolKind? || t.kind == ByteKind(None)) ==> r == Ok(ValueText(ctx, v))
    decreases v, 1
  {
    if v.Null? then NullSlot(t)
    else
      match t.kind
      case ByteKind(en) =>
        if en.None? then Ok(ValueText(ctx, v))
        else if !v.IntV? then Err(ClassCast)
        else if 0 <= v.i < |en.value| then Ok(en.value[v.i])
        else Err(IndexOutOfBounds(v.i))
      case IntKind => Ok(ValueText(ctx, v))
      case BoolKind => Ok(ValueText(ctx, v))
      case FloatKind => if v.FloatV? then Ok(ctx.formatFloat(v.w)) else Err(ClassCast)
      case ObjectKind => if v.IntV? then Ok(InlineRef(ctx, t, v.i)) else Err(ClassCast)
      case NameKind => if v.IntV? then Ok("'" + ctx.nameReference(v.i) + "'") else Err(ClassCast)
      case ArrayKind(inner) =>
        if !v.ListV? then Err(ClassCast)
        else
          var items :- Elements(ctx, inner, v.items);
          Ok("(" + Join(items, ",") + ")")
      case StructKind =>
        if v.StructV? then InlineStruct(ctx, v.props)
        else if v.ListV? && v.items == [] then InlineStruct(ctx, [])
        else Err(ClassCast)
      case StrKind => Ok("\"" + ValueText(ctx, v) + "\"")
      case OtherKind => Ok("")
  }

  /** An array element: inlineProperty(valueOnly) of a property of the inner
      template whose slot 0 holds the element and whose other slots are null. */
  function Element(ctx: Context, inner: Template, x: Value): (r: Result<string>)
    ensures r.Err? ==> InlineFailure(r.error)
    decreases x, 2
  {
    if inner.arrayDimension <= 0 then Ok("")
    else
      var first :- Slot(ctx, inner, x);
      var rest :- NullSlots(inner, 1);
      Ok(first + rest)
  }

  /** Slots i.. of a property whose slots from i on are null, each after a comma. */
  function NullSlots(t: Template, i: int): (r: Result<string>)
    ensures r.Err? ==> r.error == NullPointer
    decreases t.arrayDimension - i
  {
    if i >= t.arrayDimension then Ok("")
    else
      var v :- NullSlot(t);
      var rest :- NullSlots(t, i + 1);
      Ok("," + v + rest)
  }

  function Elements(ctx: Context, inner: Template, xs: seq<Value>): (r: Result<seq<string>>)
    ensures r.Ok? ==> |r.value| == |xs|
    ensures r.Err? ==> InlineFailure(r.error)
    decreases xs, 0
  {
    if xs == [] then Ok([])
    else
      var e :- Element(ctx, inner, xs[0]);
      var rest :- Elements(ctx, inner, xs[1..]);
      Ok([e] + rest)
  }

  /** inlineStruct: the members inlined with their names, in parentheses. */
  function InlineStruct(ctx: Context, ps: seq<Prop>): (r: Result<string>)
    ensures r.Ok? ==> |r.value| >= 2 && r.value[0] == '(' && r.value[|r.value| - 1] == ')'
    ensures r.Err? ==> InlineFailure(r.error)
    decreases ps, 1
  {
    var items :- InlineProps(ctx, ps);
    Ok("(" + Join(items, ",") + ")")
  }

  function InlineProps(ctx: Context, ps: seq<Prop>): (r: Result<seq<string>>)
    ensures r.Ok? ==> |r.value| == |ps|
    ensures r.Err? ==> InlineFailure(r.error)
    decreases ps, 0
  {
    if ps == [] then Ok([])
    else
      var first :- Slots(ctx, ps[0], 0, false);
      var rest :- InlineProps(ctx, ps[1..]);
      Ok([first] + rest)
  }

  /** Slots i.. of inlineProperty: each slot's `name(i)=` unless valueOnly,
      its value, and a comma unless it is the last slot. */
  function Slots(ctx: Context, p: Prop, i: int, valueOnly: bool): (r: Result<string>)
    ensures r.Err? ==> InlineFailure(r.error)
    decreases p, p.template.arrayDimension - i
  {
    if i >= p.template.arrayDimension then Ok("")
    else
      var prefix := if valueOnly then "" else Head(p, i);
      var v :- if 0 <= i < |p.values| then Slot(ctx, p.template, p.values[i]) else NullSlot(p.template);
      var rest :- Slots(ctx, p, i + 1, valueOnly);
      Ok(SlotText(p, i, valueOnly, v) + rest)
  }

  /** Slot i's contribution to inlineProperty around its value text. */
  function SlotText(p: Prop, i: int, valueOnly: bool, v: string): string
  {
    (if valueOnly then "" else Head(p, i)) + v + (if i != p.template.arrayDimension - 1 then "," else "")
  }

  /** inlineProperty. */
  function InlineProperty(ctx: Context, p: Prop, valueOnly: bool): (r: Result<string>)
    ensures r.Err? ==> InlineFailure(r.error)
    ensures p.template.arrayDimension <= 0 ==> r == Ok("")
    ensures r.Ok? && !valueOnly && p.template.arrayDimension >= 1 ==> p.name <= r.value
  {
    Slots(ctx, p, 0, valueOnly)
  }

  // decompileProperties and toT3d: the multi-line renderings.

  /** An object reference on a decompiled line: None, Class'FullName' for an
      import, Class'InnerFullName' for an export. */
  function DecompiledRef(entry: Option<Entry>): string
  {
    match entry
    case None => "None"
    case Some(ImportEntry(c, full)) => c + "'" + full + "'"
    case Some(ExportEntry(e)) => ClassOf(e) + "'" + e.innerFullName + "'"
  }

  /** The class whose defaults removeDefaults strips: the super class of a
      class object, the object's class otherwise. */
  function DefaultsClass(e: ExportData): string
  {
    if e.objectClass.None? then e.superClassFullName else e.fullClassName
  }

  /** toT3d: a Begin Object line, the properties one level deeper, End Object.
      `fuel` bounds the depth of nested exports. */
  function ToT3d(ctx: Context, e: ExportData, indent: nat, fuel: nat): (r: Result<string>)
    ensures e.objectClass.None? ==> r == Err(NullPointer)
    ensures r.Ok? ==>
      (|r.value| >= 31 && r.value[..19] == "Begin Object Class=" && r.value[|r.value| - 10..] == "End Object")
    decreases fuel, 5, 0
  {
    match e.objectClass
    case None => Err(NullPointer)
    case Some(c) =>
      var body :- DecompileProperties(ctx, e, indent + 1, fuel);
      Ok("Begin Object" + " Class=" + c + " Name=" + e.objectName
         + LineBreak(indent + 1) + body + LineBreak(indent) + "End Object")
  }

  /** decompileProperties: the blocks of the properties left after
      removeDefaults, joined by newLine(indent). */
  function DecompileProperties(ctx: Context, e: ExportData, indent: nat, fuel: nat): (r: Result<string>)
    ensures ctx.removeDefaults(ctx.properties(e), DefaultsClass(e)) == [] ==> r == Ok("")
    ensures r.Ok? && |ctx.removeDefaults(ctx.properties(e), DefaultsClass(e))| >= 2 ==> BreaksLine(r.value)
    decreases fuel, 4, 0
  {
    var props := ctx.removeDefaults(ctx.properties(e), DefaultsClass(e));
    var blocks :- Blocks(ctx, props, indent, fuel);
    var text := Join(blocks, LineBreak(indent));
    if |blocks| >= 2 then
      assert text == blocks[0] + LineBreak(indent) + Join(blocks[1..], LineBreak(indent));
      assert text[|blocks[0]|] == '\r' && text[|blocks[0]| + 1] == '\n';
      Ok(text)
    else Ok(text)
  }

  /** The text holds a CR LF somewhere: it spans more than one line. */
  predicate BreaksLine(text: string)
  {
    exists i :: 0 <= i < |text| - 1 && text[i] == '\r' && text[i + 1] == '\n'
  }

  /** The Stream.Builder's contents: per property, the nested objects its
      slots export, then its own text. */
  function Blocks(ctx: Context, props: seq<Prop>, indent: nat, fuel: nat): (r: Result<seq<string>>)
    ensures r.Ok? ==> |r.value| >= |props|
    decreases fuel, 3, |props|
  {
    if props == [] then Ok([])
    else
      var b :- PropertyBlocks(ctx, props[0], 0, indent, fuel);
      var rest :- Blocks(ctx, props[1..], indent, fuel);
      Ok(b.0 + [b.1] + rest)
  }

  /** Slots i.. of one property: the nested objects and the text. */
  function PropertyBlocks(ctx: Context, p: Prop, i: int, indent: nat, fuel: nat): Result<(seq<string>, string)>
    decreases fuel, 2, p.template.arrayDimension - i
  {
    if i >= p.template.arrayDimension then Ok(([], ""))
    else
      var here :- SlotBlocks(ctx, p, i, indent, fuel);
      var rest :- PropertyBlocks(ctx, p, i + 1, indent, fuel);
      Ok((here.0 + rest.0, here.1 + rest.1))
  }

  /** Slot i of a property under decompileProperties. A null or empty struct
      adds nothing, not even the line break; every other slot after the
      first starts on a new line. */
  function SlotBlocks(ctx: Context, p: Prop, i: int, indent: nat, fuel: nat): Result<(seq<string>, string)>
    decreases fuel, 1, 0
  {
    var t := p.template;
    var obj := if 0 <= i < |p.values| then p.values[i] else Null;
    if t.kind.StructKind? && (obj.Null? || (obj.StructV? && obj.props == []) || (obj.ListV? && obj.items == [])) then Ok(([], ""))
    else
      var nl := if i > 0 then LineBreak(indent) else "";
      match t.kind
      case ObjectKind =>
        if obj.Null? then Err(NullPointer)
        else if !obj.IntV? then Err(ClassCast)
        else
          var nested :- NestedExport(ctx, t, obj.i, indent, fuel);
          Ok((nested, nl + Head(p, i) + DecompiledRef(ctx.objectReference(obj.i))))
      case NameKind =>
        if obj.Null? then Err(NullPointer)
        else if !obj.IntV? then Err(ClassCast)
        else Ok(([], nl + Head(p, i) + ("'" + ctx.nameReference(obj.i) + "'")))
      case ArrayKind(inner) =>
        if obj.Null? then Err(NullPointer)
        else if !obj.ListV? then Err(ClassCast)
        else
          var lines :- ArrayLines(ctx, p.name, inner, obj.items, 0, indent, fuel);
          Ok((lines.0, nl + lines.1))
      case OtherKind => Ok(([], nl))
      case _ =>
        var v :- Slot(ctx, t, obj);
        Ok(([], nl + Head(p, i) + v))
  }

  /** The toT3d block a reference pulls in when needExport holds, else nothing. */
  function NestedExport(ctx: Context, t: Template, r: int, indent: nat, fuel: nat): Result<seq<string>>
    decreases fuel, 0, 0
  {
    var entry := ctx.objectReference(r);
    if !NeedExport(entry, t) then Ok([])
    else if fuel == 0 then Err(RecursionTooDeep)
    else
      var block :- ToT3d(ctx, entry.value.exported, indent, fuel - 1);
      Ok([block])
  }

  /** The line of array element j. */
  function ArrayLine(name: string, j: int, v: string): string
  {
    name + "(" + Decimal(j) + ")=" + v
  }

  /** Elements j.. of an array property: each element's export block, if any,
      and its `name(j)=value` line, lines after the first on a new line. */
  function ArrayLines(ctx: Context, name: string, inner: Template, xs: seq<Value>, j: nat, indent: nat, fuel: nat)
    : Result<(seq<string>, string)>
    decreases fuel, 0, |xs| - j
  {
    if j >= |xs| then Ok(([], ""))
    else
      var nested :-
        if !inner.kind.ObjectKind? then Ok([])
        else if xs[j].Null? then Err(NullPointer)
        else if !xs[j].IntV? then Err(ClassCast)
        else NestedExport(ctx, inner, xs[j].i, indent, fuel);
      var v :- Element(ctx, inner, xs[j]);
      var line := (if j > 0 then LineBreak(indent) else "") + ArrayLine(name, j, v);
      var rest :- ArrayLines(ctx, name, inner, xs, j + 1, indent, fuel);
      Ok((nested + rest.0, line + rest.1))
  }

  // Properties of the renderings.

  /** An empty struct inlines as "()". */
  lemma EmptyStruct(ctx: Context)
    ensures InlineStruct(ctx, []) == Ok("()")
  {
    assert InlineProps(ctx, []) == Ok([]);
    assert "(" + Join([], ",") + ")" == "()";
  }

  /** valueOnly only drops the names: it fails exactly when the named form
      does, and a single slot's named form is `name=` before the value. */
  lemma {:induction false} ValueOnlyDropsNames(ctx: Context, p: Prop, i: int)
    ensures Slots(ctx, p, i, false).Ok? <==> Slots(ctx, p, i, true).Ok?
    ensures p.template.arrayDimension == 1 && i == 0 && Slots(ctx, p, i, true).Ok? ==>
      Slots(ctx, p, i, false).value == p.name + "=" + Slots(ctx, p, i, true).value
    decreases p.template.arrayDimension - i
  {
    if i < p.template.arrayDimension {
      ValueOnlyDropsNames(ctx, p, i + 1);
    }
  }

  /** Struct slots that are null or empty are skipped: such a property adds
      no text and no nested object, only its (empty) block. */
  lemma {:induction false} EmptyStructsVanish(ctx: Context, p: Prop, i: int, indent: nat, fuel: nat)
    requires p.template.kind.StructKind?
    requires forall k :: 0 <= k < |p.values| ==> p.values[k].Null? || p.values[k] == StructV([])
    ensures PropertyBlocks(ctx, p, i, indent, fuel) == Ok(([], ""))
    decreases p.template.arrayDimension - i
  {
    if i < p.template.arrayDimension {
      EmptyStructsVanish(ctx, p, i + 1, indent, fuel);
      assert SlotBlocks(ctx, p, i, indent, fuel) == Ok(([], ""));
      var none: seq<string> := [];
      assert none + none == none && "" + "" == "";
    }
  }

  /** A reference to an export whose template is flagged pulls in its toT3d
      block just before the referencing line, and nothing is pulled in
      otherwise. */
  lemma ExportBeforeLine(ctx: Context, p: Prop, indent: nat, fuel: nat)
    requires p.template.kind.ObjectKind? && p.template.arrayDimension == 1
    requires |p.values| >= 1 && p.values[0].IntV?
    requires Blocks(ctx, [p], indent, fuel).Ok?
    ensures var blocks := Blocks(ctx, [p], indent, fuel).value;
      var entry := ctx.objectReference(p.values[0].i);
      && (|blocks| == 2 <==> NeedExport(entry, p.template))
      && (|blocks| == 1 <==> !NeedExport(entry, p.template))
      && blocks[|blocks| - 1] == p.name + "=" + DecompiledRef(entry)
      && (NeedExport(entry, p.template) ==>
            fuel > 0 && Ok(blocks[0]) == ToT3d(ctx, entry.value.exported, indent, fuel - 1))
  {
    var entry := ctx.objectReference(p.values[0].i);
    var here := SlotBlocks(ctx, p, 0, indent, fuel);
    var nested := NestedExport(ctx, p.template, p.values[0].i, indent, fuel);
    assert PropertyBlocks(ctx, p, 1, indent, fuel) == Ok(([], ""));
    assert Head(p, 0) == p.name + "=";
    assert here.Ok? && nested.Ok?;
    assert here.value == (nested.value, "" + Head(p, 0) + DecompiledRef(entry));
    assert here.value.1 + "" == here.value.1;
    assert here.value.0 + [] == here.value.0;
    assert PropertyBlocks(ctx, p, 0, indent, fuel) == Ok(here.value);
    assert Blocks(ctx, [p][1..], indent, fuel) == Ok([]);
    assert Blocks(ctx, [p], indent, fuel).value == nested.value + [here.value.1] + [];
    assert NeedExport(entry, p.template) ==> |nested.value| == 1;
    assert !NeedExport(entry, p.template) ==> nested.value == [];
  }

  /** The `name(j)=value` lines of an array, one per element. */
  function ElementLines(ctx: Context, name: string, inner: Template, xs: seq<Value>, j: nat): (r: Result<seq<string>>)
    decreases |xs| - j
  {
    if j >= |xs| then Ok([])
    else
      var v :- Element(ctx, inner, xs[j]);
      var rest :- ElementLines(ctx, name, inner, xs, j + 1);
      Ok([ArrayLine(name, j, v)] + rest)
  }

  /** An array property renders as one `name(j)=value` line per element,
      joined by newLine(indent). */
  lemma {:induction false} ArrayLinesJoin(ctx: Context, name: string, inner: Template, xs: seq<Value>, j: nat, indent: nat, fuel: nat)
    requires ArrayLines(ctx, name, inner, xs, j, indent, fuel).Ok?
    ensures ElementLines(ctx, name, inner, xs, j).Ok?
    ensures |ElementLines(ctx, name, inner, xs, j).value| == if j <= |xs| then |xs| - j else 0
    ensures ArrayLines(ctx, name, inner, xs, j, indent, fuel).value.1
         == (if 0 < j < |xs| then LineBreak(indent) else "") + Join(ElementLines(ctx, name, inner, xs, j).value, LineBreak(indent))
    decreases |xs| - j
  {
    if j < |xs| {
      ArrayLinesStep(ctx, name, inner, xs, j, indent, fuel);
      ArrayLinesJoin(ctx, name, inner, xs, j + 1, indent, fuel);
      var line := ArrayLine(name, j, Element(ctx, inner, xs[j]).value);
      var rest := ElementLines(ctx, name, inner, xs, j + 1).value;
      assert ElementLines(ctx, name, inner, xs, j).value == [line] + rest;
      JoinCons(line, rest, LineBreak(indent));
      var lead := if 0 < j then LineBreak(indent) else "";
      var sep := if rest == [] then "" else LineBreak(indent);
      var later := ArrayLines(ctx, name, inner, xs, j + 1, indent, fuel).value.1;
      assert later == sep + Join(rest, LineBreak(indent));
      assert ArrayLines(ctx, name, inner, xs, j, indent, fuel).value.1 == lead + line + later;
      Regroup3(lead, line, sep, Join(rest, LineBreak(indent)));
    }
  }

  lemma Regroup3(a: string, b: string, c: string, d: string)
    ensures a + b + (c + d) == a + (b + c + d)
  {
  }

  /** One element of ArrayLines: its line, then the later ones. */
  lemma ArrayLinesStep(ctx: Context, name: string, inner: Template, xs: seq<Value>, j: nat, indent: nat, fuel: nat)
    requires j < |xs| && ArrayLines(ctx, name, inner, xs, j, indent, fuel).Ok?
    ensures Element(ctx, inner, xs[j]).Ok? && ArrayLines(ctx, name, inner, xs, j + 1, indent, fuel).Ok?
    ensures ArrayLines(ctx, name, inner, xs, j, indent, fuel).value.1
         == (if j > 0 then LineBreak(indent) else "") + ArrayLine(name, j, Element(ctx, inner, xs[j]).value)
            + ArrayLines(ctx, name, inner, xs, j + 1, indent, fuel).value.1
  {
  }

  lemma JoinCons(first: string, rest: seq<string>, sep: string)
    ensures Join([first] + rest, sep) == first + (if rest == [] then "" else sep) + Join(rest, sep)
  {
    assert ([first] + rest)[1..] == rest;
  }

  // A name inside a struct or an array: the inline rendering prints the index.

  /** The NameProperty branch of inlineProperty as written: Objects.toString
      of the slot, which holds the name's Integer index. */
  function InlineNameAsWritten(v: Value): Result<string>
  {
    match v
    case Null => Ok("'null'")
    case IntV(i) => Ok("'" + Decimal(i) + "'")
    case _ => Err(ClassCast)
  }

  /** As written, a name member of a struct or array element shows its index
      where the top-level line shows the name: whenever the name is not the
      index's own digits, the two renderings differ. */
  lemma NameShownAsIndex(ctx: Context, i: int)
    requires ctx.nameReference(i) != Decimal(i)
    ensures InlineNameAsWritten(IntV(i)) == Ok("'" + Decimal(i) + "'")
    ensures InlineNameAsWritten(IntV(i)) != Slot(ctx, Template(NameKind, 1, false, false), IntV(i))
  {
    var shown := "'" + Decimal(i) + "'";
    var named := "'" + ctx.nameReference(i) + "'";
    assert shown[1..|shown| - 1] == Decimal(i);
    assert named[1..|named| - 1] == ctx.nameReference(i);
  }

  /** With the name resolved, a single-slot name property renders the same
      inline as on its own decompiled line. */
  lemma NameInlineAsDecompiled(ctx: Context, p: Prop, indent: nat, fuel: nat)
    requires p.template.kind.NameKind? && p.template.arrayDimension == 1
    requires |p.values| >= 1 && p.values[0].IntV?
    ensures var text := p.name + "='" + ctx.nameReference(p.values[0].i) + "'";
      InlineProperty(ctx, p, false) == Ok(text) && SlotBlocks(ctx, p, 0, indent, fuel) == Ok(([], text))
  {
    var name := ctx.nameReference(p.values[0].i);
    var quoted := "'" + name + "'";
    var text := p.name + "='" + name + "'";
    assert Head(p, 0) == p.name + "=";
    assert Slots(ctx, p, 1, false) == Ok("");
    assert Slot(ctx, p.template, p.values[0]) == Ok(quoted);
    assert SlotText(p, 0, false, quoted) == Head(p, 0) + quoted + "";
    assert Head(p, 0) + quoted + "" + "" == text;
    assert Slots(ctx, p, 0, false) == Ok(SlotText(p, 0, false, quoted) + "");
    assert SlotBlocks(ctx, p, 0, indent, fuel) == Ok(([], "" + Head(p, 0) + quoted));
    assert "" + Head(p, 0) + quoted == text;
  }

  // The StringBuilder loops.

  /** The text built so far, then the rest. */
  function ThenText(done: string, r: Result<string>): Result<string>
  {
    match r
    case Err(e) => Err(e)
    case Ok(more) => Ok(done + more)
  }

  lemma ThenTextMore(done: string, here: string, r: Result<string>)
    ensures ThenText(done, ThenText(here, r)) == ThenText(done + here, r)
  {
    if r.Ok? {
      assert done + (here + r.value) == (done + here) + r.value;
    }
  }

  /** inlineProperty's loop over the slots. */
  method InlinePropertyLoop(ctx: Context, p: Prop, valueOnly: bool) returns (r: Result<string>)
    ensures r == InlineProperty(ctx, p, valueOnly)
  {
    var dim := p.template.arrayDimension;
    var sb := "";
    var i := 0;
    assert ThenText("", Slots(ctx, p, 0, valueOnly)) == Slots(ctx, p, 0, valueOnly) by {
      if Slots(ctx, p, 0, valueOnly).Ok? {
        assert "" + Slots(ctx, p, 0, valueOnly).value == Slots(ctx, p, 0, valueOnly).value;
      }
    }
    while i < dim
      invariant 0 <= i
      invariant InlineProperty(ctx, p, valueOnly) == ThenText(sb, Slots(ctx, p, i, valueOnly))
      decreases dim - i
    {
      var v := if i < |p.values| then Slot(ctx, p.template, p.values[i]) else NullSlot(p.template);
      if v.Err? {
        return Err(v.error);
      }
      var text := SlotText(p, i, valueOnly, v.value);
      ThenTextMore(sb, text, Slots(ctx, p, i + 1, valueOnly));
      sb := sb + text;
      i := i + 1;
    }
    assert sb + "" == sb;
    return Ok(sb);
  }

  /** The nested blocks and the text so far, then the rest. */
  function ThenBlocks(done: (seq<string>, string), r: Result<(seq<string>, string)>): Result<(seq<string>, string)>
  {
    match r
    case Err(e) => Err(e)
    case Ok(more) => Ok((done.0 + more.0, done.1 + more.1))
  }

  lemma ThenBlocksMore(done: (seq<string>, string), here: (seq<string>, string), r: Result<(seq<string>, string)>)
    ensures ThenBlocks(done, ThenBlocks(here, r)) == ThenBlocks((done.0 + here.0, done.1 + here.1), r)
  {
    if r.Ok? {
      assert done.0 + (here.0 + r.value.0) == (done.0 + here.0) + r.value.0;
      assert done.1 + (here.1 + r.value.1) == (done.1 + here.1) + r.value.1;
    }
  }

  lemma ThenBlocksNothing(r: Result<(seq<string>, string)>)
    ensures ThenBlocks(([], ""), r) == r
  {
    if r.Ok? {
      assert [] + r.value.0 == r.value.0;
      assert "" + r.value.1 == r.value.1;
    }
  }

  /** decompileProperties' loop over the array's elements. */
  method ArrayLinesLoop(ctx: Context, name: string, inner: Template, xs: seq<Value>, indent: nat, fuel: nat)
    returns (r: Result<(seq<string>, string)>)
    ensures r == ArrayLines(ctx, name, inner, xs, 0, indent, fuel)
  {
    var nested: seq<string> := [];
    var sb := "";
    var j := 0;
    ThenBlocksNothing(ArrayLines(ctx, name, inner, xs, 0, indent, fuel));
    while j < |xs|
      invariant j <= |xs|
      invariant ArrayLines(ctx, name, inner, xs, 0, indent, fuel)
             == ThenBlocks((nested, sb), ArrayLines(ctx, name, inner, xs, j, indent, fuel))
    {
      var exported: Result<seq<string>> := Ok([]);
      if inner.kind.ObjectKind? {
        if xs[j].Null? {
          return Err(NullPointer);
        } else if !xs[j].IntV? {
          return Err(ClassCast);
        }
        exported := NestedExport(ctx, inner, xs[j].i, indent, fuel);
        if exported.Err? {
          return Err(exported.error);
        }
      }
      var v := Element(ctx, inner, xs[j]);
      if v.Err? {
        return Err(v.error);
      }
      var line := (if j > 0 then LineBreak(indent) else "") + ArrayLine(name, j, v.value);
      ThenBlocksMore((nested, sb), (exported.value, line), ArrayLines(ctx, name, inner, xs, j + 1, indent, fuel));
      nested := nested + exported.value;
      sb := sb + line;
      j := j + 1;
    }
    assert nested + [] == nested && sb + "" == sb;
    return Ok((nested, sb));
  }

  /** The builder's blocks so far, then the rest. */
  function ThenSeq(done: seq<string>, r: Result<seq<string>>): Result<seq<string>>
  {
    match r
    case Err(e) => Err(e)
    case Ok(more) => Ok(done + more)
  }

  /** The body of decompileProperties' forEach for one property: the loop
      over its slots, with the exported objects met on the way and the text. */
  method PropertyLoop(ctx: Context, p: Prop, indent: nat, fuel: nat) returns (r: Result<(seq<string>, string)>)
    ensures r == PropertyBlocks(ctx, p, 0, indent, fuel)
  {
    var nested: seq<string> := [];
    var sb := "";
    var i := 0;
    ThenBlocksNothing(PropertyBlocks(ctx, p, 0, indent, fuel));
    while i < p.template.arrayDimension
      invariant 0 <= i
      invariant PropertyBlocks(ctx, p, 0, indent, fuel) == ThenBlocks((nested, sb), PropertyBlocks(ctx, p, i, indent, fuel))
      decreases p.template.arrayDimension - i
    {
      var here := SlotBlocks(ctx, p, i, indent, fuel);
      if here.Err? {
        return Err(here.error);
      }
      ThenBlocksMore((nested, sb), here.value, PropertyBlocks(ctx, p, i + 1, indent, fuel));
      nested := nested + here.value.0;
      sb := sb + here.value.1;
      i := i + 1;
    }
    assert nested + [] == nested && sb + "" == sb;
    return Ok((nested, sb));
  }

  /** decompileProperties as the source runs it: per property a loop over the
      slots that pushes exported objects into the builder as it meets them,
      then the property's own text. */
  method DecompilePropertiesLoop(ctx: Context, e: ExportData, indent: nat, fuel: nat) returns (r: Result<string>)
    ensures r == DecompileProperties(ctx, e, indent, fuel)
  {
    var props := ctx.removeDefaults(ctx.properties(e), DefaultsClass(e));
    var blocks := BlocksLoop(PropertyBlock(ctx, indent, fuel), ctx, props, indent, fuel);
    BlocksAreGathered(ctx, props, indent, fuel);
    if blocks.Err? {
      return Err(blocks.error);
    }
    return Ok(Join(blocks.value, LineBreak(indent)));
  }

  /** The builder's contents, with the per-property step left as a parameter. */
  function Gather(block: Prop -> Result<(seq<string>, string)>, props: seq<Prop>): Result<seq<string>>
  {
    if props == [] then Ok([])
    else
      var b :- block(props[0]);
      var rest :- Gather(block, props[1..]);
      Ok(b.0 + [b.1] + rest)
  }

  /** The body of the forEach over the properties, as a function of the property. */
  function PropertyBlock(ctx: Context, indent: nat, fuel: nat): Prop -> Result<(seq<string>, string)>
  {
    p => PropertyBlocks(ctx, p, 0, indent, fuel)
  }

  lemma {:induction false} BlocksAreGathered(ctx: Context, props: seq<Prop>, indent: nat, fuel: nat)
    ensures Blocks(ctx, props, indent, fuel) == Gather(PropertyBlock(ctx, indent, fuel), props)
    decreases |props|
  {
    if props != [] {
      BlocksAreGathered(ctx, props[1..], indent, fuel);
    }
  }

  /** The forEach over the properties: each property's exported objects, then
      its text, pushed in property order. */
  method BlocksLoop(ghost block: Prop -> Result<(seq<string>, string)>, ctx: Context, props: seq<Prop>, indent: nat, fuel: nat)
    returns (r: Result<seq<string>>)
    requires forall p {:trigger PropertyBlocks(ctx, p, 0, indent, fuel)} :: block(p) == PropertyBlocks(ctx, p, 0, indent, fuel)
    ensures r == Gather(block, props)
  {
    ghost var total := Gather(block, props);
    var properties: seq<string> := [];
    var k := 0;
    GatherNothing(total);
    assert props[0..] == props;
    while k < |props|
      invariant k <= |props|
      invariant total == ThenSeq(properties, Gather(block, props[k..]))
    {
      var b := PropertyLoop(ctx, props[k], indent, fuel);
      GatherStep(total, block, props, k, properties, b);
      if b.Err? {
        return Err(b.error);
      }
      properties := properties + b.value.0 + [b.value.1];
      k := k + 1;
    }
    GatherDone(total, block, props, k, properties);
    return Ok(properties);
  }

  lemma GatherNothing(r: Result<seq<string>>)
    ensures ThenSeq([], r) == r
  {
    if r.Ok? {
      assert [] + r.value == r.value;
    }
  }

  /** One property further: its blocks join the builder's contents. */
  lemma GatherStep(total: Result<seq<string>>, block: Prop -> Result<(seq<string>, string)>, props: seq<Prop>, k: nat,
                   properties: seq<string>, b: Result<(seq<string>, string)>)
    requires k < |props| && total == ThenSeq(properties, Gather(block, props[k..]))
    requires b == block(props[k])
    ensures b.Err? ==> total == Err(b.error)
    ensures b.Ok? ==> total == ThenSeq(properties + b.value.0 + [b.value.1], Gather(block, props[k + 1..]))
  {
    assert props[k..][0] == props[k] && props[k..][1..] == props[k + 1..];
    var rest := Gather(block, props[k + 1..]);
    if b.Ok? && rest.Ok? {
      assert properties + (b.value.0 + [b.value.1] + rest.value) == (properties + b.value.0 + [b.value.1]) + rest.value;
    }
  }

  lemma GatherDone(total: Result<seq<string>>, block: Prop -> Result<(seq<string>, string)>, props: seq<Prop>, k: nat,
                   properties: seq<string>)
    requires k == |props| && total == ThenSeq(properties, Gather(block, props[k..]))
    ensures total == Ok(properties)
  {
    assert props[k..] == [];
    assert properties + [] == properties;
  }
}
