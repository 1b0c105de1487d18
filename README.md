# L2pe static-mesh actor core, modelled in Dafny

L2pe is a map editor for the Lineage II client's Unreal packages. This project
models the part of it that works directly on the serialized bytes of a
`StaticMeshActor` export:

- the Unreal Engine 2 tagged-property stream: the compact index, the property
  header byte and its size classes, the state frame in front of an actor's
  properties, and the property iterator that hands each property's payload to
  a callback (`view/helpers/Util.java`);
- `Offsets`, the mutable record of where each tracked property's payload
  starts in an actor blob (`view/model/Offsets.java`), and how `getOffsets`
  fills it;
- the getters and setters of `StaticMeshActorUtil`: the static mesh
  reference, Location, Rotation, RotationRate, DrawScale, DrawScale3D and
  ZoneRenderState, including the two setters that resize the blob;
- `createActor`, which builds a new actor blob from scratch, and `sm`, which
  numbers a new export;
- the material pass of `StaticMesh.readStaticMesh`;
- the `Decompiler`, which renders an object's properties as T3D text.

Byte arrays the source mutates in place are Dafny `array<Byte>` values. The
`Offsets` object and the `ByteBuffer` that `createActor` fills are classes.
Each method is proved equal to a pure function over
`seq<Byte>`, and the lemmas state what the source promises about those
functions: round trips, read-after-write, frame conditions and error cases.
Java's 32-bit `int` arithmetic is written out where it can wrap (`Wrap32`),
and exceptions are the `Err` cases of a `Result`.

The package (name table, import/export tables, object references) is not
modelled. Its lookups are parameters: a name table `names: seq<string>`, a
`resolve`/`objectReference` function, and the `Lookups` and `Context` records.

When `setStaticMesh` changes the width of the mesh reference, it moves
exactly location, rotation, swayRotationOrig and colLocation
(StaticMeshActorUtil.java:135-147), whether or not they lie after the mesh.
basePos, baseRot, drawScale, drawScale3D, rotationRate and zoneRenderState
keep their old values, even when they lie after the mesh
(`ActorResize.Shifted`). `LocationSurvivesResize` and `RotationSurvivesResize`
show that the two getters still read the same values when their offsets lie
after the mesh. `BasePosLeftBehind` shows the other side: the bytes behind the
mesh move, but basePos still names their old position.

## Model

| member | source | states |
|---|---|---|
| JavaLib.Wrap32 | src/main/java/acmi/l2/clientmod/l2pe/view/helpers/StaticMeshActorUtil.java:316-318 | Java int arithmetic leaves every result already inside the 32-bit range unchanged, and every result differs from the exact value by a multiple of 2^32 |
| JavaLib.BitsOf | src/main/java/acmi/l2/clientmod/l2pe/view/helpers/StaticMeshActorUtil.java:298-299 | the 32-bit pattern `putInt` writes for an int reads back as that same signed int |
| JavaLib.Put | src/main/java/acmi/l2/clientmod/l2pe/view/helpers/StaticMeshActorUtil.java:309-311 | a positioned `ByteBuffer.put` keeps the length, places the bytes at the position, and leaves every other byte unchanged |
| JavaLib.LE32RoundTrip | src/main/java/acmi/l2/clientmod/l2pe/view/helpers/StaticMeshActorUtil.java:296-299 | a little-endian int written with `putInt` is read back by `getInt` at the same position |
| JavaLib.LE32sSnoc | src/main/java/acmi/l2/clientmod/l2pe/view/helpers/StaticMeshActorUtil.java:298-299 | writing one more int appends exactly its four bytes to the run already written |
| JavaLib.LE32sAt | src/main/java/acmi/l2/clientmod/l2pe/view/helpers/StaticMeshActorUtil.java:279-289 | in a run of little-endian ints, the k-th int is read back at offset 4k |
| JavaText.Digits | src/main/java/acmi/l2/clientmod/l2pe/view/model/Offsets.java:48 | decimal text of a non-negative int is non-empty, all digits, and has no leading zero |
| JavaText.DigitsRoundTrip | src/main/java/acmi/l2/clientmod/l2pe/view/model/Offsets.java:48 | the decimal text of n denotes n |
| JavaText.DecimalRoundTrip | src/main/java/acmi/l2/clientmod/l2pe/view/model/Offsets.java:58 | `Integer.toString` is the digits of the value, behind a '-' exactly when the value is negative |
| JavaText.ParseDigits | src/main/java/acmi/l2/clientmod/l2pe/view/helpers/StaticMeshActorUtil.java:589 | `Integer.parseInt` of a digit string gives its value, and throws NumberFormatException exactly when the value exceeds Integer.MAX_VALUE |
| JavaText.HexDigitsRoundTrip | src/main/java/acmi/l2/clientmod/l2pe/view/model/Offsets.java:47 | the hexadecimal text of n denotes n |
| JavaText.ToHexString | src/main/java/acmi/l2/clientmod/l2pe/view/model/Offsets.java:47 | `Integer.toHexString` gives hex digits denoting the unsigned 32-bit pattern of the int |
| Compact.Encode | src/main/java/acmi/l2/clientmod/l2pe/view/helpers/StaticMeshActorUtil.java:324 | a compact index takes between one and five bytes |
| Compact.Decode | src/main/java/acmi/l2/clientmod/l2pe/view/helpers/Util.java:105 | `getCompactInt` advances by one to five bytes inside the buffer, and fails only with BufferUnderflowException |
| Compact.DecodeRange | src/main/java/acmi/l2/clientmod/l2pe/view/helpers/Util.java:105 | every value `getCompactInt` returns is a 32-bit int |
| Compact.SkipAgrees | src/main/java/acmi/l2/clientmod/l2pe/view/helpers/Util.java:105-109 | skipping a compact index fails exactly when decoding it fails, and ends where decoding ends |
| Compact.RoundTrip | src/main/java/acmi/l2/clientmod/l2pe/view/helpers/StaticMeshActorUtil.java:120-125 | decoding the bytes `compactIntToByteArray` wrote gives back the value and ends right after them |
| Compact.SkipRoundTrip | src/main/java/acmi/l2/clientmod/l2pe/view/helpers/Util.java:105-109 | skipping an encoded index ends right after its bytes |
| Compact.Width | src/main/java/acmi/l2/clientmod/l2pe/view/helpers/StaticMeshActorUtil.java:116-118 | a compact index is one byte iff its magnitude is below 64, two bytes iff it is in 64..8191, and longer otherwise |
| SizeCodec.PayloadSize | src/main/java/acmi/l2/clientmod/l2pe/view/helpers/StaticMeshActorUtil.java:94-114 | `getSize`: classes 0-4 are the fixed sizes 1, 2, 4, 12 and 16 and read nothing; classes 5-7 read a 1-, 2- or 4-byte size; any other class is "invalid size" |
| SizeCodec.SizeRoundTrip | src/main/java/acmi/l2/clientmod/l2pe/view/helpers/StaticMeshActorUtil.java:106-111 | a size written in the form its class prescribes is read back by `getSize`, which ends right after the size bytes |
| PropertyScanner.DecodeHeader | src/main/java/acmi/l2/clientmod/l2pe/view/helpers/Util.java:115-118 | the type, size class and array flag split from the info byte are valid and put back together give that byte |
| PropertyScanner.HeaderRoundTrip | src/main/java/acmi/l2/clientmod/l2pe/view/helpers/Util.java:115-118 | splitting a header byte built from a type, size class and array flag recovers all three |
| PropertyScanner.ReadName | src/main/java/acmi/l2/clientmod/l2pe/view/helpers/Util.java:114 | reading a property name consumes at least one byte and stays inside the buffer |
| PropertyScanner.SkipStateFrame | src/main/java/acmi/l2/clientmod/l2pe/view/helpers/Util.java:104-110 | `readStateFrame` consumes at least 15 bytes and stays inside the buffer |
| PropertyScanner.StateFrameRoundTrip | src/main/java/acmi/l2/clientmod/l2pe/view/helpers/Util.java:104-110 | `readStateFrame` on a frame of three compact indices around a long and an int ends exactly after the frame |
| PropertyScanner.ScanRecord | src/main/java/acmi/l2/clientmod/l2pe/view/helpers/Util.java:113-132 | one iteration either stops at a "None" name, or delivers a property that is not "None" whose payload is exactly the bytes between its start offset and the next property |
| PropertyScanner.StopsAtNone | src/main/java/acmi/l2/clientmod/l2pe/view/helpers/Util.java:114 | the loop stops exactly when the name it reads is "None" |
| PropertyScanner.ScanProperties | src/main/java/acmi/l2/clientmod/l2pe/view/helpers/Util.java:112-134 | a successful iteration ends strictly after its start and inside the buffer |
| PropertyScanner.ScanEndsAtNone | src/main/java/acmi/l2/clientmod/l2pe/view/helpers/Util.java:114 | a successful iteration ends right after a "None" name that follows the last delivered property |
| PropertyScanner.ScanDelivers | src/main/java/acmi/l2/clientmod/l2pe/view/helpers/Util.java:128-132 | every delivered payload is the buffer slice at its reported offset, and the properties arrive in blob order without overlapping |
| PropertyScanner.IterateProperties | src/main/java/acmi/l2/clientmod/l2pe/view/helpers/Util.java:112-134 | the while loop delivers exactly the properties, offsets and end of the recursive `ScanProperties`, or the same exception |
| PropertyScanner.RecordRoundTrip | src/main/java/acmi/l2/clientmod/l2pe/view/helpers/Util.java:113-132 | an encoded property (name, header, optional struct name, size, optional array byte, payload) is read back with its name, payload and payload offset |
| PropertyScanner.ScanRoundTrip | src/main/java/acmi/l2/clientmod/l2pe/view/helpers/Util.java:112-134 | an encoded property list ending in "None" yields exactly its properties, in order, and ends after the terminator |
| PropertyScanner.Tabs | src/main/java/acmi/l2/clientmod/l2pe/view/helpers/Util.java:164-169 | a non-negative indentation is exactly that many tab characters |
| PropertyScanner.Tab | src/main/java/acmi/l2/clientmod/l2pe/view/helpers/Util.java:164-169 | `tab` throws NegativeArraySizeException for a negative indent, the capacity of its StringBuilder; otherwise the appending loop builds exactly indent tab characters |
| PropertyScanner.NewLine | src/main/java/acmi/l2/clientmod/l2pe/view/helpers/Util.java:171-175 | `newLine` throws NegativeArraySizeException exactly when the indent is negative; otherwise it is CR LF followed by indent tab characters |
| PropertyScanner.NewLineNoIndent | src/main/java/acmi/l2/clientmod/l2pe/view/helpers/Util.java:177-179 | `newLine()` never throws and is a bare CR LF |
| PropertyScanner.LineBreak | src/main/java/acmi/l2/clientmod/l2pe/Decompiler.java:294-305 | the Decompiler's own `newLine`, at the non-negative indentations it is called with, is CR LF followed by that many tab characters |
| ActorOffsets.Offsets.constructor | src/main/java/acmi/l2/clientmod/l2pe/view/model/Offsets.java:24-42 | a new Offsets has every field 0: every property absent |
| ActorOffsets.Offsets.Clone | src/main/java/acmi/l2/clientmod/l2pe/view/model/Offsets.java:62-69 | `clone` returns a new object with the same thirteen field values |
| ActorOffsets.Entries | src/main/java/acmi/l2/clientmod/l2pe/view/model/Offsets.java:44-60 | `toString` lists twelve fields |
| ActorOffsets.Offsets.ToString | src/main/java/acmi/l2/clientmod/l2pe/view/model/Offsets.java:44-60 | `toString` is framed by "Offsets{" and "}" |
| ActorOffsets.DrawScale3DNotListed | src/main/java/acmi/l2/clientmod/l2pe/view/model/Offsets.java:46-59 | drawScale3D is not among the fields `toString` lists |
| ActorOffsets.RenderIgnoresDrawScale3D | src/main/java/acmi/l2/clientmod/l2pe/view/model/Offsets.java:44-60 | the text does not depend on drawScale3D |
| ActorOffsets.HexTextValue | src/main/java/acmi/l2/clientmod/l2pe/view/model/Offsets.java:47 | an offset field prints as "0x" and hex digits denoting its unsigned 32-bit pattern |
| ActorOffsets.DecimalTextValue | src/main/java/acmi/l2/clientmod/l2pe/view/model/Offsets.java:48 | meshSize and zoneRenderStateCount print in signed decimal |
| ActorOffsets.TextInjective | src/main/java/acmi/l2/clientmod/l2pe/view/model/Offsets.java:44-60 | no two values of a field print the same |
| ActorOffsets.EntriesDetermineTable | src/main/java/acmi/l2/clientmod/l2pe/view/model/Offsets.java:44-60 | two Offsets with the same text agree on every field but drawScale3D |
| ActorScan.SlotMeaning | src/main/java/acmi/l2/clientmod/l2pe/view/helpers/StaticMeshActorUtil.java:53-89 | the switch picks the case whose label equals the property name exactly, and no case for any other name |
| ActorScan.Visit | src/main/java/acmi/l2/clientmod/l2pe/view/helpers/StaticMeshActorUtil.java:52-90 | a callback fails exactly for a ZoneRenderState payload whose count cannot be decoded |
| ActorScan.VisitSetsOffset | src/main/java/acmi/l2/clientmod/l2pe/view/helpers/StaticMeshActorUtil.java:53-89 | a callback sets the offset of the matched field to the payload offset, and no other offset changes |
| ActorScan.VisitSetsCounts | src/main/java/acmi/l2/clientmod/l2pe/view/helpers/StaticMeshActorUtil.java:55-56 | StaticMesh sets meshSize to the payload length and ZoneRenderState sets zoneRenderStateCount to the decoded count; other properties leave both alone |
| ActorScan.LastWithIsLast | src/main/java/acmi/l2/clientmod/l2pe/view/helpers/StaticMeshActorUtil.java:52-90 | the record that decides a field is the last one with that name, and none exists exactly when no record has the name |
| ActorScan.FoldFields | src/main/java/acmi/l2/clientmod/l2pe/view/helpers/StaticMeshActorUtil.java:52-90 | after all callbacks, each offset is that of the last property with its name (later duplicates win), or unchanged when there is none |
| ActorScan.CollectIsFold | src/main/java/acmi/l2/clientmod/l2pe/view/helpers/StaticMeshActorUtil.java:52-90 | running the callbacks during the iteration gives the same result as folding them over the delivered properties afterwards |
| ActorScan.OffsetsOf | src/main/java/acmi/l2/clientmod/l2pe/view/helpers/StaticMeshActorUtil.java:47-92 | `getOffsets` succeeds only when the state frame and the property list read; then each tracked offset is that of the last property with its name, or 0 when there is none; meshSize is the payload length of the last StaticMesh property, and zoneRenderStateCount the compact count at the start of the last ZoneRenderState payload (0 when absent or unreadable) |
| ActorScan.OnProperty | src/main/java/acmi/l2/clientmod/l2pe/view/helpers/StaticMeshActorUtil.java:53-89 | the in-place callback updates the Offsets object to what the pure callback `Visit` gives; on failure only zoneRenderState has been written |
| ActorScan.GetOffsets | src/main/java/acmi/l2/clientmod/l2pe/view/helpers/StaticMeshActorUtil.java:47-92 | `getOffsets` returns a new Offsets holding the fold over the properties after the state frame, or the exception `OffsetsOf` gives |
| ActorFields.ReadWords | src/main/java/acmi/l2/clientmod/l2pe/view/helpers/StaticMeshActorUtil.java:156-164 | reading n ints succeeds exactly when the position is valid and the n ints fit in the blob, and then gives n words |
| ActorFields.GetStaticMesh | src/main/java/acmi/l2/clientmod/l2pe/view/helpers/StaticMeshActorUtil.java:120-125 | an absent mesh offset reads as reference 0 |
| ActorFields.GetLocation | src/main/java/acmi/l2/clientmod/l2pe/view/helpers/StaticMeshActorUtil.java:156-164 | null when location and colLocation are both absent; otherwise three little-endian floats read at location, or at colLocation when location is absent, succeeding exactly when the position is valid and all twelve bytes lie in the blob |
| ActorFields.GetRotation | src/main/java/acmi/l2/clientmod/l2pe/view/helpers/StaticMeshActorUtil.java:189-197 | the same over rotation with swayRotationOrig as fallback, the words read as signed ints |
| ActorFields.GetRotationRate | src/main/java/acmi/l2/clientmod/l2pe/view/helpers/StaticMeshActorUtil.java:222-230 | null when rotationRate is absent; otherwise the three ints at its offset, succeeding exactly when they lie in the blob |
| ActorFields.GetDrawScale | src/main/java/acmi/l2/clientmod/l2pe/view/helpers/StaticMeshActorUtil.java:243-249 | null when drawScale is absent; otherwise the float at its offset, and IndexOutOfBoundsException exactly when its four bytes are not all in the blob |
| ActorFields.GetDrawScale3D | src/main/java/acmi/l2/clientmod/l2pe/view/helpers/StaticMeshActorUtil.java:259-266 | null when drawScale3D is absent; otherwise the three floats at its offset, succeeding exactly when they lie in the blob |
| ActorFields.PutFromFits | src/main/java/acmi/l2/clientmod/l2pe/view/helpers/StaticMeshActorUtil.java:166-187 | ints that fit are written as their little-endian bytes at the offset, and nothing else changes |
| ActorFields.ReadWhatWasPut | src/main/java/acmi/l2/clientmod/l2pe/view/helpers/StaticMeshActorUtil.java:156-164 | reading ints back where they were written gives those ints |
| ActorFields.GroupsReadBack | src/main/java/acmi/l2/clientmod/l2pe/view/helpers/StaticMeshActorUtil.java:166-187 | after a setter writes the same values at several non-overlapping offsets, each present offset reads back those values |
| ActorFields.GroupsFrame | src/main/java/acmi/l2/clientmod/l2pe/view/helpers/StaticMeshActorUtil.java:166-187 | a setter changes no byte outside the groups it writes |
| ActorFields.GroupsAbsent | src/main/java/acmi/l2/clientmod/l2pe/view/helpers/StaticMeshActorUtil.java:168-186 | a setter whose offsets are all absent changes nothing and succeeds |
| ActorFields.SetLocation | src/main/java/acmi/l2/clientmod/l2pe/view/helpers/StaticMeshActorUtil.java:166-187 | the blob after `setLocation` is x, y, z written at location, colLocation and basePos in turn (absent ones skipped), including the bytes already written when a later group overflows |
| ActorFields.SetRotation | src/main/java/acmi/l2/clientmod/l2pe/view/helpers/StaticMeshActorUtil.java:199-220 | the same for pitch, yaw and roll at rotation, swayRotationOrig and baseRot |
| ActorFields.SetRotationRate | src/main/java/acmi/l2/clientmod/l2pe/view/helpers/StaticMeshActorUtil.java:232-241 | the same for the one rotationRate group |
| ActorFields.SetDrawScale3D | src/main/java/acmi/l2/clientmod/l2pe/view/helpers/StaticMeshActorUtil.java:268-277 | the same for the one drawScale3D group |
| ActorFields.SetDrawScale | src/main/java/acmi/l2/clientmod/l2pe/view/helpers/StaticMeshActorUtil.java:251-257 | an absent drawScale changes nothing; otherwise it is an absolute `putFloat` at the offset, which fails out of bounds without writing |
| ActorFields.LocationAfterSet | src/main/java/acmi/l2/clientmod/l2pe/view/helpers/StaticMeshActorUtil.java:156-187 | `getLocation` after `setLocation` returns the values set, or null when both location and colLocation are absent |
| ActorFields.RotationAfterSet | src/main/java/acmi/l2/clientmod/l2pe/view/helpers/StaticMeshActorUtil.java:189-220 | `getRotation` after `setRotation` returns the values set, or null when both rotation and swayRotationOrig are absent |
| ActorFields.RotationRateAfterSet | src/main/java/acmi/l2/clientmod/l2pe/view/helpers/StaticMeshActorUtil.java:222-241 | `getRotationRate` after `setRotationRate` returns the values set, or null when absent |
| ActorFields.DrawScale3DAfterSet | src/main/java/acmi/l2/clientmod/l2pe/view/helpers/StaticMeshActorUtil.java:259-277 | `getDrawScale3D` after `setDrawScale3D` returns the values set, or null when absent |
| ActorFields.DrawScaleAfterSet | src/main/java/acmi/l2/clientmod/l2pe/view/helpers/StaticMeshActorUtil.java:243-257 | `getDrawScale` after `setDrawScale` returns the value set; out of bounds, both throw IndexOutOfBoundsException |
| ActorFields.ZoneStates | src/main/java/acmi/l2/clientmod/l2pe/view/helpers/StaticMeshActorUtil.java:279-289 | an absent ZoneRenderState reads as null, and states are only read when it is present |
| ActorFields.GetZoneRenderState | src/main/java/acmi/l2/clientmod/l2pe/view/helpers/StaticMeshActorUtil.java:279-289 | `getZoneRenderState` returns null, a new array of the states, or the exception `ZoneStates` gives |
| ActorResize.ByteCount | src/main/java/acmi/l2/clientmod/l2pe/view/helpers/StaticMeshActorUtil.java:116-118 | `getByteCount` is 1 or 2 |
| ActorResize.ByteCountWidth | src/main/java/acmi/l2/clientmod/l2pe/view/helpers/StaticMeshActorUtil.java:116-118 | `getByteCount` is the width of the compact index exactly when the magnitude is below 8192 |
| ActorResize.MeshHeaderDescribes | src/main/java/acmi/l2/clientmod/l2pe/view/helpers/StaticMeshActorUtil.java:132 | the header byte written for a resized mesh says "object, fixed size" with a size class whose width is the new reference's width |
| ActorResize.MeshResized | src/main/java/acmi/l2/clientmod/l2pe/view/helpers/StaticMeshActorUtil.java:128-134 | the resized blob keeps the bytes before the header, holds the new header and then the new reference at the mesh offset, and moves every byte after the old reference by the change in width |
| ActorResize.Shifted | src/main/java/acmi/l2/clientmod/l2pe/view/helpers/StaticMeshActorUtil.java:135-147 | meshSize becomes the new width; location, rotation, swayRotationOrig and colLocation stay 0 when absent and otherwise move by the change in width (modulo 2^32); every other offset is unchanged |
| ActorResize.SetStaticMesh | src/main/java/acmi/l2/clientmod/l2pe/view/helpers/StaticMeshActorUtil.java:127-154 | same width: the reference is overwritten in place and the offsets are unchanged; new width: a new blob with the new header and reference spliced in, the old blob untouched, and four offsets shifted |
| ActorResize.MoveOffsets | src/main/java/acmi/l2/clientmod/l2pe/view/helpers/StaticMeshActorUtil.java:135-147 | the Offsets object afterwards is the shifted table: the four present offsets move by the change in width, and meshSize becomes the new width |
| ActorResize.MeshAfterSet | src/main/java/acmi/l2/clientmod/l2pe/view/helpers/StaticMeshActorUtil.java:120-154 | `getStaticMesh` after `setStaticMesh` returns the reference set, in both branches |
| ActorResize.LocationSurvivesResize | src/main/java/acmi/l2/clientmod/l2pe/view/helpers/StaticMeshActorUtil.java:135-147 | when location and colLocation lie after the mesh, `getLocation` reads the same values after a resize as before |
| ActorResize.RotationSurvivesResize | src/main/java/acmi/l2/clientmod/l2pe/view/helpers/StaticMeshActorUtil.java:135-147 | when rotation and swayRotationOrig lie after the mesh, `getRotation` reads the same values after a resize as before |
| ActorResize.BasePosLeftBehind | src/main/java/acmi/l2/clientmod/l2pe/view/helpers/StaticMeshActorUtil.java:128-147 | when the mesh changes width and basePos lies after it, the six offsets the method does not touch keep their values, while the 12 bytes basePos named now start the width change (never 0) later in the new blob |
| ActorResize.EncodeStates | src/main/java/acmi/l2/clientmod/l2pe/view/helpers/StaticMeshActorUtil.java:295-299 | the temporary array has exactly `getIntArraySizeByCount(count)` bytes |
| ActorResize.IntArraySizeByCount | src/main/java/acmi/l2/clientmod/l2pe/view/helpers/StaticMeshActorUtil.java:316-318 | for fewer than 8192 states the reserved size is the compact count's width plus four bytes per state |
| ActorResize.EncodeStatesOk | src/main/java/acmi/l2/clientmod/l2pe/view/helpers/StaticMeshActorUtil.java:295-299 | the temporary array can be filled exactly when there are fewer than 8192 states, and then holds 4 bytes per state after a 1-byte (up to 63) or 2-byte count |
| ActorResize.ZoneSizeByteWraps | src/main/java/acmi/l2/clientmod/l2pe/view/helpers/StaticMeshActorUtil.java:304 | as written, 64 states give a 258-byte array whose size byte says 2 |
| ActorResize.ZoneWrittenAsIs | src/main/java/acmi/l2/clientmod/l2pe/view/helpers/StaticMeshActorUtil.java:291-314 | as written, an absent ZoneRenderState leaves the blob as it is, an unchanged count keeps the length, and the only exceptions are BufferOverflowException and NegativeArraySizeException |
| ActorResize.ZoneWritten | src/main/java/acmi/l2/clientmod/l2pe/view/helpers/StaticMeshActorUtil.java:301-307 | corrected, the write gives the as-written blob whenever it succeeds, and refuses (IllegalArgument) only a new count of 64 or more states whose array cannot be described by one size byte |
| ActorResize.ZoneArrayAt | src/main/java/acmi/l2/clientmod/l2pe/view/helpers/StaticMeshActorUtil.java:301-313 | in both branches, the encoded states sit at the zoneRenderState offset of the result |
| ActorResize.ZoneReadBack | src/main/java/acmi/l2/clientmod/l2pe/view/helpers/StaticMeshActorUtil.java:279-314 | `getZoneRenderState` after `setZoneRenderState` returns the states set |
| ActorResize.ZoneSizeByte | src/main/java/acmi/l2/clientmod/l2pe/view/helpers/StaticMeshActorUtil.java:301-307 | with a new count, the blob grows or shrinks by the change in array size, the bytes before the size byte are kept, and the size byte describes the new array |
| ActorResize.BuildStates | src/main/java/acmi/l2/clientmod/l2pe/view/helpers/StaticMeshActorUtil.java:295-299 | the filling loop builds exactly `EncodeStates(states)`, the compact count followed by the little-endian states, or fails with the same exception |
| ActorResize.SetZoneRenderState | src/main/java/acmi/l2/clientmod/l2pe/view/helpers/StaticMeshActorUtil.java:291-314 | the method performs the corrected write `ZoneWritten` of the first Findings row: it refuses with IllegalArgumentException, leaving the blob untouched, a new count of 64 or more states on the resizing branch, where the source writes a truncated size byte; otherwise it returns the same array, written in place, when the count is unchanged or ZoneRenderState is absent, and a new array, with the old one untouched, when the count changes |
| ActorResize.PutBytes | src/main/java/acmi/l2/clientmod/l2pe/view/helpers/StaticMeshActorUtil.java:309-311 | copying bytes in at a position is the positioned put |
| ActorBuilder.ByteBuffer.Allocate | src/main/java/acmi/l2/clientmod/l2pe/view/helpers/StaticMeshActorUtil.java:322 | `allocate(0x100)` gives an empty buffer of that capacity |
| ActorBuilder.ByteBuffer.Put | src/main/java/acmi/l2/clientmod/l2pe/view/helpers/StaticMeshActorUtil.java:324-325 | a relative put appends the bytes to what was written and advances the position |
| ActorBuilder.ByteBuffer.Contents | src/main/java/acmi/l2/clientmod/l2pe/view/helpers/StaticMeshActorUtil.java:433-436 | `flip` then `get` copies out exactly the bytes written |
| ActorBuilder.ObjectSection | src/main/java/acmi/l2/clientmod/l2pe/view/helpers/StaticMeshActorUtil.java:333-376 | the object records take at most 73 bytes |
| ActorBuilder.PlacementSection | src/main/java/acmi/l2/clientmod/l2pe/view/helpers/StaticMeshActorUtil.java:380-430 | the placement records take at most 155 bytes |
| ActorBuilder.ActorFits | src/main/java/acmi/l2/clientmod/l2pe/view/helpers/StaticMeshActorUtil.java:322 | whatever the references, the actor fits the 0x100-byte buffer, so no put overflows |
| ActorBuilder.CreateActor | src/main/java/acmi/l2/clientmod/l2pe/view/helpers/StaticMeshActorUtil.java:320-437 | `createActor` returns exactly the state frame, the object records, the placement records and "None", in the order of its puts |
| ActorBuilder.PutObjectSection | src/main/java/acmi/l2/clientmod/l2pe/view/helpers/StaticMeshActorUtil.java:333-376 | the puts of the object records append exactly those records |
| ActorBuilder.PutPlacementSection | src/main/java/acmi/l2/clientmod/l2pe/view/helpers/StaticMeshActorUtil.java:380-430 | the puts of the placement records append exactly those records |
| ActorBuilder.ActorLayout | src/main/java/acmi/l2/clientmod/l2pe/view/helpers/StaticMeshActorUtil.java:320-437 | the built actor is a state frame followed by a well-formed property list ending in "None" |
| ActorBuilder.ActorScans | src/main/java/acmi/l2/clientmod/l2pe/view/helpers/StaticMeshActorUtil.java:320-437 | reading a built actor back, `readStateFrame` consumes exactly the frame and `iterateProperties` delivers every record written, in order, ending at the end of the blob |
| ActorNaming.MaxSuffixIsMax | src/main/java/acmi/l2/clientmod/l2pe/view/helpers/StaticMeshActorUtil.java:584-591 | `max()` bounds every numbered suffix and is attained by one, and it is empty exactly when no export name is the class name followed by digits |
| ActorNaming.MaxSuffix | src/main/java/acmi/l2/clientmod/l2pe/view/helpers/StaticMeshActorUtil.java:584-590 | the maximum of the parsed suffixes is never negative, and parsing fails only with NumberFormatException |
| ActorNaming.MaxSuffixFails | src/main/java/acmi/l2/clientmod/l2pe/view/helpers/StaticMeshActorUtil.java:589 | `sm` throws NumberFormatException exactly when some numbered suffix exceeds Integer.MAX_VALUE |
| ActorNaming.SmIsFresh | src/main/java/acmi/l2/clientmod/l2pe/view/helpers/StaticMeshActorUtil.java:583-592 | the class name followed by `sm` is not yet an export name |
| ActorNaming.SmStartsAtZero | src/main/java/acmi/l2/clientmod/l2pe/view/helpers/StaticMeshActorUtil.java:591 | with no numbered export, `sm` is 0 |
| ActorNaming.SmWraps | src/main/java/acmi/l2/clientmod/l2pe/view/helpers/StaticMeshActorUtil.java:585 | `sm` is negative only when Integer.MAX_VALUE is already taken, and then it is Integer.MIN_VALUE |
| ActorNaming.Sm | src/main/java/acmi/l2/clientmod/l2pe/view/helpers/StaticMeshActorUtil.java:583-592 | `sm` throws only NumberFormatException, is non-negative or Integer.MIN_VALUE, and is 0 when no export name is numbered |
| StaticMeshMaterials.Pairs | src/main/java/acmi/l2/clientmod/l2pe/view/model/StaticMesh.java:76-79 | one pair per material, null where the reference is null, otherwise (object full name, full class name) |
| StaticMeshMaterials.ScanWithIsCollect | src/main/java/acmi/l2/clientmod/l2pe/view/model/StaticMesh.java:61-72 | iterating with a collecting callback succeeds exactly when the plain iteration and every callback succeed, and collects the callbacks' outputs in property order |
| StaticMeshMaterials.ScanWith | src/main/java/acmi/l2/clientmod/l2pe/view/helpers/Util.java:112-134 | an iteration that succeeds ends after its start and inside the buffer |
| StaticMeshMaterials.CollectNothing | src/main/java/acmi/l2/clientmod/l2pe/view/model/StaticMesh.java:61-72 | callbacks that add nothing collect nothing |
| StaticMeshMaterials.OnlyMaterialsContribute | src/main/java/acmi/l2/clientmod/l2pe/view/model/StaticMesh.java:62 | a mesh with no property named "Materials" (ignoring case) has no materials |
| StaticMeshMaterials.OneSlotPerMaterial | src/main/java/acmi/l2/clientmod/l2pe/view/model/StaticMesh.java:65-69 | an element adds one entry per inner property named "Material" (ignoring case) |
| StaticMeshMaterials.SlotsPerElement | src/main/java/acmi/l2/clientmod/l2pe/view/model/StaticMesh.java:65-69 | the same, stated for the inner iteration over an element's bytes |
| StaticMeshMaterials.GeometryAfterNone | src/main/java/acmi/l2/clientmod/l2pe/view/model/StaticMesh.java:61-75 | the geometry is read from right after the "None" that ends the property list |
| StaticMeshMaterials.CountIsNotSlots | src/main/java/acmi/l2/clientmod/l2pe/view/model/StaticMesh.java:63-70 | the compact count is the number of elements, not of materials: one element listing a material twice gives two entries |
| StaticMeshMaterials.TwoMaterials | src/main/java/acmi/l2/clientmod/l2pe/view/model/StaticMesh.java:65-69 | the inner iteration over two "Material" properties yields both references |
| StaticMeshMaterials.ScanElement | src/main/java/acmi/l2/clientmod/l2pe/view/model/StaticMesh.java:65-69 | the inner while loop over one element gives what the recursive `ScanWith` gives |
| StaticMeshMaterials.ElementLoop | src/main/java/acmi/l2/clientmod/l2pe/view/model/StaticMesh.java:64-70 | the `for` loop over `size` elements reads them one after another from the same buffer and concatenates their materials |
| StaticMeshMaterials.MaterialsCallback | src/main/java/acmi/l2/clientmod/l2pe/view/model/StaticMesh.java:62-71 | the "Materials" callback reads the count, then that many elements |
| StaticMeshMaterials.ReadStaticMeshMaterials | src/main/java/acmi/l2/clientmod/l2pe/view/model/StaticMesh.java:57-79 | the material pass of `readStaticMesh` returns exactly `ReadMaterials(bytes, names, resolve)`: the materials and geometry start, or the same exception |
| StaticMeshMaterials.ReadMaterials | src/main/java/acmi/l2/clientmod/l2pe/view/model/StaticMesh.java:57-75 | the geometry read of `readStaticMesh` starts inside the raw data, after at least one byte |
| Decompiler.Elements | src/main/java/acmi/l2/clientmod/l2pe/Decompiler.java:242-252 | an inlined array gives one text per element |
| Decompiler.InlineStruct | src/main/java/acmi/l2/clientmod/l2pe/Decompiler.java:270-272 | an inlined struct is wrapped in '(' and ')' |
| Decompiler.InlineProps | src/main/java/acmi/l2/clientmod/l2pe/Decompiler.java:270-272 | a struct gives one text per member property |
| Decompiler.Slot | src/main/java/acmi/l2/clientmod/l2pe/Decompiler.java:204-262 | an inlined slot throws only NullPointerException, ClassCastException or an enum index out of bounds; byte slots without an enum, int, bool and string slots never throw, and a non-null int, bool or plain byte slot prints as `String.valueOf` of its value; a name slot follows the corrected rendering of the second Findings row, resolving the index through `nameReference`, with ClassCastException for a value that is not an integer |
| Decompiler.InlineProperty | src/main/java/acmi/l2/clientmod/l2pe/Decompiler.java:186-268 | `inlineProperty` throws only those three exceptions, gives "" for a property without slots, and in named form starts with the property's name; its name slots follow the corrected rendering of the second Findings row |
| Decompiler.NeedExport | src/main/java/acmi/l2/clientmod/l2pe/Decompiler.java:274-279 | only a non-null export entry needs exporting, and the line that refers to it then names Class'InnerFullName' of that export |
| Decompiler.DecompileProperties | src/main/java/acmi/l2/clientmod/l2pe/Decompiler.java:46-184 | an object with no property left after removeDefaults decompiles to the empty text; two or more properties give at least one line break |
| Decompiler.ToT3d | src/main/java/acmi/l2/clientmod/l2pe/Decompiler.java:282-292 | an export without a class throws NullPointerException; otherwise the text starts with "Begin Object Class=" and ends with "End Object" |
| Decompiler.Blocks | src/main/java/acmi/l2/clientmod/l2pe/Decompiler.java:56-182 | every property contributes at least one block |
| Decompiler.EmptyStruct | src/main/java/acmi/l2/clientmod/l2pe/Decompiler.java:270-272 | an empty struct inlines as "()" |
| Decompiler.ValueOnlyDropsNames | src/main/java/acmi/l2/clientmod/l2pe/Decompiler.java:191-202 | `valueOnly` fails exactly when the named form fails, and for a one-slot property it only drops the "name=" prefix |
| Decompiler.EmptyStructsVanish | src/main/java/acmi/l2/clientmod/l2pe/Decompiler.java:70-73 | a struct property whose slots are all null or empty contributes no nested object and an empty text, which the joining still turns into an empty line |
| Decompiler.ExportBeforeLine | src/main/java/acmi/l2/clientmod/l2pe/Decompiler.java:105-132 | an object reference gives its nested Begin Object block before its line exactly when the entry needs exporting, and the line names the decompiled reference |
| Decompiler.ArrayLinesJoin | src/main/java/acmi/l2/clientmod/l2pe/Decompiler.java:140-162 | a dynamic array renders one `name(j)=value` line per element, joined by new lines |
| Decompiler.NameShownAsIndex | src/main/java/acmi/l2/clientmod/l2pe/Decompiler.java:240-241 | as written, an inlined NameProperty prints its raw index, which differs from the name whenever the name is not that number |
| Decompiler.NameInlineAsDecompiled | src/main/java/acmi/l2/clientmod/l2pe/Decompiler.java:133-139 | corrected, an inlined NameProperty prints the name the top-level renderer prints |
| Decompiler.InlinePropertyLoop | src/main/java/acmi/l2/clientmod/l2pe/Decompiler.java:186-268 | the slot loop of `inlineProperty` returns exactly `InlineProperty(ctx, p, valueOnly)`: the text, or the same exception |
| Decompiler.ArrayLinesLoop | src/main/java/acmi/l2/clientmod/l2pe/Decompiler.java:140-162 | the element loop returns exactly `ArrayLines(ctx, name, inner, xs, 0, indent, fuel)`: the export blocks and lines |
| Decompiler.PropertyLoop | src/main/java/acmi/l2/clientmod/l2pe/Decompiler.java:60-181 | the slot loop for one property returns exactly `PropertyBlocks(ctx, p, 0, indent, fuel)`: the blocks and line |
| Decompiler.BlocksLoop | src/main/java/acmi/l2/clientmod/l2pe/Decompiler.java:56-182 | the loop over properties gathers every property's blocks in order |
| Decompiler.DecompilePropertiesLoop | src/main/java/acmi/l2/clientmod/l2pe/Decompiler.java:46-184 | `decompileProperties` is the non-default properties' blocks joined by a new line at the indentation, or the first exception |

## Left out

- The Unreal package itself is not part of this model: the name table, the import and export tables, `objectReference`, `nameReference`, `objectReferenceByName`, `instantiate`, `PropertiesUtil.removeDefaults` and `String.format("%f")`. They are parameters: `names`, `resolve`, `Lookups` and `Context`.
- The geometry `ObjectInput` deserialises after the material pass of `readStaticMesh` is not modelled; the model ends at the offset where it would start (`GeometryAfterNone`).
- `addStaticMeshActor` and `copyStaticMeshActor`, which insert a built actor into a level's package, are not modelled: they are file and table I/O.
- Floats are their 32-bit patterns (`Word`): the setters and getters move bits, and no floating-point arithmetic is modelled.
- `getXY`, the UI helpers of Util.java and the `getTop`/`find` file helpers are not part of this model.
- ActorResize.SetStaticMesh: requires a present mesh offset (mesh > 0) and a reference below 8192 in magnitude. For wider references `getByteCount` still says 2 while `putCompactInt` writes 3 to 5 bytes. On the resize branch (StaticMeshActorUtil.java:128-134) the new array is `length + 2 - meshSize` bytes long but the puts need `length + width - meshSize`, so a later put throws BufferOverflowException: the tail's, or the reference's own when fewer bytes follow the old reference than the extra width. On the same-width branch (meshSize 2, lines 149-152) the reference overwrites the first bytes of the next property in place, or throws BufferOverflowException at the end of the blob. Neither outcome is modelled.
- ActorResize.SetZoneRenderState: refuses with IllegalArgumentException a new count of 64 or more states when the count changes, following the corrected `ZoneWritten`; the source instead returns an array whose size byte is truncated (first Findings row, `ZoneWrittenAsIs`). It also requires offsets that lie inside the blob (`ZoneFits`), as `getOffsets` produces them; offsets that do not are not modelled.
- ActorBuilder.ActorScans: proved only for level, tag and mesh references below 8192 (`NarrowRefs`). For wider references the header `typ | (length - 1) << 4` announces 4 or 16 bytes for a 3-, 4- or 5-byte reference, so the record would not read back.
- Compact.Encode: Integer.MIN_VALUE is excluded (`CompactValue`), since its magnitude does not fit the five-byte form.
- ActorNaming.Sm: the class name is matched literally, not compiled as a regular expression, so class names with regex metacharacters are not modelled; `\d` is ASCII digits.
- `equalsIgnoreCase` compares ASCII letters only; Unicode case folding is not modelled.
- Decompiler.ToT3d: the recursion through nested exports is bounded by a `fuel` parameter in place of the Java stack; running out of fuel is an error the source would report as a StackOverflowError.
- Decompiler: a slot value of the wrong Java type is rendered as the source renders it: `String.valueOf` for plain byte, int, bool and string slots (`ValueText`, with the `toString` of floats and lists a `Context` parameter), and ClassCastException where the source casts (enum byte, float, object, array, struct). An inlined name slot follows the corrected rendering of the second Findings row (`NameInlineAsDecompiled`): the index is resolved through `nameReference`, a value that is not an integer is the ClassCastException of the top-level `(Integer)` cast at Decompiler.java:139, and null prints 'null'; the source as written prints `Objects.toString` of any value there (`NameShownAsIndex`). Struct and array values are both Java `List`s, and the model keeps them apart: an array slot holding a struct value, or a struct slot holding a non-empty array value, is a ClassCastException in the model, while the source casts successfully and fails or prints later. Entries are only imports or exports, so the IllegalStateException branch cannot be reached.
- Decompiler's own `tab` and `newLine` (Decompiler.java:294-305) throw NegativeArraySizeException for a negative indent like Util's, but every call passes 0 (MainWndController.java:648) or an indent built up from it, so the Decompiler's indent is a `nat` and its line break is PropertyScanner.LineBreak, without an error path.
- Assertion-only `assert obj != null` lines are not modelled.

## Findings

| source | as written | input that shows it | evidently intended | confidence | as-written member | corrected member |
|---|---|---|---|---|---|---|
| src/main/java/acmi/l2/clientmod/l2pe/view/helpers/StaticMeshActorUtil.java:304 | the size byte of the resized ZoneRenderState array is `(byte) zrs.length`, truncated to its low 8 bits | 64 states where the actor had 1: the new array is 258 bytes long and its size byte says 2 | the size byte describes the array, and a write whose array does not fit a one-byte size is refused | not executed | ActorResize.ZoneSizeByteWraps | ActorResize.ZoneSizeByte |
| src/main/java/acmi/l2/clientmod/l2pe/Decompiler.java:240-241 | an inlined NameProperty prints `Objects.toString(object)`, the raw name-table index | a struct member of NameProperty type with index 3 whose name is "Foo" prints `'3'` | print the name, `up.nameReference(index)`, as the top-level renderer does at Decompiler.java:133-139 | not executed | Decompiler.NameShownAsIndex | Decompiler.NameInlineAsDecompiled |
