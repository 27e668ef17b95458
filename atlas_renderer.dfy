/**
 * The bookkeeping of the glyph-atlas text renderer: the glyph quads of a piece
 * of text are stitched into one mesh record per (atlas, colour), each record's
 * horizontal extent per baseline is tracked for underlining, the atlas glyph
 * cache's reference counts follow the text, and one block size is kept per font.
 *
 * The glyph manager and the font client are engine objects: the slot a glyph
 * is placed in, the mesh made for a quad, the joining of two meshes, the size
 * of an atlas and a font's metrics are parameters; the reference-count changes
 * asked of the glyph manager are recorded in order.
 */
module AtlasRenderer {
  import opened Wrappers
  import opened PropertyMap

  type PositiveReal = r: real | r > 0.0 witness 1.0

  datatype Vertex = Vertex(position: Vector2, texCoords: Vector2)
  datatype Mesh = Mesh(vertices: seq<Vertex>, indices: seq<int>)

  const EMPTY_MESH := Mesh([], [])

  /** Where the glyph manager placed a glyph: image 0 means no image. */
  datatype AtlasSlot = AtlasSlot(imageId: nat, atlasId: nat)

  datatype GlyphInfo = GlyphInfo(fontId: nat, index: nat, width: real, height: real, yBearing: real)

  datatype FontMetrics = FontMetrics(underlinePosition: real, underlineThickness: real, descender: real, height: real)

  /** The glyphs of one (atlas, colour), drawn together; underline records are drawn in their own colour. */
  datatype MeshRecord = MeshRecord(color: Vector4, atlasId: nat, mesh: Mesh, isUnderline: bool)

  /** The horizontal reach of the glyphs on one baseline, with the underline metrics seen there. */
  datatype Extent = Extent(baseLine: real, left: real, right: real, underlinePosition: real,
                           underlineThickness: real, meshRecordIndex: nat)

  datatype TextCacheEntry = TextCacheEntry(fontId: nat, index: nat, imageId: nat)

  datatype MaxBlockSize = MaxBlockSize(fontId: nat, neededBlockWidth: nat, neededBlockHeight: nat)

  /** A reference-count change asked of the glyph manager. */
  datatype Adjustment = Adjustment(fontId: nat, imageId: nat, delta: int)

  datatype Style = Normal | DropShadow

  function Abs(x: real): (r: real)
    ensures r >= 0.0 && (r == x || r == -x)
  {
    if x < 0.0 then -x else x
  }

  function Ceil(x: real): (r: int)
    ensures x <= r as real < x + 1.0
  {
    -((-x).Floor)
  }

  function Min(a: real, b: real): (r: real)
    ensures r <= a && r <= b && (r == a || r == b)
  {
    if b < a then b else a
  }

  function Max(a: real, b: real): (r: real)
    ensures r >= a && r >= b && (r == a || r == b)
  {
    if b > a then b else a
  }

  /** A drop shadow is drawn exactly when either shadow offset component is more than epsilon away from zero. */
  function StyleOf(shadowOffset: Vector2): (s: Style)
    ensures s == DropShadow <==> Abs(shadowOffset.x) > MACHINE_EPSILON_1 || Abs(shadowOffset.y) > MACHINE_EPSILON_1
  {
    if Abs(shadowOffset.x) > MACHINE_EPSILON_1 || Abs(shadowOffset.y) > MACHINE_EPSILON_1 then DropShadow else Normal
  }

  /**
   * The underline position and thickness used for the glyphs of a new font. A thickness of
   * its own (underlineHeight non-zero) is kept; otherwise the font's thickness is rounded up
   * to at least one pixel. The position is rounded up, capped at the descender, and a zero
   * position is moved down to one.
   */
  function UnderlineMetrics(metrics: FontMetrics, underlineHeight: real): (r: (real, real))
    ensures 1.0 <= r.0
    ensures r.0 == 1.0 || (r.0 <= Ceil(Abs(metrics.underlinePosition)) as real && r.0 <= Ceil(Abs(metrics.descender)) as real)
    ensures r.0 >= Ceil(Abs(metrics.underlinePosition)) as real || r.0 == Ceil(Abs(metrics.descender)) as real || r.0 == 1.0
    ensures underlineHeight != 0.0 ==> r.1 == underlineHeight
    ensures underlineHeight == 0.0 ==> r.1 >= 1.0 && r.1 >= metrics.underlineThickness &&
                                       (metrics.underlineThickness >= 1.0 ==> r.1 < metrics.underlineThickness + 1.0)
  {
    var position := Ceil(Abs(metrics.underlinePosition)) as real;
    var descender := Ceil(Abs(metrics.descender)) as real;
    var thickness :=
      if underlineHeight != 0.0 then underlineHeight
      else if metrics.underlineThickness < 1.0 then 1.0
      else Ceil(metrics.underlineThickness) as real;
    var capped := if position > descender then descender else position;
    (if capped == 0.0 then 1.0 else capped, thickness)
  }

  // ----- Extents -----

  predicate HasBaseLine(extents: seq<Extent>, baseLine: real)
  {
    exists i :: 0 <= i < |extents| && extents[i].baseLine == baseLine
  }

  /** An extent widened by a quad on its baseline; extents on other baselines are left alone. */
  function Widen(e: Extent, left: real, right: real, baseLine: real, underlinePosition: real, underlineThickness: real): Extent
  {
    if e.baseLine == baseLine then
      e.(left := Min(e.left, left), right := Max(e.right, right),
         underlinePosition := Max(e.underlinePosition, underlinePosition),
         underlineThickness := Max(e.underlineThickness, underlineThickness))
    else e
  }

  /**
   * The extents after a quad from `left` to `right` on `baseLine` is added for record `index`:
   * every extent on that baseline reaches at least as far and keeps the larger underline
   * metrics; when none is on that baseline, exactly one new extent is appended.
   */
  function AdjustedExtents(extents: seq<Extent>, index: nat, left: real, right: real, baseLine: real,
                           underlinePosition: real, underlineThickness: real): (r: seq<Extent>)
    ensures |r| == if HasBaseLine(extents, baseLine) then |extents| else |extents| + 1
    ensures forall i | 0 <= i < |extents| && extents[i].baseLine != baseLine :: r[i] == extents[i]
    ensures forall i | 0 <= i < |extents| && extents[i].baseLine == baseLine ::
              r[i].baseLine == baseLine && r[i].meshRecordIndex == extents[i].meshRecordIndex &&
              r[i].left <= left && r[i].left <= extents[i].left && (r[i].left == left || r[i].left == extents[i].left) &&
              r[i].right >= right && r[i].right >= extents[i].right && (r[i].right == right || r[i].right == extents[i].right) &&
              r[i].underlinePosition >= underlinePosition && r[i].underlinePosition >= extents[i].underlinePosition &&
              r[i].underlineThickness >= underlineThickness && r[i].underlineThickness >= extents[i].underlineThickness
    ensures !HasBaseLine(extents, baseLine) ==>
              r[|extents|] == Extent(baseLine, left, right, underlinePosition, underlineThickness, index)
  {
    var widened := seq(|extents|, i requires 0 <= i < |extents| =>
                         Widen(extents[i], left, right, baseLine, underlinePosition, underlineThickness));
    if HasBaseLine(extents, baseLine) then widened
    else widened + [Extent(baseLine, left, right, underlinePosition, underlineThickness, index)]
  }

  predicate DistinctBaseLines(extents: seq<Extent>)
  {
    forall i, j | 0 <= i < j < |extents| :: extents[i].baseLine != extents[j].baseLine
  }

  /** Every extent names a record that exists. */
  predicate ExtentsValid(extents: seq<Extent>, records: seq<MeshRecord>)
  {
    forall i | 0 <= i < |extents| :: extents[i].meshRecordIndex < |records|
  }

  /** Adding a quad keeps one extent per baseline, and its baseline then has one. */
  lemma AdjustedExtentsKeepBaseLinesDistinct(extents: seq<Extent>, index: nat, left: real, right: real, baseLine: real,
                                            underlinePosition: real, underlineThickness: real)
    requires DistinctBaseLines(extents)
    ensures DistinctBaseLines(AdjustedExtents(extents, index, left, right, baseLine, underlinePosition, underlineThickness))
    ensures HasBaseLine(AdjustedExtents(extents, index, left, right, baseLine, underlinePosition, underlineThickness), baseLine)
  {
    var r := AdjustedExtents(extents, index, left, right, baseLine, underlinePosition, underlineThickness);
    assert forall i | 0 <= i < |extents| :: r[i].baseLine == extents[i].baseLine;
    if !HasBaseLine(extents, baseLine) {
      assert r[|extents|].baseLine == baseLine;
    }
  }

  /** Widens the extents in place, or appends one, as AdjustedExtents describes. */
  method AdjustExtents(extents: seq<Extent>, index: nat, left: real, right: real, baseLine: real,
                       underlinePosition: real, underlineThickness: real) returns (r: seq<Extent>)
    ensures r == AdjustedExtents(extents, index, left, right, baseLine, underlinePosition, underlineThickness)
  {
    r := extents;
    var foundExtent := false;
    for i := 0 to |r|
      invariant |r| == |extents|
      invariant forall k | 0 <= k < i :: r[k] == Widen(extents[k], left, right, baseLine, underlinePosition, underlineThickness)
      invariant forall k | i <= k < |r| :: r[k] == extents[k]
      invariant foundExtent <==> exists k :: 0 <= k < i && extents[k].baseLine == baseLine
    {
      if baseLine == r[i].baseLine {
        foundExtent := true;
        var e := r[i];
        if left < e.left {
          e := e.(left := left);
        }
        if right > e.right {
          e := e.(right := right);
        }
        if underlinePosition > e.underlinePosition {
          e := e.(underlinePosition := underlinePosition);
        }
        if underlineThickness > e.underlineThickness {
          e := e.(underlineThickness := underlineThickness);
        }
        r := r[i := e];
      }
    }
    if !foundExtent {
      r := r + [Extent(baseLine, left, right, underlinePosition, underlineThickness, index)];
    }
  }

  // ----- Mesh records -----

  /** The first record from `from` on with the given atlas and colour. */
  function FirstRecord(records: seq<MeshRecord>, atlasId: nat, color: Vector4, from: nat): (r: Option<nat>)
    requires from <= |records|
    ensures r.Some? ==> from <= r.value < |records| && records[r.value].atlasId == atlasId && records[r.value].color == color
    ensures r.Some? ==> forall k | from <= k < r.value :: !(records[k].atlasId == atlasId && records[k].color == color)
    ensures r.None? ==> forall k | from <= k < |records| :: !(records[k].atlasId == atlasId && records[k].color == color)
    decreases |records| - from
  {
    if from == |records| then None
    else if records[from].atlasId == atlasId && records[from].color == color then Some(from)
    else FirstRecord(records, atlasId, color, from + 1)
  }

  /**
   * The records and extents after a glyph quad is stitched: nothing for a glyph without an
   * image; otherwise the quad joins the first record of the same atlas and colour, or a new
   * non-underline record, and the extents take its left and right edges.
   */
  function Stitched(records: seq<MeshRecord>, extents: seq<Extent>, newMesh: Mesh, color: Vector4, baseLine: real,
                    underlinePosition: real, underlineThickness: real, slot: AtlasSlot,
                    stitch: (Mesh, Mesh) -> Mesh): (r: (seq<MeshRecord>, seq<Extent>))
    requires slot.imageId != 0 ==> |newMesh.vertices| >= 2
    ensures slot.imageId == 0 ==> r == (records, extents)
    ensures slot.imageId != 0 ==> |r.0| == |records| || (|r.0| == |records| + 1 && r.0[|records|] == MeshRecord(color, slot.atlasId, newMesh, false))
    ensures |r.0| >= |records| && forall k | 0 <= k < |records| :: r.0[k].atlasId == records[k].atlasId && r.0[k].color == records[k].color
    ensures forall k | 0 <= k < |records| :: r.0[k].isUnderline == records[k].isUnderline
  {
    if slot.imageId == 0 then (records, extents)
    else
      var left := newMesh.vertices[0].position.x;
      var right := newMesh.vertices[1].position.x;
      match FirstRecord(records, slot.atlasId, color, 0)
      case Some(i) =>
        (records[i := records[i].(mesh := stitch(records[i].mesh, newMesh))],
         AdjustedExtents(extents, i, left, right, baseLine, underlinePosition, underlineThickness))
      case None =>
        (records + [MeshRecord(color, slot.atlasId, newMesh, false)],
         AdjustedExtents(extents, |records|, left, right, baseLine, underlinePosition, underlineThickness))
  }

  /** Stitching keeps every extent pointing at an existing record, and one extent per baseline. */
  lemma StitchedKeepsExtentsValid(records: seq<MeshRecord>, extents: seq<Extent>, newMesh: Mesh, color: Vector4, baseLine: real,
                                  underlinePosition: real, underlineThickness: real, slot: AtlasSlot,
                                  stitch: (Mesh, Mesh) -> Mesh)
    requires slot.imageId != 0 ==> |newMesh.vertices| >= 2
    requires ExtentsValid(extents, records) && DistinctBaseLines(extents)
    ensures var r := Stitched(records, extents, newMesh, color, baseLine, underlinePosition, underlineThickness, slot, stitch);
            ExtentsValid(r.1, r.0) && DistinctBaseLines(r.1)
  {
    if slot.imageId != 0 {
      var left := newMesh.vertices[0].position.x;
      var right := newMesh.vertices[1].position.x;
      var r := Stitched(records, extents, newMesh, color, baseLine, underlinePosition, underlineThickness, slot, stitch);
      match FirstRecord(records, slot.atlasId, color, 0)
      case Some(i) =>
        AdjustedExtentsKeepBaseLinesDistinct(extents, i, left, right, baseLine, underlinePosition, underlineThickness);
        assert forall k | 0 <= k < |extents| :: r.1[k].meshRecordIndex == extents[k].meshRecordIndex;
      case None =>
        AdjustedExtentsKeepBaseLinesDistinct(extents, |records|, left, right, baseLine, underlinePosition, underlineThickness);
        assert forall k | 0 <= k < |extents| :: r.1[k].meshRecordIndex == extents[k].meshRecordIndex;
    }
  }

  /** Stitches a glyph quad into the records, searching them in order, as Stitched describes. */
  method StitchTextMesh(records: seq<MeshRecord>, extents: seq<Extent>, newMesh: Mesh, color: Vector4, baseLine: real,
                        underlinePosition: real, underlineThickness: real, slot: AtlasSlot,
                        stitch: (Mesh, Mesh) -> Mesh) returns (records': seq<MeshRecord>, extents': seq<Extent>)
    requires slot.imageId != 0 ==> |newMesh.vertices| >= 2
    ensures (records', extents') == Stitched(records, extents, newMesh, color, baseLine, underlinePosition, underlineThickness, slot, stitch)
  {
    records', extents' := records, extents;
    if slot.imageId != 0 {
      var left := newMesh.vertices[0].position.x;
      var right := newMesh.vertices[1].position.x;
      var index := 0;
      while index < |records|
        invariant index <= |records|
        invariant FirstRecord(records, slot.atlasId, color, 0) == FirstRecord(records, slot.atlasId, color, index)
      {
        if slot.atlasId == records[index].atlasId && color == records[index].color {
          records' := records[index := records[index].(mesh := stitch(records[index].mesh, newMesh))];
          extents' := AdjustExtents(extents, index, left, right, baseLine, underlinePosition, underlineThickness);
          return;
        }
        index := index + 1;
      }
      records' := records + [MeshRecord(color, slot.atlasId, newMesh, false)];
      extents' := AdjustExtents(extents, |records'| - 1, left, right, baseLine, underlinePosition, underlineThickness);
    }
  }

  // ----- Underlines -----

  /** The six indices of the quad whose first vertex is `faceIndex`, in counter-clockwise winding. */
  function QuadIndices(faceIndex: int): seq<int>
  {
    [faceIndex + 1, faceIndex, faceIndex + 2, faceIndex + 2, faceIndex + 3, faceIndex + 1]
  }

  /** The four corners of an extent's underline, with texture coordinates inside the atlas's first texel. */
  function UnderlineVertices(e: Extent, atlasSize: (PositiveReal, PositiveReal)): (vs: seq<Vertex>)
    ensures |vs| == 4
    ensures vs[0].position.x == vs[2].position.x == e.left && vs[1].position.x == vs[3].position.x == e.right
    ensures vs[2].position.y == vs[0].position.y + e.underlineThickness && vs[3].position.y == vs[1].position.y + e.underlineThickness
    ensures vs[0].position.y == e.baseLine + e.underlinePosition - e.underlineThickness / 2.0
  {
    var u := 0.5 / atlasSize.0;
    var v := 0.5 / atlasSize.1;
    var baseLine := e.baseLine + e.underlinePosition - e.underlineThickness * 0.5;
    [Vertex(Vector2(e.left, baseLine), Vector2(0.0, 0.0)),
     Vertex(Vector2(e.right, baseLine), Vector2(u, 0.0)),
     Vertex(Vector2(e.left, baseLine + e.underlineThickness), Vector2(0.0, v)),
     Vertex(Vector2(e.right, baseLine + e.underlineThickness), Vector2(u, v))]
  }

  /** The face index is an unsigned 16-bit counter. */
  function NextFaceIndex(faceIndex: nat): (r: nat)
    ensures r < 0x1_0000
    ensures faceIndex + 4 < 0x1_0000 ==> r == faceIndex + 4
  {
    (faceIndex + 4) % 0x1_0000
  }

  /** The loop state of underline generation: the records, the one mesh that gathers every quad, and the face index. */
  datatype UnderlineState = UnderlineState(records: seq<MeshRecord>, mesh: Mesh, faceIndex: nat)

  /**
   * One extent's underline: its quad is added to the gathered mesh; with the underline in the
   * text colour the gathered mesh is stitched into the extent's record, otherwise it becomes a
   * new underline record in the underline colour.
   */
  function UnderlineStep(st: UnderlineState, e: Extent, underlineColor: Vector4, textColor: Vector4,
                         atlasSize: nat -> (PositiveReal, PositiveReal), stitch: (Mesh, Mesh) -> Mesh): (r: UnderlineState)
    requires e.meshRecordIndex < |st.records|
    ensures |r.mesh.vertices| == |st.mesh.vertices| + 4 && |r.mesh.indices| == |st.mesh.indices| + 6
    ensures r.mesh.indices == st.mesh.indices + QuadIndices(st.faceIndex)
    ensures r.faceIndex == NextFaceIndex(st.faceIndex)
    ensures underlineColor == textColor ==> |r.records| == |st.records|
    ensures underlineColor != textColor ==>
              r.records == st.records + [MeshRecord(underlineColor, st.records[e.meshRecordIndex].atlasId, r.mesh, true)]
  {
    var index := e.meshRecordIndex;
    var mesh := Mesh(st.mesh.vertices + UnderlineVertices(e, atlasSize(st.records[index].atlasId)),
                     st.mesh.indices + QuadIndices(st.faceIndex));
    var records :=
      if underlineColor == textColor then st.records[index := st.records[index].(mesh := stitch(st.records[index].mesh, mesh))]
      else st.records + [MeshRecord(underlineColor, st.records[index].atlasId, mesh, true)];
    UnderlineState(records, mesh, NextFaceIndex(st.faceIndex))
  }

  /** The state after the underlines of the first n extents. */
  function UnderlinesUpTo(records: seq<MeshRecord>, extents: seq<Extent>, n: nat, underlineColor: Vector4, textColor: Vector4,
                          atlasSize: nat -> (PositiveReal, PositiveReal), stitch: (Mesh, Mesh) -> Mesh): (r: UnderlineState)
    requires n <= |extents| && ExtentsValid(extents, records)
    ensures |r.records| >= |records|
  {
    if n == 0 then UnderlineState(records, EMPTY_MESH, 0)
    else
      var st := UnderlinesUpTo(records, extents, n - 1, underlineColor, textColor, atlasSize, stitch);
      UnderlineStep(st, extents[n - 1], underlineColor, textColor, atlasSize, stitch)
  }

  /**
   * After n underlines the gathered mesh has 4n vertices and 6n indices, the j-th six being
   * the quad starting at vertex 4j (as a 16-bit counter), and one underline record was added
   * per extent exactly when the underline colour differs from the text colour.
   */
  lemma {:induction false} UnderlinesShape(records: seq<MeshRecord>, extents: seq<Extent>, n: nat, underlineColor: Vector4,
                                           textColor: Vector4, atlasSize: nat -> (PositiveReal, PositiveReal),
                                           stitch: (Mesh, Mesh) -> Mesh)
    requires n <= |extents| && ExtentsValid(extents, records)
    ensures var st := UnderlinesUpTo(records, extents, n, underlineColor, textColor, atlasSize, stitch);
            |st.mesh.vertices| == 4 * n && |st.mesh.indices| == 6 * n &&
            st.faceIndex == (4 * n) % 0x1_0000 &&
            (forall j | 0 <= j < n :: st.mesh.indices[6 * j .. 6 * j + 6] == QuadIndices((4 * j) % 0x1_0000)) &&
            |st.records| == (if underlineColor == textColor then |records| else |records| + n) &&
            (underlineColor != textColor ==> forall k | |records| <= k < |st.records| ::
                                                st.records[k].isUnderline && st.records[k].color == underlineColor)
  {
    UnderlinesMeshShape(records, extents, n, underlineColor, textColor, atlasSize, stitch);
    UnderlinesRecordsShape(records, extents, n, underlineColor, textColor, atlasSize, stitch);
  }

  /** The gathered mesh part of UnderlinesShape. */
  lemma {:induction false} UnderlinesMeshShape(records: seq<MeshRecord>, extents: seq<Extent>, n: nat, underlineColor: Vector4,
                                               textColor: Vector4, atlasSize: nat -> (PositiveReal, PositiveReal),
                                               stitch: (Mesh, Mesh) -> Mesh)
    requires n <= |extents| && ExtentsValid(extents, records)
    ensures var st := UnderlinesUpTo(records, extents, n, underlineColor, textColor, atlasSize, stitch);
            |st.mesh.vertices| == 4 * n && |st.mesh.indices| == 6 * n &&
            st.faceIndex == (4 * n) % 0x1_0000 &&
            (forall j | 0 <= j < n :: st.mesh.indices[6 * j .. 6 * j + 6] == QuadIndices((4 * j) % 0x1_0000))
  {
    if n > 0 {
      UnderlinesMeshShape(records, extents, n - 1, underlineColor, textColor, atlasSize, stitch);
      var prev := UnderlinesUpTo(records, extents, n - 1, underlineColor, textColor, atlasSize, stitch);
      var st := UnderlinesUpTo(records, extents, n, underlineColor, textColor, atlasSize, stitch);
      assert st == UnderlineStep(prev, extents[n - 1], underlineColor, textColor, atlasSize, stitch);
      assert st.faceIndex == (prev.faceIndex + 4) % 0x1_0000 == ((4 * (n - 1)) % 0x1_0000 + 4) % 0x1_0000;
      ModAddFour(4 * (n - 1));
      forall j | 0 <= j < n
        ensures st.mesh.indices[6 * j .. 6 * j + 6] == QuadIndices((4 * j) % 0x1_0000)
      {
        if j < n - 1 {
          assert st.mesh.indices[6 * j .. 6 * j + 6] == prev.mesh.indices[6 * j .. 6 * j + 6];
        } else {
          assert st.mesh.indices[6 * j .. 6 * j + 6] == QuadIndices(prev.faceIndex);
        }
      }
    }
  }

  /** The records part of UnderlinesShape. */
  lemma {:induction false} UnderlinesRecordsShape(records: seq<MeshRecord>, extents: seq<Extent>, n: nat, underlineColor: Vector4,
                                                  textColor: Vector4, atlasSize: nat -> (PositiveReal, PositiveReal),
                                                  stitch: (Mesh, Mesh) -> Mesh)
    requires n <= |extents| && ExtentsValid(extents, records)
    ensures var st := UnderlinesUpTo(records, extents, n, underlineColor, textColor, atlasSize, stitch);
            |st.records| == (if underlineColor == textColor then |records| else |records| + n) &&
            (underlineColor != textColor ==> forall k | |records| <= k < |st.records| ::
                                                st.records[k].isUnderline && st.records[k].color == underlineColor)
  {
    if n > 0 {
      UnderlinesRecordsShape(records, extents, n - 1, underlineColor, textColor, atlasSize, stitch);
      var prev := UnderlinesUpTo(records, extents, n - 1, underlineColor, textColor, atlasSize, stitch);
      assert UnderlinesUpTo(records, extents, n, underlineColor, textColor, atlasSize, stitch) ==
             UnderlineStep(prev, extents[n - 1], underlineColor, textColor, atlasSize, stitch);
    }
  }

  lemma ModAddFour(x: nat)
    ensures (x % 0x1_0000 + 4) % 0x1_0000 == (x + 4) % 0x1_0000
  {
  }

  /** Adds an underline quad per extent, as UnderlinesUpTo describes for all of them. */
  method GenerateUnderlines(records: seq<MeshRecord>, extents: seq<Extent>, underlineColor: Vector4, textColor: Vector4,
                            atlasSize: nat -> (PositiveReal, PositiveReal), stitch: (Mesh, Mesh) -> Mesh)
    returns (records': seq<MeshRecord>)
    requires ExtentsValid(extents, records)
    ensures records' == UnderlinesUpTo(records, extents, |extents|, underlineColor, textColor, atlasSize, stitch).records
  {
    records' := records;
    var newMesh := EMPTY_MESH;
    var faceIndex: nat := 0;
    for i := 0 to |extents|
      invariant UnderlineState(records', newMesh, faceIndex) ==
                UnderlinesUpTo(records, extents, i, underlineColor, textColor, atlasSize, stitch)
    {
      var index := extents[i].meshRecordIndex;
      var uv := atlasSize(records'[index].atlasId);
      var u := 0.5 / uv.0;
      var v := 0.5 / uv.1;
      var thickness := extents[i].underlineThickness;
      var baseLine := extents[i].baseLine + extents[i].underlinePosition - thickness * 0.5;
      var tlx := extents[i].left;
      var brx := extents[i].right;
      var vertices := newMesh.vertices;
      vertices := vertices + [Vertex(Vector2(tlx, baseLine), Vector2(0.0, 0.0))];
      vertices := vertices + [Vertex(Vector2(brx, baseLine), Vector2(u, 0.0))];
      vertices := vertices + [Vertex(Vector2(tlx, baseLine + thickness), Vector2(0.0, v))];
      vertices := vertices + [Vertex(Vector2(brx, baseLine + thickness), Vector2(u, v))];
      assert vertices == newMesh.vertices + UnderlineVertices(extents[i], uv);
      newMesh := Mesh(vertices, newMesh.indices + QuadIndices(faceIndex));
      faceIndex := (faceIndex + 4) % 0x1_0000;
      if underlineColor == textColor {
        records' := records'[index := records'[index].(mesh := stitch(records'[index].mesh, newMesh))];
      } else {
        records' := records' + [MeshRecord(underlineColor, records'[index].atlasId, newMesh, true)];
      }
    }
  }

  // ----- Glyph cache and block sizes -----

  /** The (font, glyph) pair of a cache entry. */
  function PairKey(e: TextCacheEntry): (nat, nat)
  {
    (e.fontId, e.index)
  }

  /** How often a (font, glyph) pair occurs in the cache. */
  function CacheCount(cache: seq<TextCacheEntry>, key: (nat, nat)): nat
  {
    if |cache| == 0 then 0
    else CacheCount(cache[..|cache| - 1], key) + (if PairKey(cache[|cache| - 1]) == key then 1 else 0)
  }

  /** How often a (font, glyph) pair occurs in the new glyphs. */
  function GlyphCount(glyphs: seq<GlyphInfo>, key: (nat, nat)): nat
  {
    if |glyphs| == 0 then 0
    else GlyphCount(glyphs[..|glyphs| - 1], key) + (if (glyphs[|glyphs| - 1].fontId, glyphs[|glyphs| - 1].index) == key then 1 else 0)
  }

  /** Entry n's pair already occurs earlier in the cache. */
  predicate SeenBefore(cache: seq<TextCacheEntry>, n: nat)
    requires n < |cache|
  {
    exists k :: 0 <= k < n && PairKey(cache[k]) == PairKey(cache[n])
  }

  /** The entries among the first n whose pair occurs there for the first time, in cache order. */
  function FirstOccurrences(cache: seq<TextCacheEntry>, n: nat): (r: seq<TextCacheEntry>)
    requires n <= |cache|
    ensures |r| <= n
  {
    if n == 0 then []
    else FirstOccurrences(cache, n - 1) + (if SeenBefore(cache, n - 1) then [] else [cache[n - 1]])
  }

  function Keys(entries: seq<TextCacheEntry>): (r: seq<(nat, nat)>)
    ensures |r| == |entries| && forall k | 0 <= k < |entries| :: r[k] == PairKey(entries[k])
  {
    seq(|entries|, k requires 0 <= k < |entries| => PairKey(entries[k]))
  }

  /** The first occurrences hold every pair of the first n entries, each exactly once. */
  lemma {:induction false} FirstOccurrencesCover(cache: seq<TextCacheEntry>, n: nat)
    requires n <= |cache|
    ensures forall key :: key in Keys(FirstOccurrences(cache, n)) <==> exists k :: 0 <= k < n && PairKey(cache[k]) == key
    ensures forall i, j | 0 <= i < j < |FirstOccurrences(cache, n)| ::
              PairKey(FirstOccurrences(cache, n)[i]) != PairKey(FirstOccurrences(cache, n)[j])
  {
    if n > 0 {
      FirstOccurrencesCover(cache, n - 1);
      var prev := FirstOccurrences(cache, n - 1);
      var fo := FirstOccurrences(cache, n);
      if SeenBefore(cache, n - 1) {
        assert fo == prev;
      } else {
        assert fo == prev + [cache[n - 1]];
        assert Keys(fo) == Keys(prev) + [PairKey(cache[n - 1])];
        assert PairKey(cache[n - 1]) !in Keys(prev);
      }
    }
  }

  /** The adjustment asked for an entry's pair: its count in the new glyphs minus its count in the old cache. */
  function Delta(cache: seq<TextCacheEntry>, glyphs: seq<GlyphInfo>, e: TextCacheEntry): Adjustment
  {
    Adjustment(e.fontId, e.imageId, GlyphCount(glyphs, PairKey(e)) as int - CacheCount(cache, PairKey(e)) as int)
  }

  function Deltas(cache: seq<TextCacheEntry>, glyphs: seq<GlyphInfo>, entries: seq<TextCacheEntry>): (r: seq<Adjustment>)
    ensures |r| == |entries| && forall k | 0 <= k < |entries| :: r[k] == Delta(cache, glyphs, entries[k])
  {
    seq(|entries|, k requires 0 <= k < |entries| => Delta(cache, glyphs, entries[k]))
  }

  /**
   * Updating the cache for new text adjusts every pair of the old cache exactly once, by how
   * often it occurs in the new glyphs minus how often it occurred in the old text.
   */
  lemma RemoveTextAdjustsEachPairOnce(cache: seq<TextCacheEntry>, glyphs: seq<GlyphInfo>, key: (nat, nat))
    requires exists k :: 0 <= k < |cache| && PairKey(cache[k]) == key
    ensures exists j :: 0 <= j < |FirstOccurrences(cache, |cache|)| && PairKey(FirstOccurrences(cache, |cache|)[j]) == key &&
                        Deltas(cache, glyphs, FirstOccurrences(cache, |cache|))[j].delta ==
                          GlyphCount(glyphs, key) as int - CacheCount(cache, key) as int &&
                        forall i | 0 <= i < |FirstOccurrences(cache, |cache|)| && i != j ::
                          PairKey(FirstOccurrences(cache, |cache|)[i]) != key
  {
    FirstOccurrencesCover(cache, |cache|);
    var fo := FirstOccurrences(cache, |cache|);
    assert key in Keys(fo);
    var j :| 0 <= j < |fo| && Keys(fo)[j] == key;
    assert PairKey(fo[j]) == key;
    assert Deltas(cache, glyphs, fo)[j] == Delta(cache, glyphs, fo[j]);
    assert forall i | 0 <= i < |fo| && i != j :: PairKey(fo[i]) != PairKey(fo[j]);
    assert 0 <= j < |fo| && PairKey(fo[j]) == key &&
           Deltas(cache, glyphs, fo)[j].delta == GlyphCount(glyphs, key) as int - CacheCount(cache, key) as int &&
           forall i | 0 <= i < |fo| && i != j :: PairKey(fo[i]) != key;
  }

  /** No two block sizes are for the same font. */
  predicate UniqueFontIds(blocks: seq<MaxBlockSize>)
  {
    forall i, j | 0 <= i < j < |blocks| :: blocks[i].fontId != blocks[j].fontId
  }

  predicate HasFont(blocks: seq<MaxBlockSize>, fontId: nat)
  {
    exists j :: 0 <= j < |blocks| && blocks[j].fontId == fontId
  }

  /**
   * The block sizes after the first n glyphs: one entry, square in the font's height, is
   * added per font not yet present; existing entries are kept and font ids stay unique.
   */
  function BlocksAfter(blocks: seq<MaxBlockSize>, glyphs: seq<GlyphInfo>, n: nat, fontHeight: nat -> nat): (r: seq<MaxBlockSize>)
    requires n <= |glyphs|
    ensures |r| >= |blocks| && r[..|blocks|] == blocks
    ensures UniqueFontIds(blocks) ==> UniqueFontIds(r)
    ensures forall k | 0 <= k < n :: HasFont(r, glyphs[k].fontId)
    ensures forall k | 0 <= k < |blocks| :: HasFont(r, blocks[k].fontId)
    ensures forall k | |blocks| <= k < |r| :: r[k].neededBlockWidth == fontHeight(r[k].fontId) && r[k].neededBlockHeight == fontHeight(r[k].fontId)
  {
    if n == 0 then blocks
    else
      var prev := BlocksAfter(blocks, glyphs, n - 1, fontHeight);
      var fontId := glyphs[n - 1].fontId;
      if HasFont(prev, fontId) then prev
      else
        var r := prev + [MaxBlockSize(fontId, fontHeight(fontId), fontHeight(fontId))];
        assert r[..|blocks|] == prev[..|blocks|];
        assert forall j | 0 <= j < |prev| :: r[j] == prev[j];
        assert forall k | 0 <= k < n - 1 :: HasFont(prev, glyphs[k].fontId) ==> HasFont(r, glyphs[k].fontId);
        assert forall k | 0 <= k < |blocks| :: HasFont(prev, blocks[k].fontId) ==> HasFont(r, blocks[k].fontId);
        assert r[|prev|].fontId == fontId;
        r
  }

  /** A glyph is drawn only when it has both a width and a height; white space is not. */
  predicate Visible(g: GlyphInfo)
  {
    g.width != 0.0 && g.height != 0.0
  }

  /** One more glyph adds a block size for its font only when the font has none yet. */
  lemma BlocksAfterStep(blocks: seq<MaxBlockSize>, glyphs: seq<GlyphInfo>, n: nat, fontHeight: nat -> nat)
    requires n < |glyphs|
    ensures var prev := BlocksAfter(blocks, glyphs, n, fontHeight);
            var fontId := glyphs[n].fontId;
            BlocksAfter(blocks, glyphs, n + 1, fontHeight) ==
            if HasFont(prev, fontId) then prev else prev + [MaxBlockSize(fontId, fontHeight(fontId), fontHeight(fontId))]
  {
  }

  /** The cache entries made for the first n glyphs: one per visible glyph, in order, with the image of its slot. */
  function VisibleEntries(glyphs: seq<GlyphInfo>, n: nat, slotOf: GlyphInfo -> AtlasSlot): (r: seq<TextCacheEntry>)
    requires n <= |glyphs|
    ensures |r| <= n
    ensures forall k | 0 <= k < |r| :: exists j :: 0 <= j < n && Visible(glyphs[j]) && r[k] == TextCacheEntry(glyphs[j].fontId, glyphs[j].index, slotOf(glyphs[j]).imageId)
  {
    if n == 0 then []
    else
      var prev := VisibleEntries(glyphs, n - 1, slotOf);
      var g := glyphs[n - 1];
      if Visible(g) then
        var r := prev + [TextCacheEntry(g.fontId, g.index, slotOf(g).imageId)];
        assert forall k | 0 <= k < |prev| :: r[k] == prev[k];
        r
      else prev
  }

  /** A glyph without width or height adds no cache entry; a visible one adds exactly one, at the end. */
  lemma VisibleEntriesStep(glyphs: seq<GlyphInfo>, n: nat, slotOf: GlyphInfo -> AtlasSlot)
    requires n < |glyphs|
    ensures !Visible(glyphs[n]) ==> VisibleEntries(glyphs, n + 1, slotOf) == VisibleEntries(glyphs, n, slotOf)
    ensures Visible(glyphs[n]) ==>
              VisibleEntries(glyphs, n + 1, slotOf) ==
              VisibleEntries(glyphs, n, slotOf) + [TextCacheEntry(glyphs[n].fontId, glyphs[n].index, slotOf(glyphs[n]).imageId)]
  {
  }

  /** Every glyph's font has a block size. */
  predicate EveryFontHasABlock(blocks: seq<MaxBlockSize>, glyphs: seq<GlyphInfo>)
  {
    forall k | 0 <= k < |glyphs| :: HasFont(blocks, glyphs[k].fontId)
  }

  /**
   * What the glyph loop carries from glyph to glyph for sizing new atlases: the block sizes,
   * the index of the current block, the font of the last visible glyph, the (font, index)
   * pairs the glyph manager holds, and the block sizes asked of the glyph manager for its
   * next atlas, oldest first.
   */
  datatype BlockCursor = BlockCursor(blocks: seq<MaxBlockSize>, current: nat, lastFontId: nat,
                                     cached: set<(nat, nat)>, requests: seq<(nat, nat)>)

  /** The current block index can be used once the block sizes are not empty. */
  predicate CurrentInRange(s: BlockCursor)
  {
    s.current == 0 || s.current < |s.blocks|
  }

  /** One of the first n block sizes is for the font. */
  predicate FontAmong(blocks: seq<MaxBlockSize>, fontId: nat, n: nat)
    requires n <= |blocks|
  {
    exists k :: 0 <= k < n && blocks[k].fontId == fontId
  }

  /**
   * The search over the first n block sizes for a glyph of a font other than the last one:
   * every entry of the font becomes the current block and has its size asked of the glyph
   * manager; without an entry the current block is kept.
   */
  function SelectedBlock(blocks: seq<MaxBlockSize>, fontId: nat, n: nat, current: nat, requests: seq<(nat, nat)>): (r: (nat, seq<(nat, nat)>))
    requires n <= |blocks|
    ensures r.0 == current || (r.0 < n && blocks[r.0].fontId == fontId)
    ensures FontAmong(blocks, fontId, n) ==> r.0 < n && blocks[r.0].fontId == fontId
    ensures !FontAmong(blocks, fontId, n) ==> r == (current, requests)
  {
    if n == 0 then (current, requests)
    else
      var prev := SelectedBlock(blocks, fontId, n - 1, current, requests);
      if blocks[n - 1].fontId == fontId then
        (n - 1, prev.1 + [(blocks[n - 1].neededBlockWidth, blocks[n - 1].neededBlockHeight)])
      else
        assert FontAmong(blocks, fontId, n) ==> FontAmong(blocks, fontId, n - 1);
        prev
  }

  /** With one entry per font, the search selects the font's own entry and asks for its size once. */
  lemma {:induction false} SelectedBlockIsTheFontsEntry(blocks: seq<MaxBlockSize>, fontId: nat, n: nat, j: nat,
                                                        current: nat, requests: seq<(nat, nat)>)
    requires UniqueFontIds(blocks) && j < n <= |blocks| && blocks[j].fontId == fontId
    ensures SelectedBlock(blocks, fontId, n, current, requests) ==
            (j, requests + [(blocks[j].neededBlockWidth, blocks[j].neededBlockHeight)])
  {
    if n - 1 == j {
      var prev := SelectedBlock(blocks, fontId, j, current, requests);
      assert !FontAmong(blocks, fontId, j);
    } else {
      SelectedBlockIsTheFontsEntry(blocks, fontId, n - 1, j, current, requests);
    }
  }

  /**
   * A block that must hold a bitmap of width w and height h: each side grows to the bitmap's
   * when the bitmap's is larger, and is kept otherwise.
   */
  function GrownBlock(b: MaxBlockSize, w: nat, h: nat): (r: MaxBlockSize)
    ensures r.fontId == b.fontId
    ensures r.neededBlockWidth >= w && r.neededBlockWidth >= b.neededBlockWidth
    ensures r.neededBlockHeight >= h && r.neededBlockHeight >= b.neededBlockHeight
    ensures r.neededBlockWidth == w || r.neededBlockWidth == b.neededBlockWidth
    ensures r.neededBlockHeight == h || r.neededBlockHeight == b.neededBlockHeight
  {
    MaxBlockSize(b.fontId, if w > b.neededBlockWidth then w else b.neededBlockWidth,
                 if h > b.neededBlockHeight then h else b.neededBlockHeight)
  }

  /** Every block of the earlier sizes is at least as large in the later ones. */
  predicate NoSmaller(later: seq<MaxBlockSize>, earlier: seq<MaxBlockSize>)
  {
    |later| == |earlier| &&
    forall j | 0 <= j < |earlier| ::
      later[j].neededBlockWidth >= earlier[j].neededBlockWidth && later[j].neededBlockHeight >= earlier[j].neededBlockHeight
  }

  lemma NoSmallerTransitive(a: seq<MaxBlockSize>, b: seq<MaxBlockSize>, c: seq<MaxBlockSize>)
    requires NoSmaller(a, b) && NoSmaller(b, c)
    ensures NoSmaller(a, c)
  {
  }

  /**
   * One glyph of the glyph loop: a glyph the glyph manager does not hold yet has its block
   * selected when its font differs from the last one, and its bitmap, when the font client
   * makes one, grows the current block and is added to the glyph manager. Every visible glyph
   * becomes the last one; white space changes nothing.
   */
  function GlyphBlockStep(s: BlockCursor, g: GlyphInfo, bitmapOf: GlyphInfo -> Option<(nat, nat)>): (r: BlockCursor)
    requires HasFont(s.blocks, g.fontId) && CurrentInRange(s)
    ensures |r.blocks| == |s.blocks| && CurrentInRange(r)
    ensures forall j | 0 <= j < |s.blocks| :: r.blocks[j].fontId == s.blocks[j].fontId
    ensures NoSmaller(r.blocks, s.blocks)
    ensures !Visible(g) ==> r == s
    ensures Visible(g) && (g.fontId, g.index) in s.cached ==> r == s.(lastFontId := g.fontId)
  {
    if !Visible(g) then s
    else if (g.fontId, g.index) in s.cached then s.(lastFontId := g.fontId)
    else
      var sel := if s.lastFontId != g.fontId then SelectedBlock(s.blocks, g.fontId, |s.blocks|, s.current, s.requests)
                 else (s.current, s.requests);
      assert HasFont(s.blocks, g.fontId) ==> FontAmong(s.blocks, g.fontId, |s.blocks|);
      match bitmapOf(g)
      case None => BlockCursor(s.blocks, sel.0, g.fontId, s.cached, sel.1)
      case Some((w, h)) =>
        var block := GrownBlock(s.blocks[sel.0], w, h);
        var cached := s.cached + {(g.fontId, g.index)};
        if block == s.blocks[sel.0] then BlockCursor(s.blocks, sel.0, g.fontId, cached, sel.1)
        else BlockCursor(s.blocks[sel.0 := block], sel.0, g.fontId, cached,
                         sel.1 + [(block.neededBlockWidth, block.neededBlockHeight)])
  }

  /**
   * A glyph the glyph manager does not hold yet and whose bitmap is made is added, and its
   * block holds the bitmap; when its font is not the last one, its block is its font's.
   */
  lemma GlyphBlockStepSizesBitmap(s: BlockCursor, g: GlyphInfo, bitmapOf: GlyphInfo -> Option<(nat, nat)>)
    requires HasFont(s.blocks, g.fontId) && CurrentInRange(s)
    requires Visible(g) && (g.fontId, g.index) !in s.cached
    ensures var r := GlyphBlockStep(s, g, bitmapOf);
            bitmapOf(g).Some? ==>
              (g.fontId, g.index) in r.cached &&
              r.blocks[r.current].neededBlockWidth >= bitmapOf(g).value.0 &&
              r.blocks[r.current].neededBlockHeight >= bitmapOf(g).value.1
    ensures var r := GlyphBlockStep(s, g, bitmapOf);
            s.lastFontId != g.fontId ==> r.blocks[r.current].fontId == g.fontId
  {
    assert HasFont(s.blocks, g.fontId) ==> FontAmong(s.blocks, g.fontId, |s.blocks|);
  }

  /** The cursor after the first n glyphs of the glyph loop. */
  function GlyphBlocks(s: BlockCursor, glyphs: seq<GlyphInfo>, n: nat, bitmapOf: GlyphInfo -> Option<(nat, nat)>): (r: BlockCursor)
    requires n <= |glyphs| && CurrentInRange(s)
    requires EveryFontHasABlock(s.blocks, glyphs)
    ensures |r.blocks| == |s.blocks| && CurrentInRange(r)
    ensures forall j | 0 <= j < |s.blocks| :: r.blocks[j].fontId == s.blocks[j].fontId
    ensures NoSmaller(r.blocks, s.blocks)
  {
    if n == 0 then s
    else
      var prev := GlyphBlocks(s, glyphs, n - 1, bitmapOf);
      assert HasFont(prev.blocks, glyphs[n - 1].fontId) by {
        var j :| 0 <= j < |s.blocks| && s.blocks[j].fontId == glyphs[n - 1].fontId;
        assert prev.blocks[j].fontId == glyphs[n - 1].fontId;
      }
      var r := GlyphBlockStep(prev, glyphs[n - 1], bitmapOf);
      NoSmallerTransitive(r.blocks, prev.blocks, s.blocks);
      r
  }

  /** One more glyph keeps what the glyph manager held and adds the glyph when it is visible and has a bitmap. */
  lemma GlyphBlocksStepHolds(s: BlockCursor, glyphs: seq<GlyphInfo>, n: nat, bitmapOf: GlyphInfo -> Option<(nat, nat)>)
    requires n < |glyphs| && CurrentInRange(s)
    requires EveryFontHasABlock(s.blocks, glyphs)
    ensures GlyphBlocks(s, glyphs, n, bitmapOf).cached <= GlyphBlocks(s, glyphs, n + 1, bitmapOf).cached
    ensures Visible(glyphs[n]) && bitmapOf(glyphs[n]).Some? ==>
              (glyphs[n].fontId, glyphs[n].index) in GlyphBlocks(s, glyphs, n + 1, bitmapOf).cached
  {
    GlyphBlocksStep(s, glyphs, n, bitmapOf);
    var prev := GlyphBlocks(s, glyphs, n, bitmapOf);
    var g := glyphs[n];
    if Visible(g) && bitmapOf(g).Some? && (g.fontId, g.index) !in prev.cached {
      GlyphBlockStepSizesBitmap(prev, g, bitmapOf);
    }
  }

  /** After the glyph loop the glyph manager holds every visible glyph that has a bitmap. */
  lemma {:induction false} GlyphBlocksHoldBitmaps(s: BlockCursor, glyphs: seq<GlyphInfo>, n: nat, bitmapOf: GlyphInfo -> Option<(nat, nat)>)
    requires n <= |glyphs| && CurrentInRange(s)
    requires EveryFontHasABlock(s.blocks, glyphs)
    ensures forall k | 0 <= k < n :: Visible(glyphs[k]) && bitmapOf(glyphs[k]).Some? ==>
              (glyphs[k].fontId, glyphs[k].index) in GlyphBlocks(s, glyphs, n, bitmapOf).cached
  {
    if n > 0 {
      GlyphBlocksHoldBitmaps(s, glyphs, n - 1, bitmapOf);
      GlyphBlocksStepHolds(s, glyphs, n - 1, bitmapOf);
    }
  }

  /** White space leaves the glyph loop's cursor as it was. */
  lemma GlyphBlocksSkip(s: BlockCursor, glyphs: seq<GlyphInfo>, n: nat, bitmapOf: GlyphInfo -> Option<(nat, nat)>)
    requires n < |glyphs| && CurrentInRange(s) && !Visible(glyphs[n])
    requires EveryFontHasABlock(s.blocks, glyphs)
    ensures GlyphBlocks(s, glyphs, n + 1, bitmapOf) == GlyphBlocks(s, glyphs, n, bitmapOf)
  {
    GlyphBlocksStep(s, glyphs, n, bitmapOf);
  }

  /** One more glyph of the loop is one more step, and its font has a block to select. */
  lemma GlyphBlocksStep(s: BlockCursor, glyphs: seq<GlyphInfo>, n: nat, bitmapOf: GlyphInfo -> Option<(nat, nat)>)
    requires n < |glyphs| && CurrentInRange(s)
    requires EveryFontHasABlock(s.blocks, glyphs)
    ensures HasFont(GlyphBlocks(s, glyphs, n, bitmapOf).blocks, glyphs[n].fontId)
    ensures GlyphBlocks(s, glyphs, n + 1, bitmapOf) == GlyphBlockStep(GlyphBlocks(s, glyphs, n, bitmapOf), glyphs[n], bitmapOf)
  {
    var prev := GlyphBlocks(s, glyphs, n, bitmapOf);
    var j :| 0 <= j < |s.blocks| && s.blocks[j].fontId == glyphs[n].fontId;
    assert prev.blocks[j].fontId == glyphs[n].fontId;
  }

  /**
   * The block sizes and size requests a piece of text leaves: block sizes are first added for
   * new fonts, then the glyph loop grows them, starting at block 0 with no last font.
   */
  function SizedBlocks(blocks: seq<MaxBlockSize>, requests: seq<(nat, nat)>, glyphs: seq<GlyphInfo>, fontHeight: nat -> nat,
                       cached: set<(nat, nat)>, bitmapOf: GlyphInfo -> Option<(nat, nat)>): (r: BlockCursor)
    ensures |r.blocks| >= |blocks|
    ensures forall j | 0 <= j < |blocks| ::
              r.blocks[j].fontId == blocks[j].fontId &&
              r.blocks[j].neededBlockWidth >= blocks[j].neededBlockWidth &&
              r.blocks[j].neededBlockHeight >= blocks[j].neededBlockHeight
    ensures forall k | 0 <= k < |glyphs| :: HasFont(r.blocks, glyphs[k].fontId)
    ensures UniqueFontIds(blocks) ==> UniqueFontIds(r.blocks)
  {
    var added := BlocksAfter(blocks, glyphs, |glyphs|, fontHeight);
    var r := GlyphBlocks(BlockCursor(added, 0, 0, cached, requests), glyphs, |glyphs|, bitmapOf);
    assert forall j | 0 <= j < |blocks| :: added[j] == blocks[j] by {
      assert forall j | 0 <= j < |blocks| :: added[..|blocks|][j] == added[j];
    }
    assert forall f :: HasFont(added, f) ==> HasFont(r.blocks, f) by {
      forall f | HasFont(added, f) ensures HasFont(r.blocks, f) {
        var j :| 0 <= j < |added| && added[j].fontId == f;
        assert r.blocks[j].fontId == f;
      }
    }
    assert UniqueFontIds(added) ==> UniqueFontIds(r.blocks) by {
      assert forall i | 0 <= i < |added| :: r.blocks[i].fontId == added[i].fontId;
    }
    r
  }

  /** Text of one glyph of a new font: its block is added at the font height, then the glyph is sized against it. */
  lemma SizedNewFontBlock(g: GlyphInfo, fontHeight: nat -> nat, bitmapOf: GlyphInfo -> Option<(nat, nat)>, requests: seq<(nat, nat)>)
    requires Visible(g) && g.fontId != 0
    ensures var fh := fontHeight(g.fontId);
            var s := BlockCursor([MaxBlockSize(g.fontId, fh, fh)], 0, 0, {}, requests);
            HasFont(s.blocks, g.fontId) &&
            SizedBlocks([], requests, [g], fontHeight, {}, bitmapOf) == GlyphBlockStep(s, g, bitmapOf)
  {
    var fh := fontHeight(g.fontId);
    var added := BlocksAfter([], [g], 1, fontHeight);
    assert BlocksAfter([], [g], 0, fontHeight) == [] && !HasFont([], g.fontId);
    assert added == [MaxBlockSize(g.fontId, fh, fh)];
    var s := BlockCursor(added, 0, 0, {}, requests);
    assert EveryFontHasABlock(added, [g]) && GlyphBlocks(s, [g], 0, bitmapOf) == s;
    GlyphBlocksStep(s, [g], 0, bitmapOf);
  }

  /**
   * A glyph of another font than the last, not held by the glyph manager, on a renderer
   * with its font's block only: the block is selected and grown to the glyph's bitmap, and
   * the grown size is asked for only when it differs.
   */
  lemma FirstGlyphOfFontStep(b: MaxBlockSize, g: GlyphInfo, bitmapOf: GlyphInfo -> Option<(nat, nat)>,
                             w: nat, h: nat, requests: seq<(nat, nat)>)
    requires Visible(g) && g.fontId != 0 && b.fontId == g.fontId && bitmapOf(g) == Some((w, h))
    ensures HasFont([b], g.fontId)
    ensures var block := GrownBlock(b, w, h);
            var r := GlyphBlockStep(BlockCursor([b], 0, 0, {}, requests), g, bitmapOf);
            r.blocks == [block] &&
            r.requests == requests + [(b.neededBlockWidth, b.neededBlockHeight)] +
                          (if block == b then [] else [(block.neededBlockWidth, block.neededBlockHeight)])
  {
    assert [b][0].fontId == g.fontId;
    SelectedBlockIsTheFontsEntry([b], g.fontId, 1, 0, 0, requests);
  }

  /**
   * The first glyph of a new font leaves its block as large as the font height or the
   * glyph's bitmap, whichever is larger in each direction, and asks for that size when the
   * bitmap is the larger in either.
   */
  lemma NewFontBlockGrowsToItsBitmap(g: GlyphInfo, fontHeight: nat -> nat, bitmapOf: GlyphInfo -> Option<(nat, nat)>,
                                     w: nat, h: nat, requests: seq<(nat, nat)>)
    requires Visible(g) && g.fontId != 0 && bitmapOf(g) == Some((w, h))
    ensures var r := SizedBlocks([], requests, [g], fontHeight, {}, bitmapOf);
            var fh := fontHeight(g.fontId);
            r.blocks == [MaxBlockSize(g.fontId, if w > fh then w else fh, if h > fh then h else fh)] &&
            r.requests == requests + [(fh, fh)] + (if w > fh || h > fh then [(if w > fh then w else fh, if h > fh then h else fh)] else [])
  {
    var fh := fontHeight(g.fontId);
    SizedNewFontBlock(g, fontHeight, bitmapOf, requests);
    FirstGlyphOfFontStep(MaxBlockSize(g.fontId, fh, fh), g, bitmapOf, w, h, requests);
    var block := GrownBlock(MaxBlockSize(g.fontId, fh, fh), w, h);
    assert block == MaxBlockSize(g.fontId, if w > fh then w else fh, if h > fh then h else fh);
  }

  /** The renderer's state that outlives one piece of text. */
  // ----- The stitching loop -----

  /** The locals of the glyph loop that stitching uses: the records and extents, the last font and its underline metrics. */
  datatype StitchState = StitchState(records: seq<MeshRecord>, extents: seq<Extent>, lastFontId: nat,
                                     underlinePosition: real, underlineThickness: real)

  /**
   * The underline position and thickness a visible glyph is stitched with: its font's metrics
   * when the font differs from the last one (the thickness only when no underline height is
   * given), otherwise the ones in use.
   */
  function GlyphMetrics(st: StitchState, glyph: GlyphInfo, underlineHeight: real, metricsOf: nat -> FontMetrics): (r: (real, real))
    ensures glyph.fontId == st.lastFontId ==> r == (st.underlinePosition, st.underlineThickness)
    ensures glyph.fontId != st.lastFontId ==> r.0 == UnderlineMetrics(metricsOf(glyph.fontId), underlineHeight).0 && 1.0 <= r.0
    ensures glyph.fontId != st.lastFontId && underlineHeight == 0.0 ==> 1.0 <= r.1
    ensures underlineHeight != 0.0 ==> r.1 == st.underlineThickness
  {
    if glyph.fontId == st.lastFontId then (st.underlinePosition, st.underlineThickness)
    else
      var metrics := UnderlineMetrics(metricsOf(glyph.fontId), underlineHeight);
      (metrics.0, if underlineHeight == 0.0 then metrics.1 else st.underlineThickness)
  }

  /**
   * The stitching of one glyph in the glyph loop: white space is skipped; a glyph of another
   * font than the last one fetches that font's underline metrics, the thickness only when no
   * underline height is given; the glyph's quad is stitched on its baseline and its font
   * becomes the last one. Valid extents stay valid.
   */
  function GlyphStitchStep(st: StitchState, glyph: GlyphInfo, position: Vector2, textColor: Vector4, underlineHeight: real,
                           metricsOf: nat -> FontMetrics, slotOf: GlyphInfo -> AtlasSlot,
                           meshOf: (nat, Vector2) -> Mesh, stitch: (Mesh, Mesh) -> Mesh): (r: StitchState)
    requires |meshOf(slotOf(glyph).imageId, position).vertices| >= 2
    ensures !Visible(glyph) ==> r == st
    ensures Visible(glyph) ==> r.lastFontId == glyph.fontId
    ensures Visible(glyph) && glyph.fontId != st.lastFontId ==> 1.0 <= r.underlinePosition
    ensures Visible(glyph) && glyph.fontId != st.lastFontId && underlineHeight == 0.0 ==> 1.0 <= r.underlineThickness
    ensures underlineHeight != 0.0 ==> r.underlineThickness == st.underlineThickness
    ensures ExtentsValid(st.extents, st.records) && DistinctBaseLines(st.extents) ==>
              ExtentsValid(r.extents, r.records) && DistinctBaseLines(r.extents)
  {
    if !Visible(glyph) then st
    else
      var metrics := GlyphMetrics(st, glyph, underlineHeight, metricsOf);
      var underlinePosition, underlineThickness := metrics.0, metrics.1;
      var slot := slotOf(glyph);
      var newMesh := meshOf(slot.imageId, position);
      var baseLine := position.y + glyph.yBearing;
      var stitched := Stitched(st.records, st.extents, newMesh, textColor, baseLine, underlinePosition, underlineThickness, slot, stitch);
      if ExtentsValid(st.extents, st.records) && DistinctBaseLines(st.extents) then
        StitchedKeepsExtentsValid(st.records, st.extents, newMesh, textColor, baseLine, underlinePosition, underlineThickness, slot, stitch);
        StitchState(stitched.0, stitched.1, glyph.fontId, underlinePosition, underlineThickness)
      else StitchState(stitched.0, stitched.1, glyph.fontId, underlinePosition, underlineThickness)
  }

  /**
   * The stitching state after the first n glyphs, starting from no records or extents, font 0,
   * underline position 0 and the given underline height as the thickness. Its extents always
   * name existing records, one extent per baseline.
   */
  function StitchedGlyphs(positions: seq<Vector2>, glyphs: seq<GlyphInfo>, n: nat, textColor: Vector4, underlineHeight: real,
                          metricsOf: nat -> FontMetrics, slotOf: GlyphInfo -> AtlasSlot,
                          meshOf: (nat, Vector2) -> Mesh, stitch: (Mesh, Mesh) -> Mesh): (r: StitchState)
    requires n <= |glyphs| && |positions| == |glyphs|
    requires forall imageId, position :: |meshOf(imageId, position).vertices| == 4
    ensures ExtentsValid(r.extents, r.records) && DistinctBaseLines(r.extents)
    ensures underlineHeight != 0.0 ==> r.underlineThickness == underlineHeight
  {
    if n == 0 then StitchState([], [], 0, 0.0, underlineHeight)
    else
      GlyphStitchStep(StitchedGlyphs(positions, glyphs, n - 1, textColor, underlineHeight, metricsOf, slotOf, meshOf, stitch),
                      glyphs[n - 1], positions[n - 1], textColor, underlineHeight, metricsOf, slotOf, meshOf, stitch)
  }

  /** The stitching state after n glyphs is the one after n - 1 glyphs, stepped by the last. */
  lemma StitchedGlyphsUnfold(positions: seq<Vector2>, glyphs: seq<GlyphInfo>, n: nat, textColor: Vector4, underlineHeight: real,
                             metricsOf: nat -> FontMetrics, slotOf: GlyphInfo -> AtlasSlot,
                             meshOf: (nat, Vector2) -> Mesh, stitch: (Mesh, Mesh) -> Mesh)
    requires 0 < n <= |glyphs| && |positions| == |glyphs|
    requires forall imageId, position :: |meshOf(imageId, position).vertices| == 4
    ensures StitchedGlyphs(positions, glyphs, n, textColor, underlineHeight, metricsOf, slotOf, meshOf, stitch) ==
            GlyphStitchStep(StitchedGlyphs(positions, glyphs, n - 1, textColor, underlineHeight, metricsOf, slotOf, meshOf, stitch),
                            glyphs[n - 1], positions[n - 1], textColor, underlineHeight, metricsOf, slotOf, meshOf, stitch)
  {
  }

  /** Every record is a glyph record in the text colour. */
  predicate TextRecords(records: seq<MeshRecord>, color: Vector4)
  {
    forall k | 0 <= k < |records| :: records[k].color == color && !records[k].isUnderline
  }

  /** No two records share an atlas. */
  predicate OneRecordPerAtlas(records: seq<MeshRecord>)
  {
    forall i, j | 0 <= i < j < |records| :: records[i].atlasId != records[j].atlasId
  }

  predicate HasAtlas(records: seq<MeshRecord>, atlasId: nat)
  {
    exists k :: 0 <= k < |records| && records[k].atlasId == atlasId
  }

  /** One of the first n glyphs is drawn from an image on the atlas. */
  predicate DrawnOnAtlas(glyphs: seq<GlyphInfo>, n: nat, slotOf: GlyphInfo -> AtlasSlot, atlasId: nat)
    requires n <= |glyphs|
  {
    exists k :: 0 <= k < n && Visible(glyphs[k]) && slotOf(glyphs[k]).imageId != 0 && slotOf(glyphs[k]).atlasId == atlasId
  }

  /** An atlas has a record exactly when one of the first n glyphs is drawn from an image on it. */
  ghost predicate RecordsMatchAtlases(glyphs: seq<GlyphInfo>, n: nat, slotOf: GlyphInfo -> AtlasSlot, records: seq<MeshRecord>)
    requires n <= |glyphs|
  {
    forall a :: HasAtlas(records, a) <==> DrawnOnAtlas(glyphs, n, slotOf, a)
  }

  /** Each record holds the mesh the first n glyphs put on its atlas. */
  predicate RecordsHoldAtlasMeshes(positions: seq<Vector2>, glyphs: seq<GlyphInfo>, n: nat, slotOf: GlyphInfo -> AtlasSlot,
                                   meshOf: (nat, Vector2) -> Mesh, stitch: (Mesh, Mesh) -> Mesh, records: seq<MeshRecord>)
    requires n <= |glyphs| == |positions|
  {
    forall k | 0 <= k < |records| :: AtlasMesh(positions, glyphs, n, slotOf, meshOf, stitch, records[k].atlasId) == Some(records[k].mesh)
  }

  /** One of the first n glyphs is drawn from an image on the baseline. */
  predicate DrawnOnBaseLine(positions: seq<Vector2>, glyphs: seq<GlyphInfo>, n: nat, slotOf: GlyphInfo -> AtlasSlot, baseLine: real)
    requires n <= |glyphs| == |positions|
  {
    exists k :: 0 <= k < n && Visible(glyphs[k]) && slotOf(glyphs[k]).imageId != 0 && positions[k].y + glyphs[k].yBearing == baseLine
  }

  /** A baseline has an extent exactly when one of the first n glyphs is drawn from an image on it. */
  ghost predicate ExtentsMatchBaseLines(positions: seq<Vector2>, glyphs: seq<GlyphInfo>, n: nat, slotOf: GlyphInfo -> AtlasSlot,
                                        extents: seq<Extent>)
    requires n <= |glyphs| == |positions|
  {
    forall b :: HasBaseLine(extents, b) <==> DrawnOnBaseLine(positions, glyphs, n, slotOf, b)
  }

  /**
   * Stitching a quad into text records in one colour keeps one record per atlas, and the quad's
   * atlas then has a record; no other atlas gains one.
   */
  lemma StitchedKeepsOneRecordPerAtlas(records: seq<MeshRecord>, extents: seq<Extent>, newMesh: Mesh, color: Vector4, baseLine: real,
                                       underlinePosition: real, underlineThickness: real, slot: AtlasSlot,
                                       stitch: (Mesh, Mesh) -> Mesh)
    requires slot.imageId != 0 ==> |newMesh.vertices| >= 2
    requires TextRecords(records, color) && OneRecordPerAtlas(records)
    ensures var r := Stitched(records, extents, newMesh, color, baseLine, underlinePosition, underlineThickness, slot, stitch);
            TextRecords(r.0, color) && OneRecordPerAtlas(r.0) &&
            forall a :: HasAtlas(r.0, a) <==> HasAtlas(records, a) || (slot.imageId != 0 && a == slot.atlasId)
  {
    var r := Stitched(records, extents, newMesh, color, baseLine, underlinePosition, underlineThickness, slot, stitch);
    if slot.imageId != 0 {
      match FirstRecord(records, slot.atlasId, color, 0)
      case Some(i) =>
        assert |r.0| == |records|;
        assert HasAtlas(records, slot.atlasId) by { assert records[i].atlasId == slot.atlasId; }
        forall a
          ensures HasAtlas(r.0, a) <==> HasAtlas(records, a)
        {
          if HasAtlas(r.0, a) {
            var k :| 0 <= k < |r.0| && r.0[k].atlasId == a;
            assert records[k].atlasId == a;
          }
          if HasAtlas(records, a) {
            var k :| 0 <= k < |records| && records[k].atlasId == a;
            assert r.0[k].atlasId == a;
          }
        }
      case None =>
        assert r.0 == records + [MeshRecord(color, slot.atlasId, newMesh, false)];
        assert !HasAtlas(records, slot.atlasId);
        forall a
          ensures HasAtlas(r.0, a) <==> HasAtlas(records, a) || a == slot.atlasId
        {
          if HasAtlas(r.0, a) && a != slot.atlasId {
            var k :| 0 <= k < |r.0| && r.0[k].atlasId == a;
            assert k < |records| && records[k].atlasId == a;
          }
          if HasAtlas(records, a) {
            var k :| 0 <= k < |records| && records[k].atlasId == a;
            assert r.0[k].atlasId == a;
          }
          if a == slot.atlasId {
            assert r.0[|records|].atlasId == a;
          }
        }
    }
  }

  /** Stitching a quad gives its baseline an extent and no other baseline gains one. */
  lemma StitchedExtentsCoverBaseLine(records: seq<MeshRecord>, extents: seq<Extent>, newMesh: Mesh, color: Vector4, baseLine: real,
                                     underlinePosition: real, underlineThickness: real, slot: AtlasSlot,
                                     stitch: (Mesh, Mesh) -> Mesh)
    requires slot.imageId != 0 ==> |newMesh.vertices| >= 2
    ensures var r := Stitched(records, extents, newMesh, color, baseLine, underlinePosition, underlineThickness, slot, stitch);
            forall b :: HasBaseLine(r.1, b) <==> HasBaseLine(extents, b) || (slot.imageId != 0 && b == baseLine)
  {
    var r := Stitched(records, extents, newMesh, color, baseLine, underlinePosition, underlineThickness, slot, stitch);
    if slot.imageId != 0 {
      var left := newMesh.vertices[0].position.x;
      var right := newMesh.vertices[1].position.x;
      var index := match FirstRecord(records, slot.atlasId, color, 0) case Some(i) => i case None => |records|;
      assert r.1 == AdjustedExtents(extents, index, left, right, baseLine, underlinePosition, underlineThickness);
      assert forall k | 0 <= k < |extents| :: r.1[k].baseLine == extents[k].baseLine;
      forall b
        ensures HasBaseLine(r.1, b) <==> HasBaseLine(extents, b) || b == baseLine
      {
        if HasBaseLine(r.1, b) && b != baseLine {
          var k :| 0 <= k < |r.1| && r.1[k].baseLine == b;
          assert k < |extents| && extents[k].baseLine == b;
        }
        if HasBaseLine(extents, b) {
          var k :| 0 <= k < |extents| && extents[k].baseLine == b;
          assert r.1[k].baseLine == b;
        }
        if b == baseLine && !HasBaseLine(extents, b) {
          assert r.1[|extents|].baseLine == b;
        }
      }
    }
  }

  /** One more glyph is drawn on an atlas exactly when it is visible with an image from that atlas. */
  lemma DrawnOnAtlasStep(glyphs: seq<GlyphInfo>, n: nat, slotOf: GlyphInfo -> AtlasSlot, a: nat)
    requires 0 < n <= |glyphs|
    ensures DrawnOnAtlas(glyphs, n, slotOf, a) <==>
            DrawnOnAtlas(glyphs, n - 1, slotOf, a) ||
            (Visible(glyphs[n - 1]) && slotOf(glyphs[n - 1]).imageId != 0 && slotOf(glyphs[n - 1]).atlasId == a)
  {
    if DrawnOnAtlas(glyphs, n, slotOf, a) {
      var k :| 0 <= k < n && Visible(glyphs[k]) && slotOf(glyphs[k]).imageId != 0 && slotOf(glyphs[k]).atlasId == a;
      if k < n - 1 {
        assert DrawnOnAtlas(glyphs, n - 1, slotOf, a);
      }
    }
    if DrawnOnAtlas(glyphs, n - 1, slotOf, a) {
      var k :| 0 <= k < n - 1 && Visible(glyphs[k]) && slotOf(glyphs[k]).imageId != 0 && slotOf(glyphs[k]).atlasId == a;
      assert k < n;
    }
  }

  /** One glyph of the loop keeps one text record per atlas, for exactly the atlases drawn on. */
  lemma GlyphStitchRecordPerAtlas(positions: seq<Vector2>, glyphs: seq<GlyphInfo>, n: nat, textColor: Vector4,
                                  underlineHeight: real, metricsOf: nat -> FontMetrics,
                                  slotOf: GlyphInfo -> AtlasSlot, meshOf: (nat, Vector2) -> Mesh,
                                  stitch: (Mesh, Mesh) -> Mesh, prev: StitchState)
    requires 0 < n <= |glyphs| && |positions| == |glyphs|
    requires forall imageId, position :: |meshOf(imageId, position).vertices| == 4
    requires prev == StitchedGlyphs(positions, glyphs, n - 1, textColor, underlineHeight, metricsOf, slotOf, meshOf, stitch)
    ensures var r := StitchedGlyphs(positions, glyphs, n, textColor, underlineHeight, metricsOf, slotOf, meshOf, stitch);
            TextRecords(r.records, textColor) && OneRecordPerAtlas(r.records) && RecordsMatchAtlases(glyphs, n, slotOf, r.records)
    decreases n, 0
  {
    StitchedGlyphsRecordPerAtlas(positions, glyphs, n - 1, textColor, underlineHeight, metricsOf, slotOf, meshOf, stitch);
    StitchedGlyphsUnfold(positions, glyphs, n, textColor, underlineHeight, metricsOf, slotOf, meshOf, stitch);
    var r := GlyphStitchStep(prev, glyphs[n - 1], positions[n - 1], textColor, underlineHeight, metricsOf, slotOf, meshOf, stitch);
    var g := glyphs[n - 1];
    var slot := slotOf(g);
    if Visible(g) {
      var metrics := GlyphMetrics(prev, g, underlineHeight, metricsOf);
      var underlinePosition, underlineThickness := metrics.0, metrics.1;
      var newMesh := meshOf(slot.imageId, positions[n - 1]);
      var baseLine := positions[n - 1].y + g.yBearing;
      StitchedKeepsOneRecordPerAtlas(prev.records, prev.extents, newMesh, textColor, baseLine,
                                     underlinePosition, underlineThickness, slot, stitch);
      assert r.records == Stitched(prev.records, prev.extents, newMesh, textColor, baseLine,
                                   underlinePosition, underlineThickness, slot, stitch).0;
    }
    forall a
      ensures HasAtlas(r.records, a) <==> DrawnOnAtlas(glyphs, n, slotOf, a)
    {
      DrawnOnAtlasStep(glyphs, n, slotOf, a);
    }
  }

  /**
   * What the glyph loop stitches: every record is a text record of its own atlas, and an atlas
   * has a record exactly when one of the glyphs is drawn from an image on it.
   */
  lemma {:induction false} StitchedGlyphsRecordPerAtlas(positions: seq<Vector2>, glyphs: seq<GlyphInfo>, n: nat, textColor: Vector4,
                                                        underlineHeight: real, metricsOf: nat -> FontMetrics,
                                                        slotOf: GlyphInfo -> AtlasSlot, meshOf: (nat, Vector2) -> Mesh,
                                                        stitch: (Mesh, Mesh) -> Mesh)
    requires n <= |glyphs| && |positions| == |glyphs|
    requires forall imageId, position :: |meshOf(imageId, position).vertices| == 4
    ensures var r := StitchedGlyphs(positions, glyphs, n, textColor, underlineHeight, metricsOf, slotOf, meshOf, stitch);
            TextRecords(r.records, textColor) && OneRecordPerAtlas(r.records) && RecordsMatchAtlases(glyphs, n, slotOf, r.records)
    decreases n, 1
  {
    if n > 0 {
      var prev := StitchedGlyphs(positions, glyphs, n - 1, textColor, underlineHeight, metricsOf, slotOf, meshOf, stitch);
      GlyphStitchRecordPerAtlas(positions, glyphs, n, textColor, underlineHeight, metricsOf, slotOf, meshOf, stitch, prev);
    }
  }

  /**
   * The mesh the first n glyphs put on an atlas: the quads of the glyphs drawn from an image
   * on it, stitched in glyph order; none when no glyph is.
   */
  function AtlasMesh(positions: seq<Vector2>, glyphs: seq<GlyphInfo>, n: nat, slotOf: GlyphInfo -> AtlasSlot,
                     meshOf: (nat, Vector2) -> Mesh, stitch: (Mesh, Mesh) -> Mesh, atlasId: nat): (r: Option<Mesh>)
    requires n <= |glyphs| == |positions|
    ensures r.Some? <==> DrawnOnAtlas(glyphs, n, slotOf, atlasId)
  {
    if n == 0 then None
    else
      var prev := AtlasMesh(positions, glyphs, n - 1, slotOf, meshOf, stitch, atlasId);
      var g := glyphs[n - 1];
      var slot := slotOf(g);
      DrawnOnAtlasStep(glyphs, n, slotOf, atlasId);
      if Visible(g) && slot.imageId != 0 && slot.atlasId == atlasId then
        var quad := meshOf(slot.imageId, positions[n - 1]);
        Some(if prev.Some? then stitch(prev.value, quad) else quad)
      else prev
  }

  /**
   * What a glyph step does to text records kept one per atlas: a glyph drawn from an image
   * stitches its quad onto the record of its atlas when there is one, and otherwise opens a
   * new record for it; any other glyph leaves the records alone.
   */
  lemma GlyphStitchStepRecords(st: StitchState, glyph: GlyphInfo, position: Vector2, textColor: Vector4, underlineHeight: real,
                               metricsOf: nat -> FontMetrics, slotOf: GlyphInfo -> AtlasSlot,
                               meshOf: (nat, Vector2) -> Mesh, stitch: (Mesh, Mesh) -> Mesh)
    requires |meshOf(slotOf(glyph).imageId, position).vertices| >= 2
    requires TextRecords(st.records, textColor) && OneRecordPerAtlas(st.records)
    ensures var r := GlyphStitchStep(st, glyph, position, textColor, underlineHeight, metricsOf, slotOf, meshOf, stitch);
            var slot := slotOf(glyph);
            var quad := meshOf(slot.imageId, position);
            if Visible(glyph) && slot.imageId != 0 && HasAtlas(st.records, slot.atlasId) then
              |r.records| == |st.records| &&
              forall k | 0 <= k < |st.records| ::
                r.records[k] == if st.records[k].atlasId == slot.atlasId
                                then st.records[k].(mesh := stitch(st.records[k].mesh, quad))
                                else st.records[k]
            else if Visible(glyph) && slot.imageId != 0 then
              r.records == st.records + [MeshRecord(textColor, slot.atlasId, quad, false)]
            else
              r.records == st.records
  {
    var r := GlyphStitchStep(st, glyph, position, textColor, underlineHeight, metricsOf, slotOf, meshOf, stitch);
    var slot := slotOf(glyph);
    if Visible(glyph) && slot.imageId != 0 {
      var metrics := GlyphMetrics(st, glyph, underlineHeight, metricsOf);
      var quad := meshOf(slot.imageId, position);
      assert r.records == Stitched(st.records, st.extents, quad, textColor, position.y + glyph.yBearing,
                                   metrics.0, metrics.1, slot, stitch).0;
      match FirstRecord(st.records, slot.atlasId, textColor, 0)
      case Some(i) =>
        assert HasAtlas(st.records, slot.atlasId);
        forall k | 0 <= k < |st.records| && k != i
          ensures st.records[k].atlasId != slot.atlasId
        {
          assert st.records[k].atlasId != st.records[i].atlasId;
        }
      case None =>
        assert !HasAtlas(st.records, slot.atlasId);
    }
  }

  /**
   * One glyph of the loop keeps each record holding its atlas's mesh: with the records of
   * the first n - 1 glyphs one per atlas, each holding its atlas's mesh so far, the glyph's
   * quad goes onto the record of its own atlas, or into a new one.
   */
  lemma GlyphStitchHoldsAtlasMeshes(positions: seq<Vector2>, glyphs: seq<GlyphInfo>, n: nat, textColor: Vector4,
                                    underlineHeight: real, metricsOf: nat -> FontMetrics,
                                    slotOf: GlyphInfo -> AtlasSlot, meshOf: (nat, Vector2) -> Mesh,
                                    stitch: (Mesh, Mesh) -> Mesh, prev: StitchState)
    requires 0 < n <= |glyphs| && |positions| == |glyphs|
    requires forall imageId, position :: |meshOf(imageId, position).vertices| == 4
    requires prev == StitchedGlyphs(positions, glyphs, n - 1, textColor, underlineHeight, metricsOf, slotOf, meshOf, stitch)
    requires RecordsHoldAtlasMeshes(positions, glyphs, n - 1, slotOf, meshOf, stitch, prev.records)
    ensures var r := StitchedGlyphs(positions, glyphs, n, textColor, underlineHeight, metricsOf, slotOf, meshOf, stitch);
            RecordsHoldAtlasMeshes(positions, glyphs, n, slotOf, meshOf, stitch, r.records)
  {
    StitchedGlyphsRecordPerAtlas(positions, glyphs, n - 1, textColor, underlineHeight, metricsOf, slotOf, meshOf, stitch);
    StitchedGlyphsUnfold(positions, glyphs, n, textColor, underlineHeight, metricsOf, slotOf, meshOf, stitch);
    GlyphStitchStepRecords(prev, glyphs[n - 1], positions[n - 1], textColor, underlineHeight, metricsOf, slotOf, meshOf, stitch);
    var r := GlyphStitchStep(prev, glyphs[n - 1], positions[n - 1], textColor, underlineHeight, metricsOf, slotOf, meshOf, stitch);
    var slot := slotOf(glyphs[n - 1]);
    if Visible(glyphs[n - 1]) && slot.imageId != 0 && !HasAtlas(prev.records, slot.atlasId) {
      assert !DrawnOnAtlas(glyphs, n - 1, slotOf, slot.atlasId);
    }
  }

  /** Each record the glyph loop makes holds exactly the quads drawn on its atlas, stitched in glyph order. */
  lemma {:induction false} StitchedGlyphsMeshPerAtlas(positions: seq<Vector2>, glyphs: seq<GlyphInfo>, n: nat, textColor: Vector4,
                                                      underlineHeight: real, metricsOf: nat -> FontMetrics,
                                                      slotOf: GlyphInfo -> AtlasSlot, meshOf: (nat, Vector2) -> Mesh,
                                                      stitch: (Mesh, Mesh) -> Mesh)
    requires n <= |glyphs| && |positions| == |glyphs|
    requires forall imageId, position :: |meshOf(imageId, position).vertices| == 4
    ensures var r := StitchedGlyphs(positions, glyphs, n, textColor, underlineHeight, metricsOf, slotOf, meshOf, stitch);
            RecordsHoldAtlasMeshes(positions, glyphs, n, slotOf, meshOf, stitch, r.records)
  {
    if n > 0 {
      StitchedGlyphsMeshPerAtlas(positions, glyphs, n - 1, textColor, underlineHeight, metricsOf, slotOf, meshOf, stitch);
      var prev := StitchedGlyphs(positions, glyphs, n - 1, textColor, underlineHeight, metricsOf, slotOf, meshOf, stitch);
      GlyphStitchHoldsAtlasMeshes(positions, glyphs, n, textColor, underlineHeight, metricsOf, slotOf, meshOf, stitch, prev);
    }
  }

  /** One more glyph is drawn on a baseline exactly when it is visible with an image and sits on it. */
  lemma DrawnOnBaseLineStep(positions: seq<Vector2>, glyphs: seq<GlyphInfo>, n: nat, slotOf: GlyphInfo -> AtlasSlot, b: real)
    requires 0 < n <= |glyphs| == |positions|
    ensures DrawnOnBaseLine(positions, glyphs, n, slotOf, b) <==>
            DrawnOnBaseLine(positions, glyphs, n - 1, slotOf, b) ||
            (Visible(glyphs[n - 1]) && slotOf(glyphs[n - 1]).imageId != 0 && positions[n - 1].y + glyphs[n - 1].yBearing == b)
  {
    if DrawnOnBaseLine(positions, glyphs, n, slotOf, b) {
      var k :| 0 <= k < n && Visible(glyphs[k]) && slotOf(glyphs[k]).imageId != 0 && positions[k].y + glyphs[k].yBearing == b;
      if k < n - 1 {
        assert DrawnOnBaseLine(positions, glyphs, n - 1, slotOf, b);
      }
    }
    if DrawnOnBaseLine(positions, glyphs, n - 1, slotOf, b) {
      var k :| 0 <= k < n - 1 && Visible(glyphs[k]) && slotOf(glyphs[k]).imageId != 0 && positions[k].y + glyphs[k].yBearing == b;
      assert k < n;
    }
  }

  /** A glyph step gives the glyph's baseline an extent when it draws an image, and no other baseline gains one. */
  lemma GlyphStitchStepBaseLines(st: StitchState, glyph: GlyphInfo, position: Vector2, textColor: Vector4, underlineHeight: real,
                                 metricsOf: nat -> FontMetrics, slotOf: GlyphInfo -> AtlasSlot,
                                 meshOf: (nat, Vector2) -> Mesh, stitch: (Mesh, Mesh) -> Mesh)
    requires |meshOf(slotOf(glyph).imageId, position).vertices| >= 2
    ensures var r := GlyphStitchStep(st, glyph, position, textColor, underlineHeight, metricsOf, slotOf, meshOf, stitch);
            forall b :: HasBaseLine(r.extents, b) <==>
                          HasBaseLine(st.extents, b) ||
                          (Visible(glyph) && slotOf(glyph).imageId != 0 && b == position.y + glyph.yBearing)
  {
    if Visible(glyph) {
      var metrics := GlyphMetrics(st, glyph, underlineHeight, metricsOf);
      var underlinePosition, underlineThickness := metrics.0, metrics.1;
      var slot := slotOf(glyph);
      StitchedExtentsCoverBaseLine(st.records, st.extents, meshOf(slot.imageId, position), textColor, position.y + glyph.yBearing,
                                   underlinePosition, underlineThickness, slot, stitch);
    }
  }

  /** One glyph of the loop keeps the extents matching the baselines the glyphs are drawn on. */
  lemma GlyphStitchMatchesBaseLines(positions: seq<Vector2>, glyphs: seq<GlyphInfo>, n: nat, textColor: Vector4,
                                    underlineHeight: real, metricsOf: nat -> FontMetrics,
                                    slotOf: GlyphInfo -> AtlasSlot, meshOf: (nat, Vector2) -> Mesh,
                                    stitch: (Mesh, Mesh) -> Mesh, prev: StitchState)
    requires 0 < n <= |glyphs| && |positions| == |glyphs|
    requires forall imageId, position :: |meshOf(imageId, position).vertices| == 4
    requires prev == StitchedGlyphs(positions, glyphs, n - 1, textColor, underlineHeight, metricsOf, slotOf, meshOf, stitch)
    requires ExtentsMatchBaseLines(positions, glyphs, n - 1, slotOf, prev.extents)
    ensures var r := StitchedGlyphs(positions, glyphs, n, textColor, underlineHeight, metricsOf, slotOf, meshOf, stitch);
            ExtentsMatchBaseLines(positions, glyphs, n, slotOf, r.extents)
  {
    StitchedGlyphsUnfold(positions, glyphs, n, textColor, underlineHeight, metricsOf, slotOf, meshOf, stitch);
    var r := GlyphStitchStep(prev, glyphs[n - 1], positions[n - 1], textColor, underlineHeight, metricsOf, slotOf, meshOf, stitch);
    GlyphStitchStepBaseLines(prev, glyphs[n - 1], positions[n - 1], textColor, underlineHeight, metricsOf, slotOf, meshOf, stitch);
    forall b
      ensures HasBaseLine(r.extents, b) <==> DrawnOnBaseLine(positions, glyphs, n, slotOf, b)
    {
      DrawnOnBaseLineStep(positions, glyphs, n, slotOf, b);
    }
  }

  /** An extent has a baseline exactly when one of the glyphs is drawn from an image on it. */
  lemma {:induction false} StitchedGlyphsExtentPerBaseLine(positions: seq<Vector2>, glyphs: seq<GlyphInfo>, n: nat, textColor: Vector4,
                                                           underlineHeight: real, metricsOf: nat -> FontMetrics,
                                                           slotOf: GlyphInfo -> AtlasSlot, meshOf: (nat, Vector2) -> Mesh,
                                                           stitch: (Mesh, Mesh) -> Mesh)
    requires n <= |glyphs| && |positions| == |glyphs|
    requires forall imageId, position :: |meshOf(imageId, position).vertices| == 4
    ensures var r := StitchedGlyphs(positions, glyphs, n, textColor, underlineHeight, metricsOf, slotOf, meshOf, stitch);
            ExtentsMatchBaseLines(positions, glyphs, n, slotOf, r.extents)
  {
    if n > 0 {
      StitchedGlyphsExtentPerBaseLine(positions, glyphs, n - 1, textColor, underlineHeight, metricsOf, slotOf, meshOf, stitch);
      var prev := StitchedGlyphs(positions, glyphs, n - 1, textColor, underlineHeight, metricsOf, slotOf, meshOf, stitch);
      GlyphStitchMatchesBaseLines(positions, glyphs, n, textColor, underlineHeight, metricsOf, slotOf, meshOf, stitch, prev);
    }
  }

  class AtlasRenderer {
    var textCache: seq<TextCacheEntry>
    var blockSizes: seq<MaxBlockSize>
    /** The reference-count adjustments asked of the glyph manager, oldest first. */
    var adjustments: seq<Adjustment>
    /** The block sizes asked of the glyph manager for its next atlas, oldest first. */
    var atlasSizeRequests: seq<(nat, nat)>

    constructor ()
      ensures textCache == [] && blockSizes == [] && adjustments == [] && atlasSizeRequests == []
    {
      textCache := [];
      blockSizes := [];
      adjustments := [];
      atlasSizeRequests := [];
    }

    /** Adjusts each cached pair's reference count once for the new glyphs, then empties the cache. */
    method RemoveText(glyphs: seq<GlyphInfo>)
      modifies this`textCache, this`adjustments
      ensures textCache == []
      ensures adjustments == old(adjustments) + Deltas(old(textCache), glyphs, FirstOccurrences(old(textCache), |old(textCache)|))
    {
      var cache := textCache;
      var checked: seq<(nat, nat)> := [];
      for i := 0 to |cache|
        invariant checked == Keys(FirstOccurrences(cache, i))
        invariant adjustments == old(adjustments) + Deltas(cache, glyphs, FirstOccurrences(cache, i))
      {
        var key := PairKey(cache[i]);
        FirstOccurrencesCover(cache, i);
        var wasChecked := false;
        for c := 0 to |checked|
          invariant wasChecked <==> exists k :: 0 <= k < c && checked[k] == key
        {
          if checked[c] == key {
            wasChecked := true;
          }
        }
        assert wasChecked <==> key in checked;
        if !wasChecked {
          var oldCount := CountInCache(cache, key);
          var newCount := CountInGlyphs(glyphs, key);
          ghost var fo := FirstOccurrences(cache, i);
          assert FirstOccurrences(cache, i + 1) == fo + [cache[i]];
          assert Deltas(cache, glyphs, fo + [cache[i]]) == Deltas(cache, glyphs, fo) + [Delta(cache, glyphs, cache[i])];
          adjustments := adjustments + [Adjustment(cache[i].fontId, cache[i].imageId, newCount as int - oldCount as int)];
          checked := checked + [key];
        } else {
          assert FirstOccurrences(cache, i + 1) == FirstOccurrences(cache, i);
        }
      }
      textCache := [];
    }

    /**
     * Lays out a piece of text: the old cache's reference counts are adjusted to the new glyphs,
     * block sizes are added for new fonts, and every visible glyph gets a cache entry and has
     * its quad stitched into the records, with the underline metrics of its font, while the
     * glyphs the glyph manager does not hold yet grow their blocks to their bitmaps; underlines
     * are then added when enabled. The records and extents are returned for drawing. The glyph
     * manager holds the pairs in cached once the old text's counts are adjusted; the font client
     * makes the bitmaps, None standing for an empty bitmap handle.
     */
    method AddGlyphs(positions: seq<Vector2>, glyphs: seq<GlyphInfo>, textColor: Vector4, shadowOffset: Vector2,
                     underlineEnabled: bool, underlineColor: Vector4, underlineHeight: real,
                     metricsOf: nat -> FontMetrics, fontHeight: nat -> nat, slotOf: GlyphInfo -> AtlasSlot,
                     cached: set<(nat, nat)>, bitmapOf: GlyphInfo -> Option<(nat, nat)>,
                     meshOf: (nat, Vector2) -> Mesh, atlasSize: nat -> (PositiveReal, PositiveReal),
                     stitch: (Mesh, Mesh) -> Mesh)
      returns (records: seq<MeshRecord>, extents: seq<Extent>, style: Style)
      requires |positions| == |glyphs|
      requires forall imageId, position :: |meshOf(imageId, position).vertices| == 4
      modifies this
      ensures style == StyleOf(shadowOffset)
      ensures adjustments == old(adjustments) + Deltas(old(textCache), glyphs, FirstOccurrences(old(textCache), |old(textCache)|))
      ensures var sized := SizedBlocks(old(blockSizes), old(atlasSizeRequests), glyphs, fontHeight, cached, bitmapOf);
              blockSizes == sized.blocks && atlasSizeRequests == sized.requests
      ensures textCache == VisibleEntries(glyphs, |glyphs|, slotOf)
      ensures var st := StitchedGlyphs(positions, glyphs, |glyphs|, textColor, underlineHeight, metricsOf, slotOf, meshOf, stitch);
              extents == st.extents &&
              records == if underlineEnabled
                         then UnderlinesUpTo(st.records, st.extents, |st.extents|, underlineColor, textColor, atlasSize, stitch).records
                         else st.records
    {
      style := StyleOf(shadowOffset);
      if |textCache| > 0 {
        RemoveText(glyphs);
      } else {
        assert FirstOccurrences(textCache, 0) == [];
      }
      CalculateBlocksSize(glyphs, fontHeight);

      SizeGlyphBlocks(glyphs, cached, bitmapOf);
      records, extents := StitchGlyphs(positions, glyphs, textColor, underlineHeight, metricsOf, slotOf, meshOf, stitch);

      if underlineEnabled {
        var underlined := GenerateUnderlines(records, extents, underlineColor, textColor, atlasSize, stitch);
        records := underlined;
      }
    }

    /** The glyph loop of AddGlyphs: every visible glyph gets a cache entry and its quad is
        stitched into the records, with the underline metrics of its font, as StitchedGlyphs says. */
    method StitchGlyphs(positions: seq<Vector2>, glyphs: seq<GlyphInfo>, textColor: Vector4, underlineHeight: real,
                        metricsOf: nat -> FontMetrics, slotOf: GlyphInfo -> AtlasSlot,
                        meshOf: (nat, Vector2) -> Mesh, stitch: (Mesh, Mesh) -> Mesh)
      returns (records: seq<MeshRecord>, extents: seq<Extent>)
      requires |positions| == |glyphs|
      requires forall imageId, position :: |meshOf(imageId, position).vertices| == 4
      requires textCache == VisibleEntries(glyphs, 0, slotOf)
      modifies this`textCache
      ensures textCache == VisibleEntries(glyphs, |glyphs|, slotOf)
      ensures var st := StitchedGlyphs(positions, glyphs, |glyphs|, textColor, underlineHeight, metricsOf, slotOf, meshOf, stitch);
              records == st.records && extents == st.extents
    {
      var entries := textCache;
      var stitching := StitchState([], [], 0, 0.0, underlineHeight);
      for i := 0 to |glyphs|
        invariant entries == VisibleEntries(glyphs, i, slotOf)
        invariant stitching == StitchedGlyphs(positions, glyphs, i, textColor, underlineHeight, metricsOf, slotOf, meshOf, stitch)
      {
        var glyph := glyphs[i];
        VisibleEntriesStep(glyphs, i, slotOf);
        if glyph.width != 0.0 && glyph.height != 0.0 {
          entries := entries + [TextCacheEntry(glyph.fontId, glyph.index, slotOf(glyph).imageId)];
          stitching := StitchGlyph(stitching, glyph, positions[i], textColor, underlineHeight, metricsOf, slotOf, meshOf, stitch);
        }
      }
      textCache := entries;
      records, extents := stitching.records, stitching.extents;
    }

    /**
     * The block sizing done in the glyph loop of AddGlyphs: every visible glyph the glyph
     * manager does not hold yet selects its font's block when the font changed, grows the
     * current block to its bitmap and is added to the glyph manager. It shares only the last
     * font with the stitching, which follows it the same way, so the two run one after the other.
     */
    method SizeGlyphBlocks(glyphs: seq<GlyphInfo>, cached: set<(nat, nat)>, bitmapOf: GlyphInfo -> Option<(nat, nat)>)
      requires EveryFontHasABlock(blockSizes, glyphs)
      modifies this`blockSizes, this`atlasSizeRequests
      ensures var r := GlyphBlocks(BlockCursor(old(blockSizes), 0, 0, cached, old(atlasSizeRequests)), glyphs, |glyphs|, bitmapOf);
              blockSizes == r.blocks && atlasSizeRequests == r.requests
    {
      var cursor := BlockCursor(blockSizes, 0, 0, cached, atlasSizeRequests);
      ghost var start := cursor;
      for i := 0 to |glyphs|
        invariant cursor == GlyphBlocks(start, glyphs, i, bitmapOf)
      {
        if glyphs[i].width != 0.0 && glyphs[i].height != 0.0 {
          cursor := ReserveGlyphBlock(cursor, glyphs, i, bitmapOf, start);
        } else {
          GlyphBlocksSkip(start, glyphs, i, bitmapOf);
        }
      }
      blockSizes, atlasSizeRequests := cursor.blocks, cursor.requests;
    }

    /** Appends a block size for every font of the glyphs that has none yet. */
    method CalculateBlocksSize(glyphs: seq<GlyphInfo>, fontHeight: nat -> nat)
      modifies this`blockSizes
      ensures blockSizes == BlocksAfter(old(blockSizes), glyphs, |glyphs|, fontHeight)
    {
      var blocks := blockSizes;
      for i := 0 to |glyphs|
        invariant blocks == BlocksAfter(old(blockSizes), glyphs, i, fontHeight)
      {
        var fontId := glyphs[i].fontId;
        var foundFont := FindBlock(blocks, fontId);
        BlocksAfterStep(old(blockSizes), glyphs, i, fontHeight);
        if !foundFont {
          blocks := blocks + [MaxBlockSize(fontId, fontHeight(fontId), fontHeight(fontId))];
        }
      }
      blockSizes := blocks;
    }
  }

  /** The inner search of CalculateBlocksSize: whether a block size exists for the font. */
  method FindBlock(blocks: seq<MaxBlockSize>, fontId: nat) returns (foundFont: bool)
    ensures foundFont == HasFont(blocks, fontId)
  {
    foundFont := false;
    for j := 0 to |blocks|
      invariant foundFont <==> exists k :: 0 <= k < j && blocks[k].fontId == fontId
    {
      if blocks[j].fontId == fontId {
        foundFont := true;
      }
    }
  }

  /** The stitching of one visible glyph: its font's underline metrics when the font changed, then its quad. */
  method StitchGlyph(st: StitchState, glyph: GlyphInfo, position: Vector2, textColor: Vector4, underlineHeight: real,
                     metricsOf: nat -> FontMetrics, slotOf: GlyphInfo -> AtlasSlot,
                     meshOf: (nat, Vector2) -> Mesh, stitch: (Mesh, Mesh) -> Mesh) returns (next: StitchState)
    requires Visible(glyph) && |meshOf(slotOf(glyph).imageId, position).vertices| >= 2
    ensures next == GlyphStitchStep(st, glyph, position, textColor, underlineHeight, metricsOf, slotOf, meshOf, stitch)
  {
    var underlinePosition := st.underlinePosition;
    var underlineThickness := st.underlineThickness;
    if glyph.fontId != st.lastFontId {
      var metrics := UnderlineMetrics(metricsOf(glyph.fontId), underlineHeight);
      underlinePosition := metrics.0;
      if underlineHeight == 0.0 {
        underlineThickness := metrics.1;
      }
    }
    var slot := slotOf(glyph);
    var newMesh := meshOf(slot.imageId, position);
    var records, extents := StitchTextMesh(st.records, st.extents, newMesh, textColor, position.y + glyph.yBearing,
                                           underlinePosition, underlineThickness, slot, stitch);
    next := StitchState(records, extents, glyph.fontId, underlinePosition, underlineThickness);
  }

  /**
   * The block sizing of one visible glyph in the glyph loop: a glyph the glyph manager does
   * not hold yet selects its font's block when the font changed, and its bitmap grows the
   * current block and is added to the glyph manager; the glyph becomes the last one.
   */
  method ReserveBlock(cursor: BlockCursor, glyph: GlyphInfo, bitmapOf: GlyphInfo -> Option<(nat, nat)>)
    returns (next: BlockCursor)
    requires Visible(glyph) && HasFont(cursor.blocks, glyph.fontId) && CurrentInRange(cursor)
    ensures next == GlyphBlockStep(cursor, glyph, bitmapOf)
  {
    var blocks, requests := cursor.blocks, cursor.requests;
    var current, cached := cursor.current, cursor.cached;
    if (glyph.fontId, glyph.index) !in cached {
      if cursor.lastFontId != glyph.fontId {
        for j := 0 to |blocks|
          invariant (current, requests) == SelectedBlock(blocks, glyph.fontId, j, cursor.current, cursor.requests)
        {
          if blocks[j].fontId == glyph.fontId {
            current := j;
            requests := requests + [(blocks[j].neededBlockWidth, blocks[j].neededBlockHeight)];
          }
        }
      }
      assert FontAmong(blocks, glyph.fontId, |blocks|);
      var bitmap := bitmapOf(glyph);
      if bitmap.Some? {
        var (w, h) := bitmap.value;
        var block := blocks[current];
        var setSize := false;
        if w > block.neededBlockWidth {
          setSize := true;
          block := block.(neededBlockWidth := w);
        }
        if h > block.neededBlockHeight {
          setSize := true;
          block := block.(neededBlockHeight := h);
        }
        if setSize {
          blocks := blocks[current := block];
          requests := requests + [(block.neededBlockWidth, block.neededBlockHeight)];
        }
        cached := cached + {(glyph.fontId, glyph.index)};
      }
    }
    next := BlockCursor(blocks, current, glyph.fontId, cached, requests);
  }

  /** ReserveBlock on the i-th glyph of the loop carries the cursor from i glyphs to i + 1. */
  method ReserveGlyphBlock(cursor: BlockCursor, glyphs: seq<GlyphInfo>, i: nat, bitmapOf: GlyphInfo -> Option<(nat, nat)>,
                           ghost start: BlockCursor)
    returns (next: BlockCursor)
    requires i < |glyphs| && Visible(glyphs[i]) && CurrentInRange(start)
    requires EveryFontHasABlock(start.blocks, glyphs)
    requires cursor == GlyphBlocks(start, glyphs, i, bitmapOf)
    ensures next == GlyphBlocks(start, glyphs, i + 1, bitmapOf)
  {
    GlyphBlocksStep(start, glyphs, i, bitmapOf);
    next := ReserveBlock(cursor, glyphs[i], bitmapOf);
  }

  /** Counts a pair's occurrences in the cache. */
  method CountInCache(cache: seq<TextCacheEntry>, key: (nat, nat)) returns (count: nat)
    ensures count == CacheCount(cache, key)
  {
    count := 0;
    for k := 0 to |cache|
      invariant count == CacheCount(cache[..k], key)
    {
      assert cache[..k + 1][..k] == cache[..k];
      if PairKey(cache[k]) == key {
        count := count + 1;
      }
    }
    assert cache[..|cache|] == cache;
  }

  /** Counts a pair's occurrences in the glyphs. */
  method CountInGlyphs(glyphs: seq<GlyphInfo>, key: (nat, nat)) returns (count: nat)
    ensures count == GlyphCount(glyphs, key)
  {
    count := 0;
    for k := 0 to |glyphs|
      invariant count == GlyphCount(glyphs[..k], key)
    {
      assert glyphs[..k + 1][..k] == glyphs[..k];
      if (glyphs[k].fontId, glyphs[k].index) == key {
        count := count + 1;
      }
    }
    assert glyphs[..|glyphs|] == glyphs;
  }
}
