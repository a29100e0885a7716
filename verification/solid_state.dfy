/** The crystal-lattice plugin's line builder and object selection: a fixed
    array of line vertices filled by `PushLine`, the lattice outline built by
    `Push3X3Lines` (the centre cube's twelve edges, plus the surrounding
    3x3x3 lattice when enabled), and the 1-based object ids used to pick and
    highlight a sphere.

    Coordinates in the builder are small integers; the two line colours are
    named rather than given as float quadruples. */
module SolidStateLines {

  const OBJECT_COUNT: nat := 14
  /** Lines of the full lattice: 12 + 24 + 24 + 40 + 20 + 24. */
  const LINE_COUNT: nat := 12 + 24 + 24 + 40 + 20 + 24

  datatype Vec3 = Vec3(x: int, y: int, z: int)

  /** The centre cube's edge colour and the lattice colour. */
  datatype Shade = CubeEdge | Lattice

  datatype LineVertex = LineVertex(pos: Vec3, color: Shade)

  /** `lines_data` (capacity `LINE_COUNT * 2`) with `line_v_count`. */
  datatype Lines = Lines(data: seq<LineVertex>, count: nat)

  datatype Segment = Segment(a: Vec3, b: Vec3, c: Shade)

  predicate Valid(l: Lines) {
    |l.data| == LINE_COUNT * 2 && l.count <= |l.data|
  }

  /** Vertex `k` of the flattened segment list: both ends of each segment,
      in order, with the segment's colour. */
  function VertexAt(segs: seq<Segment>, k: nat): LineVertex
    requires k < 2 * |segs|
  {
    var s := segs[k / 2];
    if k % 2 == 0 then LineVertex(s.a, s.c) else LineVertex(s.b, s.c)
  }

  /** The filled part of `l` holds exactly the vertices of `segs`. */
  predicate Holds(l: Lines, segs: seq<Segment>) {
    && l.count == 2 * |segs|
    && l.count <= |l.data|
    && forall k :: 0 <= k < l.count ==> l.data[k] == VertexAt(segs, k)
  }

  /** `PushLine`: writes `a` then `b`, both coloured `c`, at the count and
      the count + 1, and advances the count by 2. */
  function PushLine(l: Lines, a: Vec3, b: Vec3, c: Shade): (l': Lines)
    requires l.count + 2 <= |l.data|
    ensures |l'.data| == |l.data| && l'.count == l.count + 2
    ensures l'.data[l.count] == LineVertex(a, c) && l'.data[l.count + 1] == LineVertex(b, c)
    ensures forall k :: 0 <= k < |l.data| && k != l.count && k != l.count + 1 ==> l'.data[k] == l.data[k]
  {
    Lines(l.data[l.count := LineVertex(a, c)][l.count + 1 := LineVertex(b, c)], l.count + 2)
  }

  /** Pushes a group of segments one `PushLine` at a time; only the slots
      after the old count are written. */
  method PushSegments(l: Lines, ghost before: seq<Segment>, segs: seq<Segment>) returns (l': Lines)
    requires Valid(l) && Holds(l, before) && l.count + 2 * |segs| <= |l.data|
    ensures Valid(l') && Holds(l', before + segs)
    ensures forall k :: l'.count <= k < |l.data| ==> l'.data[k] == l.data[k]
  {
    l' := l;
    var j := 0;
    while j < |segs|
      invariant 0 <= j <= |segs|
      invariant Valid(l') && Holds(l', before + segs[..j])
      invariant forall k :: l'.count <= k < |l.data| ==> l'.data[k] == l.data[k]
    {
      var s := segs[j];
      ghost var pushed := before + segs[..j + 1];
      assert pushed == (before + segs[..j]) + [s] by {
        assert segs[..j + 1] == segs[..j] + [s];
      }
      l' := PushLine(l', s.a, s.b, s.c);
      forall k | 0 <= k < l'.count
        ensures l'.data[k] == VertexAt(pushed, k)
      {
        if k < l'.count - 2 {
          assert VertexAt(pushed, k) == VertexAt(before + segs[..j], k);
        }
      }
      j := j + 1;
    }
    assert segs[..j] == segs;
  }

  //~ The lattice outline

  function CubeEdges(): (s: seq<Segment>)
    ensures |s| == 12
  {
    var c := CubeEdge;
    [Segment(Vec3(1, 1, 1), Vec3(1, 1, -1), c), Segment(Vec3(1, 1, -1), Vec3(1, -1, -1), c),
     Segment(Vec3(1, -1, -1), Vec3(1, -1, 1), c), Segment(Vec3(1, -1, 1), Vec3(1, 1, 1), c),
     Segment(Vec3(-1, 1, 1), Vec3(-1, 1, -1), c), Segment(Vec3(-1, 1, -1), Vec3(-1, -1, -1), c),
     Segment(Vec3(-1, -1, -1), Vec3(-1, -1, 1), c), Segment(Vec3(-1, -1, 1), Vec3(-1, 1, 1), c),
     Segment(Vec3(1, 1, 1), Vec3(-1, 1, 1), c), Segment(Vec3(1, 1, -1), Vec3(-1, 1, -1), c),
     Segment(Vec3(1, -1, 1), Vec3(-1, -1, 1), c), Segment(Vec3(1, -1, -1), Vec3(-1, -1, -1), c)]
  }

  function XFaces(i: int): (s: seq<Segment>)
    ensures |s| == 8
  {
    var c := Lattice;
    [Segment(Vec3(3 * i, -1, -1), Vec3(i, -1, -1), c), Segment(Vec3(3 * i, -1, 1), Vec3(i, -1, 1), c),
     Segment(Vec3(3 * i, 1, -1), Vec3(i, 1, -1), c), Segment(Vec3(3 * i, 1, 1), Vec3(i, 1, 1), c),
     Segment(Vec3(3 * i, -1, -1), Vec3(3 * i, -1, 1), c), Segment(Vec3(3 * i, -1, 1), Vec3(3 * i, 1, 1), c),
     Segment(Vec3(3 * i, 1, 1), Vec3(3 * i, 1, -1), c), Segment(Vec3(3 * i, 1, -1), Vec3(3 * i, -1, -1), c)]
  }

  function YFaces(i: int): (s: seq<Segment>)
    ensures |s| == 8
  {
    var c := Lattice;
    [Segment(Vec3(-1, 3 * i, -1), Vec3(-1, i, -1), c), Segment(Vec3(-1, 3 * i, 1), Vec3(-1, i, 1), c),
     Segment(Vec3(1, 3 * i, -1), Vec3(1, i, -1), c), Segment(Vec3(1, 3 * i, 1), Vec3(1, i, 1), c),
     Segment(Vec3(-1, 3 * i, -1), Vec3(-1, 3 * i, 1), c), Segment(Vec3(-1, 3 * i, 1), Vec3(1, 3 * i, 1), c),
     Segment(Vec3(1, 3 * i, 1), Vec3(1, 3 * i, -1), c), Segment(Vec3(1, 3 * i, -1), Vec3(-1, 3 * i, -1), c)]
  }

  function ZFaces(i: int): (s: seq<Segment>)
    ensures |s| == 8
  {
    var c := Lattice;
    [Segment(Vec3(-1, -1, 3 * i), Vec3(-1, -1, i), c), Segment(Vec3(-1, 1, 3 * i), Vec3(-1, 1, i), c),
     Segment(Vec3(1, -1, 3 * i), Vec3(1, -1, i), c), Segment(Vec3(1, 1, 3 * i), Vec3(1, 1, i), c),
     Segment(Vec3(-1, -1, 3 * i), Vec3(-1, 1, 3 * i), c), Segment(Vec3(-1, 1, 3 * i), Vec3(1, 1, 3 * i), c),
     Segment(Vec3(1, 1, 3 * i), Vec3(1, -1, 3 * i), c), Segment(Vec3(1, -1, 3 * i), Vec3(-1, -1, 3 * i), c)]
  }

  function EdgeCubes(i: int): (s: seq<Segment>)
    ensures |s| == 30
  {
    var c := Lattice;
    [Segment(Vec3(3 * i, 3, -1), Vec3(3 * i, 1, -1), c), Segment(Vec3(3 * i, 3, -1), Vec3(i, 3, -1), c),
     Segment(Vec3(3 * i, 3, 1), Vec3(i, 3, 1), c), Segment(Vec3(3 * i, 3, 1), Vec3(3 * i, 1, 1), c),
     Segment(Vec3(3 * i, 3, -1), Vec3(3 * i, 3, 1), c),

     Segment(Vec3(3 * i, -3, -1), Vec3(3 * i, -1, -1), c), Segment(Vec3(3 * i, -3, -1), Vec3(i, -3, -1), c),
     Segment(Vec3(3 * i, -3, 1), Vec3(i, -3, 1), c), Segment(Vec3(3 * i, -3, 1), Vec3(3 * i, -1, 1), c),
     Segment(Vec3(3 * i, -3, -1), Vec3(3 * i, -3, 1), c),

     Segment(Vec3(-1, 3, 3 * i), Vec3(-1, 1, 3 * i), c), Segment(Vec3(-1, 3, 3 * i), Vec3(-1, 3, i), c),
     Segment(Vec3(1, 3, 3 * i), Vec3(1, 3, i), c), Segment(Vec3(1, 3, 3 * i), Vec3(1, 1, 3 * i), c),
     Segment(Vec3(-1, 3, 3 * i), Vec3(1, 3, 3 * i), c),

     Segment(Vec3(-1, -3, 3 * i), Vec3(-1, -1, 3 * i), c), Segment(Vec3(-1, -3, 3 * i), Vec3(-1, -3, i), c),
     Segment(Vec3(1, -3, 3 * i), Vec3(1, -3, i), c), Segment(Vec3(1, -3, 3 * i), Vec3(1, -1, 3 * i), c),
     Segment(Vec3(-1, -3, 3 * i), Vec3(1, -3, 3 * i), c),

     Segment(Vec3(3, -1, 3 * i), Vec3(1, -1, 3 * i), c), Segment(Vec3(3, -1, 3 * i), Vec3(3, -1, i), c),
     Segment(Vec3(3, 1, 3 * i), Vec3(3, 1, i), c), Segment(Vec3(3, 1, 3 * i), Vec3(1, 1, 3 * i), c),
     Segment(Vec3(3, -1, 3 * i), Vec3(3, 1, 3 * i), c),

     Segment(Vec3(-3, -1, 3 * i), Vec3(-1, -1, 3 * i), c), Segment(Vec3(-3, -1, 3 * i), Vec3(-3, -1, i), c),
     Segment(Vec3(-3, 1, 3 * i), Vec3(-3, 1, i), c), Segment(Vec3(-3, 1, 3 * i), Vec3(-1, 1, 3 * i), c),
     Segment(Vec3(-3, -1, 3 * i), Vec3(-3, 1, 3 * i), c)]
  }

  function CornerCubes(i: int): (s: seq<Segment>)
    ensures |s| == 12
  {
    var c := Lattice;
    [Segment(Vec3(3 * i, 3, 3), Vec3(i, 3, 3), c), Segment(Vec3(3 * i, 3, 3), Vec3(3 * i, 1, 3), c),
     Segment(Vec3(3 * i, 3, 3), Vec3(3 * i, 3, 1), c),
     Segment(Vec3(3 * i, 3, -3), Vec3(i, 3, -3), c), Segment(Vec3(3 * i, 3, -3), Vec3(3 * i, 1, -3), c),
     Segment(Vec3(3 * i, 3, -3), Vec3(3 * i, 3, -1), c),
     Segment(Vec3(3 * i, -3, 3), Vec3(i, -3, 3), c), Segment(Vec3(3 * i, -3, 3), Vec3(3 * i, -1, 3), c),
     Segment(Vec3(3 * i, -3, 3), Vec3(3 * i, -3, 1), c),
     Segment(Vec3(3 * i, -3, -3), Vec3(i, -3, -3), c), Segment(Vec3(3 * i, -3, -3), Vec3(3 * i, -1, -3), c),
     Segment(Vec3(3 * i, -3, -3), Vec3(3 * i, -3, -1), c)]
  }

  /** A group pushed for i = -1 and then for i = 1. */
  function BothSides(group: int -> seq<Segment>): seq<Segment> {
    group(-1) + group(1)
  }

  /** The centre cube's edges followed by the whole lattice, in push order. */
  function FullLattice(): (s: seq<Segment>)
    ensures |s| == LINE_COUNT
  {
    CubeEdges() + BothSides(XFaces) + BothSides(YFaces) + BothSides(ZFaces)
      + BothSides(EdgeCubes) + BothSides(CornerCubes)
  }

  /** Every segment of the outline, in push order. */
  function Outline(threexthree: bool): (s: seq<Segment>)
    ensures !threexthree ==> |s| == 12
    ensures threexthree ==> |s| == LINE_COUNT
  {
    if threexthree then FullLattice() else CubeEdges()
  }

  /** `for (i = -1; i != 3; i += 2)`: the body runs for i = -1 and i = 1 only. */
  method PushBothSides(l: Lines, ghost before: seq<Segment>, group: int -> seq<Segment>) returns (l': Lines)
    requires Valid(l) && Holds(l, before)
    requires l.count + 2 * (|group(-1)| + |group(1)|) <= |l.data|
    ensures Valid(l') && Holds(l', before + BothSides(group))
  {
    l' := l;
    ghost var pushed := before;
    var i := -1;
    while i != 3
      invariant i == -1 || i == 1 || i == 3
      invariant Valid(l') && Holds(l', pushed)
      invariant pushed == before + (if i >= 1 then group(-1) else []) + (if i == 3 then group(1) else [])
      decreases 3 - i
    {
      l' := PushSegments(l', pushed, group(i));
      pushed := pushed + group(i);
      i := i + 2;
    }
    assert pushed == before + BothSides(group);
  }

  /** `Push3X3Lines`: restarts the count at 0 and pushes the outline; the
      full lattice fills `lines_data` exactly. */
  method Push3X3Lines(l: Lines, threexthree: bool) returns (l': Lines)
    requires Valid(l)
    ensures Valid(l') && Holds(l', Outline(threexthree))
    ensures !threexthree ==> l'.count == 24
    ensures threexthree ==> l'.count == LINE_COUNT * 2 == |l'.data|
  {
    l' := l.(count := 0);
    l' := PushSegments(l', [], CubeEdges());
    assert [] + CubeEdges() == CubeEdges();
    if !threexthree {
      assert Outline(false) == CubeEdges();
      return;
    }
    l' := PushBothSides(l', CubeEdges(), XFaces);
    l' := PushBothSides(l', CubeEdges() + BothSides(XFaces), YFaces);
    l' := PushBothSides(l', CubeEdges() + BothSides(XFaces) + BothSides(YFaces), ZFaces);
    l' := PushBothSides(l', CubeEdges() + BothSides(XFaces) + BothSides(YFaces) + BothSides(ZFaces), EdgeCubes);
    l' := PushBothSides(l', CubeEdges() + BothSides(XFaces) + BothSides(YFaces) + BothSides(ZFaces)
                            + BothSides(EdgeCubes), CornerCubes);
  }

  /** The upload and draw sizes: `LINE_COUNT * 2` vertices are uploaded and
      the drawn count never exceeds them. */
  lemma UploadCoversDrawn(l: Lines, threexthree: bool)
    requires Valid(l) && Holds(l, Outline(threexthree))
    ensures l.count <= LINE_COUNT * 2
    ensures threexthree <==> l.count == LINE_COUNT * 2
  {
  }

  //~ Object ids and selection

  /** Object `i` is written to the id attachment as `i + 1`, so 0 means none. */
  function ObjectId(i: nat): (id: nat)
    requires i < OBJECT_COUNT
    ensures 1 <= id <= OBJECT_COUNT
  {
    i + 1
  }

  predicate Highlighted(selectedObjId: nat, i: nat)
    requires i < OBJECT_COUNT
  {
    selectedObjId == ObjectId(i)
  }

  /** `Init` selects nothing. */
  const INITIAL_SELECTION: nat := 0

  lemma InitSelectsNothing()
    ensures forall i :: 0 <= i < OBJECT_COUNT ==> !Highlighted(INITIAL_SELECTION, i)
  {
  }

  /** Picking object `i`'s id highlights exactly object `i`. */
  lemma PickHighlightsOne(i: nat)
    requires i < OBJECT_COUNT
    ensures forall j :: 0 <= j < OBJECT_COUNT ==> (Highlighted(ObjectId(i), j) <==> j == i)
  {
  }

  /** A left click released where it was pressed takes the id under the
      cursor, converted from the signed pixel value to the unsigned field;
      otherwise the selection stays. */
  function Release(selectedObjId: nat, samePlace: bool, pixel: int): (s: nat)
    requires selectedObjId < 0x1_0000_0000 && -0x8000_0000 <= pixel < 0x8000_0000
    ensures s < 0x1_0000_0000
    ensures samePlace && 0 <= pixel ==> s == pixel
    ensures samePlace && pixel < 0 ==> s == pixel + 0x1_0000_0000
    ensures !samePlace ==> s == selectedObjId
  {
    if samePlace then pixel % 0x1_0000_0000 else selectedObjId
  }
}
