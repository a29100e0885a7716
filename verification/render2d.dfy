/** The bookkeeping of the 2D batch renderer: bounded vertex caches, the
    per-batch table of at most eight texture slots, batch rollover, the
    per-frame reset, the saved cull rectangle and offset, and the glyph lookup
    of the string routines. GPU uploads and floating-point geometry are not
    part of this model: a quad's visibility test is an input and a vertex
    keeps only its texture slot and its corner id. */
module Render2D {
  import opened Common

  /** Capacity of every batch's vertex cache (`R2D_MAX_INTERNAL_CACHE_VCOUNT`). */
  const MAX_INTERNAL_CACHE_VCOUNT: nat := 1024
  /** Texture slots per batch (`textures[8]`). */
  const TEXTURE_SLOTS: nat := 8
  /** Vertices per quad. */
  const QUAD_VERTS: nat := 6
  /** Entries of the packed-glyph table `cdata[95]`, first character 32. */
  const GLYPH_COUNT: nat := 95
  const FIRST_GLYPH: nat := 32

  /** A texture as `R_Texture2DEquals` tells textures apart. */
  type TextureId = nat

  datatype Vec2 = Vec2(x: real, y: real)
  datatype Rect = Rect(x: real, y: real, w: real, h: real)

  /** What of a vertex the model keeps: the texture slot it samples and its
      corner id (`vertid`). */
  datatype Vertex = Vertex(texIndex: nat, cornerU: nat, cornerV: nat)

  /** A cache holds its live vertices; `count` is their number. */
  datatype VertexCache = VertexCache(vertices: seq<Vertex>, maxVerts: nat) {
    function Count(): nat { |vertices| }
  }

  /** A batch; `textures` is the live prefix `textures[..tex_count]`. */
  datatype Batch = Batch(cache: VertexCache, textures: seq<TextureId>)

  datatype Renderer = Renderer(batches: seq<Batch>, currentBatch: nat, cullQuad: Rect, offset: Vec2)

  predicate CacheValid(c: VertexCache) {
    c.Count() <= c.maxVerts
  }

  predicate Distinct(s: seq<TextureId>) {
    forall i, j :: 0 <= i < j < |s| ==> s[i] != s[j]
  }

  /** A batch keeps at most eight distinct textures, every vertex samples one
      of them, and its cache has the internal capacity. */
  predicate BatchValid(b: Batch) {
    && CacheValid(b.cache)
    && b.cache.maxVerts == MAX_INTERNAL_CACHE_VCOUNT
    && |b.textures| <= TEXTURE_SLOTS
    && Distinct(b.textures)
    && forall k :: 0 <= k < |b.cache.vertices| ==> b.cache.vertices[k].texIndex < |b.textures|
  }

  predicate EmptyBatch(b: Batch) {
    b.cache.Count() == 0 && |b.textures| == 0
  }

  /** The renderer invariant: there is a current batch, every batch is valid,
      and no batch after the current one has been written this frame. */
  predicate Valid(r: Renderer) {
    && 1 <= |r.batches|
    && r.currentBatch < |r.batches|
    && (forall i :: 0 <= i < |r.batches| ==> BatchValid(r.batches[i]))
    && (forall i :: r.currentBatch < i < |r.batches| ==> EmptyBatch(r.batches[i]))
  }

  //~ Vertex cache

  function VertexCacheCreate(maxVerts: nat): (c: VertexCache)
    ensures c.Count() == 0 && c.maxVerts == maxVerts
    ensures CacheValid(c)
  {
    VertexCache([], maxVerts)
  }

  function VertexCacheReset(c: VertexCache): (r: VertexCache)
    ensures r.Count() == 0 && r.maxVerts == c.maxVerts
    ensures CacheValid(r)
  {
    c.(vertices := [])
  }

  /** All-or-nothing append: fails and changes nothing when the vertices do
      not fit, otherwise keeps the prefix and raises the count by exactly n. */
  function VertexCachePush(c: VertexCache, vs: seq<Vertex>): (r: (bool, VertexCache))
    ensures r.0 <==> c.Count() + |vs| <= c.maxVerts
    ensures !r.0 ==> r.1 == c
    ensures r.0 ==> r.1.Count() == c.Count() + |vs| && r.1.maxVerts == c.maxVerts
    ensures r.0 ==> r.1.vertices[..c.Count()] == c.vertices && r.1.vertices[c.Count()..] == vs
    ensures CacheValid(c) ==> CacheValid(r.1)
  {
    if c.maxVerts < c.Count() + |vs| then (false, c)
    else (true, c.(vertices := c.vertices + vs))
  }

  //~ Texture slots

  /** A batch can take texture `t` while it has a free slot or already holds t. */
  predicate CanAddTexture(b: Batch, t: TextureId) {
    |b.textures| < TEXTURE_SLOTS || t in b.textures
  }

  method BatchCanAddTexture(b: Batch, t: TextureId) returns (ok: bool)
    ensures ok <==> CanAddTexture(b, t)
  {
    if |b.textures| < TEXTURE_SLOTS {
      return true;
    }
    var i := 0;
    while i < |b.textures|
      invariant 0 <= i <= |b.textures|
      invariant t !in b.textures[..i]
    {
      if b.textures[i] == t {
        return true;
      }
      i := i + 1;
    }
    assert b.textures[..i] == b.textures;
    return false;
  }

  /** Returns the slot of an equal texture already present, otherwise stores
      `t` at `tex_count` and returns the old `tex_count`. The slot array has
      eight entries, so the store needs a free slot. */
  method BatchAddTexture(b: Batch, t: TextureId) returns (idx: nat, b': Batch)
    requires CanAddTexture(b, t)
    ensures idx < |b'.textures| && b'.textures[idx] == t
    ensures b'.cache == b.cache
    ensures t in b.textures ==> b' == b && b.textures[idx] == t && t !in b.textures[..idx]
    ensures t !in b.textures ==> idx == |b.textures| && b'.textures == b.textures + [t]
    ensures BatchValid(b) ==> BatchValid(b')
  {
    var i := 0;
    while i < |b.textures|
      invariant 0 <= i <= |b.textures|
      invariant t !in b.textures[..i]
    {
      if b.textures[i] == t {
        return i, b;
      }
      i := i + 1;
    }
    assert b.textures[..i] == b.textures;
    idx := |b.textures|;
    b' := b.(textures := b.textures + [t]);
    if BatchValid(b) {
      forall k | 0 <= k < |b'.cache.vertices|
        ensures b'.cache.vertices[k].texIndex < |b'.textures|
      {
        assert b.cache.vertices[k].texIndex < |b.textures|;
      }
    }
  }

  //~ Batches

  function FreshBatch(): (b: Batch)
    ensures EmptyBatch(b) && BatchValid(b)
  {
    Batch(VertexCacheCreate(MAX_INTERNAL_CACHE_VCOUNT), [])
  }

  /** Moves to the next batch, appending a fresh one of internal capacity
      only when the index reaches the end of the batch array. */
  function NextBatch(r: Renderer): (r': Renderer)
    requires Valid(r)
    ensures r'.currentBatch == r.currentBatch + 1
    ensures |r.batches| <= |r'.batches| <= |r.batches| + 1
    ensures r'.batches[..|r.batches|] == r.batches
    ensures r.currentBatch + 1 < |r.batches| ==> r'.batches == r.batches
    ensures r.currentBatch + 1 == |r.batches| ==> r'.batches == r.batches + [FreshBatch()]
    ensures r'.cullQuad == r.cullQuad && r'.offset == r.offset
    ensures EmptyBatch(r'.batches[r'.currentBatch])
    ensures Valid(r')
  {
    var cb := r.currentBatch + 1;
    if cb >= |r.batches| then
      r.(batches := r.batches + [FreshBatch()], currentBatch := cb)
    else
      r.(currentBatch := cb)
  }

  /** Keeps the current batch when it can take the texture and `n` more
      vertices with room to spare (`count + n < max_verts`), otherwise moves
      on; either way the batch handed back has a slot for the texture and room
      for the vertices. */
  method BatchGetCurrent(r: Renderer, n: nat, t: TextureId) returns (r': Renderer)
    requires Valid(r)
    ensures Valid(r')
    ensures var b := r.batches[r.currentBatch];
      if CanAddTexture(b, t) && b.cache.Count() + n < b.cache.maxVerts then r' == r else r' == NextBatch(r)
    ensures CanAddTexture(r'.batches[r'.currentBatch], t)
    ensures n < MAX_INTERNAL_CACHE_VCOUNT ==>
      r'.batches[r'.currentBatch].cache.Count() + n < r'.batches[r'.currentBatch].cache.maxVerts
  {
    var b := r.batches[r.currentBatch];
    var can := BatchCanAddTexture(b, t);
    if !can || b.cache.Count() + n >= b.cache.maxVerts {
      r' := NextBatch(r);
    } else {
      r' := r;
    }
  }

  /** The six vertices of a quad sampling slot `idx`, corners in the order of
      the two triangles. */
  function QuadVertices(idx: nat): (vs: seq<Vertex>)
    ensures |vs| == QUAD_VERTS
    ensures forall k :: 0 <= k < |vs| ==> vs[k].texIndex == idx
  {
    [Vertex(idx, 0, 0), Vertex(idx, 1, 0), Vertex(idx, 1, 1),
     Vertex(idx, 0, 0), Vertex(idx, 1, 1), Vertex(idx, 0, 1)]
  }

  /** Writes the six vertices of a quad sampling `t` into the current batch,
      which has a slot for `t` and room for the vertices; no other batch is
      touched. */
  method FillCurrentBatch(g: Renderer, t: TextureId) returns (r': Renderer)
    requires Valid(g)
    requires CanAddTexture(g.batches[g.currentBatch], t)
    requires g.batches[g.currentBatch].cache.Count() + QUAD_VERTS < g.batches[g.currentBatch].cache.maxVerts
    ensures Valid(r')
    ensures r'.currentBatch == g.currentBatch && |r'.batches| == |g.batches|
    ensures r'.cullQuad == g.cullQuad && r'.offset == g.offset
    ensures forall i :: 0 <= i < |g.batches| && i != g.currentBatch ==> r'.batches[i] == g.batches[i]
    ensures var before := g.batches[g.currentBatch];
      var after := r'.batches[r'.currentBatch];
      && after.cache.Count() == before.cache.Count() + QUAD_VERTS
      && after.cache.vertices[..before.cache.Count()] == before.cache.vertices
      && |before.textures| <= |after.textures| && after.textures[..|before.textures|] == before.textures
      && forall k :: before.cache.Count() <= k < after.cache.Count() ==>
           after.textures[after.cache.vertices[k].texIndex] == t
  {
    var b := g.batches[g.currentBatch];
    var idx, b1 := BatchAddTexture(b, t);
    var vs := QuadVertices(idx);
    var pushed := VertexCachePush(b1.cache, vs);
    assert pushed.0;
    var b2 := b1.(cache := pushed.1);
    assert BatchValid(b2) by {
      forall k | 0 <= k < |b2.cache.vertices|
        ensures b2.cache.vertices[k].texIndex < |b2.textures|
      {
        if k < b1.cache.Count() {
          assert b2.cache.vertices[k] == b1.cache.vertices[k];
        } else {
          assert b2.cache.vertices[k] == vs[k - b1.cache.Count()];
        }
      }
    }
    r' := g.(batches := g.batches[g.currentBatch := b2]);
    forall k | b.cache.Count() <= k < b2.cache.Count()
      ensures b2.textures[b2.cache.vertices[k].texIndex] == t
    {
      assert b2.cache.vertices[k] == vs[k - b1.cache.Count()];
    }
  }

  /** Draws one quad with texture `t`. `visible` is the outcome of the
      overlap test against the cull rectangle. A visible quad lands in the
      batch `R2D_BatchGetCurrent` picks: the current one exactly when it can
      take the texture and the six vertices, otherwise the next. The push
      always succeeds, every new vertex samples the slot holding `t`, and
      every other batch is left as it was. */
  method DrawQuad(r: Renderer, visible: bool, t: TextureId) returns (r': Renderer)
    requires Valid(r)
    ensures Valid(r')
    ensures !visible ==> r' == r
    ensures r'.cullQuad == r.cullQuad && r'.offset == r.offset
    ensures visible ==>
      && (r'.currentBatch == r.currentBatch || r'.currentBatch == r.currentBatch + 1)
      && var before := (if r'.currentBatch == r.currentBatch then r.batches[r.currentBatch] else FreshBatch());
         var after := r'.batches[r'.currentBatch];
         && after.cache.Count() == before.cache.Count() + QUAD_VERTS
         && after.cache.vertices[..before.cache.Count()] == before.cache.vertices
         && |before.textures| <= |after.textures| && after.textures[..|before.textures|] == before.textures
         && forall k :: before.cache.Count() <= k < after.cache.Count() ==>
              after.textures[after.cache.vertices[k].texIndex] == t
    ensures visible ==> var cur := r.batches[r.currentBatch];
      (r'.currentBatch == r.currentBatch <==>
         CanAddTexture(cur, t) && cur.cache.Count() + QUAD_VERTS < cur.cache.maxVerts)
    ensures |r.batches| <= |r'.batches| <= |r.batches| + 1
    ensures forall i :: 0 <= i < |r.batches| && i != r'.currentBatch ==> r'.batches[i] == r.batches[i]
  {
    if !visible {
      return r;
    }
    var g := BatchGetCurrent(r, QUAD_VERTS, t);
    r' := FillCurrentBatch(g, t);
    forall i | 0 <= i < |r.batches| && i != r'.currentBatch
      ensures r'.batches[i] == r.batches[i]
    {
      assert g.batches[..|r.batches|][i] == g.batches[i];
    }
  }

  //~ Frame

  function InitRenderer(renderSize: Vec2): (r: Renderer)
    ensures Valid(r)
    ensures |r.batches| == 1 && r.currentBatch == 0 && EmptyBatch(r.batches[0])
    ensures r.cullQuad == Rect(0.0, 0.0, renderSize.x, renderSize.y) && r.offset == Vec2(0.0, 0.0)
  {
    Renderer([FreshBatch()], 0, Rect(0.0, 0.0, renderSize.x, renderSize.y), Vec2(0.0, 0.0))
  }

  function ResetBatch(b: Batch): Batch {
    Batch(VertexCacheReset(b.cache), [])
  }

  /** Empties every existing batch (cache count and texture count to zero)
      and returns to batch 0; the number of batches and their capacities are
      kept. */
  function BeginDraw(r: Renderer): (r': Renderer)
    ensures |r'.batches| == |r.batches| && r'.currentBatch == 0
    ensures forall i :: 0 <= i < |r.batches| ==>
      EmptyBatch(r'.batches[i]) && r'.batches[i].cache.maxVerts == r.batches[i].cache.maxVerts
    ensures r'.cullQuad == r.cullQuad && r'.offset == r.offset
    ensures Valid(r) ==> Valid(r')
  {
    r.(batches := seq(|r.batches|, i requires 0 <= i < |r.batches| => ResetBatch(r.batches[i])),
       currentBatch := 0)
  }

  /** The vertex lists `R2D_EndDraw` uploads and draws: batches 0 through
      the current one, in order. Under the invariant no written vertex is
      left out. */
  function EndDraw(r: Renderer): (drawn: seq<seq<Vertex>>)
    requires r.currentBatch < |r.batches|
    ensures |drawn| == r.currentBatch + 1
    ensures forall i :: 0 <= i < |drawn| ==> drawn[i] == r.batches[i].cache.vertices
    ensures Valid(r) ==> forall i :: 0 <= i < |r.batches| && r.batches[i].cache.Count() > 0 ==>
      i < |drawn| && drawn[i] == r.batches[i].cache.vertices
  {
    seq(r.currentBatch + 1, i requires 0 <= i <= r.currentBatch => r.batches[i].cache.vertices)
  }

  //~ Saved state

  /** Installs a new cull rectangle and returns the previous one; popping
      with that value restores the renderer exactly. */
  function PushCullRect(r: Renderer, q: Rect): (res: (Rect, Renderer))
    ensures res.0 == r.cullQuad && res.1.cullQuad == q
    ensures res.1.batches == r.batches && res.1.currentBatch == r.currentBatch
    ensures PopCullRect(res.1, res.0) == r
  {
    (r.cullQuad, r.(cullQuad := q))
  }

  function PopCullRect(r: Renderer, old_quad: Rect): (r': Renderer)
    ensures r'.cullQuad == old_quad
    ensures r'.(cullQuad := r.cullQuad) == r
  {
    r.(cullQuad := old_quad)
  }

  /** Installs a new offset and returns the previous one; popping with that
      value restores the renderer exactly. */
  function PushOffset(r: Renderer, o: Vec2): (res: (Vec2, Renderer))
    ensures res.0 == r.offset && res.1.offset == o
    ensures res.1.batches == r.batches && res.1.currentBatch == r.currentBatch
    ensures PopOffset(res.1, res.0) == r
  {
    (r.offset, r.(offset := o))
  }

  function PopOffset(r: Renderer, old_offset: Vec2): (r': Renderer)
    ensures r'.offset == old_offset
    ensures r'.(offset := r.offset) == r
  {
    r.(offset := old_offset)
  }

  /** Nested saves unwind in reverse order back to the starting renderer. */
  lemma NestedCullRectRestores(r: Renderer, q1: Rect, q2: Rect)
    ensures var (s1, r1) := PushCullRect(r, q1);
            var (s2, r2) := PushCullRect(r1, q2);
            PopCullRect(PopCullRect(r2, s2), s1) == r
  {
  }

  //~ Glyphs

  /** The glyph guard as written: bytes 32..127 pass and index `cdata[b - 32]`. */
  function GlyphIndexAsWritten(b: u8): (r: Option<int>)
    ensures r.Some? <==> FIRST_GLYPH as int <= b as int < 128
    ensures r.Some? ==> r.value == b as int - FIRST_GLYPH as int
  {
    if 32 <= b < 128 then Some(b as int - 32) else None
  }

  /** Byte 127 passes the guard and reaches entry 95 of a 95-entry table. */
  lemma GlyphGuardReadsPastTable()
    ensures GlyphIndexAsWritten(127) == Some(GLYPH_COUNT as int)
    ensures !(GlyphIndexAsWritten(127).value < GLYPH_COUNT)
  {
  }

  /** The guard matching the packed range 32..126: exactly the bytes that
      have a table entry pass, and the entry is in bounds. */
  function GlyphIndex(b: u8): (r: Option<nat>)
    ensures r.Some? <==> FIRST_GLYPH <= b as int < FIRST_GLYPH + GLYPH_COUNT
    ensures r.Some? ==> r.value < GLYPH_COUNT && r.value + FIRST_GLYPH == b as int
  {
    if 32 <= b < 127 then Some(b as int - 32) else None
  }

  /** The character packed into table entry `i`. */
  function GlyphChar(i: nat): (b: u8)
    requires i < GLYPH_COUNT
    ensures GlyphIndex(b) == Some(i)
  {
    (i + FIRST_GLYPH) as u8
  }

  /** The two guards agree on every byte except 127. */
  lemma GlyphGuardsAgreeBelow127(b: u8)
    requires b != 127
    ensures GlyphIndex(b).Some? <==> GlyphIndexAsWritten(b).Some?
    ensures GlyphIndex(b).Some? ==> GlyphIndex(b).value == GlyphIndexAsWritten(b).value
  {
  }

  /** Table entries drawn for a string, one per byte that passes the guard. */
  function Glyphs(s: Str): (g: seq<nat>)
    ensures |g| <= |s|
    ensures forall k :: 0 <= k < |g| ==> g[k] < GLYPH_COUNT
  {
    if |s| == 0 then []
    else Glyphs(s[..|s| - 1]) + (match GlyphIndex(s[|s| - 1]) case Some(i) => [i] case None => [])
  }

  /** Sum of the advances of the glyphs of `s`. */
  function Advance(advances: seq<real>, s: Str): real
    requires |advances| == GLYPH_COUNT
  {
    if |s| == 0 then 0.0
    else
      var last := match GlyphIndex(s[|s| - 1]) case Some(i) => advances[i] case None => 0.0;
      Advance(advances, s[..|s| - 1]) + last
  }

  /** The width of a string: the advances of its drawable bytes, read only
      inside the table. */
  method GetStringSize(advances: seq<real>, s: Str) returns (sz: real)
    requires |advances| == GLYPH_COUNT
    ensures sz == Advance(advances, s)
  {
    sz := 0.0;
    var i := 0;
    while i < |s|
      invariant 0 <= i <= |s|
      invariant sz == Advance(advances, s[..i])
    {
      assert s[..i + 1][..i] == s[..i];
      match GlyphIndex(s[i]) {
        case Some(g) => sz := sz + advances[g];
        case None =>
      }
      i := i + 1;
    }
    assert s[..i] == s;
  }

  /** Draws the glyphs of `s` with the font texture, one quad per drawable
      byte; `visible(k)` is the overlap test of the k-th glyph quad. Each
      quad moves on by at most one batch, batches before the starting one are
      left alone, and a string none of whose quads is visible leaves the
      renderer as it was. */
  method DrawString(r: Renderer, font: TextureId, s: Str, visible: nat -> bool) returns (r': Renderer)
    requires Valid(r)
    ensures Valid(r')
    ensures r'.cullQuad == r.cullQuad && r'.offset == r.offset
    ensures r.currentBatch <= r'.currentBatch <= r.currentBatch + |Glyphs(s)|
    ensures |r.batches| <= |r'.batches| <= |r.batches| + |Glyphs(s)|
    ensures forall i :: 0 <= i < r.currentBatch ==> r'.batches[i] == r.batches[i]
    ensures (forall k :: 0 <= k < |Glyphs(s)| ==> !visible(k)) ==> r' == r
  {
    r' := r;
    var i := 0;
    var drawn := 0;
    while i < |s|
      invariant 0 <= i <= |s|
      invariant drawn == |Glyphs(s[..i])|
      invariant Valid(r')
      invariant r'.cullQuad == r.cullQuad && r'.offset == r.offset
      invariant r.currentBatch <= r'.currentBatch <= r.currentBatch + drawn
      invariant |r.batches| <= |r'.batches| <= |r.batches| + drawn
      invariant forall j :: 0 <= j < r.currentBatch ==> r'.batches[j] == r.batches[j]
      invariant (forall k :: 0 <= k < drawn ==> !visible(k)) ==> r' == r
    {
      assert s[..i + 1][..i] == s[..i];
      if GlyphIndex(s[i]).Some? {
        r' := DrawQuad(r', visible(drawn), font);
        drawn := drawn + 1;
      }
      i := i + 1;
    }
    assert s[..i] == s;
  }

  //~ The 8-bit batch index

  /** `R2D_NextBatch` with `current_batch` an 8-bit counter. */
  function NextBatchAsWritten(r: Renderer): (r': Renderer)
    requires r.currentBatch < 256 && r.currentBatch < |r.batches|
    ensures r'.currentBatch == (r.currentBatch + 1) % 256
  {
    var cb := (r.currentBatch + 1) % 256;
    if cb >= |r.batches| then
      r.(batches := r.batches + [FreshBatch()], currentBatch := cb)
    else
      r.(currentBatch := cb)
  }

  /** Below 255 the 8-bit index behaves as the unbounded one. */
  lemma NextBatchAsWrittenAgrees(r: Renderer)
    requires Valid(r) && r.currentBatch < 255
    ensures NextBatchAsWritten(r) == NextBatch(r)
  {
  }

  /** A batch whose eight slots hold textures 0..7, with one quad drawn
      from each. */
  function FullBatch(): (b: Batch)
    ensures BatchValid(b) && |b.textures| == TEXTURE_SLOTS && b.cache.Count() == 8 * QUAD_VERTS
  {
    var vs := seq(8 * QUAD_VERTS, k requires 0 <= k < 8 * QUAD_VERTS => Vertex(k / QUAD_VERTS, 0, 0));
    Batch(VertexCache(vs, MAX_INTERNAL_CACHE_VCOUNT), [0, 1, 2, 3, 4, 5, 6, 7])
  }

  /** A frame that has filled 256 batches, each with eight textures. */
  function WrapWitness(): (r: Renderer)
    ensures |r.batches| == 256 && r.currentBatch == 255
  {
    Renderer(seq(256, _ => FullBatch()), 255, Rect(0.0, 0.0, 1.0, 1.0), Vec2(0.0, 0.0))
  }

  /** With the 8-bit index, moving on from batch 255 lands on batch 0, which
      is not empty: texture 8 then finds no free slot there (so
      `R2D_BatchAddTexture` writes `textures[8]`), and the end of the frame
      draws only batch 0, dropping the vertices of batches 1..255. */
  lemma BatchIndexWrapReusesFullBatch()
    ensures Valid(WrapWitness())
    ensures !CanAddTexture(WrapWitness().batches[255], 8)
    ensures var r' := NextBatchAsWritten(WrapWitness());
      && r'.currentBatch == 0
      && |r'.batches| == 256
      && !EmptyBatch(r'.batches[0])
      && !CanAddTexture(r'.batches[0], 8)
      && |EndDraw(r')| == 1 && r'.batches[1].cache.Count() > 0
  {
    var r := WrapWitness();
    assert forall i :: 0 <= i < 256 ==> r.batches[i] == FullBatch();
    assert 8 !in FullBatch().textures;
  }
}
