# multieditor: batching, query editing, plugin dispatch and plugin pools

This project is a Dafny model of the sequential logic in the multieditor
desktop shell. multieditor is a file explorer that hands opened files to
plugins loaded as native libraries. It has five modules plus a shared
vocabulary module, `Common`:

- `Render2D`: the 2D batch renderer's bookkeeping. This covers the bounded
  vertex cache and its all-or-nothing push, and the texture-slot table of
  each batch (deduplicated, at most eight). It also covers batch rollover,
  the per-frame reset, the batches a frame draws, the saved cull rectangle
  and offset, and the glyph-table guard of the string routines.
- `FileExplorer`: the explorer's two-mode (Regular/Drive) query editor.
  It includes the current/stored query swap, the per-frame selection and
  reset rules of `fexp_update`, and the header and rows `fexp_render`
  draws.
- `PluginHost`: the host in `main.c`. The registry keeps plugins and
  extension lists as two aligned arrays. `check_plugin` chooses the first
  plugin that claims the file's extension. The `plugin_idx` state drives the
  key, button and resize callbacks, one iteration of the main loop, and
  shutdown. Each host operation returns the calls it makes, so "no missing
  entry point is ever called" is a property of that call sequence.
- `ParticlePool`: the particle plugin's 128-slot pool. One spawn happens
  per due tick, into the lowest free slot. Occupied slots are integrated
  and retired when their lifetime runs out.
- `SolidStateLines`: the crystal plugin's line-vertex builder (`PushLine`,
  `Push3X3Lines`) and its 1-based object ids for picking and highlighting.

Some of the program is represented abstractly:

- The arena, scratch and string routines are visible only as declarations.
  The model treats a string as the byte sequence it views. Where the code
  relies on a routine's result (`str_find_first`, `str_eq`, `U_FixFilepath`,
  `Wrap`, `U_GetExtensionFromFilepath`, the ".dll" test), that routine is a
  function-typed parameter. Two assumptions are made about routines whose
  bodies are not part of this model: `str_find_first` reports "absent" as
  the haystack's size, as its callers expect, and `str_cat` yields the
  concatenation of its two views (the model writes it as `+` wherever the
  code builds a path or header with it).
- Key codes and modifier state are inputs. So are directory listings, the
  overlap test of a quad, and the random values of a spawned particle.
- Floating-point values are reals.

## Model

| member | source | states |
|---|---|---|
| Render2D.VertexCacheCreate | source/opt/render_2d.c:85-91 | a new cache is empty, has the requested capacity and satisfies `count <= max_verts` |
| Render2D.VertexCacheReset | source/opt/render_2d.c:93-95 | reset empties the cache, keeps its capacity and keeps `count <= max_verts` |
| Render2D.VertexCachePush | source/opt/render_2d.c:97-103 | succeeds iff `count + n <= max_verts`; on failure nothing changes; on success the old vertices stay as a prefix, the n new ones follow and count rises by exactly n; `count <= max_verts` is preserved |
| Render2D.BatchCanAddTexture | source/opt/render_2d.c:58-65 | true exactly when the batch has fewer than eight textures or already holds an equal one |
| Render2D.BatchAddTexture | source/opt/render_2d.c:67-74 | an already present texture returns its first index and leaves the batch unchanged; otherwise the texture is stored at `tex_count` and the old `tex_count` is returned; at most eight distinct slots are kept |
| Render2D.NextBatch | source/opt/render_2d.c:47-56 | the index rises by one; a fresh empty batch of internal capacity is appended only when the index reaches the end; afterwards the index is in range and the new current batch is empty |
| Render2D.BatchGetCurrent | source/opt/render_2d.c:76-81 | the current batch is kept exactly when it can take the texture and `count + n < max_verts`, otherwise it moves to the next batch; the batch handed back has a slot for the texture and room for n vertices |
| Render2D.FillCurrentBatch | source/opt/render_2d.c:194-247 | with a slot for the texture and room for six vertices, the quad's six vertices follow the current batch's old ones, the textures only grow by the new one, every new vertex samples the slot holding the texture, and no other batch changes |
| Render2D.DrawQuad | source/opt/render_2d.c:187-248 | an invisible quad changes nothing; a visible one stays in the current batch exactly when that batch can take the texture and `count + 6 < max_verts`, otherwise lands in the next (fresh) batch; it appends six vertices there, keeps the earlier vertices and textures, and every new vertex samples the slot holding its texture; at most one batch is added, every other batch is unchanged, the push never fails and the renderer invariant (at most eight textures, count within capacity, later batches empty) is kept |
| Render2D.InitRenderer | source/opt/render_2d.c:107-114 | one empty batch of internal capacity, index 0, cull rectangle equal to the render size, zero offset |
| Render2D.BeginDraw | source/opt/render_2d.c:146-153 | every existing batch gets count 0 and `tex_count` 0 with its capacity kept, the number of batches is unchanged, and the index returns to 0 |
| Render2D.EndDraw | source/opt/render_2d.c:155-165 | batches 0 through the current one are drawn in order; under the invariant no batch holding vertices is left out |
| Render2D.PushCullRect | source/opt/render_2d.c:167-171 | returns the previous cull rectangle and installs the new one; popping with the returned value restores the renderer exactly |
| Render2D.PopCullRect | source/opt/render_2d.c:173-175 | installs the given rectangle and changes nothing else |
| Render2D.PushOffset | source/opt/render_2d.c:177-181 | returns the previous offset and installs the new one; popping with the returned value restores the renderer exactly |
| Render2D.PopOffset | source/opt/render_2d.c:183-185 | installs the given offset and changes nothing else |
| Render2D.NestedCullRectRestores | source/opt/render_2d.c:167-175 | two nested pushes popped in reverse order give back the original renderer |
| Render2D.GlyphIndexAsWritten | source/opt/render_2d.c:264-265 | the guard as written admits exactly the bytes 32..127 and indexes `cdata[b - 32]` |
| Render2D.GlyphGuardReadsPastTable | source/opt/render_2d.h:16 | byte 127 passes that guard and reaches index 95 of the 95-entry table |
| Render2D.GlyphIndex | source/opt/render_2d.c:294-295 | the corrected guard admits exactly the bytes that have a table entry (32..126), and the index is in bounds and maps back to the byte |
| Render2D.GlyphChar | source/opt/render_2d.h:16 | each table entry's character is admitted by the corrected guard and maps back to that entry |
| Render2D.GlyphGuardsAgreeBelow127 | source/opt/render_2d.c:276-277 | on every byte other than 127 the two guards agree, in both directions and on the index |
| Render2D.GetStringSize | source/opt/render_2d.c:291-300 | the loop's result is the sum of the advances of the string's drawable bytes |
| Render2D.DrawString | source/opt/render_2d.c:274-289 | drawing a string keeps the renderer invariant, the cull rectangle and the offset; each drawable byte moves the batch index forward by at most one and adds at most one batch; batches before the starting one are untouched; a string none of whose glyph quads is visible leaves the renderer unchanged |
| Render2D.NextBatchAsWritten | source/opt/render_2d.h:64 | with the 8-bit `current_batch` the index after a rollover is `(index + 1) mod 256` |
| Render2D.NextBatchAsWrittenAgrees | source/opt/render_2d.c:47-56 | below index 255 the 8-bit rollover is identical to the unbounded one |
| Render2D.BatchIndexWrapReusesFullBatch | source/opt/render_2d.c:47-56 | a valid frame with 256 full batches wraps to batch 0, which is not empty and has no slot for a ninth texture; `EndDraw` then draws batch 0 only, although batch 1 holds vertices |
| FileExplorer.Init | source/client/fexp.c:5-12 | both query buffers have `PATH_MAX` bytes; the query is empty; mode is Regular; not inited; the path is the current directory |
| FileExplorer.Swap | source/client/fexp.c:129-138 | current and stored queries trade buffers and indices; the path is unchanged |
| FileExplorer.EnterDrive | source/client/fexp.c:118-128 | Enter in Drive mode stores the edited buffer with its length, resumes on the other buffer at index 0, makes the typed text the path, switches to Regular and sets the switch flag; the path is an owned copy |
| FileExplorer.EnterDriveAsWritten | source/client/fexp.c:124-125 | as written, the path is a view of the stored buffer; it reads the typed text and differs from the corrected state only in that view |
| FileExplorer.Append | source/client/fexp.c:157-187 | one byte is written at the query index and the index rises by one, so the query grows by exactly that byte; at a full `PATH_MAX` buffer the write would overflow, and this is reported as `QueryOverflow` |
| FileExplorer.EditKey | source/client/fexp.c:129-188 | every key other than Drive-mode Enter keeps the state well formed and never touches the path; a fault only arises with the buffer full |
| FileExplorer.InputKey | source/client/fexp.c:115-190 | non-press actions change nothing; only Enter in Drive mode changes the path; an owned path stays owned; an overflow only occurs at a full buffer |
| FileExplorer.InputKeyAsWritten | source/client/fexp.c:115-128 | the function as written differs from `InputKey` only on Enter in Drive mode |
| FileExplorer.KeyAppends | source/client/fexp.c:157-187 | a letter (lower-cased without Shift), period/minus/apostrophe, Shift+Minus ('_') or semicolon (':' with Shift) writes exactly that byte at the index and advances it by one, leaving the stored query, mode and path alone; with the buffer full it overflows |
| FileExplorer.BackspaceClamps | source/client/fexp.c:179-183 | Backspace without Control steps the index back by one but never below 0, keeps the buffers and mode, and clears `inited` |
| FileExplorer.DriveRoundTrip | source/client/fexp.c:129-153 | Ctrl+D in Regular mode swaps in the stored query and enters Drive mode; Escape then restores both buffers, both indices and the mode |
| FileExplorer.Replay | source/client/fexp.c:115-190 | replaying presses keeps the state well formed, and no presses leave it unchanged |
| FileExplorer.CancelledEditMovesAliasedPath | source/client/fexp.c:124-125 | with the aliasing path, typing "c:", Enter, Ctrl+D, Backspace, 'Y' and Escape moves the folder to "cy" |
| FileExplorer.CancelledEditKeepsOwnedPath | source/client/fexp.c:118-128 | with the copied path, the same presses leave the folder at "c:" |
| FileExplorer.U32Sub | source/client/fexp.c:44 | `latest_count - 1` in 32-bit unsigned arithmetic is below 2^32, equals the true difference when no wrap occurs, and wraps to `a - b + 2^32` when it goes negative (0 - 1 gives 2^32 - 1) |
| FileExplorer.CountMatches | source/client/fexp.c:24-33 | the count pass counts exactly the entries whose name contains the query |
| FileExplorer.SelectionPass | source/client/fexp.c:48-79 | the selection is the match at position `selected_index` in listing order, and it is opened only when Enter was pressed; out of range there is no selection |
| FileExplorer.FinishUpdate | source/client/fexp.c:81-110 | Ctrl+Backspace goes up a folder, or clears a path without "/"; a folder change zeroes the selection and query index and clears `inited`; otherwise the stepped selection is kept and `inited` is set; the switch flag is always cleared |
| FileExplorer.Opening | source/client/fexp.c:46-79 | something is opened iff Enter was pressed without a mode switch and the stepped selection is a match; a folder match opens as a folder, a file match opens with path + "/" + name |
| FileExplorer.UpdatedExplorer | source/client/fexp.c:14-113 | a folder opened without Ctrl+Backspace becomes the fixed path + "/" + name; opening or switching zeroes selection and query index and clears `inited`; otherwise the path and query index are kept, the selection is the stepped one and `inited` is set |
| FileExplorer.Update | source/client/fexp.c:14-113 | the state it leaves is `UpdatedExplorer` and what it opens is `Opening`; `latest_count` is the number of matches; the selection is the stepped match, or empty out of range; an entry is opened iff Enter was pressed without a mode switch and the selection is in range; a folder opens as a folder and a file opens with its full path; opening or switching resets selection, query index and `inited` |
| FileExplorer.RenderPass | source/client/fexp.c:193-227 | the header is "Enter Drive: " plus the query in Drive mode, and path + "/" + query in Regular mode; in Regular mode the rows are the matching names in listing order |
| FileExplorer.PassesAgree | source/client/fexp.c:30 | the count, selection and render passes use one predicate: the rows are as many as the count and row s is match s |
| PluginHost.CallIfPresent | source/main.c:100-101 | an entry point is called exactly when the plugin exports it |
| PluginHost.FilloutPluginStructures | source/main.c:42-92 | one plugin and one extension list per library file, in listing order; a library without `Extensions` gets an empty list, so both arrays keep the same length |
| PluginHost.CheckPlugin | source/main.c:130-146 | returns true iff some plugin lists the file's extension; on a match the first such plugin becomes active and gets `Init` with the path if it has one; without a match nothing changes |
| PluginHost.KeyCallback | source/main.c:94-110 | with no plugin active the explorer takes the key; with one active, Alt+LeftArrow press frees it (if it exports `Free`) and deactivates it, any other press does nothing, and a non-press event goes to the plugin's key handler if present; the explorer and registry are untouched |
| PluginHost.ButtonCallback | source/main.c:112-117 | a button goes only to an active plugin that has a button handler |
| PluginHost.ResizeCallback | source/main.c:119-128 | a zero width or height does nothing; otherwise the viewport follows first, and a second call, the resize hook of the active plugin with the same size, happens exactly when that plugin has a resize handler |
| PluginHost.RouteOpened | source/client/fexp.c:58-69 | an opened file activates the first plugin claiming its extension, which gets `Init` with the path if present; a file no plugin claims goes to the OS; an opened folder or nothing makes no call; the explorer and registry are left alone |
| PluginHost.RenderCalls | source/main.c:190-204 | with no plugin the explorer renders; otherwise the plugin's custom-render hook then its render hook, each exactly when present, and the explorer does not render |
| PluginHost.Frame | source/main.c:177-207 | with a plugin active, its update and render hooks run if present and nothing else changes; otherwise the explorer state becomes `UpdatedExplorer`; a plugin becomes active iff the opened entry is a file whose extension some plugin claims, and then it is the first claimer and gets `Init` with the path; an unclaimed file goes to the OS; the explorer renders iff no plugin is active afterwards; every plugin call is to an exported entry point |
| PluginHost.Shutdown | source/main.c:209-212 | leaving the loop frees the active plugin exactly when it exports `Free` |
| PluginHost.Startup | source/main.c:35-38 | start-up has no active plugin (`plugin_idx == -1`), the registry holds one plugin and one extension list per library file in listing order, and the explorer is `FileExplorer.Init` of the working directory |
| ParticlePool.Init | source/plugins/psys_plug.c:47-48 | every one of the 128 slots is free |
| ParticlePool.LowestFree | source/plugins/psys_plug.c:82-84 | finds the lowest-index free slot, or reports that every slot is used |
| ParticlePool.OccupyOne | source/plugins/psys_plug.c:84 | occupying a free slot raises the occupied count by exactly one |
| ParticlePool.Spawn | source/plugins/psys_plug.c:80-116 | before the timer is due nothing but the timer changes; when due, the lowest free slot takes the new particle and no other flag changes; a full pool spawns nothing; the timer restarts at 0 whenever the spawn is due |
| ParticlePool.Advance | source/plugins/psys_plug.c:120-129 | one step lowers the lifetime by dt and keeps the acceleration and colour rate |
| ParticlePool.Integrate | source/plugins/psys_plug.c:118-134 | only occupied slots are advanced; an occupied slot becomes free exactly when its decremented lifetime is <= 0; free slots are untouched |
| ParticlePool.Update | source/plugins/psys_plug.c:79-135 | the timer rule of the spawn holds; at most one slot becomes newly occupied per update, and only when the spawn is due; that slot is the lowest free one and holds the spawned particle advanced by dt, kept only if its lifetime stays above 0; every previously occupied slot is advanced by dt and freed exactly when its lifetime drops to 0 or below; other free slots are untouched |
| SolidStateLines.PushLine | source/plugins/solid_state_plug.c:144-149 | writes a then b, both with colour c, at the old count and the old count + 1, advances the count by 2, and changes nothing else |
| SolidStateLines.PushSegments | source/plugins/solid_state_plug.c:154-165 | a run of `PushLine` calls leaves the filled part holding the segments in order and writes nothing past the new count |
| SolidStateLines.PushBothSides | source/plugins/solid_state_plug.c:170-179 | the loop `i = -1; i != 3; i += 2` runs its body for i = -1 and then i = 1 |
| SolidStateLines.Push3X3Lines | source/plugins/solid_state_plug.c:151-262 | the count restarts at 0; without the lattice the 12 cube edges give 24 vertices; with it all 144 lines give 288 vertices, exactly the capacity of `lines_data` |
| SolidStateLines.UploadCoversDrawn | source/plugins/solid_state_plug.c:411-448 | the `LINE_COUNT * 2` vertices uploaded cover the drawn count, and they are equal exactly when the lattice is on |
| SolidStateLines.ObjectId | source/plugins/solid_state_plug.c:442 | object ids are 1-based, so id 0 means "none" |
| SolidStateLines.InitSelectsNothing | source/plugins/solid_state_plug.c:338 | the initial selection 0 highlights no object |
| SolidStateLines.PickHighlightsOne | source/plugins/solid_state_plug.c:439 | selecting object i's id highlights object i and no other |
| SolidStateLines.Release | source/plugins/solid_state_plug.c:514-520 | a click released where it was pressed stores the picked pixel's `i32` value converted to `u32` (a negative value wraps by 2^32); otherwise the selection is kept |

## Left out

- Arena, scratch and string bodies: only their declarations are visible. Strings are the byte sequences they view, and allocation is not modelled.
- GPU and backend calls (`R_*`, shaders, buffers, framebuffers, `R2D_ResizeProjection`): these are external; `EndDraw` returns the vertex lists it would upload.
- The vertex geometry (positions, UVs, colours, rounding, `rect_overlaps`, `rect_uv_cull`, `vec2_clamp`): float geometry is out of scope. A vertex keeps its texture slot and corner id, and the overlap test is the input `visible`.
- `R2D_DrawStringC` (source/opt/render_2d.c:262-272): it differs from `R2D_DrawString` only in the colour, so `Render2D.DrawString` stands for both.
- Render2D.VertexCachePush: does not model the 32-bit wrap of `count + vertex_count`, because every caller pushes six vertices into a cache of 1024.
- Render2D.DrawString: uses the corrected glyph guard (bytes 32..126), so byte 127, for which the code reads past the glyph table, draws nothing. It states batch movement and the unchanged cases, not each glyph's vertices: those are `Render2D.DrawQuad`'s contract, and glyph positions are float geometry.
- Render2D.GetStringSize: uses the corrected glyph guard (bytes 32..126); byte 127, whose advance the code reads from past the table, adds nothing.
- Render2D.BatchGetCurrent, Render2D.DrawQuad, Render2D.DrawString: these use `Render2D.NextBatch`, whose batch index is unbounded, so a rollover always lands on an empty batch. The code's 8-bit index wraps to the full batch 0 on the 256th rollover of a frame; that behaviour is the second row of "## Findings" (`Render2D.NextBatchAsWritten`, `Render2D.BatchIndexWrapReusesFullBatch`).
- Font loading (stb_truetype), file I/O, OBJ loading (`core/helpers.c`), the UI widgets (`opt/ui.c`), the PNG plugin, camera and transforms: these are foreign libraries, float numerics or thin wrappers.
- The explorer's selection-rectangle animation and target geometry (source/client/fexp.c:19-22, 97-104): float geometry. Only its effect on `inited` is modelled.
- FileExplorer.Update: `latest_count` is a `u32`. Its wrap past 2^32 entries is not modelled; the wrap of `latest_count - 1` is (`FileExplorer.U32Sub`).
- `str_find_first`, `Wrap`, `U_FixFilepath`, `U_GetExtensionFromFilepath`, `str_eq` and the ".dll" test of `FilloutPluginStructures` are abstract parameters, because their bodies are not part of this model.
- The initial contents of the query buffers (`str_alloc` does not clear them) are modelled as zeros. The code never reads them before writing.
- The Windows key codes are a well-formed record of distinct non-letter codes, because the key-code header is not part of this model.
- `button_callback` is modelled as written, although `main` registers only the key and resize callbacks (source/main.c:160-161).
- Plugin data files: loading and saving the particle and crystal settings is I/O. The particle plugin's `random_float_pm` draws from `rand` seeded by the clock, so the spawned particle is an input.
- ParticlePool: drawing the occupied particles is renderer calls only.
- SolidStateLines: the spheres' meshes, the framebuffer read and the 3D camera are GPU and float work. The picked pixel value is an input.
- SolidStateLines.Release: the test "released where it was pressed" compares `u32` press coordinates with float mouse coordinates, and it is the input `samePlace`.
- FileExplorer.Append: `str_alloc` may reserve one extra byte for a terminator. The model takes the buffer to hold exactly `PATH_MAX` bytes, the size the code asks for, and reports a write at that index as `QueryOverflow` rather than excluding it by a precondition.

## Findings

| source | as written | input that shows it | evidently intended | confidence | as-written member | corrected member |
|---|---|---|---|---|---|---|
| source/opt/render_2d.c:264-265, 276-277, 294-295; source/opt/render_2d.h:16 | the glyph guard admits bytes 32..127 and reads `cdata[b - 32]` from a 95-entry table | a string containing byte 127 (DEL) reads `cdata[95]`, one past the end | only bytes 32..126, which have packed glyphs, are drawn or measured | not executed | Render2D.GlyphGuardReadsPastTable | Render2D.GlyphIndex |
| source/opt/render_2d.c:47-56; source/opt/render_2d.h:64 | `current_batch` is a `u8`, so the 256th rollover in a frame wraps to batch 0 while batch 0 is still full | one frame of quads that cycles through nine or more distinct textures fills 256 batches; the next quad reuses batch 0, `R2D_BatchAddTexture` writes `textures[8]`, and `R2D_EndDraw` draws only batch 0 | the batch index keeps rising, and each rollover lands on an empty batch | not executed | Render2D.BatchIndexWrapReusesFullBatch | Render2D.NextBatch |
| source/client/fexp.c:118-128 | Enter in Drive mode makes `current_filepath` a view of the stored query buffer (lines 124-125), and Ctrl+D later makes that buffer the one being edited | type "c:" in Drive mode and press Enter, then Ctrl+D, Backspace, 'Y' and Escape: the folder changes from "c:" to "cy" although the edit was cancelled | the entered path is kept independently of the query buffers | not executed | FileExplorer.CancelledEditMovesAliasedPath | FileExplorer.CancelledEditKeepsOwnedPath |
