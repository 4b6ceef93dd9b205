# nCine: ImGui command pool, timer and render-command records in Dafny

A model of three sequential pieces of the nCine renderer, with proofs of what
they promise.

- **The ImGui command pool and draw-list splitter** (`ImGuiDrawing`).
  - `retrieveCommandFromPool` hands out a command. It searches the `free`
    commands for the first one that uses the ImGui shader and moves it to
    `used` with a swap-remove. If none matches, it creates a new command
    configured by `setupRenderCmd`.
  - `resetCommandPool` returns every used command to `free`.
  - `draw(RenderQueue &)` turns ImGui's draw lists into render commands.
    Each list gets one owning upload of its vertices and indices. Each ImGui
    command gets an index sub-range, built by accumulating element counts in
    a `GLushort`. Its layer is the HUD base plus a frame-wide command count.
    Commands whose clip rectangle is culled are not submitted, and the others
    get a scissor box flipped to OpenGL's origin.
- **`ncTimer`**: a stopwatch with a running flag, start and stop instants and
  a total. The instants and the total are `unsigned long` values, so they wrap
  around.
- **The render-command records** (`ncRenderMaterial`,
  `ncRenderTransformation`, `ncRenderGeometry`, `ncRenderCommand`): their
  constructors, setters and accessors.

Modules:

| file | module | contents |
|---|---|---|
| `wrappers.dfy` | `Wrappers` | `Option` |
| `timer.dfy` | `Timer` | the timer as pure transitions, with the clock value `now` as an argument |
| `render_command.dfy` | `RenderCommand` | the records and their setters |
| `imgui_command.dfy` | `ImGuiCommand` | the fields of a render command that the ImGui code reads or writes, and `setupRenderCmd` |
| `imgui_pool.dfy` | `ImGuiPool` | the pool (`free`, `used`, number of commands created), retrieval, reset, and the pool invariant |
| `imgui_draw.dfy` | `ImGuiDraw` | `draw(RenderQueue &)` as a pure fold over lists and commands |
| `imgui_plan.dfy` | `ImGuiPlan` | a reference definition of what `draw` submits, without the pool, and the proof that `draw` follows it |
| `imgui_facts.dfy` | `ImGuiFacts` | layers, index ranges, pool growth over a frame, buffer ownership |

The pool invariant `PoolInv` combines two facts:

- every identity below `created` occurs exactly once in `free` and `used`
  together, and no other identity occurs;
- every command in the pool is configured by `setupRenderCmd`.

The reference `Plan` gives, for every visible ImGui command in order, one
entry:

- the first index is the wrapped sum of the element counts before the command
  in its list;
- the layer is the HUD base plus the command's position in the frame;
- the command shares its list's buffers unless it is the list's first.

`DrawFollowsPlan` proves that the operational `Draw` submits exactly this plan.

## Model

| member | source | states |
|---|---|---|
| `Timer.Sub` | src/ncTimer.cpp:44-47 | unsigned subtraction gives the tick count from the second value forward to the first, modulo 2^64; it is the plain difference when there is no borrow |
| `Timer.Add` | src/ncTimer.cpp:29 | unsigned addition is the exact sum, less 2^64 when that sum overflows |
| `Timer.GetInterval` | src/ncTimer.cpp:41-49 | the interval runs from the start to `now` while running, and to the stop instant otherwise (modulo 2^64) |
| `Timer.GetTotal` | src/ncTimer.cpp:52-55 | the accumulated total, read without a change of state |
| `Timer.Reset` | src/ncTimer.cpp:10-15 | stopped, start = stop = total = 0, and the interval reads 0 at any clock value |
| `Timer.Start` | src/ncTimer.cpp:18-22 | running, start = now, stop = 0, total = 0, and the interval reads 0 at once |
| `Timer.Continue` | src/ncTimer.cpp:33-37 | running from `now`; stop and total unchanged |
| `Timer.Stop` | src/ncTimer.cpp:25-30 | stopped at `now`; the total grows by the interval just measured (wrapping); the frozen interval is the same whatever the clock says later |
| `Timer.TwoIntervalsAccumulate` | src/ncTimer.cpp:18-37 | start, stop, continue, stop: the total is the sum of the two measured intervals |
| `Timer.StoppedIntervalIsFrozen` | src/ncTimer.cpp:41-49 | after a stop, the interval no longer depends on the clock, and equals the running interval at the stop instant |
| `Timer.StopTwiceCountsTwice` | src/ncTimer.cpp:25-30 | stopping a stopped timer adds the time since the last start a second time |
| `RenderCommand.MaterialOf` | include/ncRenderCommand.h:24-29 | the colour is the array's first four entries; the texture is the one given |
| `RenderCommand.MaterialWithTexture` | include/ncRenderCommand.h:30-34 | opaque white with the given texture |
| `RenderCommand.DefaultMaterial` | include/ncRenderCommand.h:35-39 | opaque white, texture 0: the texture-only constructor applied to 0 |
| `RenderCommand.SetColor` | include/ncRenderCommand.h:41-45 | all four components are overwritten; the texture is unchanged |
| `RenderCommand.SetColorArray` | include/ncRenderCommand.h:47-51 | the array overload agrees with the component overload and with the array constructor |
| `RenderCommand.TextureGLId` | include/ncRenderCommand.h:53 | the stored texture name |
| `RenderCommand.SetTextureGLId` | include/ncRenderCommand.h:54 | the texture reads back as set; the colour is unchanged |
| `RenderCommand.TextureRoundTrip` | include/ncRenderCommand.h:41-54 | set-then-get returns the value; the last of two sets wins; setting the current value is the identity; the texture setter commutes with the colour setter for every colour |
| `RenderCommand.DefaultTransformation` | include/ncRenderCommand.h:67 | unit scale at the origin: the position constructor at (0, 0) |
| `RenderCommand.TransformationAt` | include/ncRenderCommand.h:69-70 | unit scale at the given position |
| `RenderCommand.SetScale` | include/ncRenderCommand.h:72-75 | only the scale changes |
| `RenderCommand.SetPosition` | include/ncRenderCommand.h:77-80 | only the position changes |
| `RenderCommand.ScaleAndPositionCommute` | include/ncRenderCommand.h:72-80 | the two setters commute, and together they determine the whole transformation |
| `RenderCommand.GeometryOf` | include/ncRenderCommand.h:95-98 | the five-argument constructor stores each argument in its field |
| `RenderCommand.TriangleGeometry` | include/ncRenderCommand.h:99-102 | the three-argument constructor is the five-argument one with `GL_TRIANGLES` and first vertex 0 |
| `RenderCommand.DefaultGeometry` | include/ncRenderCommand.h:103-106 | triangles, first vertex 0, no vertices, two null pointers |
| `RenderCommand.SetData` | include/ncRenderCommand.h:108-115 | the result is the five-argument constructor applied to the arguments |
| `RenderCommand.SetDataForgetsPrevious` | include/ncRenderCommand.h:108-115 | the result does not depend on the geometry it overwrites |
| `RenderCommand.Priority` | include/ncRenderCommand.h:165 | the stored priority |
| `RenderCommand.SortKey` | include/ncRenderCommand.h:174 | the stored sort key, read without recomputing it |
| `RenderCommand.SetPriority` | include/ncRenderCommand.h:166 | only the priority changes; the stored sort key stays |
| `RenderCommand.SetMaterial` | include/ncRenderCommand.h:168 | writing through the mutable material accessor changes the material only |
| `RenderCommand.SetTransformation` | include/ncRenderCommand.h:170 | writing through the mutable transformation accessor changes the transformation only |
| `RenderCommand.SetGeometry` | include/ncRenderCommand.h:172 | writing through the mutable geometry accessor changes the geometry only |
| `RenderCommand.PriorityRoundTrip` | include/ncRenderCommand.h:165-174 | the priority reads back as set; no setter changes the sort key; restoring the old priority restores the command |
| `ImGuiCommand.SetupRenderCmd` | src/graphics/ImGuiDrawing.cpp:153-170 | a new command gets the ImGui shader, IMGUI profiling, texture unit 0, transparency, the vertex size, and draw parameters (triangles, 0, 0); nothing is uploaded or placed yet |
| `ImGuiPool.FindCompatible` | src/graphics/ImGuiDrawing.cpp:121-133 | the first free index at or after `i` whose command uses the ImGui shader; none when no command from `i` on matches |
| `ImGuiPool.SwapRemove` | src/graphics/ImGuiDrawing.cpp:127-129 | one shorter; the removed slot holds the former last element; every other slot is unchanged |
| `ImGuiPool.Retrieve` | src/graphics/ImGuiDrawing.cpp:117-144 | the first compatible free command is moved to the end of `used` by a swap-remove, or else a new configured command is appended and `free` is unchanged; the command returned is the last one used; the commands held grow by the number created |
| `ImGuiPool.ResetCommandPool` | src/graphics/ImGuiDrawing.cpp:146-151 | `used` is empty and `free` is the old `free` followed by the old `used`, in order |
| `ImGuiPool.CensusAsBags` | src/graphics/ImGuiDrawing.cpp:117-151 | the census is equivalent to: the identities of `free` and `used` together are the bag {0, ..., created - 1} |
| `ImGuiPool.EmptyPoolInv` | src/graphics/ImGuiDrawing.cpp:31-34 | the two empty pools the drawer is constructed with satisfy the invariant |
| `ImGuiPool.PoolInvConservation` | src/graphics/ImGuiDrawing.cpp:117-151 | under the invariant, `free` and `used` together hold exactly the commands created, and no command is both free and used |
| `ImGuiPool.RetrievePreservesInv` | src/graphics/ImGuiDrawing.cpp:117-144 | a retrieval preserves the invariant |
| `ImGuiPool.RecycleKeepsInv` | src/graphics/ImGuiDrawing.cpp:121-131 | moving a free command to `used` by a swap-remove preserves the invariant |
| `ImGuiPool.AllocateKeepsInv` | src/graphics/ImGuiDrawing.cpp:135-141 | appending a newly created command preserves the invariant |
| `ImGuiPool.ResetPreservesInv` | src/graphics/ImGuiDrawing.cpp:146-151 | a reset preserves the invariant |
| `ImGuiPool.ReplaceLastPreservesInv` | src/graphics/ImGuiDrawing.cpp:197-234 | changing the last used command in place, keeping its identity and configuration, preserves the invariant |
| `ImGuiPool.RetrieveFromConsistentPool` | src/graphics/ImGuiDrawing.cpp:121-141 | when every free command is configured, a retrieval takes `free[0]` and allocates nothing, or allocates exactly one command when `free` is empty |
| `ImGuiPool.RetrieveAfterResetRecycles` | src/graphics/ImGuiDrawing.cpp:117-151 | after a reset of a non-empty consistent pool, the next retrieval recycles the first command of the old `free` (or of the old `used` when `free` was empty) without allocating |
| `ImGuiDraw.Wrap` | src/graphics/ImGuiDrawing.cpp:192 | a `GLushort` counter stays below 65536 and is exact below it; an unbounded counter is exact; neither exceeds the exact count |
| `ImGuiDraw.Advance` | src/graphics/ImGuiDrawing.cpp:236 | `firstIndex += ElemCount` in the counter's type |
| `ImGuiDraw.Relative` | src/graphics/ImGuiDrawing.cpp:217 | the clip rectangle shifted by the display position |
| `ImGuiDraw.Visible` | src/graphics/ImGuiDrawing.cpp:218 | the culling test: x below the framebuffer width, y below its height, z and w at least 0 |
| `ImGuiDraw.AdvanceWrap` | src/graphics/ImGuiDrawing.cpp:236 | adding element counts one at a time gives the wrapped total |
| `ImGuiDraw.ScissorOf` | src/graphics/ImGuiDrawing.cpp:220-221 | the scissor box is the clip rectangle with its y axis flipped against the framebuffer height |
| `ImGuiDraw.Upload` | src/graphics/ImGuiDrawing.cpp:195-210 | the first command of a list gets the projection when it is given, and owns buffers sized by the list; its identity, configuration and placement are kept |
| `ImGuiDraw.Place` | src/graphics/ImGuiDrawing.cpp:215-237 | a visible command is placed (scissor, index count, first index, layer, texture), shares the first command's buffers unless it is the first, and is appended to the queue; a culled one changes nothing but the count |
| `ImGuiDraw.DrawCmdStep` | src/graphics/ImGuiDrawing.cpp:212-238 | one iteration counts one command, retrieves one unless it is the first, and only appends to the queue |
| `ImGuiDraw.DrawCmds` | src/graphics/ImGuiDrawing.cpp:212-238 | the inner loop counts every command and retrieves one per command but the first; it only appends to the queue |
| `ImGuiDraw.ListStart` | src/graphics/ImGuiDrawing.cpp:194-210 | a list's first command is retrieved and owns the upload; the projection size is recorded |
| `ImGuiDraw.DrawOneList` | src/graphics/ImGuiDrawing.cpp:189-239 | a list takes max(1, number of commands) pool commands, whatever is culled, and counts all of its commands |
| `ImGuiDraw.DrawListsFrom` | src/graphics/ImGuiDrawing.cpp:189-239 | the lists take `Needed` pool commands and count all their commands; the queue is only appended to |
| `ImGuiDraw.Draw` | src/graphics/ImGuiDrawing.cpp:172-240 | an empty framebuffer changes nothing at all; otherwise the pool ends with `Needed` used commands and the queue is only appended to |
| `ImGuiPlan.PlaceFollowsEntry` | src/graphics/ImGuiDrawing.cpp:215-237 | one placement appends exactly the plan's entry for the command, or nothing when the command is culled |
| `ImGuiPlan.DrawCmdsFollowsPlan` | src/graphics/ImGuiDrawing.cpp:212-238 | the inner loop appends exactly the list's plan from command `k` on |
| `ImGuiPlan.DrawOneListFollowsPlan` | src/graphics/ImGuiDrawing.cpp:189-239 | one list appends exactly its plan |
| `ImGuiPlan.DrawListsFollowsPlan` | src/graphics/ImGuiDrawing.cpp:189-239 | the lists from `n` on append exactly their plans, in order |
| `ImGuiPlan.DrawFollowsPlan` | src/graphics/ImGuiDrawing.cpp:172-240 | `draw` appends nothing for an empty framebuffer and the whole plan otherwise |
| `ImGuiFacts.ListPlanLayers` | src/graphics/ImGuiDrawing.cpp:229-237 | a list's submitted layers lie within its own command positions and strictly increase |
| `ImGuiFacts.PlanLayers` | src/graphics/ImGuiDrawing.cpp:187-239 | the layers of all lists lie within the frame's command count and strictly increase |
| `ImGuiFacts.DrawLayersIncreasing` | src/graphics/ImGuiDrawing.cpp:187-237 | every submitted layer lies in [HUD, HUD + number of commands), and the layers strictly increase in submission order |
| `ImGuiFacts.ListPlanRanges` | src/graphics/ImGuiDrawing.cpp:229-236 | with an unbounded counter, the sub-ranges from command `k` on lie after the earlier commands' indices, end within the sum of the list's element counts, and increase |
| `ImGuiFacts.WideRangesDisjoint` | src/graphics/ImGuiDrawing.cpp:192-236 | with an unbounded counter, a list's submitted sub-ranges are disjoint, increasing, and end within the sum of the list's element counts |
| `ImGuiFacts.ListPlanEnds` | src/graphics/ImGuiDrawing.cpp:229-236 | with either counter, every planned sub-range from command `k` on ends within the sum of the list's element counts, since wrapping only lowers a first index |
| `ImGuiFacts.DrawOneListRangesWithinUpload` | src/graphics/ImGuiDrawing.cpp:202-236 | with either counter, when the element counts sum to at most the list's index count, every range the list submits ends within the index upload its first command owns |
| `ImGuiFacts.ListPlanAllVisible` | src/graphics/ImGuiDrawing.cpp:212-238 | with no culling, the list's plan has one entry per command, in order |
| `ImGuiFacts.ConsecutiveEntries` | src/graphics/ImGuiDrawing.cpp:229-236 | the next command's first index is the counter advanced past this command's indices |
| `ImGuiFacts.EntriesContiguous` | src/graphics/ImGuiDrawing.cpp:229-236 | the entries of a whole list draw their own counts, and each starts where the previous one ends |
| `ImGuiFacts.ContiguousWhenAllVisible` | src/graphics/ImGuiDrawing.cpp:212-238 | with no culling, a list's sub-ranges are contiguous and draw each command's count |
| `ImGuiFacts.OneListOfTwoSubmitsBoth` | src/graphics/ImGuiDrawing.cpp:212-238 | a frame of one list with two visible commands submits both, with the plan's placements |
| `ImGuiFacts.UShortFirstIndexOverlaps` | src/graphics/ImGuiDrawing.cpp:192-236 | with the `GLushort` counter, a first command of 65536 or more indices makes the second command's range start inside the first's |
| `ImGuiFacts.WideFirstIndexContinues` | src/graphics/ImGuiDrawing.cpp:192-236 | with an unbounded counter, the second command starts exactly where the first one's range ends |
| `ImGuiFacts.PlaceKeepsInv` | src/graphics/ImGuiDrawing.cpp:215-234 | placing a command preserves the pool invariant |
| `ImGuiFacts.RetrieveCounts` | src/graphics/ImGuiDrawing.cpp:117-144 | a retrieval from a pool whose free commands are configured takes one free command, or creates one when none is left, and the rest stay configured |
| `ImGuiFacts.DrawCmdStepKeepsInv` | src/graphics/ImGuiDrawing.cpp:212-237 | one iteration of the inner loop preserves the pool invariant |
| `ImGuiFacts.DrawCmdsKeepsInv` | src/graphics/ImGuiDrawing.cpp:212-238 | the inner loop preserves the pool invariant |
| `ImGuiFacts.ListStartKeepsInv` | src/graphics/ImGuiDrawing.cpp:194-210 | a list's start preserves the pool invariant |
| `ImGuiFacts.DrawOneListKeepsInv` | src/graphics/ImGuiDrawing.cpp:189-239 | one list preserves the pool invariant |
| `ImGuiFacts.DrawListsKeepsInv` | src/graphics/ImGuiDrawing.cpp:189-239 | the lists preserve the pool invariant |
| `ImGuiFacts.RetrieveNAdd` | src/graphics/ImGuiDrawing.cpp:117-144 | `a + b` retrievals in a row leave `free` and `created` as `a` retrievals followed by `b` do |
| `ImGuiFacts.RetrieveNTakes` | src/graphics/ImGuiDrawing.cpp:117-144 | `n` retrievals from a configured pool use up the free commands first and create only the shortfall |
| `ImGuiFacts.DrawCmdsStock` | src/graphics/ImGuiDrawing.cpp:212-238 | the inner loop leaves `free` and `created` as one bare retrieval per command but the first would |
| `ImGuiFacts.ListStartStock` | src/graphics/ImGuiDrawing.cpp:194-210 | a list's start leaves `free` and `created` as one retrieval would |
| `ImGuiFacts.DrawOneListStock` | src/graphics/ImGuiDrawing.cpp:189-239 | a list leaves `free` and `created` as max(1, number of commands) retrievals would |
| `ImGuiFacts.DrawListsStock` | src/graphics/ImGuiDrawing.cpp:189-239 | the lists leave `free` and `created` as `Needed` retrievals would |
| `ImGuiFacts.DrawPoolGrowth` | src/graphics/ImGuiDrawing.cpp:172-240 | over a frame the pool stays consistent and ends with `Needed` used commands; it holds the larger of its old size and the frame's need, so a frame no larger than an earlier one allocates nothing |
| `ImGuiFacts.DrawCmdStepOwner` | src/graphics/ImGuiDrawing.cpp:215-227 | one iteration keeps the earlier used commands and the first command's uploads, and submits only commands that share the first command's buffers |
| `ImGuiFacts.DrawCmdsOwner` | src/graphics/ImGuiDrawing.cpp:212-238 | the inner loop keeps the first command's uploads and submits only commands that share its buffers |
| `ImGuiFacts.DrawOneListFirstCommand` | src/graphics/ImGuiDrawing.cpp:194-227 | each list uploads once, into its first command, which gets the projection exactly when the display size changed; every other submitted command of the list shares that command's buffers |

## Left out

- GL state, shaders, vertex attribute layouts and `memcpy` uploads. A command
  records only the sizes of what it uploads, and the layout of `ImDrawVert`
  appears only as the parameter `floatsPerVertex`.
- Floating point. The framebuffer size is taken after its cast to `int`. The
  display position and clip rectangles are taken as integers after
  `ScaleClipRects`. The display size compared for the projection is a `real`.
  Colour and scale values are `real` values that are only stored.
- The HUD layer base (`DrawableNode::LayerBase::HUD`) is not part of this
  model. It is the parameter `hudLayer`.
- `ImGuiFacts.DrawLayersIncreasing`: `numCmd` (`unsigned int`) and the layer
  `HUD + numCmd` are unbounded here. The layer is exact only while
  hudLayer + TotalCmds(lists, 0) < 2^32, assuming `setLayer` takes at least
  32 bits (its declaration is not part of this model). Beyond that bound the
  source's layers wrap and stop increasing.
- `unsigned long` is taken to be 64 bits wide, as on LP64 targets.
- `GetNow` (an SDL clock call) is the argument `now`.
- `Bind`, `Apply`, `Draw`, `Issue` and `CalculateSortKey` have no bodies in
  the source, and the render queue's sort and issue logic is not part of this
  model. The sort key is only stored and read.
- The null check on a pool slot (`command &&`) is not modelled, because the
  pool's slots are never null.
- `ncPoint` is not part of this model. A point is a pair of integers.
- The ImGuiDrawing constructor, `newFrame`, `setupBuffersAndShader` and the
  immediate-mode `draw()`. They create GL objects, read shader files and
  compute the projection in floats. The projection matrix is an input of the
  frame and is only stored.
- The render queue is modelled as a sequence of the commands as submitted.
  A command is never changed after its submission within a frame, so this
  loses nothing. A recycled command keeps whatever an earlier frame placed on
  it until it is placed again; the model keeps that state and states no
  property about it.
- The corrected counter `Wide` is unbounded. A wider fixed
  type (a 32-bit index counter) would be exact for any frame that fits in GL
  index buffers.

## Findings

| source | as written | input that shows it | evidently intended | confidence | as-written member | corrected member |
|---|---|---|---|---|---|---|
| src/graphics/ImGuiDrawing.cpp:192 | The running first index of a list is a `GLushort`, so `firstIndex += ElemCount` wraps at 65536. | A list of two visible commands whose first draws 65536 or more indices: the second command's first index is `ElemCount % 65536`, which lies inside the first command's range. | Each command's first index is the exact sum of the element counts before it, so a list's sub-ranges are contiguous and disjoint. | medium, not executed | `ImGuiFacts.UShortFirstIndexOverlaps` | `ImGuiFacts.WideFirstIndexContinues` |

`ImGuiFacts.WideRangesDisjoint` proves the intended property in general for
the unbounded counter `Wide`: a list's submitted sub-ranges are disjoint,
increasing, and end within the sum of its element counts. The operational
lemmas (`DrawFollowsPlan`, the layer, pool and ownership lemmas, and
`DrawOneListRangesWithinUpload`) hold for both counters. `ListPlanRanges`,
`WideRangesDisjoint` and `WideFirstIndexContinues` are stated for `Wide` only,
and `UShortFirstIndexOverlaps` for `UShort` only.
