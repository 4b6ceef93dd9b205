/**
 `ImGuiDrawing::draw(RenderQueue &)` as a pure fold: ImGui's draw lists are
 turned into render commands taken from the pool, configured, and appended to
 the render queue.

 The frame's input is ImGui's draw data after `ScaleClipRects`: the framebuffer
 size already converted to `int`, the display position and clip rectangles as
 integers. The queue holds the commands as they were when submitted; no
 command is changed after its submission within the frame.

 The source keeps the running first index in a `GLushort`, so it wraps at
 65536. `IndexCounter` selects between that counter (`UShort`) and an
 unbounded one (`Wide`); see the README's findings.
 */
module ImGuiDraw {

  import opened Wrappers
  import opened ImGuiCommand
  import opened ImGuiPool

  datatype Vec = Vec(x: int, y: int)

  /** An ImGui clip rectangle: corners (x, y) and (z, w). */
  datatype ClipRect = ClipRect(x: int, y: int, z: int, w: int)

  /** An `ImDrawCmd`: how many indices it draws, its clip rectangle and its texture. */
  datatype DrawCmd = DrawCmd(elemCount: nat, clipRect: ClipRect, textureId: TextureId)

  /** An `ImDrawList`: sizes of its vertex and index buffers, and its commands. */
  datatype DrawList = DrawList(vtxCount: nat, idxCount: nat, cmds: seq<DrawCmd>)

  /** One frame's input: ImGui's draw data, the display size ImGui's io reports and
      the projection `newFrame` computed for it. */
  datatype FrameInput = FrameInput(fbWidth: int, fbHeight: int, displayPos: Vec,
                                   lists: seq<DrawList>,
                                   displayWidth: real, displayHeight: real, projection: Matrix)

  /** The type of the running first index: the source's `GLushort`, or unbounded. */
  datatype IndexCounter = UShort | Wide

  const UShortModulus: nat := 0x1_0000

  /** The value a counter of the given type holds after counting `n` indices from 0. */
  function Wrap(w: IndexCounter, n: nat): (r: nat)
    ensures r <= n
    ensures w.Wide? ==> r == n
    ensures w.UShort? ==> r < UShortModulus && (n < UShortModulus ==> r == n)
  {
    if w.UShort? then n % UShortModulus else n
  }

  /** `firstIndex += ElemCount`. */
  function Advance(w: IndexCounter, index: nat, n: nat): nat
  {
    Wrap(w, index + n)
  }

  /** Counting in steps agrees with counting the total at once. */
  lemma AdvanceWrap(w: IndexCounter, a: nat, n: nat)
    ensures Advance(w, Wrap(w, a), n) == Wrap(w, a + n)
  {
    if w.UShort? {
      var q := a / UShortModulus;
      assert a == q * UShortModulus + Wrap(w, a);
      assert a + n == q * UShortModulus + (Wrap(w, a) + n);
      ModShift(Wrap(w, a) + n, q);
    }
  }

  lemma {:induction false} ModShift(x: nat, q: nat)
    ensures (q * UShortModulus + x) % UShortModulus == x % UShortModulus
    decreases q
  {
    if q > 0 {
      assert q * UShortModulus + x == (q - 1) * UShortModulus + (x + UShortModulus);
      ModShift(x + UShortModulus, q - 1);
    }
  }

  /** The clip rectangle relative to the display position. */
  function Relative(c: ClipRect, pos: Vec): ClipRect
  {
    ClipRect(c.x - pos.x, c.y - pos.y, c.z - pos.x, c.w - pos.y)
  }

  /** The culling test: the rectangle starts inside the framebuffer and ends at or after its origin. */
  predicate Visible(c: ClipRect, fbWidth: int, fbHeight: int)
  {
    c.x < fbWidth && c.y < fbHeight && c.z >= 0 && c.w >= 0
  }

  /** The scissor box: ImGui's top-left origin flipped to OpenGL's bottom-left one. */
  function ScissorOf(c: ClipRect, fbHeight: int): (s: Scissor)
    ensures s.x == c.x && s.y + c.w == fbHeight
    ensures s.x + s.width == c.z && s.y + s.height == fbHeight - c.y
  {
    Scissor(c.x, fbHeight - c.w, c.z - c.x, c.w - c.y)
  }

  datatype Renderer = Renderer(pool: Pool, lastFrameWidth: real, lastFrameHeight: real)

  /** The drawer's state inside `draw`: the pool, the queue, the running command
      count `numCmd` and the display size the projection was last uploaded for. */
  datatype Frame = Frame(pool: Pool, queue: seq<Cmd>, numCmd: nat,
                         lastFrameWidth: real, lastFrameHeight: real)

  datatype DrawResult = DrawResult(renderer: Renderer, queue: seq<Cmd>)

  function Last(s: seq<Cmd>): Cmd
    requires |s| > 0
  {
    s[|s| - 1]
  }

  /** The first command of a list: optionally the new projection, then an owning
      upload of the list's vertices and indices. */
  function Upload(c: Cmd, list: DrawList, env: Env, projection: Option<Matrix>): (r: Cmd)
    ensures r.id == c.id && (Configured(c, env) ==> Configured(r, env))
    ensures r.buffers == Owned(list.vtxCount * env.floatsPerVertex, list.idxCount)
    ensures r.projection == if projection.Some? then projection else c.projection
    ensures r.placement == c.placement
  {
    var c1 := if projection.Some? then c.(projection := projection) else c;
    c1.(buffers := Owned(list.vtxCount * env.floatsPerVertex, list.idxCount))
  }

  /** One ImGui command, handled by the last command in `used`: submitted with its
      scissor, index sub-range, layer and texture when its clip rectangle is
      visible, and in any case counted in `numCmd`. Commands after the first of
      their list draw from the first one's buffers. */
  function Place(f: Frame, env: Env, input: FrameInput, firstId: nat,
                 dc: DrawCmd, k: nat, index: nat): (r: Frame)
    requires |f.pool.used| > 0
    ensures r.numCmd == f.numCmd + 1
    ensures r.pool.free == f.pool.free && r.pool.created == f.pool.created
    ensures |r.pool.used| == |f.pool.used|
    ensures r.lastFrameWidth == f.lastFrameWidth && r.lastFrameHeight == f.lastFrameHeight
    ensures Last(r.pool.used).id == Last(f.pool.used).id
    ensures Configured(Last(f.pool.used), env) ==> Configured(Last(r.pool.used), env)
    ensures var clip := Relative(dc.clipRect, input.displayPos);
            if Visible(clip, input.fbWidth, input.fbHeight) then
              && r.queue == f.queue + [Last(r.pool.used)]
              && r.pool == ReplaceLast(f.pool, Last(r.pool.used))
              && Last(r.pool.used).placement
                 == Some(Placement(ScissorOf(clip, input.fbHeight), dc.elemCount, index,
                                   env.hudLayer + f.numCmd, dc.textureId))
              && Last(r.pool.used).buffers
                 == (if k > 0 then SharedWith(firstId) else Last(f.pool.used).buffers)
            else
              r.queue == f.queue && r.pool == f.pool
  {
    var c := Last(f.pool.used);
    var clip := Relative(dc.clipRect, input.displayPos);
    if Visible(clip, input.fbWidth, input.fbHeight) then
      var placed := c.(
        placement := Some(Placement(ScissorOf(clip, input.fbHeight), dc.elemCount, index,
                                    env.hudLayer + f.numCmd, dc.textureId)),
        buffers := if k > 0 then SharedWith(firstId) else c.buffers);
      f.(pool := ReplaceLast(f.pool, placed), queue := f.queue + [placed], numCmd := f.numCmd + 1)
    else
      f.(numCmd := f.numCmd + 1)
  }

  /** How many retrievals the inner loop makes from command `k` on: every command
      but the first of the list takes one. */
  function Retrievals(n: nat, k: nat): nat
    requires k <= n
  {
    if k == 0 && n > 0 then n - 1 else n - k
  }

  /** One iteration of the inner loop: command `k` takes a fresh pool command
      unless it is the list's first, which was retrieved before the loop. */
  function DrawCmdStep(f: Frame, env: Env, input: FrameInput, firstId: nat,
                       dc: DrawCmd, k: nat, index: nat): (r: Frame)
    requires k == 0 ==> |f.pool.used| > 0
    ensures r.numCmd == f.numCmd + 1
    ensures |r.pool.used| == |f.pool.used| + (if k == 0 then 0 else 1)
    ensures r.pool.created >= f.pool.created
    ensures |r.queue| >= |f.queue| && r.queue[..|f.queue|] == f.queue
    ensures r.lastFrameWidth == f.lastFrameWidth && r.lastFrameHeight == f.lastFrameHeight
  {
    var f1 := if k == 0 then f else f.(pool := Retrieve(f.pool, env).pool);
    Place(f1, env, input, firstId, dc, k, index)
  }

  /** The inner loop of `draw`, from ImGui command `k` with running first index `index`. */
  function DrawCmds(f: Frame, env: Env, w: IndexCounter, input: FrameInput, firstId: nat,
                    cmds: seq<DrawCmd>, k: nat, index: nat): (r: Frame)
    requires k <= |cmds|
    requires k == 0 ==> |f.pool.used| > 0
    ensures r.numCmd == f.numCmd + |cmds| - k
    ensures |r.pool.used| == |f.pool.used| + Retrievals(|cmds|, k)
    ensures r.pool.created >= f.pool.created
    ensures |r.queue| >= |f.queue| && r.queue[..|f.queue|] == f.queue
    ensures r.lastFrameWidth == f.lastFrameWidth && r.lastFrameHeight == f.lastFrameHeight
    decreases |cmds| - k
  {
    if k == |cmds| then f
    else
      DrawCmds(DrawCmdStep(f, env, input, firstId, cmds[k], k, index), env, w, input, firstId,
               cmds, k + 1, Advance(w, index, cmds[k].elemCount))
  }

  /** True when the display size differs from the one the projection was last uploaded for. */
  predicate SizeChanged(f: Frame, input: FrameInput)
  {
    f.lastFrameWidth != input.displayWidth || f.lastFrameHeight != input.displayHeight
  }

  /** The start of one `ImDrawList`: retrieve its first command, upload the
      projection into it when the display size changed, then upload the list's data. */
  function ListStart(f: Frame, env: Env, input: FrameInput, list: DrawList): (r: Frame)
    ensures |r.pool.used| == |f.pool.used| + 1
    ensures Last(r.pool.used).buffers.Owned?
    ensures r.queue == f.queue && r.numCmd == f.numCmd
    ensures r.lastFrameWidth == input.displayWidth && r.lastFrameHeight == input.displayHeight
  {
    var got := Retrieve(f.pool, env);
    var changed := SizeChanged(f, input);
    var first := Upload(got.cmd, list, env, if changed then Some(input.projection) else None);
    Frame(ReplaceLast(got.pool, first), f.queue, f.numCmd,
          if changed then input.displayWidth else f.lastFrameWidth,
          if changed then input.displayHeight else f.lastFrameHeight)
  }

  /** One `ImDrawList`: its start, then its commands, which share the first command's buffers. */
  function DrawOneList(f: Frame, env: Env, w: IndexCounter, input: FrameInput,
                       list: DrawList): (r: Frame)
    ensures r.numCmd == f.numCmd + |list.cmds|
    ensures |r.pool.used| == |f.pool.used| + (if |list.cmds| == 0 then 1 else |list.cmds|)
    ensures r.pool.created >= f.pool.created
    ensures |r.queue| >= |f.queue| && r.queue[..|f.queue|] == f.queue
    ensures r.lastFrameWidth == input.displayWidth && r.lastFrameHeight == input.displayHeight
  {
    var s := ListStart(f, env, input, list);
    DrawCmds(s, env, w, input, Last(s.pool.used).id, list.cmds, 0, 0)
  }

  /** Number of pool commands the lists from `n` on take: at least one per list. */
  function Needed(lists: seq<DrawList>, n: nat): nat
    requires n <= |lists|
    decreases |lists| - n
  {
    if n == |lists| then 0
    else (if |lists[n].cmds| == 0 then 1 else |lists[n].cmds|) + Needed(lists, n + 1)
  }

  /** Number of ImGui commands in the lists from `n` on. */
  function TotalCmds(lists: seq<DrawList>, n: nat): nat
    requires n <= |lists|
    decreases |lists| - n
  {
    if n == |lists| then 0 else |lists[n].cmds| + TotalCmds(lists, n + 1)
  }

  /** The outer loop of `draw`, from list `n`. */
  function DrawListsFrom(f: Frame, env: Env, w: IndexCounter, input: FrameInput, n: nat): (r: Frame)
    requires n <= |input.lists|
    ensures r.numCmd == f.numCmd + TotalCmds(input.lists, n)
    ensures |r.pool.used| == |f.pool.used| + Needed(input.lists, n)
    ensures r.pool.created >= f.pool.created
    ensures |r.queue| >= |f.queue| && r.queue[..|f.queue|] == f.queue
    ensures n < |input.lists| ==> r.lastFrameWidth == input.displayWidth && r.lastFrameHeight == input.displayHeight
    ensures n == |input.lists| ==> r.lastFrameWidth == f.lastFrameWidth && r.lastFrameHeight == f.lastFrameHeight
    decreases |input.lists| - n
  {
    if n == |input.lists| then f
    else DrawListsFrom(DrawOneList(f, env, w, input, input.lists[n]), env, w, input, n + 1)
  }

  /** `draw(RenderQueue &)`: nothing at all happens for an empty framebuffer;
      otherwise the pool is reset and every list is drawn. */
  function Draw(r: Renderer, env: Env, w: IndexCounter, input: FrameInput, queue: seq<Cmd>): (res: DrawResult)
    ensures input.fbWidth <= 0 || input.fbHeight <= 0 ==> res == DrawResult(r, queue)
    ensures input.fbWidth > 0 && input.fbHeight > 0 ==>
              && |res.renderer.pool.used| == Needed(input.lists, 0)
              && res.renderer.pool.created >= r.pool.created
    ensures |res.queue| >= |queue| && res.queue[..|queue|] == queue
    ensures input.fbWidth > 0 && input.fbHeight > 0 && |input.lists| > 0 ==>
              res.renderer.lastFrameWidth == input.displayWidth
              && res.renderer.lastFrameHeight == input.displayHeight
  {
    if input.fbWidth <= 0 || input.fbHeight <= 0 then DrawResult(r, queue)
    else
      var f := Frame(ResetCommandPool(r.pool), queue, 0, r.lastFrameWidth, r.lastFrameHeight);
      var f' := DrawListsFrom(f, env, w, input, 0);
      DrawResult(Renderer(f'.pool, f'.lastFrameWidth, f'.lastFrameHeight), f'.queue)
  }
}
