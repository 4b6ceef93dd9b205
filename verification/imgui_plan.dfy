/**
 What `draw(RenderQueue &)` submits, stated without the pool: for every ImGui
 command whose clip rectangle is visible, in list order, a placement whose
 first index is the (wrapped) sum of the element counts before it in its list,
 whose layer is the HUD base plus the command's position among all commands
 of the frame, and whose buffers are shared unless it is its list's first.

 `DrawFollowsPlan` shows the operational `Draw` submits exactly this plan; the
 remaining lemmas derive ordering, index-range and pool facts from it.
 */
module ImGuiPlan {

  import opened Wrappers
  import opened ImGuiCommand
  import opened ImGuiPool
  import opened ImGuiDraw

  /** What a submitted command says about how it is drawn. */
  datatype Submission = Submission(placement: Option<Placement>, sharesBuffers: bool)

  function Summary(c: Cmd): Submission
  {
    Submission(c.placement, c.buffers.SharedWith?)
  }

  function Summaries(q: seq<Cmd>): (r: seq<Submission>)
    ensures |r| == |q| && forall i :: 0 <= i < |q| ==> r[i] == Summary(q[i])
  {
    seq(|q|, i requires 0 <= i < |q| => Summary(q[i]))
  }

  lemma SummariesAppend(a: seq<Cmd>, b: seq<Cmd>)
    ensures Summaries(a + b) == Summaries(a) + Summaries(b)
  {
  }

  /** The sum of the element counts of a sequence of ImGui commands. */
  function SumElems(cmds: seq<DrawCmd>): nat
  {
    if |cmds| == 0 then 0 else SumElems(cmds[..|cmds| - 1]) + cmds[|cmds| - 1].elemCount
  }

  lemma SumElemsStep(cmds: seq<DrawCmd>, k: nat)
    requires k < |cmds|
    ensures SumElems(cmds[..k + 1]) == SumElems(cmds[..k]) + cmds[k].elemCount
  {
    assert cmds[..k + 1][..k] == cmds[..k];
  }

  lemma {:induction false} SumElemsMonotone(cmds: seq<DrawCmd>, j: nat, m: nat)
    requires j <= m <= |cmds|
    ensures SumElems(cmds[..j]) <= SumElems(cmds[..m])
    decreases m - j
  {
    if j < m {
      SumElemsStep(cmds, m - 1);
      SumElemsMonotone(cmds, j, m - 1);
    }
  }

  predicate CmdVisible(input: FrameInput, dc: DrawCmd)
  {
    Visible(Relative(dc.clipRect, input.displayPos), input.fbWidth, input.fbHeight)
  }

  /** The submission for command `k` of a list whose first command is command number `base` of the frame. */
  function Entry(env: Env, w: IndexCounter, input: FrameInput, cmds: seq<DrawCmd>, k: nat, base: nat): Submission
    requires k < |cmds|
  {
    var clip := Relative(cmds[k].clipRect, input.displayPos);
    Submission(Some(Placement(ScissorOf(clip, input.fbHeight), cmds[k].elemCount,
                              Wrap(w, SumElems(cmds[..k])), env.hudLayer + base + k,
                              cmds[k].textureId)),
               k > 0)
  }

  /** The submissions of a list's visible commands from `k` on. */
  function ListPlan(env: Env, w: IndexCounter, input: FrameInput, cmds: seq<DrawCmd>, k: nat, base: nat): seq<Submission>
    requires k <= |cmds|
    decreases |cmds| - k
  {
    if k == |cmds| then []
    else (if CmdVisible(input, cmds[k]) then [Entry(env, w, input, cmds, k, base)] else [])
         + ListPlan(env, w, input, cmds, k + 1, base)
  }

  /** The submissions of the lists from `n` on, whose first command is number `base` of the frame. */
  function Plan(env: Env, w: IndexCounter, input: FrameInput, n: nat, base: nat): seq<Submission>
    requires n <= |input.lists|
    decreases |input.lists| - n
  {
    if n == |input.lists| then []
    else ListPlan(env, w, input, input.lists[n].cmds, 0, base)
         + Plan(env, w, input, n + 1, base + |input.lists[n].cmds|)
  }

  lemma PlanUnfold(env: Env, w: IndexCounter, input: FrameInput, n: nat, base: nat, next: nat)
    requires n < |input.lists| && next == base + |input.lists[n].cmds|
    ensures Plan(env, w, input, n, base)
            == ListPlan(env, w, input, input.lists[n].cmds, 0, base) + Plan(env, w, input, n + 1, next)
  {
  }

  // ---------------------------------------------------------------------
  // The operational model follows the plan

  lemma {:induction false} PlaceFollowsEntry(f: Frame, env: Env, w: IndexCounter, input: FrameInput, firstId: nat,
                                             cmds: seq<DrawCmd>, k: nat, base: nat)
    requires k < |cmds| && |f.pool.used| > 0
    requires k == 0 ==> !Last(f.pool.used).buffers.SharedWith?
    requires f.numCmd == base + k
    ensures var r := Place(f, env, input, firstId, cmds[k], k, Wrap(w, SumElems(cmds[..k])));
            Summaries(r.queue)
            == Summaries(f.queue) + (if CmdVisible(input, cmds[k]) then [Entry(env, w, input, cmds, k, base)] else [])
  {
    var r := Place(f, env, input, firstId, cmds[k], k, Wrap(w, SumElems(cmds[..k])));
    if CmdVisible(input, cmds[k]) {
      SummariesAppend(f.queue, [Last(r.pool.used)]);
    }
  }

  lemma {:induction false} DrawCmdsFollowsPlan(f: Frame, env: Env, w: IndexCounter, input: FrameInput, firstId: nat,
                                               cmds: seq<DrawCmd>, k: nat, index: nat, base: nat)
    requires k <= |cmds|
    requires k == 0 ==> |f.pool.used| > 0 && !Last(f.pool.used).buffers.SharedWith?
    requires index == Wrap(w, SumElems(cmds[..k]))
    requires f.numCmd == base + k
    ensures Summaries(DrawCmds(f, env, w, input, firstId, cmds, k, index).queue)
            == Summaries(f.queue) + ListPlan(env, w, input, cmds, k, base)
    decreases |cmds| - k
  {
    if k < |cmds| {
      var f1 := if k == 0 then f else f.(pool := Retrieve(f.pool, env).pool);
      PlaceFollowsEntry(f1, env, w, input, firstId, cmds, k, base);
      var f2 := DrawCmdStep(f, env, input, firstId, cmds[k], k, index);
      SumElemsStep(cmds, k);
      AdvanceWrap(w, SumElems(cmds[..k]), cmds[k].elemCount);
      DrawCmdsFollowsPlan(f2, env, w, input, firstId, cmds, k + 1, Advance(w, index, cmds[k].elemCount), base);
    }
  }

  lemma {:induction false} DrawOneListFollowsPlan(f: Frame, env: Env, w: IndexCounter, input: FrameInput, list: DrawList)
    ensures Summaries(DrawOneList(f, env, w, input, list).queue)
            == Summaries(f.queue) + ListPlan(env, w, input, list.cmds, 0, f.numCmd)
  {
    var s := ListStart(f, env, input, list);
    assert list.cmds[..0] == [];
    DrawCmdsFollowsPlan(s, env, w, input, Last(s.pool.used).id, list.cmds, 0, 0, f.numCmd);
  }

  /** Appending `a` and then `b` appends `a + b`. */
  lemma AppendTwice<T>(x: seq<T>, y: seq<T>, z: seq<T>, a: seq<T>, b: seq<T>, ab: seq<T>)
    requires y == x + a && z == y + b && ab == a + b
    ensures z == x + ab
  {
  }

  lemma DrawListsUnfold(f: Frame, env: Env, w: IndexCounter, input: FrameInput, n: nat)
    requires n < |input.lists|
    ensures DrawListsFrom(f, env, w, input, n)
            == DrawListsFrom(DrawOneList(f, env, w, input, input.lists[n]), env, w, input, n + 1)
  {
  }

  lemma {:induction false} DrawListsFollowsPlan(f: Frame, env: Env, w: IndexCounter, input: FrameInput, n: nat)
    requires n <= |input.lists|
    ensures Summaries(DrawListsFrom(f, env, w, input, n).queue)
            == Summaries(f.queue) + Plan(env, w, input, n, f.numCmd)
    decreases |input.lists| - n
  {
    if n < |input.lists| {
      var f1 := DrawOneList(f, env, w, input, input.lists[n]);
      var r := DrawListsFrom(f1, env, w, input, n + 1);
      DrawListsUnfold(f, env, w, input, n);
      DrawOneListFollowsPlan(f, env, w, input, input.lists[n]);
      DrawListsFollowsPlan(f1, env, w, input, n + 1);
      PlanUnfold(env, w, input, n, f.numCmd, f1.numCmd);
      AppendTwice(Summaries(f.queue), Summaries(f1.queue), Summaries(r.queue),
                  ListPlan(env, w, input, input.lists[n].cmds, 0, f.numCmd),
                  Plan(env, w, input, n + 1, f1.numCmd), Plan(env, w, input, n, f.numCmd));
    } else {
      assert DrawListsFrom(f, env, w, input, n) == f;
      assert Plan(env, w, input, n, f.numCmd) == [];
      assert Summaries(f.queue) + [] == Summaries(f.queue);
    }
  }

  /** `draw` appends to the render queue exactly the plan: nothing for an empty
      framebuffer, otherwise one submission per visible ImGui command, in order. */
  lemma DrawFollowsPlan(r: Renderer, env: Env, w: IndexCounter, input: FrameInput, queue: seq<Cmd>)
    ensures var res := Draw(r, env, w, input, queue);
            Summaries(res.queue)
            == Summaries(queue)
               + (if input.fbWidth <= 0 || input.fbHeight <= 0 then [] else Plan(env, w, input, 0, 0))
  {
    if input.fbWidth > 0 && input.fbHeight > 0 {
      var f := Frame(ResetCommandPool(r.pool), queue, 0, r.lastFrameWidth, r.lastFrameHeight);
      DrawListsFollowsPlan(f, env, w, input, 0);
    }
  }
}
