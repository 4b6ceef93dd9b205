/**
 Consequences of `draw(RenderQueue &)`: the order of submitted layers, the
 index sub-ranges of a list, how the pool grows over a frame, and which
 command owns the buffers the others share.
 */
module ImGuiFacts {

  import opened Wrappers
  import opened ImGuiCommand
  import opened ImGuiPool
  import opened ImGuiDraw
  import opened ImGuiPlan

  // ---------------------------------------------------------------------
  // Layers

  ghost predicate Placed(s: seq<Submission>)
  {
    forall i :: 0 <= i < |s| ==> s[i].placement.Some?
  }

  ghost predicate LayersWithin(s: seq<Submission>, lo: int, hi: int)
  {
    Placed(s) && forall i :: 0 <= i < |s| ==> lo <= s[i].placement.value.layer < hi
  }

  ghost predicate LayersIncreasing(s: seq<Submission>)
  {
    Placed(s) && forall i, j :: 0 <= i < j < |s| ==> s[i].placement.value.layer < s[j].placement.value.layer
  }

  lemma ConcatLayers(a: seq<Submission>, b: seq<Submission>, lo: int, mid: int, hi: int)
    requires LayersWithin(a, lo, mid) && LayersIncreasing(a)
    requires LayersWithin(b, mid, hi) && LayersIncreasing(b)
    requires lo <= mid <= hi
    ensures LayersWithin(a + b, lo, hi) && LayersIncreasing(a + b)
  {
  }

  lemma {:induction false} ListPlanLayers(env: Env, w: IndexCounter, input: FrameInput, cmds: seq<DrawCmd>, k: nat, base: nat)
    requires k <= |cmds|
    ensures var p := ListPlan(env, w, input, cmds, k, base);
            LayersWithin(p, env.hudLayer + base + k, env.hudLayer + base + |cmds|) && LayersIncreasing(p)
    decreases |cmds| - k
  {
    if k < |cmds| {
      ListPlanLayers(env, w, input, cmds, k + 1, base);
      var lo := env.hudLayer + base + k;
      var head := if CmdVisible(input, cmds[k]) then [Entry(env, w, input, cmds, k, base)] else [];
      assert LayersWithin(head, lo, lo + 1) && LayersIncreasing(head);
      ConcatLayers(head, ListPlan(env, w, input, cmds, k + 1, base), lo, lo + 1, env.hudLayer + base + |cmds|);
    }
  }

  lemma {:induction false} PlanLayers(env: Env, w: IndexCounter, input: FrameInput, n: nat, base: nat)
    requires n <= |input.lists|
    ensures var p := Plan(env, w, input, n, base);
            LayersWithin(p, env.hudLayer + base, env.hudLayer + base + TotalCmds(input.lists, n))
            && LayersIncreasing(p)
    decreases |input.lists| - n
  {
    if n < |input.lists| {
      var m := |input.lists[n].cmds|;
      ListPlanLayers(env, w, input, input.lists[n].cmds, 0, base);
      PlanLayers(env, w, input, n + 1, base + m);
      ConcatLayers(ListPlan(env, w, input, input.lists[n].cmds, 0, base), Plan(env, w, input, n + 1, base + m),
                   env.hudLayer + base, env.hudLayer + base + m,
                   env.hudLayer + base + TotalCmds(input.lists, n));
    }
  }

  /** Every command `draw` submits lies on a layer at or above the HUD base and
      below the HUD base plus the frame's command count, and the layers strictly
      increase in submission order. */
  lemma DrawLayersIncreasing(r: Renderer, env: Env, w: IndexCounter, input: FrameInput, queue: seq<Cmd>)
    ensures var res := Draw(r, env, w, input, queue);
            var added := Summaries(res.queue)[|queue|..];
            && LayersWithin(added, env.hudLayer, env.hudLayer + TotalCmds(input.lists, 0))
            && LayersIncreasing(added)
  {
    var res := Draw(r, env, w, input, queue);
    DrawFollowsPlan(r, env, w, input, queue);
    var added := Summaries(res.queue)[|queue|..];
    if input.fbWidth > 0 && input.fbHeight > 0 {
      PlanLayers(env, w, input, 0, 0);
      assert added == Plan(env, w, input, 0, 0);
    } else {
      assert added == [];
    }
  }

  // ---------------------------------------------------------------------
  // Index sub-ranges

  function Start(s: Submission): nat
    requires s.placement.Some?
  {
    s.placement.value.firstIndex
  }

  function End(s: Submission): nat
    requires s.placement.Some?
  {
    s.placement.value.firstIndex + s.placement.value.numIndices
  }

  lemma {:induction false} ListPlanRanges(env: Env, input: FrameInput, cmds: seq<DrawCmd>, k: nat, base: nat)
    requires k <= |cmds|
    ensures var p := ListPlan(env, Wide, input, cmds, k, base);
            && Placed(p)
            && (forall i :: 0 <= i < |p| ==> SumElems(cmds[..k]) <= Start(p[i]) && End(p[i]) <= SumElems(cmds))
            && (forall i, j :: 0 <= i < j < |p| ==> End(p[i]) <= Start(p[j]))
    decreases |cmds| - k
  {
    if k < |cmds| {
      ListPlanRanges(env, input, cmds, k + 1, base);
      SumElemsStep(cmds, k);
      SumElemsMonotone(cmds, k + 1, |cmds|);
      assert cmds[..|cmds|] == cmds;
    }
  }

  /** With an index counter that does not wrap, the sub-ranges a list's submitted
      commands draw are pairwise disjoint, in increasing order, and inside the
      first `SumElems(cmds)` indices the list uploaded. */
  lemma WideRangesDisjoint(env: Env, input: FrameInput, cmds: seq<DrawCmd>, base: nat)
    ensures var p := ListPlan(env, Wide, input, cmds, 0, base);
            && Placed(p)
            && (forall i :: 0 <= i < |p| ==> End(p[i]) <= SumElems(cmds))
            && (forall i, j :: 0 <= i < j < |p| ==> End(p[i]) <= Start(p[j]))
  {
    ListPlanRanges(env, input, cmds, 0, base);
  }

  lemma {:induction false} ListPlanEnds(env: Env, w: IndexCounter, input: FrameInput, cmds: seq<DrawCmd>, k: nat, base: nat)
    requires k <= |cmds|
    ensures var p := ListPlan(env, w, input, cmds, k, base);
            Placed(p) && forall i :: 0 <= i < |p| ==> End(p[i]) <= SumElems(cmds)
    decreases |cmds| - k
  {
    if k < |cmds| {
      ListPlanEnds(env, w, input, cmds, k + 1, base);
      SumElemsStep(cmds, k);
      SumElemsMonotone(cmds, k + 1, |cmds|);
      assert cmds[..|cmds|] == cmds;
    }
  }

  /** With either counter, every sub-range a list submits ends within the index
      upload its first command owns, provided the list's commands draw no more
      indices than its index buffer holds (as ImGui guarantees, the element counts
      summing to the buffer's size). The counter only ever moves a range down. */
  lemma DrawOneListRangesWithinUpload(f: Frame, env: Env, w: IndexCounter, input: FrameInput, list: DrawList)
    requires SumElems(list.cmds) <= list.idxCount
    ensures var r := DrawOneList(f, env, w, input, list);
            var m := |f.pool.used|;
            && |r.pool.used| > m && r.pool.used[m].buffers.Owned?
            && forall i :: |f.queue| <= i < |r.queue| ==>
                 && r.queue[i].placement.Some?
                 && r.queue[i].placement.value.firstIndex + r.queue[i].placement.value.numIndices
                    <= r.pool.used[m].buffers.indices
  {
    var r := DrawOneList(f, env, w, input, list);
    var p := ListPlan(env, w, input, list.cmds, 0, f.numCmd);
    DrawOneListFirstCommand(f, env, w, input, list);
    DrawOneListFollowsPlan(f, env, w, input, list);
    ListPlanEnds(env, w, input, list.cmds, 0, f.numCmd);
    forall i | |f.queue| <= i < |r.queue|
      ensures r.queue[i].placement.Some?
      ensures r.queue[i].placement.value.firstIndex + r.queue[i].placement.value.numIndices <= list.idxCount
    {
      assert Summaries(r.queue)[i] == Summary(r.queue[i]);
      assert Summaries(r.queue)[i] == p[i - |f.queue|];
    }
  }

  lemma {:induction false} ListPlanAllVisible(env: Env, w: IndexCounter, input: FrameInput, cmds: seq<DrawCmd>, k: nat, base: nat)
    requires k <= |cmds|
    requires forall j :: k <= j < |cmds| ==> CmdVisible(input, cmds[j])
    ensures var p := ListPlan(env, w, input, cmds, k, base);
            && |p| == |cmds| - k
            && (forall i :: 0 <= i < |p| ==> p[i] == Entry(env, w, input, cmds, k + i, base))
    decreases |cmds| - k
  {
    if k < |cmds| {
      ListPlanAllVisible(env, w, input, cmds, k + 1, base);
    }
  }

  /** The first index of command `i + 1` is the counter advanced past command `i`. */
  lemma ConsecutiveEntries(env: Env, w: IndexCounter, input: FrameInput, cmds: seq<DrawCmd>, i: nat, base: nat)
    requires i + 1 < |cmds|
    ensures Start(Entry(env, w, input, cmds, i + 1, base))
            == Wrap(w, Start(Entry(env, w, input, cmds, i, base)) + cmds[i].elemCount)
  {
    SumElemsStep(cmds, i);
    AdvanceWrap(w, SumElems(cmds[..i]), cmds[i].elemCount);
  }

  /** One submission per command, each drawing as many indices as its command holds. */
  ghost predicate DrawsCounts(p: seq<Submission>, cmds: seq<DrawCmd>)
  {
    && |p| == |cmds| && Placed(p)
    && forall i :: 0 <= i < |p| ==> p[i].placement.value.numIndices == cmds[i].elemCount
  }

  /** Each submission starts where the one before it ends, as the counter `w` computes positions. */
  ghost predicate Contiguous(w: IndexCounter, p: seq<Submission>)
  {
    Placed(p) && forall i :: 0 <= i < |p| - 1 ==> Start(p[i + 1]) == Wrap(w, End(p[i]))
  }

  /** A sequence holding the entries of every command of a list has contiguous sub-ranges. */
  lemma EntriesContiguous(env: Env, w: IndexCounter, input: FrameInput, cmds: seq<DrawCmd>, base: nat, p: seq<Submission>)
    requires |p| == |cmds|
    requires forall i :: 0 <= i < |p| ==> p[i] == Entry(env, w, input, cmds, i, base)
    ensures DrawsCounts(p, cmds) && Contiguous(w, p)
  {
    forall i | 0 <= i < |p| - 1
      ensures Start(p[i + 1]) == Wrap(w, End(p[i]))
    {
      ConsecutiveEntries(env, w, input, cmds, i, base);
    }
  }

  /** When no command is culled, every command of the list is submitted with its
      own index count and consecutive sub-ranges are contiguous: each starts where
      the previous one ends, as the counter type computes it. */
  lemma ContiguousWhenAllVisible(env: Env, w: IndexCounter, input: FrameInput, cmds: seq<DrawCmd>, base: nat)
    requires forall j :: 0 <= j < |cmds| ==> CmdVisible(input, cmds[j])
    ensures var p := ListPlan(env, w, input, cmds, 0, base);
            DrawsCounts(p, cmds) && Contiguous(w, p)
  {
    ListPlanAllVisible(env, w, input, cmds, 0, base);
    EntriesContiguous(env, w, input, cmds, base, ListPlan(env, w, input, cmds, 0, base));
  }

  /** A frame of one list holding two visible commands. */
  ghost predicate OneListOfTwo(input: FrameInput)
  {
    && input.fbWidth > 0 && input.fbHeight > 0
    && |input.lists| == 1 && |input.lists[0].cmds| == 2
    && CmdVisible(input, input.lists[0].cmds[0]) && CmdVisible(input, input.lists[0].cmds[1])
  }

  /** Such a frame submits both commands, with the plan's placements. */
  lemma {:induction false} OneListOfTwoSubmitsBoth(r: Renderer, env: Env, w: IndexCounter,
                                                   input: FrameInput, queue: seq<Cmd>)
    requires OneListOfTwo(input)
    ensures var q := Draw(r, env, w, input, queue).queue;
            var cmds := input.lists[0].cmds;
            && |q| == |queue| + 2
            && q[|queue|].placement == Entry(env, w, input, cmds, 0, 0).placement
            && q[|queue| + 1].placement == Entry(env, w, input, cmds, 1, 0).placement
  {
    var cmds := input.lists[0].cmds;
    ListPlanAllVisible(env, w, input, cmds, 0, 0);
    var p := ListPlan(env, w, input, cmds, 0, 0);
    PlanUnfold(env, w, input, 0, 0, 2);
    assert Plan(env, w, input, 1, 2) == [];
    assert Plan(env, w, input, 0, 0) == p + [];
    DrawFollowsPlan(r, env, w, input, queue);
    var q := Draw(r, env, w, input, queue).queue;
    assert Summaries(q) == Summaries(queue) + p;
    assert Summaries(q)[|queue|] == Summary(q[|queue|]) && Summaries(q)[|queue| + 1] == Summary(q[|queue| + 1]);
  }

  /** The index counter of the source is a `GLushort`: when a list's first command
      draws 65536 indices or more, the second command starts below the end of the
      first one's sub-range, so the two submitted commands draw overlapping ranges. */
  lemma UShortFirstIndexOverlaps(r: Renderer, env: Env, input: FrameInput, queue: seq<Cmd>)
    requires OneListOfTwo(input) && input.lists[0].cmds[0].elemCount >= UShortModulus
    ensures var q := Draw(r, env, UShort, input, queue).queue;
            && |q| == |queue| + 2
            && q[|queue|].placement.Some? && q[|queue| + 1].placement.Some?
            && q[|queue|].placement.value.firstIndex == 0
            && q[|queue|].placement.value.numIndices == input.lists[0].cmds[0].elemCount
            && q[|queue| + 1].placement.value.firstIndex == input.lists[0].cmds[0].elemCount % UShortModulus
            && q[|queue| + 1].placement.value.firstIndex
               < q[|queue|].placement.value.firstIndex + q[|queue|].placement.value.numIndices
  {
    var cmds := input.lists[0].cmds;
    OneListOfTwoSubmitsBoth(r, env, UShort, input, queue);
    assert cmds[..0] == [];
    SumElemsStep(cmds, 0);
  }

  /** The same frames with an unbounded counter: the second command starts exactly
      where the first one's sub-range ends. */
  lemma WideFirstIndexContinues(r: Renderer, env: Env, input: FrameInput, queue: seq<Cmd>)
    requires OneListOfTwo(input)
    ensures var q := Draw(r, env, Wide, input, queue).queue;
            && |q| == |queue| + 2
            && q[|queue|].placement.Some? && q[|queue| + 1].placement.Some?
            && q[|queue|].placement.value.firstIndex == 0
            && q[|queue| + 1].placement.value.firstIndex
               == q[|queue|].placement.value.firstIndex + q[|queue|].placement.value.numIndices
  {
    var cmds := input.lists[0].cmds;
    OneListOfTwoSubmitsBoth(r, env, Wide, input, queue);
    assert cmds[..0] == [];
    SumElemsStep(cmds, 0);
  }

  // ---------------------------------------------------------------------
  // The pool over a frame

  /** `q` is `p` after `need` retrievals from a pool whose free commands are all
      compatible: each retrieval either takes a free command or creates one, and
      commands are created only once `free` is used up. */
  predicate Takes(p: Pool, q: Pool, need: nat)
  {
    && q.created >= p.created
    && (q.created - p.created) + (|p.free| - |q.free|) == need
    && (q.created == p.created || |q.free| == 0)
  }

  lemma TakesCompose(p: Pool, q: Pool, r: Pool, n1: nat, n2: nat)
    requires Takes(p, q, n1) && Takes(q, r, n2)
    ensures Takes(p, r, n1 + n2)
  {
  }

  lemma SamePoolInv(p: Pool, q: Pool, env: Env)
    requires PoolInv(p, env) && p == q
    ensures PoolInv(q, env)
  {
  }

  lemma {:induction false} PlaceKeepsInv(f: Frame, env: Env, input: FrameInput, firstId: nat,
                                         dc: DrawCmd, k: nat, index: nat)
    requires |f.pool.used| > 0 && PoolInv(f.pool, env)
    ensures PoolInv(Place(f, env, input, firstId, dc, k, index).pool, env)
  {
    var r := Place(f, env, input, firstId, dc, k, index);
    assert Last(f.pool.used) in f.pool.used;
    if Visible(Relative(dc.clipRect, input.displayPos), input.fbWidth, input.fbHeight) {
      ReplaceLastPreservesInv(f.pool, Last(r.pool.used), env);
    }
  }

  /** One retrieval from a pool whose free commands are configured, in the terms of
      a frame's need; the free commands left stay configured. */
  lemma RetrieveCounts(p: Pool, env: Env)
    requires FreeConfigured(p, env)
    ensures FreeConfigured(Retrieve(p, env).pool, env) && Takes(p, Retrieve(p, env).pool, 1)
  {
    RetrieveFromConsistentPool(p, env);
    if |p.free| > 0 {
      var free := Retrieve(p, env).pool.free;
      AllConfiguredAt(p.free, env);
      AllConfiguredAt(free, env);
      forall i | 0 <= i < |free|
        ensures Configured(free[i], env)
      {
        if i == 0 {
          assert free[i] == p.free[|p.free| - 1];
        } else {
          assert free[i] == p.free[i];
        }
      }
    }
  }

  lemma {:induction false} DrawCmdStepKeepsInv(f: Frame, env: Env, input: FrameInput, firstId: nat,
                                               dc: DrawCmd, k: nat, index: nat)
    requires k == 0 ==> |f.pool.used| > 0
    requires PoolInv(f.pool, env)
    ensures PoolInv(DrawCmdStep(f, env, input, firstId, dc, k, index).pool, env)
  {
    var f1 := if k == 0 then f else f.(pool := Retrieve(f.pool, env).pool);
    if k > 0 {
      RetrievePreservesInv(f.pool, env);
    }
    PlaceKeepsInv(f1, env, input, firstId, dc, k, index);
  }

  lemma DrawCmdsUnfold(f: Frame, env: Env, w: IndexCounter, input: FrameInput, firstId: nat,
                       cmds: seq<DrawCmd>, k: nat, index: nat)
    requires k < |cmds|
    requires k == 0 ==> |f.pool.used| > 0
    ensures DrawCmds(f, env, w, input, firstId, cmds, k, index)
            == DrawCmds(DrawCmdStep(f, env, input, firstId, cmds[k], k, index), env, w, input, firstId,
                        cmds, k + 1, Advance(w, index, cmds[k].elemCount))
  {
  }

  lemma {:induction false} DrawCmdsKeepsInv(f: Frame, env: Env, w: IndexCounter, input: FrameInput, firstId: nat,
                                            cmds: seq<DrawCmd>, k: nat, index: nat)
    requires k <= |cmds|
    requires k == 0 ==> |f.pool.used| > 0
    requires PoolInv(f.pool, env)
    ensures PoolInv(DrawCmds(f, env, w, input, firstId, cmds, k, index).pool, env)
    decreases |cmds| - k
  {
    if k < |cmds| {
      var f2 := DrawCmdStep(f, env, input, firstId, cmds[k], k, index);
      var next := Advance(w, index, cmds[k].elemCount);
      assert DrawCmds(f, env, w, input, firstId, cmds, k, index)
          == DrawCmds(f2, env, w, input, firstId, cmds, k + 1, next);
      DrawCmdStepKeepsInv(f, env, input, firstId, cmds[k], k, index);
      DrawCmdsKeepsInv(f2, env, w, input, firstId, cmds, k + 1, next);
      SamePoolInv(DrawCmds(f2, env, w, input, firstId, cmds, k + 1, next).pool,
                  DrawCmds(f, env, w, input, firstId, cmds, k, index).pool, env);
    } else {
      assert DrawCmds(f, env, w, input, firstId, cmds, k, index) == f;
      SamePoolInv(f.pool, DrawCmds(f, env, w, input, firstId, cmds, k, index).pool, env);
    }
  }

  /** A list's start keeps the pool consistent. */
  lemma ListStartKeepsInv(f: Frame, env: Env, input: FrameInput, list: DrawList)
    requires PoolInv(f.pool, env)
    ensures PoolInv(ListStart(f, env, input, list).pool, env)
  {
    var got := Retrieve(f.pool, env);
    RetrievePreservesInv(f.pool, env);
    assert got.cmd in got.pool.used;
    var changed := SizeChanged(f, input);
    ReplaceLastPreservesInv(got.pool, Upload(got.cmd, list, env, if changed then Some(input.projection) else None), env);
  }

  lemma DrawOneListUnfold(f: Frame, env: Env, w: IndexCounter, input: FrameInput, list: DrawList)
    ensures var s := ListStart(f, env, input, list);
            DrawOneList(f, env, w, input, list) == DrawCmds(s, env, w, input, Last(s.pool.used).id, list.cmds, 0, 0)
  {
  }

  lemma {:induction false} DrawOneListKeepsInv(f: Frame, env: Env, w: IndexCounter, input: FrameInput, list: DrawList)
    requires PoolInv(f.pool, env)
    ensures PoolInv(DrawOneList(f, env, w, input, list).pool, env)
  {
    var s := ListStart(f, env, input, list);
    var id := Last(s.pool.used).id;
    ListStartKeepsInv(f, env, input, list);
    DrawCmdsKeepsInv(s, env, w, input, id, list.cmds, 0, 0);
    DrawOneListUnfold(f, env, w, input, list);
    SamePoolInv(DrawCmds(s, env, w, input, id, list.cmds, 0, 0).pool, DrawOneList(f, env, w, input, list).pool, env);
  }

  lemma {:induction false} DrawListsKeepsInv(f: Frame, env: Env, w: IndexCounter, input: FrameInput, n: nat)
    requires n <= |input.lists|
    requires PoolInv(f.pool, env)
    ensures PoolInv(DrawListsFrom(f, env, w, input, n).pool, env)
    decreases |input.lists| - n
  {
    if n < |input.lists| {
      var f1 := DrawOneList(f, env, w, input, input.lists[n]);
      DrawOneListKeepsInv(f, env, w, input, input.lists[n]);
      DrawListsKeepsInv(f1, env, w, input, n + 1);
      DrawListsUnfold(f, env, w, input, n);
      SamePoolInv(DrawListsFrom(f1, env, w, input, n + 1).pool, DrawListsFrom(f, env, w, input, n).pool, env);
    } else {
      assert DrawListsFrom(f, env, w, input, n) == f;
      SamePoolInv(f.pool, DrawListsFrom(f, env, w, input, n).pool, env);
    }
  }

  // What a frame takes from the pool. Retrievals read and write only `free` and
  // `created`, and placing a command touches neither, so after any stretch of
  // drawing these two equal those after the same number of bare retrievals.

  /** The part of a pool later retrievals depend on: `free` and `created`. */
  function Stock(p: Pool): Pool
  {
    p.(used := [])
  }

  /** `n` retrievals in a row, seen through `Stock`. */
  function RetrieveN(p: Pool, env: Env, n: nat): (r: Pool)
    ensures r.used == []
    decreases n
  {
    if n == 0 then Stock(p) else RetrieveN(Retrieve(p, env).pool, env, n - 1)
  }

  lemma RetrieveStock(p: Pool, env: Env)
    ensures Stock(Retrieve(Stock(p), env).pool) == Stock(Retrieve(p, env).pool)
  {
  }

  lemma {:induction false} RetrieveNStock(p: Pool, q: Pool, env: Env, n: nat)
    requires Stock(p) == Stock(q)
    ensures RetrieveN(p, env, n) == RetrieveN(q, env, n)
    decreases n
  {
    if n > 0 {
      RetrieveStock(p, env);
      RetrieveStock(q, env);
      RetrieveNStock(Retrieve(p, env).pool, Retrieve(q, env).pool, env, n - 1);
    }
  }

  lemma {:induction false} RetrieveNAdd(p: Pool, env: Env, a: nat, b: nat)
    ensures RetrieveN(p, env, a + b) == RetrieveN(RetrieveN(p, env, a), env, b)
    decreases a
  {
    if a == 0 {
      RetrieveNStock(p, Stock(p), env, b);
    } else {
      RetrieveNAdd(Retrieve(p, env).pool, env, a - 1, b);
    }
  }

  /** Retrievals from a pool whose free commands are configured use up the free
      commands first and create only the shortfall. */
  lemma {:induction false} RetrieveNTakes(p: Pool, env: Env, n: nat)
    requires FreeConfigured(p, env)
    ensures FreeConfigured(RetrieveN(p, env, n), env) && Takes(p, RetrieveN(p, env, n), n)
    decreases n
  {
    if n > 0 {
      var q := Retrieve(p, env).pool;
      RetrieveCounts(p, env);
      RetrieveNTakes(q, env, n - 1);
      TakesCompose(p, q, RetrieveN(q, env, n - 1), 1, n - 1);
    }
  }

  /** Taking `m` more after `n` retrievals is taking `n + m`. */
  lemma MoreRetrievals(p: Pool, q: Pool, env: Env, n: nat, m: nat)
    requires Stock(q) == RetrieveN(p, env, n)
    ensures RetrieveN(q, env, m) == RetrieveN(p, env, n + m)
  {
    RetrieveNStock(q, RetrieveN(p, env, n), env, m);
    RetrieveNAdd(p, env, n, m);
  }

  /** `q` holds what `n` retrievals from `p` leave in `free` and `created`. */
  ghost predicate Took(p: Pool, env: Env, n: nat, q: Pool)
  {
    Stock(q) == RetrieveN(p, env, n)
  }

  lemma TookMore(p: Pool, q: Pool, r: Pool, env: Env, a: nat, b: nat, ab: nat)
    requires Took(p, env, a, q) && Took(q, env, b, r) && ab == a + b
    ensures Took(p, env, ab, r)
  {
    MoreRetrievals(p, q, env, a, b);
  }

  lemma DrawCmdStepStock(f: Frame, env: Env, input: FrameInput, firstId: nat, dc: DrawCmd, k: nat, index: nat)
    requires k == 0 ==> |f.pool.used| > 0
    ensures Took(f.pool, env, if k == 0 then 0 else 1, DrawCmdStep(f, env, input, firstId, dc, k, index).pool)
  {
  }

  lemma DrawCmdsStockStep(f: Frame, env: Env, w: IndexCounter, input: FrameInput, firstId: nat,
                          cmds: seq<DrawCmd>, k: nat, index: nat)
    requires 0 < k < |cmds|
    requires var f2 := DrawCmdStep(f, env, input, firstId, cmds[k], k, index);
             Took(f2.pool, env, |cmds| - (k + 1),
                  DrawCmds(f2, env, w, input, firstId, cmds, k + 1, Advance(w, index, cmds[k].elemCount)).pool)
    ensures Took(f.pool, env, |cmds| - k, DrawCmds(f, env, w, input, firstId, cmds, k, index).pool)
  {
    DrawCmdsUnfold(f, env, w, input, firstId, cmds, k, index);
    TookAfterStep(f, env, input, firstId, cmds[k], k, index,
                  DrawCmds(f, env, w, input, firstId, cmds, k, index).pool, |cmds| - (k + 1), |cmds| - k);
  }

  lemma TookAfterStep(f: Frame, env: Env, input: FrameInput, firstId: nat, dc: DrawCmd, k: nat, index: nat,
                      r: Pool, m: nat, m1: nat)
    requires 0 < k && m1 == m + 1
    requires Took(DrawCmdStep(f, env, input, firstId, dc, k, index).pool, env, m, r)
    ensures Took(f.pool, env, m1, r)
  {
    DrawCmdStepStock(f, env, input, firstId, dc, k, index);
    TookMore(f.pool, DrawCmdStep(f, env, input, firstId, dc, k, index).pool, r, env, 1, m, m1);
  }

  lemma {:induction false} DrawCmdsStockLater(f: Frame, env: Env, w: IndexCounter, input: FrameInput, firstId: nat,
                                              cmds: seq<DrawCmd>, k: nat, index: nat)
    requires 0 < k <= |cmds|
    ensures Took(f.pool, env, |cmds| - k, DrawCmds(f, env, w, input, firstId, cmds, k, index).pool)
    decreases |cmds| - k
  {
    if k < |cmds| {
      DrawCmdsStockLater(DrawCmdStep(f, env, input, firstId, cmds[k], k, index), env, w, input, firstId,
                         cmds, k + 1, Advance(w, index, cmds[k].elemCount));
      DrawCmdsStockStep(f, env, w, input, firstId, cmds, k, index);
    }
  }

  lemma DrawCmdsStockFirst(f: Frame, env: Env, w: IndexCounter, input: FrameInput, firstId: nat,
                           cmds: seq<DrawCmd>, k: nat, index: nat)
    requires k == 0 && 0 < |cmds| && |f.pool.used| > 0
    ensures Took(f.pool, env, |cmds| - 1, DrawCmds(f, env, w, input, firstId, cmds, k, index).pool)
  {
    DrawCmdsUnfold(f, env, w, input, firstId, cmds, k, index);
    DrawCmdStepStock(f, env, input, firstId, cmds[k], k, index);
    DrawCmdsStockLater(DrawCmdStep(f, env, input, firstId, cmds[k], k, index), env, w, input, firstId,
                       cmds, k + 1, Advance(w, index, cmds[k].elemCount));
    TookMore(f.pool, DrawCmdStep(f, env, input, firstId, cmds[k], k, index).pool,
             DrawCmds(f, env, w, input, firstId, cmds, k, index).pool, env, k, |cmds| - 1, |cmds| - 1);
  }

  /** The inner loop takes one retrieval per command but the first. */
  lemma DrawCmdsStock(f: Frame, env: Env, w: IndexCounter, input: FrameInput, firstId: nat,
                      cmds: seq<DrawCmd>, k: nat, index: nat)
    requires k <= |cmds|
    requires k == 0 ==> |f.pool.used| > 0
    ensures Took(f.pool, env, Retrievals(|cmds|, k), DrawCmds(f, env, w, input, firstId, cmds, k, index).pool)
  {
    if k > 0 {
      DrawCmdsStockLater(f, env, w, input, firstId, cmds, k, index);
    } else if |cmds| > 0 {
      DrawCmdsStockFirst(f, env, w, input, firstId, cmds, k, index);
    } else {
      assert DrawCmds(f, env, w, input, firstId, cmds, k, index) == f;
    }
  }

  /** A list's start takes one retrieval. */
  lemma ListStartStock(f: Frame, env: Env, input: FrameInput, list: DrawList)
    ensures Took(f.pool, env, 1, ListStart(f, env, input, list).pool)
  {
  }

  /** A list takes one retrieval per command, and one when it has none. */
  lemma {:induction false} DrawOneListStock(f: Frame, env: Env, w: IndexCounter, input: FrameInput, list: DrawList)
    ensures Took(f.pool, env, if |list.cmds| == 0 then 1 else |list.cmds|, DrawOneList(f, env, w, input, list).pool)
  {
    ListStartStock(f, env, input, list);
    DrawOneListUnfold(f, env, w, input, list);
    DrawOneListFromStart(ListStart(f, env, input, list), env, w, input, list);
    TookMore(f.pool, ListStart(f, env, input, list).pool, DrawOneList(f, env, w, input, list).pool, env,
             1, Retrievals(|list.cmds|, 0), if |list.cmds| == 0 then 1 else |list.cmds|);
  }

  lemma DrawOneListFromStart(s: Frame, env: Env, w: IndexCounter, input: FrameInput, list: DrawList)
    requires |s.pool.used| > 0
    ensures Took(s.pool, env, Retrievals(|list.cmds|, 0),
                 DrawCmds(s, env, w, input, Last(s.pool.used).id, list.cmds, 0, 0).pool)
  {
    DrawCmdsStock(s, env, w, input, Last(s.pool.used).id, list.cmds, 0, 0);
  }

  /** The lists from `n` on take `Needed(lists, n)` retrievals. */
  lemma {:induction false} DrawListsStock(f: Frame, env: Env, w: IndexCounter, input: FrameInput, n: nat)
    requires n <= |input.lists|
    ensures Took(f.pool, env, Needed(input.lists, n), DrawListsFrom(f, env, w, input, n).pool)
    decreases |input.lists| - n
  {
    if n < |input.lists| {
      DrawOneListStock(f, env, w, input, input.lists[n]);
      DrawListsStock(DrawOneList(f, env, w, input, input.lists[n]), env, w, input, n + 1);
      DrawListsUnfold(f, env, w, input, n);
      TookMore(f.pool, DrawOneList(f, env, w, input, input.lists[n]).pool, DrawListsFrom(f, env, w, input, n).pool, env,
               if |input.lists[n].cmds| == 0 then 1 else |input.lists[n].cmds|, Needed(input.lists, n + 1),
               Needed(input.lists, n));
    } else {
      assert DrawListsFrom(f, env, w, input, n) == f;
    }
  }

  /** Over a frame the pool stays consistent, ends with one used command per
      ImGui command (at least one per list), and grows only to the frame's need:
      after the frame it holds the larger of what it held and what the frame
      needed, so frames no larger than an earlier one allocate nothing. */
  lemma DrawPoolGrowth(r: Renderer, env: Env, w: IndexCounter, input: FrameInput, queue: seq<Cmd>)
    requires PoolInv(r.pool, env)
    ensures var res := Draw(r, env, w, input, queue);
            var need := Needed(input.lists, 0);
            && PoolInv(res.renderer.pool, env)
            && (input.fbWidth > 0 && input.fbHeight > 0 ==>
                  && |res.renderer.pool.used| == need
                  && res.renderer.pool.created == (if need > r.pool.created then need else r.pool.created)
                  && |res.renderer.pool.free| == res.renderer.pool.created - need)
  {
    if input.fbWidth > 0 && input.fbHeight > 0 {
      ResetPreservesInv(r.pool, env);
      PoolInvConservation(r.pool, env);
      var f := Frame(ResetCommandPool(r.pool), queue, 0, r.lastFrameWidth, r.lastFrameHeight);
      DrawListsKeepsInv(f, env, w, input, 0);
      DrawListsStock(f, env, w, input, 0);
      RetrieveNTakes(f.pool, env, Needed(input.lists, 0));
    }
  }

  // ---------------------------------------------------------------------
  // Buffer ownership

  /** `a` and `b` agree on their first `j` commands. */
  ghost predicate SamePrefix(a: seq<Cmd>, b: seq<Cmd>, j: nat)
  {
    j <= |a| && j <= |b| && forall p :: 0 <= p < j ==> a[p] == b[p]
  }

  /** Two states of one command with the same uploads: identity, buffers and projection. */
  ghost predicate SameUploads(a: Cmd, b: Cmd)
  {
    a.id == b.id && a.buffers == b.buffers && a.projection == b.projection
  }

  /** Every command submitted at or after position `from` that shares buffers shares
      those of command `owner`. */
  ghost predicate SharesOnlyWith(q: seq<Cmd>, from: nat, owner: nat)
  {
    forall i :: from <= i < |q| && q[i].buffers.SharedWith? ==> q[i].buffers.owner == owner
  }

  lemma SamePrefixTrans(a: seq<Cmd>, b: seq<Cmd>, c: seq<Cmd>, j: nat, l: nat)
    requires SamePrefix(a, b, j) && SamePrefix(b, c, l) && j <= l
    ensures SamePrefix(a, c, j)
  {
  }

  lemma SharesOnlyWithAppend(q1: seq<Cmd>, q2: seq<Cmd>, from: nat, owner: nat)
    requires from <= |q1| <= |q2| && q2[..|q1|] == q1
    requires SharesOnlyWith(q1, from, owner) && SharesOnlyWith(q2, |q1|, owner)
    ensures SharesOnlyWith(q2, from, owner)
  {
    forall i | from <= i < |q1|
      ensures q2[i] == q1[i]
    {
      assert q2[..|q1|][i] == q2[i];
    }
  }

  /** One iteration keeps the commands before the one it works on, keeps the uploads
      of the list's first command, and submits at most a command sharing `firstId`. */
  lemma {:induction false} DrawCmdStepOwner(f: Frame, env: Env, input: FrameInput, firstId: nat,
                                            dc: DrawCmd, k: nat, index: nat)
    requires k == 0 ==> |f.pool.used| > 0 && Last(f.pool.used).buffers.Owned?
    ensures var r := DrawCmdStep(f, env, input, firstId, dc, k, index);
            var m := |f.pool.used|;
            && SamePrefix(f.pool.used, r.pool.used, if k == 0 then m - 1 else m)
            && (k == 0 ==> SameUploads(r.pool.used[m - 1], f.pool.used[m - 1]))
            && SharesOnlyWith(r.queue, |f.queue|, firstId)
  {
    var f1 := if k == 0 then f else f.(pool := Retrieve(f.pool, env).pool);
    var r := Place(f1, env, input, firstId, dc, k, index);
    assert SamePrefix(f.pool.used, f1.pool.used, |f.pool.used|);
    var n := |f1.pool.used|;
    assert SamePrefix(f1.pool.used, r.pool.used, n - 1);
  }

  lemma {:induction false} DrawCmdsOwner(f: Frame, env: Env, w: IndexCounter, input: FrameInput, firstId: nat,
                                         cmds: seq<DrawCmd>, k: nat, index: nat)
    requires k <= |cmds|
    requires k == 0 ==> |f.pool.used| > 0 && Last(f.pool.used).buffers.Owned?
    ensures var r := DrawCmds(f, env, w, input, firstId, cmds, k, index);
            var m := |f.pool.used|;
            && SamePrefix(f.pool.used, r.pool.used, if k == 0 then m - 1 else m)
            && (k == 0 ==> SameUploads(r.pool.used[m - 1], f.pool.used[m - 1]))
            && SharesOnlyWith(r.queue, |f.queue|, firstId)
    decreases |cmds| - k
  {
    var m := |f.pool.used|;
    if k < |cmds| {
      var f2 := DrawCmdStep(f, env, input, firstId, cmds[k], k, index);
      var next := Advance(w, index, cmds[k].elemCount);
      var r := DrawCmds(f2, env, w, input, firstId, cmds, k + 1, next);
      assert DrawCmds(f, env, w, input, firstId, cmds, k, index) == r;
      DrawCmdStepOwner(f, env, input, firstId, cmds[k], k, index);
      DrawCmdsOwner(f2, env, w, input, firstId, cmds, k + 1, next);
      SamePrefixTrans(f.pool.used, f2.pool.used, r.pool.used, if k == 0 then m - 1 else m, |f2.pool.used|);
      if k == 0 {
        assert r.pool.used[m - 1] == f2.pool.used[m - 1];
      }
      SharesOnlyWithAppend(f2.queue, r.queue, |f.queue|, firstId);
    } else {
      assert DrawCmds(f, env, w, input, firstId, cmds, k, index) == f;
    }
  }

  /** Each list uploads its data once, into its first command; every other command
      of the list that is submitted draws from that command's buffers. The first
      command receives the new projection exactly when the display size changed,
      which is then recorded, so no later list of the frame uploads it again. */
  lemma DrawOneListFirstCommand(f: Frame, env: Env, w: IndexCounter, input: FrameInput, list: DrawList)
    ensures var r := DrawOneList(f, env, w, input, list);
            var m := |f.pool.used|;
            && |r.pool.used| > m
            && r.pool.used[m].buffers == Owned(list.vtxCount * env.floatsPerVertex, list.idxCount)
            && r.pool.used[m].projection
               == (if SizeChanged(f, input) then Some(input.projection) else Retrieve(f.pool, env).cmd.projection)
            && (forall i :: |f.queue| <= i < |r.queue| && r.queue[i].buffers.SharedWith? ==>
                  r.queue[i].buffers.owner == r.pool.used[m].id)
            && !SizeChanged(r, input)
  {
    var s := ListStart(f, env, input, list);
    DrawCmdsOwner(s, env, w, input, Last(s.pool.used).id, list.cmds, 0, 0);
  }
}
