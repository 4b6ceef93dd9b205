/**
 The ImGui drawer's command pool: commands wait in `free` between frames and
 sit in `used` while they belong to the current frame. `Retrieve` hands out a
 compatible free command (or creates one), `ResetCommandPool` returns every
 used command at the start of a frame.

 Commands are owned through unique pointers, so a command's identity is its
 `id`; `created` counts the commands ever allocated and doubles as the next id.
 */
module ImGuiPool {

  import opened Wrappers
  import opened ImGuiCommand

  datatype Pool = Pool(free: seq<Cmd>, used: seq<Cmd>, created: nat)

  /** A pool after a retrieval, and the command handed out. */
  datatype Retrieved = Retrieved(pool: Pool, cmd: Cmd)

  /** The linear search of `retrieveCommandFromPool`: the first index at or after `i`
      of a command using the given shader, if any. */
  function FindCompatible(free: seq<Cmd>, shader: ShaderId, i: nat): (r: Option<nat>)
    requires i <= |free|
    ensures r.Some? ==> i <= r.value < |free| && Compatible(free[r.value], shader)
    ensures r.Some? ==> forall j :: i <= j < r.value ==> !Compatible(free[j], shader)
    ensures r.None? ==> forall j :: i <= j < |free| ==> !Compatible(free[j], shader)
    decreases |free| - i
  {
    if i == |free| then None
    else if Compatible(free[i], shader) then Some(i)
    else FindCompatible(free, shader, i + 1)
  }

  /** Remove element `i` by moving the last element into its slot and shrinking by one. */
  function SwapRemove<T>(s: seq<T>, i: nat): (r: seq<T>)
    requires i < |s|
    ensures |r| == |s| - 1
    ensures forall j :: 0 <= j < |r| && j != i ==> r[j] == s[j]
    ensures i < |r| ==> r[i] == s[|s| - 1]
    ensures forall x :: x in r ==> x in s
  {
    s[i := s[|s| - 1]][..|s| - 1]
  }

  /** `retrieveCommandFromPool`. */
  function Retrieve(p: Pool, env: Env): (r: Retrieved)
    ensures r.pool.used == p.used + [r.cmd]
    ensures Compatible(r.cmd, env.shader)
    ensures match FindCompatible(p.free, env.shader, 0)
              case Some(i) =>
                && r.cmd == p.free[i]
                && r.pool.free == SwapRemove(p.free, i)
                && r.pool.created == p.created
              case None =>
                && r.cmd == SetupRenderCmd(p.created, env)
                && r.pool.free == p.free
                && r.pool.created == p.created + 1
    ensures r.pool.created >= p.created
    ensures |r.pool.free| + |r.pool.used| == |p.free| + |p.used| + (r.pool.created - p.created)
  {
    match FindCompatible(p.free, env.shader, 0)
    case Some(i) =>
      Retrieved(Pool(SwapRemove(p.free, i), p.used + [p.free[i]], p.created), p.free[i])
    case None =>
      var c := SetupRenderCmd(p.created, env);
      Retrieved(Pool(p.free, p.used + [c], p.created + 1), c)
  }

  /** `resetCommandPool`: every used command goes back to `free`, after the free ones and in order. */
  function ResetCommandPool(p: Pool): (r: Pool)
    ensures r.used == [] && r.created == p.created
    ensures |r.free| == |p.free| + |p.used|
    ensures r.free[..|p.free|] == p.free && r.free[|p.free|..] == p.used
  {
    Pool(p.free + p.used, [], p.created)
  }

  /** Writing through the pointer `Retrieve` returned: the last used command is replaced. */
  function ReplaceLast(p: Pool, c: Cmd): (r: Pool)
    requires |p.used| > 0
    ensures r.free == p.free && r.created == p.created && |r.used| == |p.used|
    ensures r.used[..|p.used| - 1] == p.used[..|p.used| - 1] && r.used[|p.used| - 1] == c
  {
    p.(used := p.used[..|p.used| - 1] + [c])
  }

  // ---------------------------------------------------------------------
  // The pool invariant

  function Ids(s: seq<Cmd>): (r: seq<nat>)
    ensures |r| == |s| && forall i :: 0 <= i < |s| ==> r[i] == s[i].id
  {
    seq(|s|, i requires 0 <= i < |s| => s[i].id)
  }

  /** How many commands of `s` have identity `x`. */
  ghost function Count(s: seq<Cmd>, x: nat): nat
  {
    if |s| == 0 then 0 else Count(s[..|s| - 1], x) + (if s[|s| - 1].id == x then 1 else 0)
  }

  lemma {:induction false} CountIsMultiplicity(s: seq<Cmd>, x: nat)
    ensures Count(s, x) == multiset(Ids(s))[x]
  {
    if |s| > 0 {
      var n := |s| - 1;
      CountIsMultiplicity(s[..n], x);
      assert Ids(s) == Ids(s[..n]) + [s[n].id];
    }
  }

  lemma {:induction false} CountAppend(a: seq<Cmd>, b: seq<Cmd>, x: nat)
    ensures Count(a + b, x) == Count(a, x) + Count(b, x)
    decreases |b|
  {
    if |b| == 0 {
      assert a + b == a;
    } else {
      var n := |b| - 1;
      assert (a + b)[..|a + b| - 1] == a + b[..n];
      CountAppend(a, b[..n], x);
    }
  }

  lemma CountOne(c: Cmd, x: nat)
    ensures Count([c], x) == if c.id == x then 1 else 0
  {
    assert [c][..0] == [];
  }

  /** Swap-remove takes exactly one occurrence of the removed command's identity out of the sequence. */
  lemma {:induction false} SwapRemoveCount(s: seq<Cmd>, i: nat, x: nat)
    requires i < |s|
    ensures Count(SwapRemove(s, i), x) + (if s[i].id == x then 1 else 0) == Count(s, x)
  {
    var last := |s| - 1;
    var r := SwapRemove(s, i);
    if i == last {
      assert r == s[..last];
    } else {
      var before, between := s[..i], s[i + 1..last];
      assert r == before + [s[last]] + between;
      assert s[..last] == before + [s[i]] + between;
      CountAppend(before + [s[last]], between, x);
      CountAppend(before, [s[last]], x);
      CountAppend(before + [s[i]], between, x);
      CountAppend(before, [s[i]], x);
      CountOne(s[last], x);
      CountOne(s[i], x);
    }
  }

  /** The bag {0, 1, ..., n - 1}. */
  function Upto(n: nat): multiset<nat>
  {
    if n == 0 then multiset{} else Upto(n - 1) + multiset{n - 1}
  }

  lemma {:induction false} UptoCount(n: nat, x: nat)
    ensures Upto(n)[x] == if x < n then 1 else 0
  {
    if n > 0 {
      UptoCount(n - 1, x);
    }
  }

  lemma {:induction false} UptoSize(n: nat)
    ensures |Upto(n)| == n
  {
    if n > 0 {
      UptoSize(n - 1);
    }
  }

  /** Every identity below `created` occurs exactly once in `free` and `used`
      together, and no other identity occurs. */
  ghost predicate Census(p: Pool)
  {
    forall x: nat :: Count(p.free, x) + Count(p.used, x) == if x < p.created then 1 else 0
  }

  /** The census, stated on bags: the identities of `free` and `used` together are {0, ..., created - 1}. */
  lemma CensusAsBags(p: Pool)
    ensures Census(p) <==> multiset(Ids(p.free)) + multiset(Ids(p.used)) == Upto(p.created)
  {
    forall x: nat
      ensures Count(p.free, x) + Count(p.used, x) == (multiset(Ids(p.free)) + multiset(Ids(p.used)))[x]
      ensures (if x < p.created then 1 else 0) == Upto(p.created)[x]
    {
      CountIsMultiplicity(p.free, x);
      CountIsMultiplicity(p.used, x);
      UptoCount(p.created, x);
    }
  }

  /** Every command of `s` is configured for ImGui drawing, stated element by
      element from the back; `AllConfiguredAt` gives the indexed form. */
  ghost predicate AllConfigured(s: seq<Cmd>, env: Env)
  {
    |s| == 0 || (AllConfigured(s[..|s| - 1], env) && Configured(s[|s| - 1], env))
  }

  lemma {:induction false} AllConfiguredAt(s: seq<Cmd>, env: Env)
    ensures AllConfigured(s, env) <==> forall i :: 0 <= i < |s| ==> Configured(s[i], env)
  {
    if |s| > 0 {
      var n := |s| - 1;
      AllConfiguredAt(s[..n], env);
      assert forall i :: 0 <= i < n ==> s[..n][i] == s[i];
    }
  }

  /** Every free command is configured for ImGui drawing. */
  ghost predicate FreeConfigured(p: Pool, env: Env)
  {
    AllConfigured(p.free, env)
  }

  /** Every command ever created is in exactly one of `free` and `used`, and every
      command is configured for ImGui drawing. */
  ghost predicate PoolInv(p: Pool, env: Env)
  {
    && Census(p)
    && FreeConfigured(p, env)
    && AllConfigured(p.used, env)
  }

  /** The empty pool the drawer starts with. */
  lemma EmptyPoolInv(env: Env)
    ensures PoolInv(Pool([], [], 0), env)
  {
  }

  /** Conservation: the two lists together hold exactly the commands created, and
      no command is both free and used. */
  lemma {:induction false} PoolInvConservation(p: Pool, env: Env)
    requires PoolInv(p, env)
    ensures |p.free| + |p.used| == p.created
    ensures forall i, j :: 0 <= i < |p.free| && 0 <= j < |p.used| ==> p.free[i].id != p.used[j].id
  {
    CensusAsBags(p);
    UptoSize(p.created);
    forall i, j | 0 <= i < |p.free| && 0 <= j < |p.used|
      ensures p.free[i].id != p.used[j].id
    {
      if p.free[i].id == p.used[j].id {
        var x := p.free[i].id;
        assert Ids(p.free)[i] == x && Ids(p.used)[j] == x;
        assert multiset(Ids(p.free))[x] >= 1 && multiset(Ids(p.used))[x] >= 1;
        UptoCount(p.created, x);
        assert false;
      }
    }
  }

  lemma {:induction false} RetrievePreservesInv(p: Pool, env: Env)
    requires PoolInv(p, env)
    ensures PoolInv(Retrieve(p, env).pool, env)
  {
    match FindCompatible(p.free, env.shader, 0)
    case Some(i) => RecycleKeepsInv(p, env, i);
    case None => AllocateKeepsInv(p, env);
  }

  lemma {:induction false} RecycleKeepsInv(p: Pool, env: Env, i: nat)
    requires PoolInv(p, env) && i < |p.free|
    ensures PoolInv(Pool(SwapRemove(p.free, i), p.used + [p.free[i]], p.created), env)
  {
    var c := p.free[i];
    var q := Pool(SwapRemove(p.free, i), p.used + [c], p.created);
    forall x: nat
      ensures Count(q.free, x) + Count(q.used, x) == if x < q.created then 1 else 0
    {
      SwapRemoveCount(p.free, i, x);
      CountAppend(p.used, [c], x);
      CountOne(c, x);
    }
    AllConfiguredAt(p.free, env);
    AllConfiguredAt(q.free, env);
    assert q.used[..|q.used| - 1] == p.used;
  }

  lemma {:induction false} AllocateKeepsInv(p: Pool, env: Env)
    requires PoolInv(p, env)
    ensures PoolInv(Pool(p.free, p.used + [SetupRenderCmd(p.created, env)], p.created + 1), env)
  {
    var c := SetupRenderCmd(p.created, env);
    var q := Pool(p.free, p.used + [c], p.created + 1);
    forall x: nat
      ensures Count(q.free, x) + Count(q.used, x) == if x < q.created then 1 else 0
    {
      CountAppend(p.used, [c], x);
      CountOne(c, x);
    }
    assert q.used[..|q.used| - 1] == p.used;
  }

  lemma {:induction false} ResetPreservesInv(p: Pool, env: Env)
    requires PoolInv(p, env)
    ensures PoolInv(ResetCommandPool(p), env)
  {
    var q := ResetCommandPool(p);
    forall x: nat
      ensures Count(q.free, x) + Count(q.used, x) == if x < q.created then 1 else 0
    {
      CountAppend(p.free, p.used, x);
    }
    AllConfiguredAt(p.free, env);
    AllConfiguredAt(p.used, env);
    AllConfiguredAt(q.free, env);
  }

  lemma {:induction false} ReplaceLastPreservesInv(p: Pool, c: Cmd, env: Env)
    requires PoolInv(p, env) && |p.used| > 0
    requires c.id == p.used[|p.used| - 1].id && Configured(c, env)
    ensures PoolInv(ReplaceLast(p, c), env)
  {
    var n := |p.used|;
    var q := ReplaceLast(p, c);
    var init := p.used[..n - 1];
    assert p.used == init + [p.used[n - 1]];
    forall x: nat
      ensures Count(q.free, x) + Count(q.used, x) == if x < q.created then 1 else 0
    {
      CountAppend(init, [p.used[n - 1]], x);
      CountAppend(init, [c], x);
      CountOne(p.used[n - 1], x);
      CountOne(c, x);
    }
    assert q.used[..n - 1] == init;
  }

  /** When every free command is configured (as in a consistent pool), every free
      command is compatible, so a retrieval from a non-empty `free` takes its first
      element and allocates nothing; when `free` is empty exactly one command is created. */
  lemma {:induction false} RetrieveFromConsistentPool(p: Pool, env: Env)
    requires FreeConfigured(p, env)
    ensures var r := Retrieve(p, env);
            if |p.free| > 0 then
              && r.cmd == p.free[0] && r.pool.free == SwapRemove(p.free, 0)
              && r.pool.created == p.created
            else
              && r.cmd == SetupRenderCmd(p.created, env)
              && r.pool.free == [] && r.pool.created == p.created + 1
  {
    AllConfiguredAt(p.free, env);
  }

  /** After a reset, the next retrieval recycles the first command of the old `free`
      (or of the old `used` when `free` was empty) instead of allocating, whenever
      the pool holds any command at all. Swap-removes reorder `free`, so this need
      not be the oldest command. The recycled command is returned as it was,
      including whatever its last use placed on it. */
  lemma {:induction false} RetrieveAfterResetRecycles(p: Pool, env: Env)
    requires PoolInv(p, env) && |p.free| + |p.used| > 0
    ensures var q := ResetCommandPool(p);
            var r := Retrieve(q, env);
            r.pool.created == p.created && r.cmd == q.free[0]
            && r.cmd == (if |p.free| > 0 then p.free[0] else p.used[0])
  {
    ResetPreservesInv(p, env);
    var q := ResetCommandPool(p);
    RetrieveFromConsistentPool(q, env);
  }
}
