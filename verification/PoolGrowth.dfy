/**
 How many NLB groups a pool asks for, what that promises, and how the pool grows over whole runs.
 S is slotsPerNLB, m is minAvailableNLBs; counts are those of the pool status.
 */
module PoolGrowth {

  /** The counters syncPoolStatus writes; slots being bound, released or disabled are in neither count. */
  datatype Counts = Counts(total: nat, available: nat, bound: nat)

  function Max(a: int, b: int): int {
    if a < b then b else a
  }

  function CeilDiv(a: nat, s: nat): nat
    requires s > 0
  {
    (a + s - 1) / s
  }

  /** The groups the pool is taken to have: complete ones, and at least one. */
  function Current(S: nat, c: Counts): nat
    requires S > 0
  {
    Max(c.total / S, 1)
  }

  /** computeDesiredNLBs. */
  function Desired(S: nat, m: nat, c: Counts): nat
    requires S > 0
  {
    var minFree := S * m;
    if c.available >= minFree then Current(S, c)
    else Max((c.bound + minFree + S - 1) / S, Current(S, c))
  }

  // ---------------------------------------------------------------------------
  // Arithmetic
  // ---------------------------------------------------------------------------

  lemma MulMonotone(a: nat, b: nat, s: nat)
    requires a <= b
    ensures a * s <= b * s
  {
  }

  /** a / s is the greatest n with n * s <= a. */
  lemma DivGreatest(a: nat, s: nat, n: nat)
    requires s > 0
    ensures n <= a / s <==> n * s <= a
  {
    var q := a / s;
    assert q * s <= a < q * s + s;
    if n <= q {
      MulMonotone(n, q, s);
    } else {
      MulMonotone(q + 1, n, s);
      assert (q + 1) * s == q * s + s;
    }
  }

  /** CeilDiv(a, s) is the least n with n * s >= a. */
  lemma CeilDivLeast(a: nat, s: nat, n: nat)
    requires s > 0
    ensures CeilDiv(a, s) <= n <==> a <= n * s
  {
    DivGreatest(a + s - 1, s, n + 1);
    assert (n + 1) * s == n * s + s;
  }

  lemma CeilDivShift(a: nat, s: nat, m: nat)
    requires s > 0
    ensures CeilDiv(a + s * m, s) == CeilDiv(a, s) + m
  {
    var p, q := CeilDiv(a + s * m, s), CeilDiv(a, s);
    CeilDivLeast(a, s, q);
    assert (q + m) * s == q * s + s * m;
    CeilDivLeast(a + s * m, s, q + m);
    CeilDivLeast(a + s * m, s, p);
    DivGreatest(a + s * m + s - 1, s, m);
    assert m * s == s * m;
    assert (p - m) * s == p * s - s * m;
    CeilDivLeast(a, s, p - m);
  }

  lemma CeilDivMonotone(a: nat, b: nat, s: nat)
    requires s > 0 && a <= b
    ensures CeilDiv(a, s) <= CeilDiv(b, s)
  {
    CeilDivLeast(b, s, CeilDiv(b, s));
    CeilDivLeast(a, s, CeilDiv(b, s));
  }

  // ---------------------------------------------------------------------------
  // What one computation promises
  // ---------------------------------------------------------------------------

  /**
   When headroom is short, the result is the least group count, not below the current one, that covers bound slots and
   headroom.
   */
  lemma DesiredIsLeast(S: nat, m: nat, c: Counts, d: nat)
    requires S > 0 && c.available < S * m
    ensures Desired(S, m, c) * S >= c.bound + S * m
    ensures d >= Current(S, c) && d * S >= c.bound + S * m ==> Desired(S, m, c) <= d
  {
    var need := CeilDiv(c.bound + S * m, S);
    CeilDivLeast(c.bound + S * m, S, need);
    CeilDivLeast(c.bound + S * m, S, d);
    MulMonotone(need, Desired(S, m, c), S);
  }

  /** The current count is the number of complete groups, at least one. */
  lemma CurrentIsComplete(S: nat, c: Counts)
    requires S > 0
    ensures Current(S, c) >= 1 && c.total < (Current(S, c) + 1) * S
    ensures Current(S, c) > 1 ==> Current(S, c) * S <= c.total
  {
    DivGreatest(c.total, S, c.total / S + 1);
    MulMonotone(c.total / S + 1, Current(S, c) + 1, S);
  }

  /** With enough slots available nothing more is wanted. */
  lemma EnoughAvailableKeeps(S: nat, m: nat, c: Counts)
    requires S > 0 && c.available >= S * m
    ensures Desired(S, m, c) == Current(S, c)
  {
  }

  /** The groups that bound slots and headroom can ask for; without headroom the pool never wants more than one. */
  function Limit(S: nat, m: nat, bound: nat): nat
    requires S > 0
  {
    if m == 0 then 1 else CeilDiv(bound, S) + m
  }

  /** Desired lies between the current count and the larger of it and what bound slots and headroom ask for. */
  lemma DesiredBounded(S: nat, m: nat, c: Counts)
    requires S > 0
    ensures Current(S, c) <= Desired(S, m, c) <= Max(Current(S, c), Limit(S, m, c.bound))
    ensures Limit(S, m, c.bound) <= Max(1, CeilDiv(c.bound, S) + m)
  {
    CeilDivShift(c.bound, S, m);
    assert m == 0 ==> S * m == 0;
  }

  /** minAvailableNLBs = 0 locks the pool at its current size, at least one group. */
  lemma ZeroHeadroomLocks(S: nat, c: Counts)
    requires S > 0
    ensures Desired(S, 0, c) == Current(S, c)
  {
    assert S * 0 == 0;
  }

  /** The documented rule: new groups are created whenever fewer than S * m slots are available. */
  predicate ExpandsWhenShort(S: nat, m: nat, c: Counts)
    requires S > 0
  {
    c.available < S * m ==> Desired(S, m, c) > Current(S, c)
  }

  /** The code follows the documented rule exactly when bound slots plus headroom exceed the current capacity. */
  lemma ExpandsWhenShortIff(S: nat, m: nat, c: Counts)
    requires S > 0
    ensures ExpandsWhenShort(S, m, c) <==> c.available >= S * m || c.bound + S * m > Current(S, c) * S
  {
    CeilDivLeast(c.bound + S * m, S, Current(S, c));
  }

  /**
   After a completed expansion with the same bound count: once every slot is available or bound the headroom is
   back, but a group's worth of slots on their way (being bound, released or disabled) leaves it short.
   */
  lemma HeadroomRestored(S: nat, m: nat, before: Counts, after: Counts)
    requires S > 0 && before.available < S * m && Desired(S, m, before) > Current(S, before)
    requires after.total == Desired(S, m, before) * S && after.bound == before.bound
    requires after.available + after.bound <= after.total
    ensures after.available + after.bound == after.total ==> after.available >= S * m
    ensures after.total - after.available - after.bound >= S ==> after.available < S * m
  {
    var d := Desired(S, m, before);
    DesiredIsLeast(S, m, before, d - 1);
    assert (d - 1) * S == d * S - S;
  }

  // ---------------------------------------------------------------------------
  // 32-bit arithmetic
  // ---------------------------------------------------------------------------

  const MAX32: int := 0x7fff_ffff

  /** The value of an int32 operation whose exact result is x. */
  function Wrap(x: int): int {
    (x + 0x8000_0000) % 0x1_0000_0000 - 0x8000_0000
  }

  /** computeDesiredNLBs as the int32 code evaluates it. */
  function Desired32(S: int, m: int, c: Counts): int
    requires 0 < S
  {
    var minFree := Wrap(S * m);
    var cur := Max(c.total / S, 1);
    if c.available >= minFree then cur
    else
      var needed := Wrap(c.bound + minFree);
      var top := Wrap(Wrap(needed + S) - 1);
      // Go truncates toward zero
      Max(if top >= 0 then top / S else -(-top / S), cur)
  }

  lemma WrapExact(x: int)
    requires 0 <= x <= MAX32
    ensures Wrap(x) == x
  {
  }

  /** No overflow while bound + S * m + S fits in 31 bits. */
  lemma NoOverflow(S: nat, m: nat, c: Counts)
    requires 0 < S && c.bound + S * m + S <= MAX32
    ensures Desired32(S, m, c) == Desired(S, m, c)
  {
    WrapExact(S * m);
    WrapExact(c.bound + S * m);
    WrapExact(c.bound + S * m + S);
    WrapExact(c.bound + S * m + S - 1);
  }

  // ---------------------------------------------------------------------------
  // Whole runs
  // ---------------------------------------------------------------------------

  /**
   The real counts, the counters in the stored pool status and in the copy the running reconcile holds, and the
   largest bound count any sync has seen.
   */
  datatype Pool = Pool(now: Counts, stored: Counts, status: Counts, peak: nat)

  const EMPTY := Pool(Counts(0, 0, 0), Counts(0, 0, 0), Counts(0, 0, 0), 0)

  /** A reconcile loads the pool, syncs the counters, whose write may be refused, and creates slots. */
  datatype Event =
    | Change(available: nat, bound: nat)
    | Load
    | Sync(accepted: bool)
    | Create(slots: nat)

  /** Slots are created up to Desired * S, and creation may stop anywhere on the way. */
  predicate Enabled(S: nat, m: nat, p: Pool, ev: Event)
    requires S > 0
  {
    match ev
    case Change(available, bound) => available + bound <= p.now.total
    case Load => true
    case Sync(_) => true
    case Create(slots) => p.now.total + slots <= Desired(S, m, p.status) * S
  }

  function Apply(p: Pool, ev: Event): Pool {
    match ev
    case Change(available, bound) => p.(now := Counts(p.now.total, available, bound))
    case Load => p.(status := p.stored)
    case Sync(accepted) =>
      p.(status := p.now, stored := if accepted then p.now else p.stored, peak := Max(p.peak, p.now.bound))
    case Create(slots) => p.(now := p.now.(total := p.now.total + slots))
  }

  /** evs can happen in order from p. */
  predicate Legal(S: nat, m: nat, p: Pool, evs: seq<Event>)
    requires S > 0
    decreases |evs|
  {
    evs != [] ==> Enabled(S, m, p, evs[0]) && Legal(S, m, Apply(p, evs[0]), evs[1..])
  }

  function End(p: Pool, evs: seq<Event>): Pool
    decreases |evs|
  {
    if evs == [] then p else End(Apply(p, evs[0]), evs[1..])
  }

  lemma {:induction false} Append(S: nat, m: nat, p: Pool, evs: seq<Event>, ev: Event)
    requires S > 0 && Legal(S, m, p, evs) && Enabled(S, m, End(p, evs), ev)
    ensures Legal(S, m, p, evs + [ev]) && End(p, evs + [ev]) == Apply(End(p, evs), ev)
    decreases |evs|
  {
    if evs == [] {
      assert [ev][1..] == [];
    } else {
      assert (evs + [ev])[1..] == evs[1..] + [ev];
      Append(S, m, Apply(p, evs[0]), evs[1..], ev);
    }
  }

  lemma {:induction false} Split(S: nat, m: nat, p: Pool, a: seq<Event>, b: seq<Event>)
    requires S > 0 && Legal(S, m, p, a + b)
    ensures Legal(S, m, p, a) && Legal(S, m, End(p, a), b) && End(End(p, a), b) == End(p, a + b)
    decreases |a|
  {
    if a == [] {
      assert a + b == b;
    } else {
      assert (a + b)[1..] == a[1..] + b;
      Split(S, m, Apply(p, a[0]), a[1..], b);
    }
  }

  ghost predicate GrowthOk(S: nat, m: nat, p: Pool)
    requires S > 0
  {
    && p.status.total <= p.now.total && p.stored.total <= p.now.total
    && p.status.bound <= p.peak && p.stored.bound <= p.peak
    && p.now.total <= Limit(S, m, p.peak) * S
  }

  lemma LimitMonotone(S: nat, m: nat, a: nat, b: nat)
    requires S > 0 && a <= b
    ensures Limit(S, m, a) * S <= Limit(S, m, b) * S
  {
    CeilDivMonotone(a, b, S);
    MulMonotone(Limit(S, m, a), Limit(S, m, b), S);
  }

  lemma AtMostGroups(S: nat, total: nat, n: nat)
    requires S > 0 && total <= n * S
    ensures total / S <= n
  {
    DivGreatest(total, S, n + 1);
    assert (n + 1) * S == n * S + S;
  }

  lemma EventKeepsGrowth(S: nat, m: nat, p: Pool, ev: Event)
    requires S > 0 && GrowthOk(S, m, p) && Enabled(S, m, p, ev)
    ensures GrowthOk(S, m, Apply(p, ev)) && p.now.total <= Apply(p, ev).now.total
  {
    match ev {
      case Change(_, _) =>
      case Load =>
      case Sync(_) =>
        LimitMonotone(S, m, p.peak, Max(p.peak, p.now.bound));
      case Create(slots) =>
        var lim := Limit(S, m, p.peak);
        DesiredBounded(S, m, p.status);
        CeilDivMonotone(p.status.bound, p.peak, S);
        AtMostGroups(S, p.status.total, lim);
        MulMonotone(Desired(S, m, p.status), lim, S);
    }
  }

  /** Over every run the pool never shrinks and never exceeds the run's limit, whatever fails midway. */
  lemma {:induction false} BoundedGrowthFrom(S: nat, m: nat, p: Pool, evs: seq<Event>)
    requires S > 0 && GrowthOk(S, m, p) && Legal(S, m, p, evs)
    ensures GrowthOk(S, m, End(p, evs)) && p.now.total <= End(p, evs).now.total
    decreases |evs|
  {
    if evs != [] {
      EventKeepsGrowth(S, m, p, evs[0]);
      BoundedGrowthFrom(S, m, Apply(p, evs[0]), evs[1..]);
    }
  }

  lemma BoundedGrowth(S: nat, m: nat, evs: seq<Event>)
    requires S > 0 && Legal(S, m, EMPTY, evs)
    ensures var p := End(EMPTY, evs); GrowthOk(S, m, p) && CeilDiv(p.now.total, S) <= Limit(S, m, p.peak)
  {
    assert Limit(S, m, 0) * S >= 0;
    BoundedGrowthFrom(S, m, EMPTY, evs);
    var p := End(EMPTY, evs);
    CeilDivLeast(p.now.total, S, Limit(S, m, p.peak));
  }

  // ---------------------------------------------------------------------------
  // Reconciles with an unchanged bound count
  // ---------------------------------------------------------------------------

  /** Every sync and every load in evs sees the bound count b. */
  ghost predicate SeesBound(p: Pool, evs: seq<Event>, b: nat)
    decreases |evs|
  {
    evs != [] ==>
      && (evs[0].Sync? ==> p.now.bound == b) && (evs[0].Load? ==> p.stored.bound == b)
      && SeesBound(Apply(p, evs[0]), evs[1..], b)
  }

  /** The running reconcile's counters were taken with bound count b. */
  predicate Counted(p: Pool, b: nat) {
    p.status.total <= p.now.total && p.stored.total <= p.now.total && p.status.bound == b
  }

  /** The slots that cover b bound slots and the headroom, in complete groups. */
  function Enough(S: nat, m: nat, b: nat): nat
    requires S > 0
  {
    Limit(S, m, b) * S
  }

  /** While every reconcile sees b, no status wants more slots than there are or than Enough. */
  lemma WantsAtMost(S: nat, m: nat, p: Pool, b: nat)
    requires S > 0 && Counted(p, b)
    ensures Desired(S, m, p.status) * S <= Max(p.now.total, Enough(S, m, b))
  {
    DesiredBounded(S, m, p.status);
    var cur := p.status.total / S;
    assert cur * S <= p.status.total;
    MulMonotone(Desired(S, m, p.status), Max(cur, Limit(S, m, b)), S);
  }

  /** However often the pool is reconciled while every reconcile sees b, it grows at most to Enough. */
  lemma {:induction false} GrowsAtMostToEnough(S: nat, m: nat, p: Pool, evs: seq<Event>, b: nat)
    requires S > 0 && Legal(S, m, p, evs) && SeesBound(p, evs, b) && Counted(p, b)
    ensures p.now.total <= End(p, evs).now.total <= Max(p.now.total, Enough(S, m, b))
    decreases |evs|
  {
    if evs != [] {
      WantsAtMost(S, m, p, b);
      GrowsAtMostToEnough(S, m, Apply(p, evs[0]), evs[1..], b);
    }
  }

  ghost predicate NeverGrows(S: nat, m: nat, p: Pool, b: nat)
    requires S > 0
  {
    forall evs :: Legal(S, m, p, evs) && SeesBound(p, evs, b) ==> End(p, evs).now.total == p.now.total
  }

  /** With nothing available, the whole limit is wanted. */
  lemma LimitReached(S: nat, m: nat, c: Counts)
    requires S > 0 && c.available == 0
    ensures Limit(S, m, c.bound) * S <= Desired(S, m, c) * S
  {
    CeilDivShift(c.bound, S, m);
    assert m > 0 ==> S * m > 0;
    MulMonotone(Limit(S, m, c.bound), Desired(S, m, c), S);
  }

  /** When no slot is available, one more reconcile with the same bound count adds a slot to a pool below Enough. */
  lemma OneMoreReconcile(S: nat, m: nat, p: Pool, b: nat) returns (evs: seq<Event>)
    requires S > 0 && Counted(p, b) && b <= p.now.total < Enough(S, m, b)
    ensures Legal(S, m, p, evs) && SeesBound(p, evs, b) && End(p, evs).now.total == p.now.total + 1
  {
    evs := [Change(0, b), Sync(true), Create(1)];
    var p1 := Apply(p, Change(0, b));
    var p2 := Apply(p1, Sync(true));
    LimitReached(S, m, p2.status);
    assert evs[1..] == [Sync(true), Create(1)] && evs[1..][1..] == [Create(1)] && evs[1..][1..][1..] == [];
    assert Legal(S, m, Apply(p2, Create(1)), []);
    assert Legal(S, m, p2, [Create(1)]) && SeesBound(p2, [Create(1)], b);
    assert Legal(S, m, p1, [Sync(true), Create(1)]) && SeesBound(p1, [Sync(true), Create(1)], b);
  }

  /**
   Repeated reconciles that keep seeing the bound count b add nothing, however availability moves and also while new
   slots are still provisioning, if and only if the pool already has the slots b needs.
   */
  lemma NoRunawayExpansionIff(S: nat, m: nat, p: Pool, b: nat)
    requires S > 0 && Counted(p, b) && b <= p.now.total
    ensures NeverGrows(S, m, p, b) <==> Enough(S, m, b) <= p.now.total
  {
    if Enough(S, m, b) <= p.now.total {
      forall evs | Legal(S, m, p, evs) && SeesBound(p, evs, b) ensures End(p, evs).now.total == p.now.total {
        GrowsAtMostToEnough(S, m, p, evs, b);
      }
    } else {
      var evs := OneMoreReconcile(S, m, p, b);
    }
  }

  /** A first reconcile that found the headroom short and finished leaves Enough: later ones add nothing. */
  lemma CompletionSettles(S: nat, m: nat, p: Pool)
    requires S > 0 && p.status.available < S * m && Counted(p, p.status.bound)
    requires p.now.total == Desired(S, m, p.status) * S
    ensures NeverGrows(S, m, p, p.status.bound)
  {
    var b := p.status.bound;
    CeilDivShift(b, S, m);
    MulMonotone(Limit(S, m, b), Desired(S, m, p.status), S);
    MulMonotone(1, Desired(S, m, p.status), S);
    DesiredIsLeast(S, m, p.status, 0);
    NoRunawayExpansionIff(S, m, p, b);
  }

  // ---------------------------------------------------------------------------
  // Two runs worth knowing
  // ---------------------------------------------------------------------------

  lemma Play(S: nat, m: nat, p: Pool, ev: Event, evs: seq<Event>, rest: seq<Event>)
    requires S > 0 && evs == [ev] + rest && Enabled(S, m, p, ev) && Legal(S, m, Apply(p, ev), rest)
    ensures Legal(S, m, p, evs) && End(p, evs) == End(Apply(p, ev), rest)
  {
    assert evs[1..] == rest;
  }

  /** All three slots of a one-group pool are disabled. */
  const DISABLING: seq<Event> := [Create(3), Change(0, 0), Sync(true)]

  /** A reachable pool with nothing available, which the documented rule would expand and the code does not. */
  lemma DisabledSlotsStarve()
    ensures Legal(3, 1, EMPTY, DISABLING)
    ensures var p := End(EMPTY, DISABLING); p.now == p.status == Counts(3, 0, 0)
    ensures var c := End(EMPTY, DISABLING).status; c.available < 3 * 1 && Desired(3, 1, c) == Current(3, c) == 1
    ensures !ExpandsWhenShort(3, 1, End(EMPTY, DISABLING).status)
  {
    var p1 := Apply(EMPTY, Create(3));
    var p2 := Apply(p1, Change(0, 0));
    var p3 := Apply(p2, Sync(true));
    assert Legal(3, 1, p3, []) && End(p3, []) == p3;
    Play(3, 1, p2, Sync(true), [Sync(true)], []);
    Play(3, 1, p1, Change(0, 0), [Change(0, 0), Sync(true)], [Sync(true)]);
    Play(3, 1, EMPTY, Create(3), DISABLING, [Change(0, 0), Sync(true)]);
  }

  /** Creation of the second group stops after its first slot; the new slot becomes available. */
  const HALF_CREATED: seq<Event> :=
    [Create(3), Change(2, 1), Sync(true), Create(1), Change(3, 1), Sync(true)]

  const ONE_MORE: seq<Event> := [Change(2, 1), Sync(true), Create(2)]

  /**
   "Nothing is added after the first reconcile" fails: with 4 slots, 1 bound and 3 available a reconcile wants no more,
   yet the next one that sees the same bound count and one slot fewer available adds two.
   */
  lemma HalfCreatedGroupGrows()
    ensures Legal(3, 1, EMPTY, HALF_CREATED)
    ensures var p := End(EMPTY, HALF_CREATED);
      && p.now == p.stored == p.status == Counts(4, 3, 1) && Desired(3, 1, p.status) * 3 <= p.now.total
      && Legal(3, 1, p, ONE_MORE) && SeesBound(p, ONE_MORE, 1) && End(p, ONE_MORE).now.total == 6
  {
    var p1 := Apply(EMPTY, Create(3));
    var p2 := Apply(p1, Change(2, 1));
    var p3 := Apply(p2, Sync(true));
    var p4 := Apply(p3, Create(1));
    var p5 := Apply(p4, Change(3, 1));
    var p6 := Apply(p5, Sync(true));
    assert Legal(3, 1, p6, []) && End(p6, []) == p6;
    Play(3, 1, p5, Sync(true), [Sync(true)], []);
    Play(3, 1, p4, Change(3, 1), [Change(3, 1), Sync(true)], [Sync(true)]);
    Play(3, 1, p3, Create(1), [Create(1), Change(3, 1), Sync(true)], [Change(3, 1), Sync(true)]);
    Play(3, 1, p2, Sync(true), HALF_CREATED[2..], HALF_CREATED[3..]);
    Play(3, 1, p1, Change(2, 1), HALF_CREATED[1..], HALF_CREATED[2..]);
    Play(3, 1, EMPTY, Create(3), HALF_CREATED, HALF_CREATED[1..]);
    var q1 := Apply(p6, Change(2, 1));
    var q2 := Apply(q1, Sync(true));
    var q3 := Apply(q2, Create(2));
    assert Legal(3, 1, q3, []) && End(q3, []) == q3 && SeesBound(q3, [], 1);
    Play(3, 1, q2, Create(2), [Create(2)], []);
    Play(3, 1, q1, Sync(true), [Sync(true), Create(2)], [Create(2)]);
    Play(3, 1, p6, Change(2, 1), ONE_MORE, [Sync(true), Create(2)]);
    assert [Create(2)][1..] == [] && [Sync(true), Create(2)][1..] == [Create(2)];
    assert SeesBound(q2, [Create(2)], 1) && SeesBound(q1, [Sync(true), Create(2)], 1);
  }
}
