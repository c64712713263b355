/** Which NLB group and which listener port each (slot, port index) of a pool gets. */
module PortPlan {

  /** slotsPerNLB, the number of ports per slot, and the first listener port. */
  datatype Plan = Plan(S: nat, P: nat, min: nat) {
    predicate Valid() {
      S > 0
    }
  }

  function GroupOf(c: Plan, slot: nat): nat
    requires c.Valid()
  {
    slot / c.S
  }

  function PortOf(c: Plan, slot: nat, p: nat): nat
    requires c.Valid()
  {
    c.min + slot % c.S * c.P + p
  }

  /** In mixed radix, equal values have equal digits. */
  lemma DigitsUnique(a: nat, p: nat, b: nat, q: nat, P: nat)
    requires p < P && q < P && a * P + p == b * P + q
    ensures a == b && p == q
  {
    Apart(a, b, P);
    Apart(b, a, P);
  }

  lemma Apart(a: nat, b: nat, P: nat)
    ensures a < b ==> a * P + P <= b * P
    ensures a <= b ==> a * P <= b * P
  {
    if a < b {
      assert (a + 1) * P <= b * P;
    }
  }

  /** No two (slot, port index) pairs share a listener port on one NLB group. */
  lemma PlanInjective(c: Plan, s: nat, p: nat, t: nat, q: nat)
    requires c.Valid() && p < c.P && q < c.P
    requires GroupOf(c, s) == GroupOf(c, t) && PortOf(c, s, p) == PortOf(c, t, q)
    ensures s == t && p == q
  {
    DigitsUnique(s % c.S, p, t % c.S, q, c.P);
    assert s == s / c.S * c.S + s % c.S;
    assert t == t / c.S * c.S + t % c.S;
  }

  /** The slot and port index behind listener port n of group g. */
  function SlotAt(c: Plan, g: nat, n: nat): (nat, nat)
    requires c.Valid() && c.P > 0 && c.min <= n
  {
    var d: nat := n - c.min;
    var row: nat, base: nat := d / c.P, g * c.S;
    (base + row, d % c.P)
  }

  lemma GroupOfSlot(c: Plan, g: nat, r: nat)
    requires c.Valid() && r < c.S
    ensures (g * c.S + r) / c.S == g && (g * c.S + r) % c.S == r
  {
    var s := g * c.S + r;
    assert s == s / c.S * c.S + s % c.S;
    DigitsUnique(g, r, s / c.S, s % c.S, c.S);
  }

  /** Each group uses exactly the ports [min, min + S * P): every one of them belongs to a slot of the group. */
  lemma PlanFills(c: Plan, g: nat, n: nat)
    requires c.Valid() && c.P > 0 && c.min <= n < c.min + c.S * c.P
    ensures var (s, p) := SlotAt(c, g, n);
      p < c.P && GroupOf(c, s) == g && PortOf(c, s, p) == n
  {
    var d := n - c.min;
    var r, p := d / c.P, d % c.P;
    assert d == r * c.P + p;
    Apart(c.S, r, c.P);
    GroupOfSlot(c, g, r);
  }

  /** The ports of every slot lie in [min, max] exactly when the range covers S * P ports. */
  lemma PlanFitsIff(c: Plan, max: nat)
    requires c.Valid() && c.P > 0
    ensures (forall s, p :: 0 <= s && 0 <= p < c.P ==> c.min <= PortOf(c, s, p) <= max)
       <==> c.min + c.S * c.P <= max + 1
  {
    assert (c.S - 1) * c.P == c.S * c.P - c.P;
    if c.min + c.S * c.P <= max + 1 {
      forall s, p | 0 <= s && 0 <= p < c.P ensures c.min <= PortOf(c, s, p) <= max {
        assert s % c.S * c.P <= (c.S - 1) * c.P;
      }
    } else {
      GroupOfSlot(c, 0, c.S - 1);
      assert PortOf(c, c.S - 1, c.P - 1) == c.min + c.S * c.P - 1;
    }
  }

  /** Listener port n of group g belongs to some slot of the group. */
  ghost predicate Used(c: Plan, g: nat, n: nat)
    requires c.Valid()
  {
    exists s: nat, p: nat :: p < c.P && GroupOf(c, s) == g && PortOf(c, s, p) == n
  }

  function Range(lo: nat, n: nat): set<nat> {
    if n == 0 then {} else Range(lo, n - 1) + {lo + n - 1}
  }

  lemma {:induction false} RangeMembers(lo: nat, n: nat)
    ensures |Range(lo, n)| == n && forall k :: k in Range(lo, n) <==> lo <= k < lo + n
  {
    if n > 0 {
      RangeMembers(lo, n - 1);
    }
  }

  /** The listener ports [min, min + S * P) of an NLB. */
  function GroupPorts(c: Plan): set<nat> {
    Range(c.min, c.S * c.P)
  }

  lemma PortInGroup(c: Plan, s: nat, p: nat)
    requires c.Valid() && p < c.P
    ensures c.min <= PortOf(c, s, p) < c.min + c.S * c.P
  {
    Apart(s % c.S, c.S, c.P);
  }

  lemma PortIsUsed(c: Plan, g: nat, n: nat)
    requires c.Valid() && c.min <= n < c.min + c.S * c.P
    ensures Used(c, g, n)
  {
    assert c.P == 0 ==> c.S * c.P == 0;
    PlanFills(c, g, n);
    var (s, p) := SlotAt(c, g, n);
    assert p < c.P && GroupOf(c, s) == g && PortOf(c, s, p) == n;
  }

  /** The used ports of every group are exactly GroupPorts. */
  lemma GroupPortsExact(c: Plan, g: nat, n: nat)
    requires c.Valid()
    ensures Used(c, g, n) <==> n in GroupPorts(c)
  {
    RangeMembers(c.min, c.S * c.P);
    if n in GroupPorts(c) {
      PortIsUsed(c, g, n);
    }
    if Used(c, g, n) {
      var s: nat, p: nat :| p < c.P && GroupOf(c, s) == g && PortOf(c, s, p) == n;
      PortInGroup(c, s, p);
    }
  }

  /** An NLB carries S * P listeners, so the documented limit of 500 holds exactly when S * P does not exceed it. */
  lemma ListenerLimit(c: Plan)
    ensures |GroupPorts(c)| == c.S * c.P
    ensures |GroupPorts(c)| <= 500 <==> c.S * c.P <= 500
  {
    RangeMembers(c.min, c.S * c.P);
  }
}
