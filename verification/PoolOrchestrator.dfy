/**
 The main path of the pool controller: count, size, create EIPs and NLBs, then slots.  The store is keyed by what
 the object names encode (lane, group and zone index; slot index); Names proves that the names lose nothing.
 In a calm reconcile every call succeeds and nobody else acts.
 */
module PoolOrchestrator {
  import opened Options
  import opened PoolGrowth

  type AllocationId = nat

  datatype SlotPhase = Unset | Provisioning | Available | Bound | Other

  /** The EIP of a lane's NLB in one zone. */
  datatype EipKey = EipKey(lane: nat, group: nat, zone: nat)

  datatype NlbKey = NlbKey(lane: nat, group: nat)

  /** An NLB CR: the allocation IDs of its zone mappings, and whether the cloud NLB is Active. */
  datatype Nlb = Nlb(allocations: seq<AllocationId>, active: bool)

  /** The counters over the slots below n. */
  function CountsOf(slots: map<nat, SlotPhase>, n: nat): Counts
    requires forall s :: 0 <= s < n ==> s in slots
  {
    if n == 0 then Counts(0, 0, 0)
    else
      var c := CountsOf(slots, n - 1);
      Counts(n, c.available + (if slots[n - 1].Available? then 1 else 0),
             c.bound + (if slots[n - 1].Bound? then 1 else 0))
  }

  lemma {:induction false} CountsSame(slots: map<nat, SlotPhase>, slots': map<nat, SlotPhase>, n: nat)
    requires forall s :: 0 <= s < n ==> s in slots && s in slots' && slots'[s] == slots[s]
    ensures CountsOf(slots', n) == CountsOf(slots, n)
  {
    if n > 0 {
      CountsSame(slots, slots', n - 1);
    }
  }

  /** The slots below n in a given phase. */
  function InPhase(slots: map<nat, SlotPhase>, n: nat, phase: SlotPhase): set<nat> {
    set s | s in slots.Keys && s < n && slots[s] == phase
  }

  lemma InPhaseGrows(slots: map<nat, SlotPhase>, n: nat, phase: SlotPhase)
    requires n in slots
    ensures InPhase(slots, n + 1, phase) == InPhase(slots, n, phase) + if slots[n] == phase then {n} else {}
    ensures n !in InPhase(slots, n, phase)
  {
  }

  /** The counters are the numbers of all slots, of the Available and of the Bound ones. */
  lemma {:induction false} CountsFit(slots: map<nat, SlotPhase>, n: nat)
    requires forall s :: 0 <= s < n ==> s in slots
    ensures var c := CountsOf(slots, n);
      && c.total == n
      && c.available == |InPhase(slots, n, Available)|
      && c.bound == |InPhase(slots, n, Bound)|
  {
    if n == 0 {
      assert InPhase(slots, 0, Available) == {} && InPhase(slots, 0, Bound) == {};
    } else {
      CountsFit(slots, n - 1);
      InPhaseGrows(slots, n - 1, Available);
      InPhaseGrows(slots, n - 1, Bound);
    }
  }

  lemma {:induction false} CountsTotal(slots: map<nat, SlotPhase>, n: nat)
    requires forall s :: 0 <= s < n ==> s in slots
    ensures var c := CountsOf(slots, n); c.total == n && c.available + c.bound <= n
  {
    if n > 0 {
      CountsTotal(slots, n - 1);
    }
  }

  lemma OneMore(slots: map<nat, SlotPhase>, s: nat)
    requires s !in slots
    ensures |slots[s := Provisioning]| == |slots| + 1
  {
    assert slots[s := Provisioning].Keys == slots.Keys + {s};
  }

  /** A new slot changes the total alone. */
  lemma CountsAdded(slots: map<nat, SlotPhase>, s: nat)
    requires forall k :: 0 <= k < s ==> k in slots
    ensures CountsOf(slots, s).total == s
    ensures CountsOf(slots[s := Provisioning], s + 1) == CountsOf(slots, s).(total := s + 1)
  {
    CountsSame(slots, slots[s := Provisioning], s);
    CountsTotal(slots, s);
  }

  /** What the EIP operator, the NLB operator and the PA workers do meanwhile. */
  datatype Move =
    | AllocateEip(e: EipKey, id: AllocationId)
    | ReportNlb(k: NlbKey, active: bool)
    | MoveSlot(s: nat, phase: SlotPhase)

  /** The counters of a pool status, and the groups it reports for each lane. */
  datatype PoolStatus = PoolStatus(counts: Counts, nlbsPerLane: nat)

  ghost predicate HasId(e: EipKey, eips: map<EipKey, Option<AllocationId>>) {
    e in eips && eips[e].Some?
  }

  ghost predicate IsActive(k: NlbKey, nlbs: map<NlbKey, Nlb>) {
    k in nlbs && nlbs[k].active
  }

  ghost predicate SameEip(e: EipKey, eips: map<EipKey, Option<AllocationId>>,
                          before: map<EipKey, Option<AllocationId>>) {
    if e in eips then e in before && eips[e] == before[e] else e !in before
  }

  class PoolController {
    // the spec
    const S: nat
    const m: nat
    const lanes: nat
    const zones: nat
    // the store
    var eips: map<EipKey, Option<AllocationId>>
    var nlbs: map<NlbKey, Nlb>
    var slots: map<nat, SlotPhase>
    var stored: PoolStatus
    // pool.status as the reconcile holds it
    var status: PoolStatus
    // groups whose NLBs were all in place when slots were created for them
    ghost var groups: nat
    // what happened to the counts since the pool was empty
    ghost var events: seq<Event>

    /** An NLB has a zone mapping for every zone, and the EIP of every zone has its allocation ID. */
    ghost predicate NlbOk(k: NlbKey)
      reads this`nlbs, this`eips
      requires k in nlbs
    {
      |nlbs[k].allocations| == zones && Allocated(k)
    }

    /** Every zone EIP of the NLB has its allocation ID. */
    ghost predicate Allocated(k: NlbKey)
      reads this`eips
    {
      forall z :: 0 <= z < zones ==> HasId(EipKey(k.lane, k.group, z), eips)
    }

    /** Each zone mapping of the NLB carries the allocation ID of its EIP. */
    ghost predicate Wired(k: NlbKey)
      reads this`nlbs, this`eips
    {
      && k in nlbs && |nlbs[k].allocations| == zones
      && forall z :: 0 <= z < zones ==>
           var e := EipKey(k.lane, k.group, z);
           e in eips && eips[e] == Some(nlbs[k].allocations[z])
    }

    /** The NLBs of the groups below n exist and are Active. */
    ghost predicate InfrastructureReady(n: nat)
      reads this`nlbs
    {
      forall g, l :: 0 <= g < n && 0 <= l < lanes ==> IsActive(NlbKey(l, g), nlbs)
    }

    /** All lanes of group g have their NLB. */
    ghost predicate HasNlbs(g: nat)
      reads this`nlbs
    {
      forall l :: 0 <= l < lanes ==> NlbKey(l, g) in nlbs
    }

    /** The events lead from the empty pool to the counts of the slots, of the stored and of the held status. */
    ghost predicate Recorded()
      reads this`slots, this`stored, this`status, this`events
    {
      && S > 0 && (forall s: nat :: s in slots <==> s < |slots|)
      && Legal(S, m, EMPTY, events)
      && var p := End(EMPTY, events);
      p.now == CountsOf(slots, |slots|) && p.stored == stored.counts && p.status == status.counts
    }

    ghost predicate Valid()
      reads this
    {
      // slots form a prefix, and the groups they lie in have their NLBs
      && Recorded()
      && |slots| <= groups * S
      && (forall g :: 0 <= g < groups ==> HasNlbs(g))
      && (forall k :: k in nlbs ==> NlbOk(k))
      && status.counts.total <= |slots| && stored.counts.total <= |slots|
    }

    constructor (S: nat, m: nat, lanes: nat, zones: nat)
      requires S > 0
      ensures Valid() && slots == map[] && this.S == S && this.m == m && this.lanes == lanes && this.zones == zones
    {
      this.S, this.m, this.lanes, this.zones := S, m, lanes, zones;
      eips, nlbs, slots := map[], map[], map[];
      stored, status := PoolStatus(Counts(0, 0, 0), 0), PoolStatus(Counts(0, 0, 0), 0);
      groups, events := 0, [];
    }

    /** Every slot has the NLB of its own group in every lane, and each of those a zone mapping and an EIP per zone. */
    lemma SlotHasInfrastructure(s: nat, l: nat)
      requires Valid() && s in slots && l < lanes
      ensures NlbKey(l, s / S) in nlbs && |nlbs[NlbKey(l, s / S)].allocations| == zones
      ensures forall z :: 0 <= z < zones ==> EipKey(l, s / S, z) in eips && eips[EipKey(l, s / S, z)].Some?
    {
      DivGreatest(s, S, groups);
      assert HasNlbs(s / S) && NlbOk(NlbKey(l, s / S));
      forall z | 0 <= z < zones ensures EipKey(l, s / S, z) in eips && eips[EipKey(l, s / S, z)].Some? {
        assert HasId(EipKey(l, s / S, z), eips);
      }
    }

    /** Over the whole life of the pool the slots stay within the limit of the largest bound count ever synced. */
    lemma SlotsBounded()
      requires Valid()
      ensures |slots| <= Limit(S, m, End(EMPTY, events).peak) * S
      ensures CeilDiv(|slots|, S) <= Limit(S, m, End(EMPTY, events).peak)
    {
      BoundedGrowth(S, m, events);
      CountsTotal(slots, |slots|);
    }

    /** Since an earlier moment every reconcile saw bound count b: the pool grew at most to what b needs. */
    lemma GrowthSince(was: seq<Event>, b: nat)
      requires Valid() && was <= events && Counted(End(EMPTY, was), b)
      requires SeesBound(End(EMPTY, was), events[|was|..], b)
      ensures End(EMPTY, was).now.total <= |slots| <= Max(End(EMPTY, was).now.total, Enough(S, m, b))
    {
      assert events == was + events[|was|..];
      Split(S, m, EMPTY, was, events[|was|..]);
      GrowsAtMostToEnough(S, m, End(EMPTY, was), events[|was|..], b);
      CountsTotal(slots, |slots|);
    }

    /** The EIP and NLB operators and the PA workers make progress; nothing is removed while the pool is live. */
    twostate predicate Progress()
      reads this
    {
      && old(nlbs.Keys) <= nlbs.Keys
      && old(eips.Keys) <= eips.Keys
      && (forall e :: HasId(e, old(eips)) ==> HasId(e, eips))
      && slots.Keys == old(slots.Keys) && |slots| == |old(slots)| && old(events) <= events
    }

    /** The EIP operator allocates an address, or replaces one. */
    method GiveAddress(e: EipKey, id: AllocationId)
      requires Valid() && e in eips
      modifies this`eips
      ensures Valid() && Progress() && eips == old(eips)[e := Some(id)]
    {
      label before:
      eips := eips[e := Some(id)];
      forall k | k in nlbs ensures NlbOk(k) {
        assert old@before(NlbOk(k));
      }
    }

    /** The NLB operator reports a status. */
    method ReportStatus(k: NlbKey, active: bool)
      requires Valid() && k in nlbs
      modifies this`nlbs
      ensures Valid() && Progress() && nlbs == old(nlbs)[k := old(nlbs)[k].(active := active)]
    {
      SetNlb(k, nlbs[k].(active := active));
    }

    /** A write of an NLB CR. */
    method SetNlb(k: NlbKey, nlb: Nlb)
      requires Valid() && |nlb.allocations| == zones && Allocated(k)
      modifies this`nlbs
      ensures Valid() && Progress() && nlbs == old(nlbs)[k := nlb]
    {
      label before:
      nlbs := nlbs[k := nlb];
      forall k' | k' in nlbs ensures NlbOk(k') {
        assert k' != k ==> old@before(NlbOk(k'));
      }
      forall g | 0 <= g < groups ensures HasNlbs(g) {
        assert old@before(HasNlbs(g));
      }
    }

    /** A PA moves to another phase. */
    method ChangePhase(s: nat, phase: SlotPhase)
      requires Valid() && s in slots
      modifies this`slots, this`events
      ensures Valid() && Progress() && slots == old(slots)[s := phase]
    {
      slots := slots[s := phase];
      CountsTotal(slots, |slots|);
      ghost var c := CountsOf(slots, |slots|);
      Append(S, m, EMPTY, events, Change(c.available, c.bound));
      events := events + [Change(c.available, c.bound)];
    }

    /** The operators and the PA workers make any progress. */
    method Interfere(calm: bool)
      requires Valid()
      modifies this`eips, this`nlbs, this`slots, this`events
      ensures Valid() && Progress() && nlbs.Keys == old(nlbs.Keys) && eips.Keys == old(eips.Keys)
      ensures calm ==> eips == old(eips) && nlbs == old(nlbs) && slots == old(slots)
    {
      var moves: seq<Move> := *;
      if calm {
        return;
      }
      for n := 0 to |moves|
        invariant Valid() && Progress() && nlbs.Keys == old(nlbs.Keys) && eips.Keys == old(eips.Keys)
      {
        TakeMove(moves[n]);
      }
    }

    method TakeMove(move: Move)
      requires Valid()
      modifies this`eips, this`nlbs, this`slots, this`events
      ensures Valid() && Progress() && nlbs.Keys == old(nlbs.Keys) && eips.Keys == old(eips.Keys)
    {
      match move {
        case AllocateEip(e, id) =>
          if e in eips {
            GiveAddress(e, id);
          }
        case ReportNlb(k, active) =>
          if k in nlbs {
            ReportStatus(k, active);
          }
        case MoveSlot(s, phase) =>
          if s in slots {
            ChangePhase(s, phase);
          }
      }
    }

    /** The reconcile reads the pool. */
    method LoadPool()
      requires Valid()
      modifies this`status, this`events
      ensures Valid() && Progress() && status == stored
    {
      Append(S, m, EMPTY, events, Load);
      events := events + [Load];
      status := stored;
    }

    /**
     syncPoolStatus: one pass over the PAs; a failed List leaves the old status.  The held status is the new one even
     when its write is refused.  nlbsPerLane is the least positive number of groups that holds all slots.
     */
    method SyncPoolStatus(calm: bool) returns (synced: bool)
      requires Valid()
      modifies this`status, this`stored, this`events
      ensures Valid() && Progress()
      ensures if synced then status.counts == CountsOf(slots, |slots|) else status == old(status)
      ensures synced ==>
        && status.counts.total == |slots|
        && status.counts.available == |InPhase(slots, |slots|, Available)|
        && status.counts.bound == |InPhase(slots, |slots|, Bound)|
      ensures stored == old(stored) || (synced && stored == status)
      ensures synced ==> status.nlbsPerLane > 0 && |slots| <= status.nlbsPerLane * S
      ensures synced && status.nlbsPerLane > 1 ==> (status.nlbsPerLane - 1) * S < |slots|
      ensures calm ==> synced && stored == status
    {
      synced := *;
      synced := synced || calm;
      if !synced {
        return;
      }
      var available, bound := 0, 0;
      for s := 0 to |slots|
        invariant CountsOf(slots, s) == Counts(s, available, bound)
      {
        match slots[s] {
          case Available => available := available + 1;
          case Bound => bound := bound + 1;
          case _ =>
        }
      }
      CountsFit(slots, |slots|);
      var groupCount := PerLane(|slots|);
      status := PoolStatus(Counts(|slots|, available, bound), groupCount);
      var accepted: bool := *;
      if accepted || calm {
        stored := status;
      }
      Append(S, m, EMPTY, events, Sync(accepted || calm));
      events := events + [Sync(accepted || calm)];
    }

    /** The nlbsPerLane of a pool with the given number of slots. */
    method PerLane(total: nat) returns (n: nat)
      requires S > 0
      ensures n > 0 && total <= n * S && (n > 1 ==> (n - 1) * S < total)
    {
      n := (total + S - 1) / S;
      CeilDivLeast(total, S, n);
      if n < 1 {
        n := 1;
      } else {
        CeilDivLeast(total, S, n - 1);
      }
    }

    /** The EIP of every zone of one NLB: created when missing; ready when all have their allocation IDs. */
    method EnsureEips(k: NlbKey, calm: bool) returns (ok: bool, ready: bool, ids: seq<AllocationId>)
      requires Valid()
      modifies this`eips, this`nlbs, this`slots, this`events
      ensures Valid() && Progress() && nlbs.Keys == old(nlbs.Keys)
      ensures ok && ready ==> |ids| == zones && Allocated(k)
      ensures calm ==> ok && nlbs == old(nlbs) && slots == old(slots) && (ready <==> old(Allocated(k)))
      ensures calm && ready ==> forall z :: 0 <= z < zones ==> eips[EipKey(k.lane, k.group, z)] == Some(ids[z])
      ensures ok ==> forall z :: 0 <= z < zones ==> EipKey(k.lane, k.group, z) in eips
    {
      ok, ready, ids := true, true, [];
      for z := 0 to zones
        invariant ok && Valid() && Progress() && nlbs.Keys == old(nlbs.Keys)
        invariant calm ==> nlbs == old(nlbs) && slots == old(slots)
        invariant calm ==> (forall j :: z <= j < zones ==> SameEip(EipKey(k.lane, k.group, j), eips, old(eips)))
        invariant calm ==> (ready <==> forall j :: 0 <= j < z ==> HasId(EipKey(k.lane, k.group, j), old(eips)))
        invariant forall j :: 0 <= j < z ==> EipKey(k.lane, k.group, j) in eips
        invariant ready ==> |ids| == z && forall j :: 0 <= j < z ==> HasId(EipKey(k.lane, k.group, j), eips)
        invariant calm && ready ==> forall j :: 0 <= j < z ==> eips[EipKey(k.lane, k.group, j)] == Some(ids[j])
      {
        var id;
        ok, id := EnsureEip(EipKey(k.lane, k.group, z), calm);
        if !ok {
          return false, false, ids;
        }
        match id {
          case None => ready := false;
          case Some(a) => ids := ids + [a];
        }
      }
    }

    /** One zone EIP: created when missing, else its allocation ID if it has one. */
    method EnsureEip(e: EipKey, calm: bool) returns (ok: bool, id: Option<AllocationId>)
      requires Valid()
      modifies this`eips, this`nlbs, this`slots, this`events
      ensures Valid() && Progress() && nlbs.Keys == old(nlbs.Keys)
      ensures ok ==> e in eips && (id.Some? ==> eips[e] == id)
      ensures calm ==> ok && nlbs == old(nlbs) && slots == old(slots)
      ensures calm ==> eips == old(eips)[e := if e in old(eips) then old(eips)[e] else None] && id == eips[e]
    {
      Interfere(calm);
      var accepted: bool := *;
      if !accepted && !calm {
        return false, None;
      }
      if e !in eips {
        eips := eips[e := None];
      }
      return true, eips[e];
    }

    /**
     One lane of one group: its EIPs, then its NLB, whose zone mappings follow the allocation IDs just read.  Ready when
     the NLB existed before and is Active.
     */
    method EnsureNlb(k: NlbKey, calm: bool) returns (ok: bool, ready: bool)
      requires Valid()
      modifies this`eips, this`nlbs, this`slots, this`events
      ensures Valid() && Progress()
      ensures ok && ready ==> k in nlbs && nlbs[k].active
      ensures ok ==> forall z :: 0 <= z < zones ==> EipKey(k.lane, k.group, z) in eips
      ensures calm ==> ok && slots == old(slots) && (old(Allocated(k)) ==> Wired(k))
      ensures calm ==> forall k' :: k' != k ==> (k' in nlbs <==> k' in old(nlbs))
      ensures calm ==> forall k' :: k' in old(nlbs) ==> nlbs[k'].active == old(nlbs)[k'].active
      ensures calm ==> (ready <==> k in old(nlbs) && old(nlbs)[k].active)
    {
      var ids;
      assert k in nlbs ==> NlbOk(k);
      ok, ready, ids := EnsureEips(k, calm);
      if !ok || !ready {
        return;
      }
      var accepted: bool := *;
      if k in nlbs {
        ok := FixDrift(k, ids, calm);
        return ok, ok && nlbs[k].active;
      }
      if !accepted && !calm {
        return false, false;
      }
      SetNlb(k, Nlb(ids, false));
      return true, false;
    }

    /** Brings the zone mappings of an existing NLB in line with the allocation IDs of its EIPs. */
    method FixDrift(k: NlbKey, ids: seq<AllocationId>, calm: bool) returns (ok: bool)
      requires Valid() && k in nlbs && |ids| == zones && Allocated(k)
      modifies this`nlbs
      ensures Valid() && Progress() && (calm ==> ok)
      ensures nlbs == if ok then old(nlbs)[k := old(nlbs)[k].(allocations := ids)] else old(nlbs)
    {
      var allocations, needUpdate := nlbs[k].allocations, false;
      assert NlbOk(k);
      for i := 0 to |allocations|
        invariant |allocations| == zones && allocations[..i] == ids[..i]
        invariant !needUpdate ==> allocations == nlbs[k].allocations
      {
        if allocations[i] != ids[i] {
          allocations := allocations[i := ids[i]];
          needUpdate := true;
        }
      }
      assert allocations == allocations[..zones] && ids == ids[..zones];
      if needUpdate {
        ok := *;
        if !ok && !calm {
          return false;
        }
        SetNlb(k, nlbs[k].(allocations := allocations));
      }
      return true;
    }

    /** ensureNLBsAndEIPs for groups [0, desired). */
    method EnsureNLBsAndEIPs(desired: nat, calm: bool) returns (ok: bool, allReady: bool)
      requires Valid()
      modifies this`eips, this`nlbs, this`slots, this`events
      ensures Valid() && Progress()
      ensures ok && allReady ==> forall g :: 0 <= g < desired ==> HasNlbs(g)
      ensures calm ==> ok && slots == old(slots) && (allReady <==> old(InfrastructureReady(desired)))
    {
      ok, allReady := true, true;
      for g := 0 to desired
        invariant Valid() && Progress()
        invariant allReady ==> forall j :: 0 <= j < g ==> HasNlbs(j)
        invariant calm ==> slots == old(slots)
        invariant calm ==> forall k: NlbKey :: k.group >= g ==> (k in nlbs <==> k in old(nlbs))
        invariant calm ==> forall k :: k in old(nlbs) ==> k in nlbs && nlbs[k].active == old(nlbs)[k].active
        invariant calm ==> (allReady <==> old(InfrastructureReady(g)))
      {
        label before:
        var done, ready := EnsureGroup(g, calm);
        assert forall j :: 0 <= j < g && old@before(HasNlbs(j)) ==> HasNlbs(j);
        if !done {
          return false, false;
        }
        allReady := allReady && ready;
      }
    }

    /** The lanes of one group. */
    method EnsureGroup(g: nat, calm: bool) returns (ok: bool, allReady: bool)
      requires Valid()
      modifies this`eips, this`nlbs, this`slots, this`events
      ensures Valid() && Progress()
      ensures ok && allReady ==> HasNlbs(g)
      ensures calm ==> ok && slots == old(slots)
      ensures calm ==> forall k: NlbKey :: k.group != g ==> (k in nlbs <==> k in old(nlbs))
      ensures calm ==> forall k :: k in old(nlbs) ==> nlbs[k].active == old(nlbs)[k].active
      ensures calm ==> (allReady <==> forall l :: 0 <= l < lanes ==> IsActive(NlbKey(l, g), old(nlbs)))
    {
      ok, allReady := true, true;
      for l := 0 to lanes
        invariant Valid() && Progress()
        invariant allReady ==> forall i :: 0 <= i < l ==> NlbKey(i, g) in nlbs
        invariant calm ==> slots == old(slots)
        invariant calm ==> forall k: NlbKey :: k.group != g || k.lane >= l ==> (k in nlbs <==> k in old(nlbs))
        invariant calm ==> forall k :: k in old(nlbs) ==> nlbs[k].active == old(nlbs)[k].active
        invariant calm ==> (allReady <==> forall i :: 0 <= i < l ==> IsActive(NlbKey(i, g), old(nlbs)))
      {
        var done, ready := EnsureNlb(NlbKey(l, g), calm);
        if !done {
          return false, false;
        }
        allReady := allReady && ready;
      }
    }

    /** ensureSlotResources: slots from the counted total up to desired * S, stopping at the first refused create. */
    method EnsureSlotResources(desired: nat, calm: bool) returns (ok: bool, ready: bool)
      requires Valid() && (forall g :: 0 <= g < desired ==> HasNlbs(g)) && desired == Desired(S, m, status.counts)
      modifies this`slots, this`groups, this`events
      ensures Valid() && old(events) <= events
      ensures |old(slots)| <= |slots| <= Max(|old(slots)|, desired * S)
      ensures forall s :: s in old(slots) ==> s in slots && slots[s] == old(slots)[s]
      ensures ok ==> |slots| == Max(|old(slots)|, desired * S)
      ensures calm ==> ok
      ensures ready ==> ok && slots == old(slots)
      ensures ready <==> desired * S <= old(status).counts.total
                         && forall s :: s in old(slots) ==> !old(slots)[s].Unset? && !old(slots)[s].Provisioning?
    {
      var total := desired * S;
      if status.counts.total >= total {
        ready := forall s | s in slots :: !slots[s].Unset? && !slots[s].Provisioning?;
        return true, ready;
      }
      if groups < desired {
        MulMonotone(groups, desired, S);
        groups := desired;
      } else {
        MulMonotone(desired, groups, S);
      }
      ok := CreateSlots(total, calm);
      return ok, false;
    }

    /** The creation loop: existing slots are left alone. */
    method CreateSlots(total: nat, calm: bool) returns (ok: bool)
      requires Valid() && total <= groups * S && total == Desired(S, m, status.counts) * S
      modifies this`slots, this`events
      ensures Valid() && old(events) <= events
      ensures |old(slots)| <= |slots| <= Max(|old(slots)|, total)
      ensures forall s :: s in old(slots) ==> s in slots && slots[s] == old(slots)[s]
      ensures ok ==> |slots| == Max(|old(slots)|, total)
      ensures calm ==> ok
    {
      if status.counts.total >= total {
        return true;
      }
      for s := status.counts.total to total
        invariant Valid() && s <= |slots| && old(events) <= events
        invariant |old(slots)| <= |slots| <= Max(|old(slots)|, s)
        invariant forall s :: s in old(slots) ==> s in slots && slots[s] == old(slots)[s]
      {
        if s !in slots {
          var accepted: bool := *;
          if !accepted && !calm {
            return false;
          }
          CreateSlot(s);
        }
      }
      return true;
    }

    /** One new PA, in phase Provisioning. */
    method CreateSlot(s: nat)
      requires Valid() && s == |slots| && s < groups * S && s < Desired(S, m, status.counts) * S
      modifies this`slots, this`events
      ensures Valid() && slots == old(slots)[s := Provisioning] && |slots| == s + 1 && old(events) <= events
    {
      OneMore(slots, s);
      CountsAdded(slots, s);
      RecordCreate(s);
      slots := slots[s := Provisioning];
      events := events + [Create(1)];
    }

    lemma RecordCreate(s: nat)
      requires Recorded() && s == |slots| && s < Desired(S, m, status.counts) * S && CountsOf(slots, s).total == s
      ensures Legal(S, m, EMPTY, events + [Create(1)])
      ensures End(EMPTY, events + [Create(1)]) == Apply(End(EMPTY, events), Create(1))
    {
      Append(S, m, EMPTY, events, Create(1));
    }

    /**
     One reconcile of a live pool.  Whatever fails on the way, slots stay a prefix with their NLBs in place; the pool
     grows only to the size computed from one sync, never shrinks, and stays within the limit of its peak.  A calm
     reconcile that finds the NLBs of the desired groups Active reaches that size.
     */
    method Reconcile(calm: bool) returns (ok: bool, ghost sized: Counts)
      requires Valid()
      modifies this
      ensures Valid() && old(events) <= events
      ensures sized == old(stored).counts || sized == old(CountsOf(slots, |slots|))
      ensures |old(slots)| <= |slots| <= Max(|old(slots)|, Desired(S, m, sized) * S)
      ensures |slots| <= Limit(S, m, End(EMPTY, events).peak) * S
      ensures ok ==> |slots| == Max(|old(slots)|, Desired(S, m, sized) * S)
      ensures sized.available < S * m && ok ==> |slots| >= sized.bound + S * m
      ensures calm ==> sized == old(CountsOf(slots, |slots|))
      ensures calm ==> (ok <==> old(InfrastructureReady(Desired(S, m, CountsOf(slots, |slots|)))))
    {
      LoadPool();
      var synced := SyncPoolStatus(calm);
      sized := status.counts;
      if sized.available < S * m {
        DesiredIsLeast(S, m, sized, 0);
      }
      ok := EnsureResources(calm);
      SlotsBounded();
    }

    /** A reconcile past its first sync: NLBs, then slots, then the counters again. */
    method EnsureResources(calm: bool) returns (ok: bool)
      requires Valid()
      modifies this
      ensures Valid() && old(events) <= events
      ensures |old(slots)| <= |slots| <= Max(|old(slots)|, Desired(S, m, old(status).counts) * S)
      ensures ok ==> |slots| == Max(|old(slots)|, Desired(S, m, old(status).counts) * S)
      ensures calm ==> (ok <==> old(InfrastructureReady(Desired(S, m, status.counts))))
    {
      var desired := Desired(S, m, status.counts);
      var done, ready := EnsureNLBsAndEIPs(desired, calm);
      if !done {
        return false;
      }
      if ready {
        ok, ready := EnsureSlotResources(desired, calm);
        if !ok {
          return;
        }
      } else {
        ok := false;
      }
      var synced := SyncPoolStatus(calm);
    }
  }
}
