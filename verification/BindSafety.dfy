/**
 Safety of the binding protocol: an invariant of every interleaving, and what follows from it.
 The proof is rely/guarantee: a step of one worker changes its own slot, and everything it may do to
 the rest of the state is covered by the relation Rely, under which the other slots stay good.
 */
module BindSafety {
  import opened Options
  import opened BindModel

  // ---------------------------------------------------------------------------
  // The invariant
  // ---------------------------------------------------------------------------

  /** PA a names a pod and that pod's claim names a; once the pod is gone its claim is frozen. */
  ghost predicate Holds(a: PaId, x: Slot, pods: map<PodId, Pod>) {
    x.boundPod.Some? && x.boundPod.value in pods && pods[x.boundPod.value].claim == Some(a)
  }

  /** If the bound pod is alive, its claim does not name a. */
  ghost predicate Unclaimed(a: PaId, x: Slot, pods: map<PodId, Pod>) {
    x.boundPod.Some? && x.boundPod.value in pods
    && (pods[x.boundPod.value].alive ==> pods[x.boundPod.value].claim != Some(a))
  }

  /** seen was read from pod p at some earlier time. */
  ghost predicate SeenOk(p: PodId, seen: Pod, s: State) {
    && p in s.pods
    && seen.ver <= s.pods[p].ver
    && (seen.ver == s.pods[p].ver ==> seen == s.pods[p])
    && (seen.ip.Some? ==> Mine(s, seen.ip.value, p))
  }

  ghost predicate Owns(s: State, ip: Addr, p: PodId) {
    ip in s.owner && s.owner[ip] == p
  }

  /** The address is pod p's, as long as p lives. */
  ghost predicate Mine(s: State, ip: Addr, p: PodId) {
    p in s.pods && (s.pods[p].alive ==> Owns(s, ip, p))
  }

  /** While pod p is still at version v, its claim is absent or already a's. */
  ghost predicate CasOk(a: PaId, p: PodId, v: nat, s: State) {
    && p in s.pods
    && v <= s.pods[p].ver
    && (s.pods[p].ver == v ==> s.pods[p].claim == None || s.pods[p].claim == Some(a))
  }

  /** Every backend still registered in g has an accepted removal. */
  ghost predicate Requested(g: Group) {
    forall b :: b in g ==> g[b]
  }

  ghost predicate PcOk(a: PaId, x: Slot, s: State)
    requires |x.groups| == |x.marks| == |x.ports|
  {
    match x.pc
    case Idle => true
    case Started => true
    case Listed(pods) =>
      x.phase.Available? && x.boundPod.None? && forall p :: p in pods ==> SeenOk(p, pods[p], s)
    case Chosen(p, v, ip) => x.phase.Available? && x.boundPod.None? && CasOk(a, p, v, s) && Mine(s, ip, p)
    case Reserved(p, v) =>
      x.phase.Available? && x.boundPod == Some(p) && CasOk(a, p, v, s) && Unclaimed(a, x, s.pods)
    case Undoing => x.phase.Available? && Unclaimed(a, x, s.pods)
    case Resuming(p, seen) =>
      && x.phase.Available? && x.boundPod == Some(p) && SeenOk(p, seen, s)
      && (seen.claim == Some(a) <==> s.pods[p].claim == Some(a))
    case Confirmed(ip) =>
      x.phase.Available? && Holds(a, x, s.pods) && (ip.Some? ==> Mine(s, ip.value, x.boundPod.value))
    case Moving(to) =>
      || (to.Binding? && (x.phase.Available? || x.phase.Disabled?) && Holds(a, x, s.pods))
      || (to.Releasing? && (x.phase.Binding? || x.phase.Bound? || x.phase.Disabled?))
    case Attaching(note) =>
      && x.phase.Binding? && x.boundIP.Some? && x.boundPod.Some? && Owns(s, x.boundIP.value, x.boundPod.value)
      && (note.Added? ==> note.i < |x.ports| && x.groups[note.i] == map[x.Target(note.i) := false])
      && (note.Saw? ==> note.i < |x.ports| && x.marks[note.i].Adding? && note.found)
      && !note.Removed?
    case Detaching(note) =>
      && x.phase.Bound?
      && (note.Removed? ==> note.i < |x.marks| && !x.marks[note.i].Clear? && Requested(x.groups[note.i]))
      && (note.Saw? ==> note.i < |x.marks| && (!note.found ==> x.groups[note.i] == map[]))
      && !note.Added?
    case Draining(note) =>
      && x.phase.Releasing?
      && (note.Saw? ==> note.i < |x.marks| && (!note.found ==> x.groups[note.i] == map[]))
      && (note.Nothing? || note.Saw?)
    case Clearing => x.phase.Releasing? && x.AllMarked(Clear) && Holds(a, x, s.pods)
    case Freed => x.phase.Releasing? && x.AllMarked(Clear) && (x.boundPod.Some? ==> Unclaimed(a, x, s.pods))
    case Resetting => x.phase.Releasing? && x.AllMarked(Clear) && x.boundPod.None?
  }

  /**
   ServerGroup i holds at most the bound backend and only for a real port, nothing while its mark is Clear and no add is
   pending, and only backends with an accepted removal while its mark is Removing.
   */
  ghost predicate GroupOk(x: Slot, i: nat)
    requires i < |x.groups| == |x.marks| == |x.ports|
  {
    && (x.groups[i] != map[] ==>
          x.ports[i] != 0 && x.boundIP.Some? && forall b :: b in x.groups[i] ==> b == x.Target(i))
    && (x.marks[i].Clear? && x.pc != Attaching(Added(i)) ==> x.groups[i] == map[])
    && (x.marks[i].Removing? ==> Requested(x.groups[i]))
  }

  /** In Binding no removal is pending, and every marked ServerGroup holds exactly the bound backend. */
  ghost predicate BindingOk(x: Slot)
    requires |x.groups| == |x.marks| == |x.ports|
  {
    && x.boundIP.Some?
    && (forall i :: 0 <= i < |x.marks| && !x.marks[i].Clear? ==>
          !x.marks[i].Removing? && x.groups[i] == map[x.Target(i) := false])
  }

  ghost predicate SlotOk(a: PaId, x: Slot, s: State) {
    && |x.groups| == |x.marks| == |x.ports|
    && x.known <= x.ver
    && (x.boundPod.Some? <==> x.boundIP.Some?)
    && (x.boundIP.Some? ==> Mine(s, x.boundIP.value, x.boundPod.value))
    && (forall i :: 0 <= i < |x.groups| && x.groups[i] != map[] ==>
          x.boundIP.Some? && Owns(s, x.boundIP.value, x.boundPod.value))
    && (forall i :: 0 <= i < |x.groups| ==> GroupOk(x, i))
    && (x.phase.Available? || x.phase.Disabled? ==> x.AllMarked(Clear))
    && (x.phase.Binding? || x.phase.Bound? || x.phase.Disabled? ==> Holds(a, x, s.pods))
    && (x.phase.Binding? ==> BindingOk(x))
    && (x.phase.Releasing? ==> x.AllMarked(Clear) || Holds(a, x, s.pods))
    && PcOk(a, x, s)
  }

  /** Claim ordering: a live pod's claim names a PA only while that PA's spec names the pod. */
  ghost predicate ClaimsOk(s: State) {
    forall p :: p in s.pods && s.pods[p].alive && s.pods[p].claim.Some? ==>
      && s.pods[p].claim.value in s.slots
      && s.slots[s.pods[p].claim.value].boundPod == Some(p)
  }

  ghost predicate AddressesOk(s: State) {
    forall p :: p in s.pods && s.pods[p].alive && s.pods[p].ip.Some? ==> Owns(s, s.pods[p].ip.value, p)
  }

  ghost predicate Inv(s: State) {
    && ClaimsOk(s)
    && AddressesOk(s)
    && (forall a :: a in s.slots ==> SlotOk(a, s.slots[a], s))
  }

  // ---------------------------------------------------------------------------
  // Rely: all that the rest of the system may do to the slot of PA a
  // ---------------------------------------------------------------------------

  /** Between two moments, a pod object as PA a sees it. */
  ghost predicate PodRely(a: PaId, pod: Pod, pod': Pod) {
    && pod.ver <= pod'.ver
    && (pod.ver == pod'.ver ==> pod == pod')
    && (pod'.alive ==> pod.alive)
    && (pod.claim == Some(a) <==> pod'.claim == Some(a))
  }

  /** Only finished removals shrink a ServerGroup from outside. */
  ghost predicate GroupRely(g: Group, g': Group) {
    && (forall b :: b in g' ==> b in g && g'[b] == g[b])
    && (forall b :: b in g && b !in g' ==> g[b])
  }

  ghost predicate SlotRely(x: Slot, x': Slot) {
    && x' == x.(ver := x'.ver, groups := x'.groups)
    && x.ver <= x'.ver
    && |x'.groups| == |x.groups|
    && (forall i :: 0 <= i < |x.groups| ==> GroupRely(x.groups[i], x'.groups[i]))
  }

  /** The owner of the address is gone and PA a does not record the address. */
  ghost predicate PassedOn(a: PaId, s: State, s': State, ip: Addr)
    requires ip in s.owner
  {
    && s.owner[ip] in s'.pods && !s'.pods[s.owner[ip]].alive
    && a in s.slots && s.slots[a].boundIP != Some(ip)
  }

  ghost predicate WorldRely(a: PaId, s: State, s': State) {
    && (forall p :: p in s.pods ==> p in s'.pods && PodRely(a, s.pods[p], s'.pods[p]))
    && (forall ip :: ip in s.owner ==> ip in s'.owner && (s'.owner[ip] == s.owner[ip] || PassedOn(a, s, s', ip)))
  }

  ghost predicate Rely(a: PaId, s: State, s': State)
    requires a in s.slots
  {
    a in s'.slots && SlotRely(s.slots[a], s'.slots[a]) && WorldRely(a, s, s')
  }

  lemma RelyComposes(a: PaId, s0: State, s1: State, s2: State)
    requires a in s0.slots && Rely(a, s0, s1) && Rely(a, s1, s2)
    ensures Rely(a, s0, s2)
  {
    forall p | p in s0.pods ensures p in s2.pods && PodRely(a, s0.pods[p], s2.pods[p]) {
      assert PodRely(a, s0.pods[p], s1.pods[p]);
    }
    forall i | 0 <= i < |s0.slots[a].groups| ensures GroupRely(s0.slots[a].groups[i], s2.slots[a].groups[i]) {
      assert GroupRely(s0.slots[a].groups[i], s1.slots[a].groups[i]);
    }
  }

  /** A good slot stays good whatever the rest of the system does. */
  lemma SlotStable(a: PaId, s: State, s': State)
    requires a in s.slots && SlotOk(a, s.slots[a], s) && Rely(a, s, s')
    ensures SlotOk(a, s'.slots[a], s')
  {
    var x, x' := s.slots[a], s'.slots[a];
    forall i | 0 <= i < |x.groups| ensures GroupOk(x', i) {
      assert GroupOk(x, i) && GroupRely(x.groups[i], x'.groups[i]);
    }
    PcStable(a, s, s');
    if x.phase.Binding? {
      forall i | 0 <= i < |x.marks| && !x.marks[i].Clear?
        ensures x'.groups[i] == map[x'.Target(i) := false]
      {
        StillThere(x.groups[i], x'.groups[i], x.Target(i));
      }
    }
  }

  /** A backend that is not being removed does not disappear. */
  lemma StillThere(g: Group, g': Group, b: Backend)
    requires g == map[b := false] && GroupRely(g, g')
    ensures g' == g
  {
    assert b in g;
  }

  lemma PcStable(a: PaId, s: State, s': State)
    requires a in s.slots && SlotOk(a, s.slots[a], s) && Rely(a, s, s')
    ensures PcOk(a, s'.slots[a], s')
  {
    var x, x' := s.slots[a], s'.slots[a];
    match x.pc {
      case Listed(pods) =>
        forall p | p in pods ensures SeenOk(p, pods[p], s') {
          assert PodRely(a, s.pods[p], s'.pods[p]);
        }
      case Attaching(note) =>
        if note.Added? {
          assert GroupRely(x.groups[note.i], x'.groups[note.i]);
          StillThere(x.groups[note.i], x'.groups[note.i], x.Target(note.i));
        }
      case Detaching(note) =>
        if note.Saw? {
          assert GroupRely(x.groups[note.i], x'.groups[note.i]);
        }
      case Draining(note) =>
        if note.Saw? {
          assert GroupRely(x.groups[note.i], x'.groups[note.i]);
        }
      case _ =>
    }
  }

  // ---------------------------------------------------------------------------
  // Every step keeps the invariant
  // ---------------------------------------------------------------------------

  /** The slot whose worker takes the step; environment steps have no actor. */
  predicate ActsFor(st: Step, a: PaId) {
    st.Work? && st.a == a
  }

  /** A claim is only ever written over no claim or the writer's own, and only ever cleared by its holder. */
  lemma ClaimWrites(s: State, a: PaId, op: Op, p: PodId)
    requires Inv(s) && a in s.slots && OpEnabled(RELIABLE, s, a, op) && p in s.pods
    ensures p in OpPods(RELIABLE, s, a, op)
    ensures var pod, pod' := s.pods[p], OpPods(RELIABLE, s, a, op)[p];
      && (pod' != pod ==> pod.alive && pod' == pod.(claim := pod'.claim, ver := pod.ver + 1))
      && (pod'.claim != pod.claim ==>
            || (pod.claim == None && pod'.claim == Some(a))
            || (pod.claim == Some(a) && pod'.claim == None))
  {
    assert SlotOk(a, s.slots[a], s);
  }

  lemma WorkRely(s: State, a: PaId, op: Op, b: PaId)
    requires Inv(s) && Enabled(RELIABLE, s, Work(a, op)) && b in s.slots && a != b
    ensures Rely(b, s, State(s.slots[a := OpSlot(RELIABLE, s, a, op)], OpPods(RELIABLE, s, a, op), s.owner))
  {
    forall p | p in s.pods
      ensures p in OpPods(RELIABLE, s, a, op) && PodRely(b, s.pods[p], OpPods(RELIABLE, s, a, op)[p])
    {
      ClaimWrites(s, a, op, p);
    }
    OtherSlotRely(s, a, OpSlot(RELIABLE, s, a, op), OpPods(RELIABLE, s, a, op), b);
  }

  lemma OtherSlotRely(s: State, a: PaId, x: Slot, pods: map<PodId, Pod>, b: PaId)
    requires b in s.slots && a != b && forall p :: p in s.pods ==> p in pods && PodRely(b, s.pods[p], pods[p])
    ensures Rely(b, s, State(s.slots[a := x], pods, s.owner))
  {
  }

  lemma EnvironmentRely(s: State, st: Step, b: PaId)
    requires Enabled(RELIABLE, s, st) && b in s.slots && !st.Work?
    ensures Rely(b, s, Apply(RELIABLE, s, st))
  {
  }

  /** A step that is not by PA b's worker stays within what b relies on. */
  lemma StepRely(s: State, st: Step, b: PaId)
    requires Inv(s) && Enabled(RELIABLE, s, st) && b in s.slots && !ActsFor(st, b)
    ensures Rely(b, s, Apply(RELIABLE, s, st))
  {
    if st.Work? {
      WorkRely(s, st.a, st.op, b);
    } else {
      EnvironmentRely(s, st, b);
    }
  }

  lemma ProvisionOk(s: State, st: Step)
    requires Inv(s) && Enabled(RELIABLE, s, st) && st.Provision?
    ensures SlotOk(st.a, Apply(RELIABLE, s, st).slots[st.a], Apply(RELIABLE, s, st))
  {
    var s' := Apply(RELIABLE, s, st);
    assert forall i :: 0 <= i < |s'.slots[st.a].groups| ==> GroupOk(s'.slots[st.a], i);
  }

  lemma EnvironmentKeepsGlobals(s: State, st: Step)
    requires Inv(s) && Enabled(RELIABLE, s, st) && !st.Work?
    ensures ClaimsOk(Apply(RELIABLE, s, st)) && AddressesOk(Apply(RELIABLE, s, st))
  {
  }

  lemma WorkKeepsGlobals(s: State, a: PaId, op: Op)
    requires Inv(s) && Enabled(RELIABLE, s, Work(a, op))
    ensures ClaimsOk(Apply(RELIABLE, s, Work(a, op))) && AddressesOk(Apply(RELIABLE, s, Work(a, op)))
  {
    var s' := Apply(RELIABLE, s, Work(a, op));
    assert SlotOk(a, s.slots[a], s);
    forall p | p in s'.pods && s'.pods[p].alive && s'.pods[p].claim.Some?
      ensures s'.pods[p].claim.value in s'.slots && s'.slots[s'.pods[p].claim.value].boundPod == Some(p)
    {
      ClaimWrites(s, a, op, p);
    }
    forall p | p in s'.pods && s'.pods[p].alive && s'.pods[p].ip.Some? ensures Owns(s', s'.pods[p].ip.value, p) {
      ClaimWrites(s, a, op, p);
    }
  }

  /** The steps of handleAvailable and availableResumeBind. */
  predicate ClaimingOp(op: Op) {
    || op.Start? || op.Stop? || op.ListPods? || op.Choose? || op.Reserve? || op.ClaimPod? || op.ClaimFails? || op.Undo?
    || op.ReadBound? || op.ResumeDecide? || op.ResumeClaim? || op.ResumeFails? || op.Confirm? || op.WritePhase?
  }

  /** The steps of handleBinding on one ServerGroup. */
  predicate AttachOp(op: Op) {
    op.AddServer? || op.MarkAdding?
  }

  /** Listing one ServerGroup and recording what was seen. */
  predicate PollOp(op: Op) {
    op.Poll? || op.MarkSeen?
  }

  /** The calls that request a removal. */
  predicate RemoveOp(op: Op) {
    op.RemoveServer? || op.DrainServer? || op.RemoveBest?
  }

  /** The decisions that read the pod, the phase changes of a bound PA, and the record of a removal. */
  predicate PhaseOp(op: Op) {
    op.Verify? || op.EnterBound? || op.CheckBound? || op.EnterDisabled? || op.CheckDisabled? || op.Drain?
    || op.MarkRemoving?
  }

  /** What a step of PA a's worker relies on: its own slot and the two global facts. */
  ghost predicate Local(s: State, a: PaId) {
    a in s.slots && SlotOk(a, s.slots[a], s) && ClaimsOk(s) && AddressesOk(s)
  }

  lemma ClaimingKeepsSlot(s: State, a: PaId, op: Op)
    requires Local(s, a) && Enabled(RELIABLE, s, Work(a, op)) && ClaimingOp(op)
    ensures SlotOk(a, Apply(RELIABLE, s, Work(a, op)).slots[a], Apply(RELIABLE, s, Work(a, op)))
  {
    var s' := Apply(RELIABLE, s, Work(a, op));
    var x, x' := s.slots[a], s'.slots[a];
    forall i | 0 <= i < |x.groups|
      ensures GroupOk(x', i) && (x.AllMarked(Clear) && !x.pc.Attaching? ==> x.groups[i] == map[])
    {
      assert GroupOk(x, i) && (x.AllMarked(Clear) ==> x.marks[i].Clear?);
    }
  }

  lemma AttachKeepsSlot(s: State, a: PaId, op: Op)
    requires Local(s, a) && Enabled(RELIABLE, s, Work(a, op)) && AttachOp(op)
    ensures SlotOk(a, Apply(RELIABLE, s, Work(a, op)).slots[a], Apply(RELIABLE, s, Work(a, op)))
  {
    var s' := Apply(RELIABLE, s, Work(a, op));
    var x, x' := s.slots[a], s'.slots[a];
    forall i | 0 <= i < |x.groups| ensures GroupOk(x', i) {
      assert GroupOk(x, i);
    }
    if op.AddServer? {
      assert GroupOk(x, op.i);
      assert x'.groups[op.i] == map[x.Target(op.i) := false];
    }
  }

  lemma PollKeepsSlot(s: State, a: PaId, op: Op)
    requires Local(s, a) && Enabled(RELIABLE, s, Work(a, op)) && op.Poll?
    ensures SlotOk(a, Apply(RELIABLE, s, Work(a, op)).slots[a], Apply(RELIABLE, s, Work(a, op)))
  {
    var s' := Apply(RELIABLE, s, Work(a, op));
    var x, x' := s.slots[a], s'.slots[a];
    forall i | 0 <= i < |x.groups| ensures GroupOk(x', i) {
      assert GroupOk(x, i);
    }
    assert GroupOk(x, op.i);
  }

  lemma SeenKeepsSlot(s: State, a: PaId, op: Op)
    requires Local(s, a) && Enabled(RELIABLE, s, Work(a, op)) && op.MarkSeen?
    ensures SlotOk(a, Apply(RELIABLE, s, Work(a, op)).slots[a], Apply(RELIABLE, s, Work(a, op)))
  {
    var s' := Apply(RELIABLE, s, Work(a, op));
    var x, x' := s.slots[a], s'.slots[a];
    forall i | 0 <= i < |x.groups| ensures GroupOk(x', i) {
      assert GroupOk(x, i);
    }
  }

  lemma RemoveServerKeepsSlot(s: State, a: PaId, op: Op)
    requires Local(s, a) && Enabled(RELIABLE, s, Work(a, op)) && op.RemoveServer?
    ensures SlotOk(a, Apply(RELIABLE, s, Work(a, op)).slots[a], Apply(RELIABLE, s, Work(a, op)))
  {
    var s' := Apply(RELIABLE, s, Work(a, op));
    var x, x' := s.slots[a], s'.slots[a];
    forall i | 0 <= i < |x.groups| ensures GroupOk(x', i) {
      assert GroupOk(x, i);
    }
    assert GroupOk(x, op.i);
    assert x.Target(op.i) !in x.groups[op.i] ==> x.groups[op.i] == map[];
  }

  lemma RemoveKeepsSlot(s: State, a: PaId, op: Op)
    requires Local(s, a) && Enabled(RELIABLE, s, Work(a, op)) && (op.DrainServer? || op.RemoveBest?)
    ensures SlotOk(a, Apply(RELIABLE, s, Work(a, op)).slots[a], Apply(RELIABLE, s, Work(a, op)))
  {
    var s' := Apply(RELIABLE, s, Work(a, op));
    var x, x' := s.slots[a], s'.slots[a];
    forall i | 0 <= i < |x.groups| ensures GroupOk(x', i) {
      assert GroupOk(x, i);
    }
  }

  lemma PhaseKeepsSlot(s: State, a: PaId, op: Op)
    requires Local(s, a) && Enabled(RELIABLE, s, Work(a, op)) && PhaseOp(op)
    ensures SlotOk(a, Apply(RELIABLE, s, Work(a, op)).slots[a], Apply(RELIABLE, s, Work(a, op)))
  {
    var s' := Apply(RELIABLE, s, Work(a, op));
    var x, x' := s.slots[a], s'.slots[a];
    forall i | 0 <= i < |x.groups| ensures GroupOk(x', i) {
      assert GroupOk(x, i);
    }
  }

  lemma FreeingKeepsSlot(s: State, a: PaId, op: Op)
    requires Local(s, a) && Enabled(RELIABLE, s, Work(a, op))
    requires !ClaimingOp(op) && !AttachOp(op) && !PollOp(op) && !RemoveOp(op) && !PhaseOp(op)
    ensures SlotOk(a, Apply(RELIABLE, s, Work(a, op)).slots[a], Apply(RELIABLE, s, Work(a, op)))
  {
    var s' := Apply(RELIABLE, s, Work(a, op));
    var x, x' := s.slots[a], s'.slots[a];
    forall i | 0 <= i < |x.groups|
      ensures GroupOk(x', i) && (x.AllMarked(Clear) && !x.pc.Attaching? ==> x.groups[i] == map[])
    {
      assert GroupOk(x, i) && (x.AllMarked(Clear) ==> x.marks[i].Clear?);
    }
  }

  lemma StepKeepsInv(s: State, st: Step)
    requires Inv(s) && Enabled(RELIABLE, s, st)
    ensures Inv(Apply(RELIABLE, s, st))
  {
    var s' := Apply(RELIABLE, s, st);
    if st.Work? {
      WorkKeepsGlobals(s, st.a, st.op);
    } else {
      EnvironmentKeepsGlobals(s, st);
    }
    forall b | b in s'.slots ensures SlotOk(b, s'.slots[b], s') {
      if b in s.slots && !ActsFor(st, b) {
        StepRely(s, st, b);
        SlotStable(b, s, s');
      } else if st.Provision? {
        ProvisionOk(s, st);
      } else if ClaimingOp(st.op) {
        ClaimingKeepsSlot(s, b, st.op);
      } else if AttachOp(st.op) {
        AttachKeepsSlot(s, b, st.op);
      } else if st.op.Poll? {
        PollKeepsSlot(s, b, st.op);
      } else if st.op.MarkSeen? {
        SeenKeepsSlot(s, b, st.op);
      } else if st.op.RemoveServer? {
        RemoveServerKeepsSlot(s, b, st.op);
      } else if RemoveOp(st.op) {
        RemoveKeepsSlot(s, b, st.op);
      } else if PhaseOp(st.op) {
        PhaseKeepsSlot(s, b, st.op);
      } else {
        FreeingKeepsSlot(s, b, st.op);
      }
    }
  }

  /** Every state of every interleaving satisfies the invariant. */
  lemma {:induction false} RunsAreSafe(r: Run)
    requires Legal(RELIABLE, r)
    ensures Inv(End(RELIABLE, r))
  {
    if r.Then? {
      RunsAreSafe(r.before);
      StepKeepsInv(End(RELIABLE, r.before), r.step);
    }
  }
}
