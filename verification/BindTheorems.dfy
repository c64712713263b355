/** What the invariant of the binding protocol means for pods, claims and cloud ServerGroups. */
module BindTheorems {
  import opened Options
  import opened BindModel
  import opened BindSafety

  // ---------------------------------------------------------------------------
  // Exclusive routing and single holders
  // ---------------------------------------------------------------------------

  /** Some ServerGroup of PA a sends traffic to an address of pod p. */
  ghost predicate Routes(s: State, a: PaId, p: PodId) {
    a in s.slots && exists i, b :: 0 <= i < |s.slots[a].groups| && b in s.slots[a].groups[i] && Owns(s, b.ip, p)
  }

  /** Every ServerGroup of x holds at most the bound backend. */
  ghost predicate OnlyTarget(x: Slot) {
    forall i, b :: 0 <= i < |x.groups| && b in x.groups[i] ==>
      x.boundIP.Some? && i < |x.ports| && b == Backend(x.boundIP.value, x.ports[i])
  }

  ghost predicate RoutesAlone(s: State) {
    && (forall a :: a in s.slots ==> OnlyTarget(s.slots[a]))
    && (forall a, b, p :: Routes(s, a, p) && Routes(s, b, p) ==> a == b)
  }

  /** A PA that routes to a pod is the one its claim names. */
  lemma RouterHolds(s: State, a: PaId, p: PodId)
    requires Inv(s) && Routes(s, a, p)
    ensures p in s.pods && s.pods[p].claim == Some(a) && s.slots[a].boundPod == Some(p)
  {
    var x := s.slots[a];
    var i, b :| 0 <= i < |x.groups| && b in x.groups[i] && Owns(s, b.ip, p);
    assert SlotOk(a, x, s) && GroupOk(x, i);
  }

  /** In every reachable state a pod is a backend of at most one PA, and each PA routes only to its own pod. */
  lemma ExclusiveRouting(r: Run)
    requires Legal(RELIABLE, r)
    ensures RoutesAlone(End(RELIABLE, r))
  {
    RunsAreSafe(r);
    var s := End(RELIABLE, r);
    forall a | a in s.slots ensures OnlyTarget(s.slots[a]) {
      var x := s.slots[a];
      assert SlotOk(a, x, s);
      forall i, b | 0 <= i < |x.groups| && b in x.groups[i] ensures x.boundIP.Some? && b == x.Target(i) {
        assert GroupOk(x, i);
      }
    }
    forall a, b, p | Routes(s, a, p) && Routes(s, b, p) ensures a == b {
      RouterHolds(s, a, p);
      RouterHolds(s, b, p);
    }
  }

  predicate Holding(phase: Phase) {
    phase.Binding? || phase.Bound? || phase.Disabled?
  }

  /** At most one PA per pod incarnation is ever in Binding, Bound or Disabled, whoever else has reserved it. */
  lemma OneHolder(r: Run, a: PaId, b: PaId)
    requires Legal(RELIABLE, r)
    requires a in End(RELIABLE, r).slots && b in End(RELIABLE, r).slots
    requires Holding(End(RELIABLE, r).slots[a].phase) && Holding(End(RELIABLE, r).slots[b].phase)
    ensures End(RELIABLE, r).slots[a].boundPod.Some?
    ensures End(RELIABLE, r).slots[a].boundPod == End(RELIABLE, r).slots[b].boundPod ==> a == b
  {
    RunsAreSafe(r);
    var s := End(RELIABLE, r);
    assert SlotOk(a, s.slots[a], s) && SlotOk(b, s.slots[b], s);
  }

  // ---------------------------------------------------------------------------
  // Claim ordering
  // ---------------------------------------------------------------------------

  /** A live claim always points to a PA whose spec names the pod: reserved before claimed, unclaimed before freed. */
  lemma ClaimOrdering(r: Run, p: PodId)
    requires Legal(RELIABLE, r) && p in End(RELIABLE, r).pods
    requires End(RELIABLE, r).pods[p].alive && End(RELIABLE, r).pods[p].claim.Some?
    ensures var s := End(RELIABLE, r); var a := s.pods[p].claim.value;
      a in s.slots && s.slots[a].boundPod == Some(p)
  {
    RunsAreSafe(r);
  }

  /** later continues run. */
  predicate Continues(later: Run, run: Run) {
    later == run || (later.Then? && Continues(later.before, run))
  }

  lemma {:induction false} PrefixLegal(e: Grants, later: Run, run: Run)
    requires Legal(e, later) && Continues(later, run)
    ensures Legal(e, run)
  {
    if later != run {
      PrefixLegal(e, later.before, run);
    }
  }

  lemma PodGrows(e: Grants, s: State, st: Step, p: PodId)
    requires Enabled(e, s, st) && p in s.pods
    ensures p in Apply(e, s, st).pods && s.pods[p].ver <= Apply(e, s, st).pods[p].ver
  {
  }

  /** Pods are never forgotten and their versions never go back. */
  lemma {:induction false} VersionsGrow(e: Grants, later: Run, run: Run, p: PodId)
    requires Legal(e, later) && Continues(later, run) && Legal(e, run) && p in End(e, run).pods
    ensures p in End(e, later).pods && End(e, run).pods[p].ver <= End(e, later).pods[p].ver
  {
    if later != run {
      VersionsGrow(e, later.before, run, p);
      PodGrows(e, End(e, later.before), later.step, p);
    }
  }

  /** What the API server stores of a PA. */
  predicate SameObject(x: Slot, x': Slot) {
    && x'.ver == x.ver && x'.boundPod == x.boundPod && x'.boundIP == x.boundIP
    && x'.phase == x.phase && x'.marks == x.marks
  }

  /** No step changes a stored PA without giving it a higher version, and none changes it back to an old version. */
  lemma ChangesAreVersioned(e: Grants, s: State, st: Step, a: PaId)
    requires Enabled(e, s, st) && a in s.slots
    ensures a in Apply(e, s, st).slots
    ensures var x, x' := s.slots[a], Apply(e, s, st).slots[a]; SameObject(x, x') || x.ver < x'.ver
  {
    if ActsFor(st, a) {
      WritesAreVersioned(e, s, a, st.op);
    }
  }

  lemma WritesAreVersioned(e: Grants, s: State, a: PaId, op: Op)
    requires a in s.slots && OpEnabled(e, s, a, op)
    ensures var x, x' := s.slots[a], OpSlot(e, s, a, op); SameObject(x, x') || x.ver < x'.ver
  {
  }

  /** A write of spec or phase applies only to the version the worker has read or written last. */
  lemma StaleWritesAreRefused(e: Grants, s: State, st: Step, a: PaId)
    requires Enabled(e, s, st) && a in s.slots && s.slots[a].known != s.slots[a].ver
    ensures a in Apply(e, s, st).slots
    ensures var x, x' := s.slots[a], Apply(e, s, st).slots[a];
      x'.boundPod == x.boundPod && x'.boundIP == x.boundIP && x'.phase == x.phase
  {
  }

  /** PA a picks pod p although the list shows a claim of another PA. */
  predicate TakesOver(s: State, a: PaId, p: PodId) {
    && a in s.slots && s.slots[a].pc.Listed? && p in s.slots[a].pc.pods
    && s.slots[a].pc.pods[p].claim.Some? && s.slots[a].pc.pods[p].claim != Some(a)
  }

  /**
   A candidate was listed as existing, of the pool and with an address; its claim was absent, the PA's own, or names
   a PA that does not exist or reserves another pod.
   */
  lemma CandidateIsEligible(r: Run, a: PaId, p: PodId)
    requires Legal(RELIABLE, r) && a in End(RELIABLE, r).slots && OpEnabled(RELIABLE, End(RELIABLE, r), a, Choose(p))
    ensures var s := End(RELIABLE, r); var x := s.slots[a];
      && x.phase.Available? && x.boundPod.None? && x.pc.Listed? && p in x.pc.pods && p in s.pods
      && var seen := x.pc.pods[p];
      && seen.alive && seen.pooled && seen.ip.Some? && seen.ver <= s.pods[p].ver
      && (seen.claim.Some? && seen.claim != Some(a) ==>
            var b := seen.claim.value; b in s.slots ==> s.slots[b].boundPod != Some(p))
  {
    RunsAreSafe(r);
    var s := End(RELIABLE, r);
    assert SlotOk(a, s.slots[a], s) && SeenOk(p, s.slots[a].pc.pods[p], s);
  }

  /**
   The two separate reads behind "stale claim" (the pod list, then the PA the claim names) prove that the
   pod has changed in between: the CAS on the listed version can never succeed, at any later time.
   */
  lemma StaleTakeoverNeverCommits(run: Run, a: PaId, p: PodId, later: Run)
    requires Legal(RELIABLE, later) && Continues(later, Then(run, Work(a, Choose(p))))
    requires Legal(RELIABLE, run) && TakesOver(End(RELIABLE, run), a, p)
    ensures var v := End(RELIABLE, run).slots[a].pc.pods[p].ver;
      p in End(RELIABLE, later).pods && v < End(RELIABLE, later).pods[p].ver
  {
    var picked := Then(run, Work(a, Choose(p)));
    PrefixLegal(RELIABLE, later, picked);
    RunsAreSafe(run);
    var s := End(RELIABLE, run);
    assert SlotOk(a, s.slots[a], s) && SeenOk(p, s.slots[a].pc.pods[p], s);
    VersionsGrow(RELIABLE, later, picked, p);
  }

  /** The annotation patch carries no version, yet it only ever erases the claim of the PA that sends it. */
  lemma ClearOnlyErasesOwnClaim(r: Run, a: PaId)
    requires Legal(RELIABLE, r) && a in End(RELIABLE, r).slots && OpEnabled(RELIABLE, End(RELIABLE, r), a, ClearClaim)
    ensures var s := End(RELIABLE, r); var p := s.slots[a].boundPod.value;
      p in s.pods && s.pods[p].claim == Some(a)
  {
    RunsAreSafe(r);
    var s := End(RELIABLE, r);
    assert SlotOk(a, s.slots[a], s);
  }

  /** No CAS by one PA ever replaces the live claim of another. */
  lemma ClaimNeverStolen(r: Run, st: Step, p: PodId)
    requires Legal(RELIABLE, r) && Enabled(RELIABLE, End(RELIABLE, r), st)
    requires p in End(RELIABLE, r).pods && End(RELIABLE, r).pods[p].claim.Some?
    ensures var s, s' := End(RELIABLE, r), Apply(RELIABLE, End(RELIABLE, r), st);
      p in s'.pods
      && (s'.pods[p].claim != s.pods[p].claim ==>
            s'.pods[p].claim.None? && st == Work(s.pods[p].claim.value, ClearClaim))
  {
    RunsAreSafe(r);
    if st.Work? {
      ClaimWrites(End(RELIABLE, r), st.a, st.op, p);
    }
  }

  // ---------------------------------------------------------------------------
  // Tracked status against the cloud
  // ---------------------------------------------------------------------------

  predicate AllEmpty(x: Slot) {
    forall i :: 0 <= i < |x.groups| ==> x.groups[i] == map[]
  }

  /** Every ServerGroup holds exactly the bound backend, with no removal pending. */
  predicate AllServing(x: Slot) {
    x.boundIP.Some? && |x.groups| == |x.ports|
    && forall i :: 0 <= i < |x.groups| ==> x.groups[i] == map[x.Target(i) := false]
  }

  /** An empty serverStatus means an empty ServerGroup, except between an accepted add and its patch. */
  lemma ClearMeansEmpty(r: Run, a: PaId, i: nat)
    requires Legal(RELIABLE, r) && a in End(RELIABLE, r).slots
    requires i < |End(RELIABLE, r).slots[a].marks| && End(RELIABLE, r).slots[a].marks[i].Clear?
    requires End(RELIABLE, r).slots[a].pc != Attaching(Added(i))
    ensures i < |End(RELIABLE, r).slots[a].groups| && End(RELIABLE, r).slots[a].groups[i] == map[]
  {
    RunsAreSafe(r);
    var s := End(RELIABLE, r);
    assert SlotOk(a, s.slots[a], s) && GroupOk(s.slots[a], i);
  }

  /** No backend is ever registered without a port. */
  lemma BackendsHavePorts(r: Run, a: PaId, i: nat, b: Backend)
    requires Legal(RELIABLE, r) && a in End(RELIABLE, r).slots && i < |End(RELIABLE, r).slots[a].groups|
    requires b in End(RELIABLE, r).slots[a].groups[i]
    ensures b.port != 0
  {
    RunsAreSafe(r);
    var s := End(RELIABLE, r);
    assert SlotOk(a, s.slots[a], s) && GroupOk(s.slots[a], i);
  }

  /** "Removing" means that the cloud has accepted the removal of whatever is still registered. */
  lemma RemovingIsRequested(r: Run, a: PaId, i: nat)
    requires Legal(RELIABLE, r) && a in End(RELIABLE, r).slots
    requires i < |End(RELIABLE, r).slots[a].marks| && End(RELIABLE, r).slots[a].marks[i].Removing?
    ensures i < |End(RELIABLE, r).slots[a].groups|
    ensures forall b :: b in End(RELIABLE, r).slots[a].groups[i] ==> End(RELIABLE, r).slots[a].groups[i][b]
  {
    RunsAreSafe(r);
    var s := End(RELIABLE, r);
    assert SlotOk(a, s.slots[a], s) && GroupOk(s.slots[a], i);
  }

  /** Available and Disabled PAs have empty ServerGroups throughout, and the claim is dropped only after emptying. */
  lemma IdlePhasesAreEmpty(r: Run, a: PaId)
    requires Legal(RELIABLE, r) && a in End(RELIABLE, r).slots
    ensures var x := End(RELIABLE, r).slots[a];
      x.phase.Available? || x.phase.Disabled? || x.pc.Clearing? || x.pc.Freed? || x.boundPod.None? ==> AllEmpty(x)
  {
    RunsAreSafe(r);
    var s := End(RELIABLE, r);
    var x := s.slots[a];
    assert SlotOk(a, x, s);
    forall i | 0 <= i < |x.groups| && x.AllMarked(Clear) && !x.pc.Attaching? ensures x.groups[i] == map[] {
      assert GroupOk(x, i) && x.marks[i].Clear?;
    }
    forall i | 0 <= i < |x.groups| && x.boundPod.None? ensures x.groups[i] == map[] {
      assert GroupOk(x, i);
    }
  }

  lemma NeverMovesToBound(s: State, a: PaId)
    requires Inv(s) && a in s.slots
    ensures SlotOk(a, s.slots[a], s) && (s.slots[a].pc.Moving? ==> !s.slots[a].pc.to.Bound?)
  {
    assert SlotOk(a, s.slots[a], s);
  }

  lemma OnlyEnterBound(s: State, a: PaId, op: Op)
    requires a in s.slots && OpEnabled(RELIABLE, s, a, op) && (s.slots[a].pc.Moving? ==> !s.slots[a].pc.to.Bound?)
    requires !s.slots[a].phase.Bound? && OpSlot(RELIABLE, s, a, op).phase.Bound?
    ensures op == EnterBound
  {
  }

  lemma EnteredBoundServes(s: State, a: PaId)
    requires a in s.slots && SlotOk(a, s.slots[a], s) && OpEnabled(RELIABLE, s, a, EnterBound)
    ensures var x := OpSlot(RELIABLE, s, a, EnterBound);
      AllServing(x) && x.boundPod.Some? && Owns(s, x.boundIP.value, x.boundPod.value)
  {
  }

  /** Bound is entered only with every ServerGroup serving exactly the bound pod, whatever cycles came before. */
  lemma BoundIsEnteredServing(r: Run, st: Step, a: PaId)
    requires Legal(RELIABLE, r) && Enabled(RELIABLE, End(RELIABLE, r), st) && a in End(RELIABLE, r).slots
    requires !End(RELIABLE, r).slots[a].phase.Bound? && Apply(RELIABLE, End(RELIABLE, r), st).slots[a].phase.Bound?
    ensures var s' := Apply(RELIABLE, End(RELIABLE, r), st); var x' := s'.slots[a];
      && AllServing(x') && x'.boundPod.Some? && Owns(s', x'.boundIP.value, x'.boundPod.value)
  {
    RunsAreSafe(r);
    var s := End(RELIABLE, r);
    if ActsFor(st, a) {
      NeverMovesToBound(s, a);
      OnlyEnterBound(s, a, st.op);
      EnteredBoundServes(s, a);
    } else {
      StepRely(s, st, a);
    }
  }

  // ---------------------------------------------------------------------------
  // What the checks of a pod guard, whatever the environment grants
  // ---------------------------------------------------------------------------

  /** A Bound PA stays as it is only for a pod that exists, belongs to the pool, is enabled and claims this PA. */
  lemma StableOnlyWhenClaimed(e: Grants, s: State, a: PaId)
    requires a in s.slots && OpEnabled(e, s, a, CheckBound) && OpSlot(e, s, a, CheckBound).pc.Idle?
    ensures var x := s.slots[a];
      && x.boundPod.Some? && x.boundPod.value in s.pods
      && var pod := s.pods[x.boundPod.value]; pod.alive && pod.pooled && !pod.disabled && pod.claim == Some(a)
  {
  }

  /** Servers are added only after a look at an existing pod that claims this PA. */
  lemma AttachOnlyWhenClaimed(e: Grants, s: State, a: PaId)
    requires a in s.slots && OpEnabled(e, s, a, Verify) && OpSlot(e, s, a, Verify).pc.Attaching?
    ensures var x := s.slots[a];
      && x.boundIP.Some? && x.boundPod.Some? && x.boundPod.value in s.pods
      && s.pods[x.boundPod.value].alive && s.pods[x.boundPod.value].claim == Some(a)
  {
  }

  /** The reset that ends a release leaves no status behind. */
  lemma ResetClearsMarks(e: Grants, s: State, a: PaId)
    requires a in s.slots && OpEnabled(e, s, a, WriteAvailable)
    ensures var x := OpSlot(e, s, a, WriteAvailable); x.phase.Available? && x.AllMarked(Clear)
  {
  }

  // ---------------------------------------------------------------------------
  // The binding is fixed between Available and Available
  // ---------------------------------------------------------------------------

  /** Where the worker of a PA outside Available can be. */
  predicate Outside(x: Slot) {
    && !x.phase.Available? && !x.pc.Listed? && !x.pc.Chosen? && !x.pc.Reserved? && !x.pc.Undoing? && !x.pc.Resuming?
    && !x.pc.Confirmed? && (x.pc.Moving? ==> !x.pc.to.Available?) && (x.pc.Freed? ==> x.phase.Releasing?)
    && (x.pc.Resetting? ==> x.boundPod.None?)
  }

  lemma NotAvailableIsOutside(s: State, a: PaId)
    requires a in s.slots && SlotOk(a, s.slots[a], s) && !s.slots[a].phase.Available?
    ensures Outside(s.slots[a])
  {
  }

  lemma OpFixesBinding(s: State, a: PaId, op: Op)
    requires a in s.slots && Outside(s.slots[a]) && OpEnabled(RELIABLE, s, a, op)
    ensures var x, x' := s.slots[a], OpSlot(RELIABLE, s, a, op);
      if op.Unreserve? then x.phase.Releasing? && x'.boundPod.None?
      else x'.boundPod == x.boundPod && x'.boundIP == x.boundIP && (x.boundPod.Some? ==> !x'.phase.Available?)
  {
  }

  /** Once out of Available, boundPod and boundPodIP change in one place: the reset at the end of Releasing. */
  lemma BindingFixedByStep(r: Run, st: Step, a: PaId)
    requires Legal(RELIABLE, r) && Enabled(RELIABLE, End(RELIABLE, r), st) && a in End(RELIABLE, r).slots
    requires !End(RELIABLE, r).slots[a].phase.Available?
    ensures a in Apply(RELIABLE, End(RELIABLE, r), st).slots
    ensures var x, x' := End(RELIABLE, r).slots[a], Apply(RELIABLE, End(RELIABLE, r), st).slots[a];
      if st == Work(a, Unreserve) then x.phase.Releasing? && x'.boundPod.None? && AllEmpty(x)
      else x'.boundPod == x.boundPod && x'.boundIP == x.boundIP && (x.boundPod.Some? ==> !x'.phase.Available?)
  {
    RunsAreSafe(r);
    IdlePhasesAreEmpty(r, a);
    var s := End(RELIABLE, r);
    if ActsFor(st, a) {
      NotAvailableIsOutside(s, a);
      OpFixesBinding(s, a, st.op);
    } else {
      StepRely(s, st, a);
    }
  }

  /** From the end of run to the end of later, PA a never performs the reset. */
  predicate NoReset(later: Run, run: Run, a: PaId)
    requires Continues(later, run)
  {
    later != run ==> later.step != Work(a, Unreserve) && NoReset(later.before, run, a)
  }

  lemma {:induction false} BindingFixed(run: Run, later: Run, a: PaId)
    requires Legal(RELIABLE, later) && Continues(later, run) && NoReset(later, run, a)
    requires Legal(RELIABLE, run) && a in End(RELIABLE, run).slots
    requires Holding(End(RELIABLE, run).slots[a].phase)
    ensures var x := End(RELIABLE, run).slots[a];
      && a in End(RELIABLE, later).slots
      && var x' := End(RELIABLE, later).slots[a];
      x'.boundPod == x.boundPod && x'.boundIP == x.boundIP && !x'.phase.Available?
  {
    if later == run {
      HeldClaimIsOwn(run, a);
    } else {
      BindingFixed(run, later.before, a);
      HeldClaimIsOwn(run, a);
      BindingFixedByStep(later.before, later.step, a);
    }
  }

  // ---------------------------------------------------------------------------
  // Branches the protocol never takes
  // ---------------------------------------------------------------------------

  /** While the bound pod exists, a held PA never sees a foreign or missing claim: the dedup release is dead code. */
  lemma HeldClaimIsOwn(r: Run, a: PaId)
    requires Legal(RELIABLE, r) && a in End(RELIABLE, r).slots
    requires Holding(End(RELIABLE, r).slots[a].phase)
    ensures var s := End(RELIABLE, r); var x := s.slots[a];
      x.boundIP.Some? && x.boundPod.Some? && (PodFound(x, s.pods) ==> ClaimSeen(a, x, s.pods))
  {
    RunsAreSafe(r);
    var s := End(RELIABLE, r);
    assert SlotOk(a, s.slots[a], s);
  }

  /** handleBinding never meets "Removing", and a poll of an added server always finds it. */
  lemma BindingNeverRemoves(r: Run, a: PaId, i: nat)
    requires Legal(RELIABLE, r) && a in End(RELIABLE, r).slots
    requires End(RELIABLE, r).slots[a].phase.Binding? && i < |End(RELIABLE, r).slots[a].marks|
    ensures var x := End(RELIABLE, r).slots[a];
      && !x.marks[i].Removing?
      && (x.marks[i].Adding? ==> i < |x.groups| && x.boundIP.Some? && HasIP(x.groups[i], x.boundIP.value))
  {
    RunsAreSafe(r);
    var s := End(RELIABLE, r);
    assert SlotOk(a, s.slots[a], s) && BindingOk(s.slots[a]);
    assert s.slots[a].marks[i].Adding? ==> s.slots[a].Target(i) in s.slots[a].groups[i];
  }
}
