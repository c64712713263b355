/**
 Exclusive routing holds exactly when the environment grants all six guarantees: for each missing one
 there is a run that breaks it.
 */
module BindFaults {
  import opened Options
  import opened BindModel
  import opened BindSafety
  import opened BindTheorems

  // ---------------------------------------------------------------------------
  // Building runs
  // ---------------------------------------------------------------------------

  /** r is a legal run that ends in s. */
  ghost predicate Reaches(e: Grants, r: Run, s: State) {
    Legal(e, r) && End(e, r) == s
  }

  lemma Call(e: Grants, r: Run, s: State, a: PaId, op: Op) returns (r': Run, s': State)
    requires Reaches(e, r, s) && a in s.slots && OpEnabled(e, s, a, op)
    ensures Reaches(e, r', s') && s' == State(s.slots[a := OpSlot(e, s, a, op)], OpPods(e, s, a, op), s.owner)
  {
    r', s' := Then(r, Work(a, op)), Apply(e, s, Work(a, op));
  }

  /** A step of the environment: pods come, change and go, and the cloud finishes removals. */
  lemma Outside(e: Grants, r: Run, s: State, st: Step) returns (r': Run, s': State)
    requires Reaches(e, r, s) && Enabled(e, s, st) && !st.Work?
    ensures Reaches(e, r', s') && s' == Apply(e, s, st)
  {
    r', s' := Then(r, st), Apply(e, s, st);
  }

  /** The state in which PA a's slot is x and everything else is as in s. */
  function With(s: State, a: PaId, x: Slot): State {
    s.(slots := s.slots[a := x])
  }

  predicate Vacant(s: State, a: PaId) {
    a in s.slots && s.slots[a].pc.Idle? && s.slots[a].phase.Available? && s.slots[a].boundPod.None?
  }

  /** handleAvailable up to the choice of candidate p. */
  lemma Pick(e: Grants, r: Run, s: State, a: PaId, p: PodId) returns (r': Run, s': State)
    requires Reaches(e, r, s) && Vacant(s, a) && p in s.pods && Claimable(e, s, a, p, s.pods[p])
    ensures Reaches(e, r', s')
    ensures var x := s.slots[a];
      s' == With(s, a, x.(known := x.ver, pc := Chosen(p, s.pods[p].ver, s.pods[p].ip.value)))
  {
    var x := s.slots[a];
    r', s' := Call(e, r, s, a, Start);
    r', s' := Call(e, r', s', a, ListPods);
    r', s' := Call(e, r', s', a, Choose(p));
  }

  /** The rest of handleAvailable: both compare-and-swap writes succeed. */
  lemma Seize(e: Grants, r: Run, s: State, a: PaId) returns (r': Run, s': State)
    requires Reaches(e, r, s) && a in s.slots && s.slots[a].pc.Chosen? && s.slots[a].Current()
    requires var pc := s.slots[a].pc; pc.pod in s.pods && s.pods[pc.pod].alive && s.pods[pc.pod].ver == pc.podVer
    ensures Reaches(e, r', s') && s'.owner == s.owner
    ensures var x := s.slots[a]; var p := x.pc.pod;
      && s'.pods == s.pods[p := SetClaim(s.pods[p], Some(a))]
      && s'.slots == s.slots[a := x.(boundPod := Some(p), boundIP := Some(x.pc.ip), phase := Binding,
                                     ver := x.ver + 2, known := x.ver + 2, pc := Idle)]
  {
    r', s' := Call(e, r, s, a, Reserve);
    r', s' := Call(e, r', s', a, ClaimPod);
    r', s' := Call(e, r', s', a, WritePhase);
  }

  /** PA a has one ServerGroup, empty and unmarked, and a container port. */
  predicate Simple(x: Slot) {
    |x.marks| == |x.ports| == |x.groups| == 1 && x.marks[0].Clear? && x.groups[0] == map[] && x.ports[0] != 0
  }

  /** handleBinding up to an accepted AddServers for the only ServerGroup. */
  lemma Serve(e: Grants, r: Run, s: State, a: PaId) returns (r': Run, s': State)
    requires Reaches(e, r, s) && a in s.slots && s.slots[a].pc.Idle? && s.slots[a].phase.Binding?
    requires s.slots[a].boundIP.Some? && ClaimSeen(a, s.slots[a], s.pods) && Simple(s.slots[a])
    ensures Reaches(e, r', s')
    ensures var x := s.slots[a];
      s' == With(s, a, x.(known := x.ver, pc := Attaching(Added(0)), groups := [map[x.Target(0) := false]]))
  {
    var x := s.slots[a];
    r', s' := Call(e, r, s, a, Start);
    r', s' := Call(e, r', s', a, Verify);
    r', s' := Call(e, r', s', a, AddServer(0));
    assert s'.slots[a].groups == [map[x.Target(0) := false]];
  }

  /** A reconcile that reads the pod and moves the PA to Releasing. */
  lemma Abandon(e: Grants, r: Run, s: State, a: PaId, op: Op) returns (r': Run, s': State)
    requires Reaches(e, r, s) && a in s.slots && s.slots[a].pc.Idle?
    requires (op.Verify? && s.slots[a].phase.Binding? && !ClaimSeen(a, s.slots[a], s.pods))
          || (op.CheckBound? && s.slots[a].phase.Bound? && PodFound(s.slots[a], s.pods)
              && !s.pods[s.slots[a].boundPod.value].pooled && !s.pods[s.slots[a].boundPod.value].disabled)
    ensures Reaches(e, r', s')
    ensures var x := s.slots[a];
      s' == With(s, a, x.(phase := Releasing, ver := x.ver + 1, known := x.ver + 1, pc := Idle))
  {
    r', s' := Call(e, r, s, a, Start);
    r', s' := Call(e, r', s', a, op);
    r', s' := Call(e, r', s', a, WritePhase);
  }

  lemma Drains(e: Grants, r: Run, s: State, a: PaId) returns (r': Run, s': State)
    requires Reaches(e, r, s) && a in s.slots && s.slots[a].pc.Idle? && s.slots[a].phase.Releasing?
    ensures Reaches(e, r', s')
    ensures var x := s.slots[a]; s' == With(s, a, x.(known := x.ver, pc := Draining(Nothing)))
  {
    r', s' := Call(e, r, s, a, Start);
    r', s' := Call(e, r', s', a, Drain);
  }

  /** clearPodClaim where it changes nothing: the pod is gone, or the Get or the patch fails. */
  lemma SkipsClaim(e: Grants, r: Run, s: State, a: PaId) returns (r': Run, s': State)
    requires Reaches(e, r, s) && a in s.slots
    requires s.slots[a].pc == Draining(Nothing) && s.slots[a].marks == [Clear]
    requires ClaimSeen(a, s.slots[a], s.pods) ==> !e.clearsLand
    ensures Reaches(e, r', s') && s' == With(s, a, s.slots[a].At(Freed))
  {
    r', s' := Call(e, r, s, a, ReadClaim);
    if s'.slots[a].pc.Clearing? {
      r', s' := Call(e, r', s', a, SkipClear);
    }
  }

  /** resetToAvailable. */
  lemma LetGo(e: Grants, r: Run, s: State, a: PaId) returns (r': Run, s': State)
    requires Reaches(e, r, s) && a in s.slots
    requires s.slots[a].pc == Freed && s.slots[a].marks == [Clear] && s.slots[a].Current()
    ensures Reaches(e, r', s')
    ensures var x := s.slots[a];
      s' == With(s, a, x.(boundPod := None, boundIP := None, phase := Available,
                          ver := x.ver + 2, known := x.ver + 2, pc := Idle))
  {
    r', s' := Call(e, r, s, a, Unreserve);
    r', s' := Call(e, r', s', a, WriteAvailable);
    assert s'.slots[a].marks == [Clear];
  }

  /** PA a is free: one ServerGroup on port 80, nothing bound. */
  predicate Fresh(s: State, a: PaId) {
    Vacant(s, a) && Simple(s.slots[a]) && s.slots[a].ports[0] == 80
  }

  /** Two free PAs and a claimless pod 7 with address 70. */
  lemma Setting(e: Grants) returns (r: Run, s: State)
    ensures Reaches(e, r, s) && Fresh(s, 0) && Fresh(s, 1)
    ensures s.pods == map[7 := Pod(1, true, Some(70), None, true, false)] && s.owner == map[70 := 7]
    ensures s.slots.Keys == {0, 1} && s.slots[0].boundIP.None? && s.slots[1].boundIP.None?
  {
    r, s := Outside(e, Begin, INIT, Provision(0, [80]));
    r, s := Outside(e, r, s, Provision(1, [80]));
    r, s := Outside(e, r, s, CreatePod(7, true, false));
    r, s := Outside(e, r, s, AssignIP(7, 70));
  }

  /** Both PAs have registered the address of pod p. */
  lemma SharedBackend(s: State, ip: Addr, p: PodId)
    requires 0 in s.slots && |s.slots[0].groups| == 1 && Backend(ip, 80) in s.slots[0].groups[0]
    requires 1 in s.slots && |s.slots[1].groups| == 1 && Backend(ip, 80) in s.slots[1].groups[0]
    requires Owns(s, ip, p)
    ensures !RoutesAlone(s)
  {
    assert Routes(s, 0, p) by { assert Backend(ip, 80) in s.slots[0].groups[0]; }
    assert Routes(s, 1, p) by { assert Backend(ip, 80) in s.slots[1].groups[0]; }
  }

  // ---------------------------------------------------------------------------
  // One run for each missing guarantee
  // ---------------------------------------------------------------------------

  /** PA 1's Get of the claimed PA 0 fails, which the code takes for a stale claim while PA 0 is serving the pod. */
  lemma FailedReadBreaks(e: Grants) returns (r: Run)
    requires !e.freshReads
    ensures Legal(e, r) && !RoutesAlone(End(e, r))
  {
    var s: State;
    r, s := Setting(e);
    r, s := Pick(e, r, s, 0, 7);
    r, s := Seize(e, r, s, 0);
    r, s := Serve(e, r, s, 0);
    r, s := Pick(e, r, s, 1, 7);
    r, s := Seize(e, r, s, 1);
    r, s := Serve(e, r, s, 1);
    SharedBackend(s, 70, 7);
  }

  /** The "Adding" patch ends one reconcile; the next one verifies the claim again. */
  lemma NextReconcile(e: Grants, r: Run, s: State) returns (r': Run, s': State)
    requires Reaches(e, r, s) && 0 in s.slots && ClaimSeen(0, s.slots[0], s.pods)
    requires var x := s.slots[0];
      x.phase.Binding? && x.pc == Attaching(Added(0)) && x.boundIP.Some? && x.marks == [Clear] && x.Current()
    ensures Reaches(e, r', s')
    ensures var x := s.slots[0];
      s' == With(s, 0, x.(marks := [Adding], pc := Attaching(Nothing), ver := x.ver + 1, known := x.ver + 1))
  {
    r', s' := Call(e, r, s, 0, MarkAdding);
    r', s' := Call(e, r', s', 0, Stop);
    r', s' := Call(e, r', s', 0, Start);
    r', s' := Call(e, r', s', 0, Verify);
    assert s'.slots[0].marks == [Adding];
  }

  lemma FindAdded(e: Grants, r: Run, s: State) returns (r': Run, s': State)
    requires Reaches(e, r, s) && 0 in s.slots
    requires var x := s.slots[0];
      && x.pc == Attaching(Nothing) && x.boundIP == Some(70) && x.marks == [Adding]
      && x.groups == [map[Backend(70, 80) := false]]
    ensures Reaches(e, r', s')
    ensures var x := s.slots[0]; s' == With(s, 0, x.(marks := [Attached], ver := x.ver + 1, known := x.ver + 1))
  {
    var x := s.slots[0];
    assert HasIP(x.groups[0], 70) by { assert Backend(70, 80) in x.groups[0]; }
    r', s' := Call(e, r, s, 0, Poll(0));
    r', s' := Call(e, r', s', 0, MarkSeen);
    assert s'.slots[0].marks == [Attached];
  }

  /** handleBinding finds the added server and enters Bound. */
  lemma Finish(e: Grants, r: Run, s: State) returns (r': Run, s': State)
    requires Reaches(e, r, s) && 0 in s.slots
    requires var x := s.slots[0];
      && x.pc == Attaching(Nothing) && x.boundIP == Some(70) && x.marks == [Adding] && x.Current()
      && x.groups == [map[Backend(70, 80) := false]]
    ensures Reaches(e, r', s')
    ensures var x := s.slots[0];
      s' == With(s, 0, x.(phase := Bound, marks := [Attached], pc := Idle, ver := x.ver + 2, known := x.ver + 2))
  {
    r', s' := FindAdded(e, r, s);
    r', s' := Call(e, r', s', 0, EnterBound);
  }

  lemma RequestRemoval(e: Grants, r: Run, s: State) returns (r': Run, s': State)
    requires Reaches(e, r, s) && 0 in s.slots
    requires var x := s.slots[0];
      x.pc == Draining(Nothing) && x.marks == [Attached] && x.groups == [map[Backend(70, 80) := false]]
    ensures Reaches(e, r', s')
    ensures s' == With(s, 0, s.slots[0].(groups := [map[Backend(70, 80) := true]], pc := Idle))
  {
    var x, b := s.slots[0], Backend(70, 80);
    assert b in x.groups[0] && x.groups[0][b := true] == map[b := true];
    r', s' := Call(e, r, s, 0, Poll(0));
    r', s' := Call(e, r', s', 0, DrainServer(b));
    r', s' := Call(e, r', s', 0, Stop);
    assert s'.slots[0].groups == [map[b := true]];
  }

  /** One handleReleasing lists the only backend of PA 0 and requests its removal; the cloud finishes it. */
  lemma Evict(e: Grants, r: Run, s: State) returns (r': Run, s': State)
    requires Reaches(e, r, s) && 0 in s.slots
    requires var x := s.slots[0];
      x.pc == Draining(Nothing) && x.marks == [Attached] && x.groups == [map[Backend(70, 80) := false]]
    ensures Reaches(e, r', s')
    ensures s' == With(s, 0, s.slots[0].(groups := [map[]], pc := Idle))
  {
    var b := Backend(70, 80);
    r', s' := RequestRemoval(e, r, s);
    assert map[b := true] - {b} == map[];
    r', s' := Outside(e, r', s', FinishRemoval(0, 0, b));
    assert s'.slots[0].groups == [map[]];
  }

  /** handleReleasing finds the only ServerGroup of PA 0 empty. */
  lemma ConfirmEmpty(e: Grants, r: Run, s: State) returns (r': Run, s': State)
    requires Reaches(e, r, s) && 0 in s.slots
    requires var x := s.slots[0]; x.pc == Draining(Nothing) && x.marks == [Attached] && x.groups == [map[]]
    ensures Reaches(e, r', s')
    ensures var x := s.slots[0]; s' == With(s, 0, x.(marks := [Clear], ver := x.ver + 1, known := x.ver + 1))
  {
    r', s' := Call(e, r, s, 0, Poll(0));
    r', s' := Call(e, r', s', 0, MarkSeen);
    assert s'.slots[0].marks == [Clear];
  }

  /** Pod 7 leaves the pool, and PA 0 empties its ServerGroup. */
  lemma LeavePool(e: Grants, r: Run, s: State) returns (r': Run, s': State)
    requires Reaches(e, r, s) && 0 in s.slots
    requires 7 in s.pods && s.pods[7] == Pod(2, true, Some(70), Some(0), true, false)
    requires var x := s.slots[0];
      && x.boundPod == Some(7) && x.boundIP == Some(70) && x.phase.Bound? && x.pc.Idle?
      && x.marks == [Attached] && x.ports == [80] && x.groups == [map[Backend(70, 80) := false]]
    ensures Reaches(e, r', s')
    ensures var x := s.slots[0];
      s' == With(s, 0, x.(phase := Releasing, groups := [map[]], ver := x.ver + 1, known := x.ver + 1))
            .(pods := s.pods[7 := Pod(3, true, Some(70), Some(0), false, false)])
  {
    r', s' := Outside(e, r, s, EditPod(7, false, false));
    r', s' := Abandon(e, r', s', 0, CheckBound);
    r', s' := Drains(e, r', s', 0);
    r', s' := Evict(e, r', s');
  }

  /** Pod 7 leaves the pool; PA 0 releases it, but the patch that clears the claim is lost. */
  lemma ReleaseKeepingClaim(e: Grants, r: Run, s: State) returns (r': Run, s': State)
    requires !e.clearsLand && Reaches(e, r, s) && 0 in s.slots
    requires 7 in s.pods && s.pods[7] == Pod(2, true, Some(70), Some(0), true, false)
    requires var x := s.slots[0];
      && x.boundPod == Some(7) && x.boundIP == Some(70) && x.phase.Bound? && x.pc.Idle?
      && x.marks == [Attached] && x.ports == [80] && x.groups == [map[Backend(70, 80) := false]]
    ensures Reaches(e, r', s') && Fresh(s', 0)
    ensures s' == With(s, 0, s'.slots[0]).(pods := s.pods[7 := Pod(4, true, Some(70), Some(0), true, false)])
  {
    r', s' := LeavePool(e, r, s);
    r', s' := Drains(e, r', s', 0);
    r', s' := ConfirmEmpty(e, r', s');
    r', s' := SkipsClaim(e, r', s', 0);
    r', s' := LetGo(e, r', s', 0);
    r', s' := Outside(e, r', s', EditPod(7, true, false));
  }

  /** A worker stops right after it has reserved a pod. */
  lemma ReserveOnly(e: Grants, r: Run, s: State, a: PaId) returns (r': Run, s': State)
    requires Reaches(e, r, s) && a in s.slots && s.slots[a].pc.Chosen? && s.slots[a].Current()
    ensures Reaches(e, r', s')
    ensures var x := s.slots[a];
      s' == With(s, a, x.(boundPod := Some(x.pc.pod), boundIP := Some(x.pc.ip),
                          ver := x.ver + 1, known := x.ver + 1, pc := Idle))
  {
    r', s' := Call(e, r, s, a, Reserve);
    r', s' := Call(e, r', s', a, Stop);
  }

  lemma ConfirmClaim(e: Grants, r: Run, s: State, a: PaId) returns (r': Run, s': State)
    requires Reaches(e, r, s) && a in s.slots && s.slots[a].pc.Idle? && s.slots[a].phase.Available?
    requires ClaimSeen(a, s.slots[a], s.pods)
    ensures Reaches(e, r', s')
    ensures var x := s.slots[a];
      s' == With(s, a, x.(known := x.ver, pc := Confirmed(s.pods[x.boundPod.value].ip)))
  {
    r', s' := Call(e, r, s, a, Start);
    r', s' := Call(e, r', s', a, ReadBound);
    r', s' := Call(e, r', s', a, ResumeDecide);
  }

  /** availableResumeBind finds the claim in place and goes on to Binding without writing the pod. */
  lemma ResumeClaimed(e: Grants, r: Run, s: State, a: PaId) returns (r': Run, s': State)
    requires Reaches(e, r, s) && a in s.slots && s.slots[a].pc.Idle? && s.slots[a].phase.Available?
    requires ClaimSeen(a, s.slots[a], s.pods)
    requires s.slots[a].boundIP.Some? && s.pods[s.slots[a].boundPod.value].ip == s.slots[a].boundIP
    ensures Reaches(e, r', s')
    ensures var x := s.slots[a];
      s' == With(s, a, x.(phase := Binding, ver := x.ver + 1, known := x.ver + 1, pc := Idle))
  {
    r', s' := ConfirmClaim(e, r, s, a);
    r', s' := Call(e, r', s', a, Confirm);
    r', s' := Call(e, r', s', a, WritePhase);
  }

  /** With a claim left behind, PA 1 rightly finds it stale while PA 0 takes the same pod again. */
  lemma LostClearBreaks(e: Grants) returns (r: Run)
    requires !e.clearsLand
    ensures Legal(e, r) && !RoutesAlone(End(e, r))
  {
    var s: State;
    r, s := Setting(e);
    r, s := Pick(e, r, s, 0, 7);
    r, s := Seize(e, r, s, 0);
    r, s := Serve(e, r, s, 0);
    r, s := NextReconcile(e, r, s);
    r, s := Finish(e, r, s);
    r, s := ReleaseKeepingClaim(e, r, s);
    r, s := Pick(e, r, s, 1, 7);
    r, s := Pick(e, r, s, 0, 7);
    r, s := ReserveOnly(e, r, s, 0);
    r, s := ResumeClaimed(e, r, s, 0);
    r, s := Serve(e, r, s, 0);
    r, s := Seize(e, r, s, 1);
    r, s := Serve(e, r, s, 1);
    SharedBackend(s, 70, 7);
  }

  /** The worker stops between an accepted AddServers and its patch; the pod dies; the PA lets go of a full group. */
  lemma UnrecordedAddBreaks(e: Grants) returns (r: Run)
    requires !e.addsRecorded
    ensures Legal(e, r) && !RoutesAlone(End(e, r))
  {
    var s: State;
    r, s := Setting(e);
    r, s := Pick(e, r, s, 0, 7);
    r, s := Seize(e, r, s, 0);
    r, s := Serve(e, r, s, 0);
    r, s := Call(e, r, s, 0, Stop);
    r, s := Outside(e, r, s, DeletePod(7));
    r, s := Abandon(e, r, s, 0, Verify);
    r, s := Drains(e, r, s, 0);
    r, s := SkipsClaim(e, r, s, 0);
    r, s := LetGo(e, r, s, 0);
    assert Backend(70, 80) in s.slots[0].groups[0];
    assert !OnlyTarget(s.slots[0]);
  }

  /** Pod 7 dies while PA 0 serves it; pod 8 gets its address and is bound by PA 1 before PA 0 has let go. */
  lemma ReusedAddressBreaks(e: Grants) returns (r: Run)
    requires !e.addressesRest
    ensures Legal(e, r) && !RoutesAlone(End(e, r))
  {
    var s: State;
    r, s := Setting(e);
    r, s := Pick(e, r, s, 0, 7);
    r, s := Seize(e, r, s, 0);
    r, s := Serve(e, r, s, 0);
    r, s := Outside(e, r, s, DeletePod(7));
    r, s := Outside(e, r, s, CreatePod(8, true, false));
    r, s := Outside(e, r, s, AssignIP(8, 70));
    r, s := Pick(e, r, s, 1, 8);
    r, s := Seize(e, r, s, 1);
    r, s := Serve(e, r, s, 1);
    SharedBackend(s, 70, 8);
  }

  /** handleAvailable up to the claim: the worker stops before it writes the phase. */
  lemma ClaimOnly(e: Grants, r: Run, s: State, a: PaId) returns (r': Run, s': State)
    requires Reaches(e, r, s) && a in s.slots && s.slots[a].pc.Chosen? && s.slots[a].Current()
    requires var pc := s.slots[a].pc; pc.pod in s.pods && s.pods[pc.pod].alive && s.pods[pc.pod].ver == pc.podVer
    ensures Reaches(e, r', s') && s'.owner == s.owner
    ensures var x := s.slots[a]; var p := x.pc.pod;
      && s'.pods == s.pods[p := SetClaim(s.pods[p], Some(a))]
      && s'.slots == s.slots[a := x.(boundPod := Some(p), boundIP := Some(x.pc.ip),
                                     ver := x.ver + 1, known := x.ver + 1, pc := Idle)]
  {
    r', s' := Call(e, r, s, a, Reserve);
    r', s' := Call(e, r', s', a, ClaimPod);
    r', s' := Call(e, r', s', a, Stop);
  }

  /** PA 0 has claimed pod 7 and is about to record its address 71, which the pod has already given up for 72. */
  predicate GaveUp(s: State) {
    && s.slots.Keys == {0, 1} && Fresh(s, 1) && s.slots[1].boundIP.None?
    && s.pods.Keys == {7} && s.owner == map[70 := 7, 71 := 7, 72 := 7]
    && s.pods[7].alive && s.pods[7].claim == Some(0) && s.pods[7].ip == Some(72)
    && var x := s.slots[0];
    && x.phase.Available? && x.boundPod == Some(7) && x.boundIP == Some(70) && x.Current()
    && x.pc == Confirmed(Some(71)) && Simple(x) && x.ports[0] == 80
  }

  /** PA 0 has claimed pod 7 and stopped before Binding; PA 1 is free. */
  lemma HalfBound(e: Grants) returns (r: Run, s: State)
    ensures Reaches(e, r, s) && s.slots.Keys == {0, 1} && Fresh(s, 1) && s.slots[1].boundIP.None?
    ensures s.pods == map[7 := Pod(2, true, Some(70), Some(0), true, false)] && s.owner == map[70 := 7]
    ensures var x := s.slots[0];
      && x.phase.Available? && x.boundPod == Some(7) && x.boundIP == Some(70) && x.pc.Idle?
      && Simple(x) && x.ports[0] == 80
  {
    r, s := Setting(e);
    r, s := Pick(e, r, s, 0, 7);
    r, s := ClaimOnly(e, r, s, 0);
  }

  lemma ReachesGaveUp(e: Grants) returns (r: Run, s: State)
    ensures Reaches(e, r, s) && GaveUp(s)
  {
    r, s := HalfBound(e);
    r, s := Outside(e, r, s, AssignIP(7, 71));
    r, s := ConfirmClaim(e, r, s, 0);
    r, s := Outside(e, r, s, AssignIP(7, 72));
  }

  /** The rest of availableResumeBind, from the confirmed claim. */
  lemma BindConfirmed(e: Grants, r: Run, s: State, a: PaId) returns (r': Run, s': State)
    requires Reaches(e, r, s) && a in s.slots && s.slots[a].pc.Confirmed? && s.slots[a].pc.newIP.Some?
    requires s.slots[a].Current() && s.slots[a].pc.newIP != s.slots[a].boundIP
    ensures Reaches(e, r', s')
    ensures var x := s.slots[a];
      s' == With(s, a, x.(boundIP := x.pc.newIP, phase := Binding, ver := x.ver + 2, known := x.ver + 2, pc := Idle))
  {
    r', s' := Call(e, r, s, a, Confirm);
    r', s' := Call(e, r', s', a, WritePhase);
  }

  /**
   Pod 7 changes its address while PA 0 binds it, and changes it again; pod 8 gets the address in between, which no PA
   records yet.  PA 0 records and serves it, PA 1 serves pod 8.
   */
  lemma LiveAddressBreaks(e: Grants) returns (r: Run)
    requires !e.addressesKept
    ensures Legal(e, r) && !RoutesAlone(End(e, r))
  {
    var s: State;
    r, s := ReachesGaveUp(e);
    r, s := Outside(e, r, s, CreatePod(8, true, false));
    r, s := Outside(e, r, s, AssignIP(8, 71));
    r, s := BindConfirmed(e, r, s, 0);
    r, s := Serve(e, r, s, 0);
    r, s := Pick(e, r, s, 1, 8);
    r, s := Seize(e, r, s, 1);
    r, s := Serve(e, r, s, 1);
    SharedBackend(s, 71, 8);
  }

  /** Two existing pods show the same address, as when one has completed and its address was passed on. */
  lemma SharedAddressBreaks(e: Grants) returns (r: Run)
    requires !e.addressesUnshared
    ensures Legal(e, r) && !RoutesAlone(End(e, r))
  {
    var s: State;
    r, s := Setting(e);
    r, s := Outside(e, r, s, CreatePod(8, true, false));
    r, s := Outside(e, r, s, AssignIP(8, 70));
    r, s := Pick(e, r, s, 0, 7);
    r, s := Seize(e, r, s, 0);
    r, s := Serve(e, r, s, 0);
    r, s := Pick(e, r, s, 1, 8);
    r, s := Seize(e, r, s, 1);
    r, s := Serve(e, r, s, 1);
    SharedBackend(s, 70, 8);
  }

  // ---------------------------------------------------------------------------
  // The exact condition
  // ---------------------------------------------------------------------------

  ghost predicate AlwaysRoutesAlone(e: Grants) {
    forall r :: Legal(e, r) ==> RoutesAlone(End(e, r))
  }

  /** Exclusive routing over all runs holds if and only if all six guarantees are granted. */
  lemma ExclusiveRoutingIff(e: Grants)
    ensures AlwaysRoutesAlone(e) <==>
      && e.freshReads && e.clearsLand && e.addsRecorded
      && e.addressesRest && e.addressesKept && e.addressesUnshared
  {
    if e == RELIABLE {
      forall r | Legal(e, r) ensures RoutesAlone(End(e, r)) {
        ExclusiveRouting(r);
      }
    } else if !e.freshReads {
      var r := FailedReadBreaks(e);
      assert Legal(e, r);
    } else if !e.clearsLand {
      var r := LostClearBreaks(e);
      assert Legal(e, r);
    } else if !e.addressesRest {
      var r := ReusedAddressBreaks(e);
      assert Legal(e, r);
    } else if !e.addressesKept {
      var r := LiveAddressBreaks(e);
      assert Legal(e, r);
    } else if !e.addressesUnshared {
      var r := SharedAddressBreaks(e);
      assert Legal(e, r);
    } else {
      var r := UnrecordedAddBreaks(e);
      assert Legal(e, r);
    }
  }
}
