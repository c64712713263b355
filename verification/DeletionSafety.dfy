/** The cascade order of a pool deletion, over all runs, and exactly when it can be relied on. */
module DeletionSafety {
  import opened Options
  import opened DeletionModel

  /** Some NLB CR carries this ID. */
  ghost predicate InCR(s: State, id: NlbId) {
    exists n :: n in s.crs && s.crs[n].id == Some(id)
  }

  /** Every existing cloud NLB can still be found: in the record or in a CR. */
  ghost predicate Traceable(s: State) {
    forall id :: id in s.nlbs ==> id in s.recorded || InCR(s, id)
  }

  /** The IDs are persisted before the CR that carries them is deleted. */
  ghost predicate PersistedFirst(s: State) {
    forall n :: n in s.crs && s.crs[n].deleting && s.crs[n].id.Some? && s.crs[n].id.value in s.nlbs ==>
      s.crs[n].id.value in s.recorded
  }

  /** A record, once written, covers every cloud NLB that still exists. */
  ghost predicate RecordCovers(s: State) {
    s.recorded != {} ==> s.nlbs <= s.recorded
  }

  ghost predicate PcOk(s: State) {
    match s.pc
    case Idle => true
    case Sweeping(_, _) => s.deleting
    case Listed(crs) =>
      && s.collected
      && (forall n :: n in s.crs ==> n in crs && crs[n].id == s.crs[n].id)
      && (s.recorded == {} ==> s.nlbs <= IdsOf(crs))
    case Removing(crs, todo) => s.collected && s.nlbs <= s.recorded
    case Checking(todo) => s.collected && s.nlbs <= todo
    case Cleared => s.collected && s.nlbs == {}
    case Purging(_) => s.collected && s.nlbs == {}
    case Verifying => s.collected && s.nlbs == {}
    case Verified => s.collected && s.nlbs == {}
  }

  /** Deletion only starts with the IDs collected, and PAs and the finalizer go only after the cloud NLBs. */
  ghost predicate InOrder(s: State) {
    && (s.collected ==> s.deleting)
    && (forall n :: n in s.crs && s.crs[n].deleting ==> s.collected)
    && (forall a :: a in s.allocs && s.allocs[a].deleting ==> s.collected && s.nlbs == {})
    && (!s.finalizer ==> s.collected && s.nlbs == {})
    && (s.recorded != {} ==> s.collected)
  }

  ghost predicate CloudOk(s: State) {
    (forall l :: l in s.listeners ==> s.listeners[l].nlb in s.nlbs) && s.nlbs <= s.usedNlbs
  }

  ghost predicate Inv(s: State) {
    Traceable(s) && PersistedFirst(s) && RecordCovers(s) && InOrder(s) && CloudOk(s) && PcOk(s)
  }

  lemma KeepsTraceable(e: Grants, s: State, st: Step)
    requires e.idsSettled && Inv(s) && Enabled(e, s, st)
    ensures Traceable(Apply(e, s, st))
  {
    var s' := Apply(e, s, st);
    forall id | id in s'.nlbs ensures id in s'.recorded || InCR(s', id) {
      if st.AssignId? && id == st.id {
        assert s'.crs[st.n].id == Some(id);
      } else if id !in s.recorded {
        var n :| n in s.crs && s.crs[n].id == Some(id);
        assert n in s'.crs ==> s'.crs[n].id == Some(id);
      }
    }
  }

  lemma KeepsRecord(e: Grants, s: State, st: Step)
    requires e.idsSettled && Inv(s) && Enabled(e, s, st)
    ensures PersistedFirst(Apply(e, s, st)) && RecordCovers(Apply(e, s, st))
  {
  }

  lemma WorkerKeepsOrder(e: Grants, s: State, st: Step)
    requires InOrder(s) && PcOk(s) && Enabled(e, s, st) && ByPool(st)
    ensures InOrder(Apply(e, s, st))
  {
  }

  lemma OthersKeepOrder(e: Grants, s: State, st: Step)
    requires e.idsSettled && InOrder(s) && Enabled(e, s, st) && !ByPool(st)
    ensures InOrder(Apply(e, s, st))
  {
  }

  lemma KeepsCloud(e: Grants, s: State, st: Step)
    requires CloudOk(s) && Enabled(e, s, st)
    ensures CloudOk(Apply(e, s, st))
  {
  }

  /** The steps of phase 1. */
  predicate OnInfrastructure(st: Step) {
    st.Stop? || st.ListChildren? || st.DeleteChild? || st.ListCRs? || st.Persist? || st.DeleteCR?
  }

  lemma InfrastructureKeepsPc(e: Grants, s: State, st: Step)
    requires PcOk(s) && RecordCovers(s) && InOrder(s) && Enabled(e, s, st) && OnInfrastructure(st)
    requires s.pc == Sweeping(EipCR, {}) && s.recorded == {} ==> s.nlbs <= IdsOf(s.crs)
    ensures PcOk(Apply(e, s, st))
  {
  }

  lemma CleanupKeepsPc(e: Grants, s: State, st: Step)
    requires PcOk(s) && InOrder(s) && Enabled(e, s, st) && ByPool(st) && !OnInfrastructure(st)
    ensures PcOk(Apply(e, s, st))
  {
  }

  lemma OthersKeepPc(e: Grants, s: State, st: Step)
    requires e.idsSettled && PcOk(s) && Enabled(e, s, st) && !ByPool(st)
    requires s.collected ==> s.deleting
    ensures PcOk(Apply(e, s, st))
  {
  }

  lemma StepKeepsInv(e: Grants, s: State, st: Step)
    requires e.idsSettled && Inv(s) && Enabled(e, s, st)
    ensures Inv(Apply(e, s, st))
  {
    KeepsTraceable(e, s, st);
    KeepsRecord(e, s, st);
    KeepsCloud(e, s, st);
    if ByPool(st) {
      if OnInfrastructure(st) {
        forall id | id in s.nlbs && s.recorded == {} ensures id in IdsOf(s.crs) {
          assert InCR(s, id);
        }
        InfrastructureKeepsPc(e, s, st);
      } else {
        CleanupKeepsPc(e, s, st);
      }
      WorkerKeepsOrder(e, s, st);
    } else {
      OthersKeepOrder(e, s, st);
      OthersKeepPc(e, s, st);
    }
  }

  lemma {:induction false} RunsAreSafe(e: Grants, r: Run)
    requires e.idsSettled && Legal(e, r)
    ensures Inv(End(e, r))
  {
    if r.Then? {
      RunsAreSafe(e, r.before);
      StepKeepsInv(e, End(e, r.before), r.step);
    }
  }

  // ---------------------------------------------------------------------------
  // The cascade order
  // ---------------------------------------------------------------------------

  /** Whenever a PA is being deleted, no cloud NLB of the pool and so no listener is left. */
  ghost predicate CascadeDone(s: State) {
    forall a :: a in s.allocs && s.allocs[a].deleting ==> s.nlbs == {} && s.listeners == map[]
  }

  lemma CascadeOrder(e: Grants, r: Run)
    requires e.idsSettled && Legal(e, r)
    ensures CascadeDone(End(e, r))
  {
    RunsAreSafe(e, r);
  }

  /** No CR of an existing cloud NLB is deleted before its ID is stored, whatever crashes happen. */
  lemma IdsPersistedBeforeDeletion(e: Grants, r: Run, n: CrName)
    requires e.idsSettled && Legal(e, r) && n in End(e, r).crs
    ensures var s := End(e, r);
      s.crs[n].deleting && s.crs[n].id.Some? && s.crs[n].id.value in s.nlbs ==> s.crs[n].id.value in s.recorded
  {
    RunsAreSafe(e, r);
  }

  /** A PA finalizer's DeleteServerGroup never answers ResourceInUse. */
  lemma DeleteGroupNeverInUse(e: Grants, r: Run, a: PaId)
    requires e.idsSettled && Legal(e, r) && Enabled(e, End(e, r), DeleteGroup(a))
    ensures var s := End(e, r);
      !InUse(s, s.allocs[a].groups[0]) && s.allocs[a].groups[0] !in Apply(e, s, DeleteGroup(a)).groups
  {
    RunsAreSafe(e, r);
  }

  /** No listener ever forwards to a ServerGroup that is gone: the cloud refuses to delete one in use. */
  lemma {:induction false} NoDanglingListener(e: Grants, r: Run)
    requires Legal(e, r)
    ensures NoneDangling(End(e, r))
  {
    if r.Then? {
      NoDanglingListener(e, r.before);
      StepLeavesNoneDangling(e, End(e, r.before), r.step);
    }
  }

  ghost predicate NoneDangling(s: State) {
    forall l :: l in s.listeners ==> s.listeners[l].group in s.groups
  }

  lemma StepLeavesNoneDangling(e: Grants, s: State, st: Step)
    requires NoneDangling(s) && Enabled(e, s, st)
    ensures NoneDangling(Apply(e, s, st))
  {
    if st.DeleteGroup? {
      var g := s.allocs[st.a].groups[0];
      assert forall l :: l in s.listeners && s.listeners[l].group == g ==> InUse(s, g);
    }
  }

  /** A PA's listeners are dropped one by one from the front, and only when the cloud has none of that ID. */
  lemma ListenersDropWhenGone(e: Grants, s: State, st: Step, a: PaId)
    requires Enabled(e, s, st) && a in s.allocs && a in Apply(e, s, st).allocs
    ensures var x, x' := s.allocs[a], Apply(e, s, st).allocs[a];
      |x'.listeners| < |x.listeners| ==>
        x.deleting && x.listeners[0] !in s.listeners && x'.listeners == x.listeners[1..]
  {
    if !EditsAllocs(st) && !TouchesGroups(st) {
      OthersKeepAllocs(e, s, st);
    }
  }

  /** A PA's ServerGroups go one by one from the front, and only when it tracks no listener any more. */
  lemma GroupsGoAfterListeners(e: Grants, s: State, st: Step, a: PaId)
    requires Enabled(e, s, st) && a in s.allocs && a in Apply(e, s, st).allocs
    ensures var x, x' := s.allocs[a], Apply(e, s, st).allocs[a];
      |x'.groups| < |x.groups| ==> x.deleting && x.listeners == [] && x'.groups == x.groups[1..]
  {
    if EditsAllocs(st) {
      EditsKeepGroups(e, s, st);
    } else if !TouchesGroups(st) {
      OthersKeepAllocs(e, s, st);
    }
  }

  // ---------------------------------------------------------------------------
  // What belongs to others
  // ---------------------------------------------------------------------------

  /** An EIP that another owner controls. */
  predicate Foreign(x: Child) {
    x.kind.EipCR? && !x.mine
  }

  ghost predicate ForeignKept(s: State) {
    && (forall c :: c in s.children && Foreign(s.children[c]) ==> !s.children[c].deleting)
    && (s.pc.Sweeping? ==> s.deleting && forall c :: c in s.pc.todo && c in s.children ==> !Foreign(s.children[c]))
  }

  lemma StepKeepsForeign(e: Grants, s: State, st: Step)
    requires ForeignKept(s) && Enabled(e, s, st)
    ensures ForeignKept(Apply(e, s, st))
  {
  }

  lemma {:induction false} RunsKeepForeign(e: Grants, r: Run)
    requires Legal(e, r)
    ensures ForeignKept(End(e, r))
  {
    if r.Then? {
      RunsKeepForeign(e, r.before);
      StepKeepsForeign(e, End(e, r.before), r.step);
    }
  }

  /** In no run, under no guarantees, does the deletion of a pool touch an EIP that another owner controls. */
  lemma ForeignEipsAreLeft(e: Grants, r: Run, c: ChildName)
    requires Legal(e, r) && c in End(e, r).children
    requires End(e, r).children[c].kind.EipCR? && !End(e, r).children[c].mine
    ensures !End(e, r).children[c].deleting
  {
    RunsKeepForeign(e, r);
  }

  // ---------------------------------------------------------------------------
  // Nothing is left behind
  // ---------------------------------------------------------------------------

  /** Once the pool's finalizer is gone, so are its CRs of every kind, its PAs and all they had in the cloud. */
  ghost predicate Clean(s: State) {
    !s.finalizer ==>
      && s.crs == map[] && s.children == map[] && s.allocs == map[]
      && s.nlbs == {} && s.listeners == map[] && s.groups == {}
  }

  ghost predicate HasOwner(s: State, g: GroupId) {
    exists a :: a in s.allocs && g in s.allocs[a].groups
  }

  /** Every ServerGroup is recorded in some PA. */
  ghost predicate GroupsTracked(s: State) {
    && (forall g :: g in s.groups ==> HasOwner(s, g))
    && s.groups <= s.usedGroups
    && (forall a, g :: a in s.allocs && g in s.allocs[a].groups ==> g in s.usedGroups)
  }

  ghost predicate ChildrenChecked(s: State) {
    && (s.pc.Verifying? || s.pc.Verified? || !s.finalizer ==> s.allocs == map[] && s.deleting)
    && (s.pc.Verified? || !s.finalizer ==> s.crs == map[] && s.children == map[])
  }

  ghost predicate Tracked(s: State) {
    GroupsTracked(s) && ChildrenChecked(s)
  }

  predicate TouchesGroups(st: Step) {
    st.CreateGroup? || st.DeleteGroup? || st.AllocGone?
  }

  predicate EditsAllocs(st: Step) {
    st.CreateAlloc? || st.CreateListener? || st.ListenerConfirmedGone? || st.DeleteAlloc?
  }

  ghost predicate SameGroups(s: State, s': State) {
    && s'.groups == s.groups && s'.usedGroups == s.usedGroups && s.allocs.Keys <= s'.allocs.Keys
    && forall a :: a in s'.allocs ==> s'.allocs[a].groups == if a in s.allocs then s.allocs[a].groups else []
  }

  /** These steps change PAs, but not the ServerGroups recorded in them. */
  lemma EditsKeepGroups(e: Grants, s: State, st: Step)
    requires Enabled(e, s, st) && EditsAllocs(st)
    ensures SameGroups(s, Apply(e, s, st))
  {
  }

  lemma OthersKeepAllocs(e: Grants, s: State, st: Step)
    requires Enabled(e, s, st) && !TouchesGroups(st) && !EditsAllocs(st)
    ensures var s' := Apply(e, s, st);
      s'.groups == s.groups && s'.usedGroups == s.usedGroups && s'.allocs == s.allocs
  {
  }

  lemma SameGroupsTracked(s: State, s': State)
    requires GroupsTracked(s) && SameGroups(s, s')
    ensures GroupsTracked(s')
  {
    forall g | g in s'.groups ensures HasOwner(s', g) {
      assert HasOwner(s, g);
      var a :| a in s.allocs && g in s.allocs[a].groups;
      assert a in s'.allocs && g in s'.allocs[a].groups;
    }
  }

  lemma CreatedGroupTracked(s: State, st: Step)
    requires GroupsTracked(s) && Enabled(RELIABLE, s, st) && st.CreateGroup?
    ensures GroupsTracked(Apply(RELIABLE, s, st))
  {
    var s' := Apply(RELIABLE, s, st);
    forall g | g in s'.groups ensures HasOwner(s', g) {
      if g == st.g {
        assert g in s'.allocs[st.a].groups;
      } else {
        assert HasOwner(s, g);
        var a :| a in s.allocs && g in s.allocs[a].groups;
        assert a in s'.allocs && g in s'.allocs[a].groups;
      }
    }
  }

  lemma DroppedGroupTracked(s: State, st: Step)
    requires GroupsTracked(s) && Enabled(RELIABLE, s, st) && (st.DeleteGroup? || st.AllocGone?)
    ensures GroupsTracked(Apply(RELIABLE, s, st))
  {
    var s' := Apply(RELIABLE, s, st);
    assert s'.groups <= s.groups && s'.usedGroups == s.usedGroups;
    forall g | g in s'.groups ensures HasOwner(s', g) {
      assert HasOwner(s, g);
      var a :| a in s.allocs && g in s.allocs[a].groups;
      assert a in s'.allocs && g in s'.allocs[a].groups;
    }
  }

  lemma WorkerKeepsChecked(s: State, st: Step)
    requires ChildrenChecked(s) && InOrder(s) && PcOk(s) && Enabled(RELIABLE, s, st) && ByPool(st)
    ensures ChildrenChecked(Apply(RELIABLE, s, st))
  {
  }

  lemma OthersKeepChecked(s: State, st: Step)
    requires ChildrenChecked(s) && InOrder(s) && PcOk(s) && Enabled(RELIABLE, s, st) && !ByPool(st)
    ensures ChildrenChecked(Apply(RELIABLE, s, st))
  {
  }

  lemma StepKeepsTracked(s: State, st: Step)
    requires Tracked(s) && Inv(s) && Enabled(RELIABLE, s, st)
    ensures Tracked(Apply(RELIABLE, s, st))
  {
    if st.CreateGroup? {
      CreatedGroupTracked(s, st);
    } else if TouchesGroups(st) {
      DroppedGroupTracked(s, st);
    } else {
      if EditsAllocs(st) {
        EditsKeepGroups(RELIABLE, s, st);
      } else {
        OthersKeepAllocs(RELIABLE, s, st);
      }
      SameGroupsTracked(s, Apply(RELIABLE, s, st));
    }
    if ByPool(st) {
      WorkerKeepsChecked(s, st);
    } else {
      OthersKeepChecked(s, st);
    }
  }

  lemma {:induction false} RunsAreTracked(r: Run)
    requires Legal(RELIABLE, r)
    ensures Tracked(End(RELIABLE, r))
  {
    if r.Then? {
      RunsAreTracked(r.before);
      RunsAreSafe(RELIABLE, r.before);
      StepKeepsTracked(End(RELIABLE, r.before), r.step);
    }
  }

  lemma NothingLeftBehind(r: Run)
    requires Legal(RELIABLE, r)
    ensures Clean(End(RELIABLE, r))
  {
    RunsAreTracked(r);
    RunsAreSafe(RELIABLE, r);
  }

  // ---------------------------------------------------------------------------
  // Exactly when
  // ---------------------------------------------------------------------------

  ghost predicate Reaches(e: Grants, r: Run, s: State) {
    Legal(e, r) && End(e, r) == s
  }

  lemma Go(e: Grants, r: Run, s: State, st: Step) returns (r': Run, s': State)
    requires Reaches(e, r, s) && Enabled(e, s, st)
    ensures Reaches(e, r', s') && s' == Apply(e, s, st)
  {
    r', s' := Then(r, st), Apply(e, s, st);
  }

  /** A deletion reconcile with nothing recorded, from the listed CRs to the choice of PAs to delete. */
  lemma Purge(e: Grants, r: Run, s: State) returns (r': Run, s': State)
    requires Reaches(e, r, s) && s.pc.Removing? && s.pc.todo == {} && s.recorded == {}
    ensures Reaches(e, r', s')
    ensures s' == s.(pc := Purging(set a | a in s.allocs && !s.allocs[a].deleting))
  {
    r', s' := Go(e, r, s, StartChecking);
    r', s' := Go(e, r', s', ClearRecord(true));
    r', s' := Go(e, r', s', ListAllocs);
  }

  /** The three lists of other children find nothing. */
  lemma Sweep(e: Grants, r: Run, s: State) returns (r': Run, s': State)
    requires Reaches(e, r, s) && s.deleting && s.finalizer && s.pc.Idle? && s.children == map[]
    ensures Reaches(e, r', s') && s' == s.(pc := Sweeping(EipCR, {}))
  {
    r', s' := Go(e, r, s, ListChildren);
    assert s'.pc == Sweeping(ListenerCR, {});
    r', s' := Go(e, r', s', ListChildren);
    assert s'.pc == Sweeping(GroupCR, {});
    r', s' := Go(e, r', s', ListChildren);
    assert s'.pc == Sweeping(EipCR, {});
  }

  /** The first deletion reconcile of a live pool, up to the persisted record. */
  lemma StartDeletion(e: Grants, r: Run, s: State) returns (r': Run, s': State)
    requires Reaches(e, r, s) && !s.deleting && s.finalizer && s.pc.Idle? && s.recorded == {}
    requires s.children == map[]
    ensures Reaches(e, r', s')
    ensures s' == s.(deleting := true, collected := true, recorded := IdsOf(s.crs),
                     pc := Removing(s.crs, set n | n in s.crs && !s.crs[n].deleting))
  {
    r', s' := Go(e, r, s, DeletePool);
    r', s' := Sweep(e, r', s');
    r', s' := Go(e, r', s', ListCRs);
    r', s' := Go(e, r', s', Persist);
  }

  /** A live pool with one PA 0 that has created ServerGroup 5. */
  lemma OneAlloc(e: Grants, r: Run, s: State, g: bool) returns (r': Run, s': State)
    requires (!g ==> !e.groupsRecorded) && Reaches(e, r, s) && !s.deleting && s.allocs == map[] && s.usedGroups == {}
    requires s.groups == {}
    ensures Reaches(e, r', s')
    ensures s' == s.(allocs := map[0 := Alloc(false, [], if g then [5] else [])], groups := {5}, usedGroups := {5})
  {
    r', s' := Go(e, r, s, CreateAlloc(0));
    assert s'.allocs == map[0 := Alloc(false, [], [])];
    r', s' := Go(e, r', s', CreateGroup(0, 5, g));
    assert s'.groups == {5} && s'.usedGroups == {5} && s'.allocs[0].groups == if g then [5] else [];
    assert s'.allocs == map[0 := Alloc(false, [], if g then [5] else [])];
  }

  /** The pool worker deletes PA 0. */
  lemma DropAlloc(e: Grants, r: Run, s: State) returns (r': Run, s': State)
    requires Reaches(e, r, s) && s.pc.Removing? && s.pc.todo == {} && s.recorded == {}
    requires s.allocs.Keys == {0} && !s.allocs[0].deleting
    ensures Reaches(e, r', s')
    ensures s' == s.(allocs := map[0 := s.allocs[0].(deleting := true)], pc := Purging({}))
  {
    r', s' := Purge(e, r, s);
    assert s'.pc.todo == {0};
    r', s' := Go(e, r', s', DeleteAlloc(0));
    assert s'.allocs == map[0 := s.allocs[0].(deleting := true)] && s'.pc.todo == {};
  }

  /** A deleted pool without NLBs and with one PA, which has just been deleted too. */
  lemma DeletedAlloc(e: Grants, g: bool) returns (r: Run, s: State)
    requires !g ==> !e.groupsRecorded
    ensures Reaches(e, r, s) && s.pc == Purging({}) && s.finalizer && s.crs == map[] && s.groups == {5}
    ensures s.children == map[]
    ensures s.allocs == map[0 := Alloc(true, [], if g then [5] else [])]
  {
    r, s := OneAlloc(e, Begin, INIT, g);
    r, s := StartDeletion(e, r, s);
    assert IdsOf(s.crs) == {} && s.pc.todo == {};
    r, s := DropAlloc(e, r, s);
  }

  /** A deletion in which NLB CR 0 is deleted before it has an ID, and receives NLB 9 afterwards. */
  lemma LateId(e: Grants, r: Run, s: State) returns (r': Run, s': State)
    requires !e.idsSettled && Reaches(e, r, s) && !s.deleting && s.finalizer && s.pc.Idle? && s.recorded == {}
    requires s.children == map[]
    requires s.crs == map[0 := NlbCR(None, false)] && s.usedNlbs == s.nlbs == {}
    ensures Reaches(e, r', s')
    ensures s' == s.(deleting := true, collected := true, crs := map[0 := NlbCR(Some(9), true)], nlbs := {9},
                     usedNlbs := {9}, pc := Removing(s.crs, {}))
  {
    r', s' := StartDeletion(e, r, s);
    assert IdsOf(s.crs) == {} && s'.pc.todo == {0};
    r', s' := Go(e, r', s', DeleteCR(0));
    r', s' := Go(e, r', s', AssignId(0, 9));
    assert s'.crs == map[0 := NlbCR(Some(9), true)] && s'.nlbs == {9} && s'.usedNlbs == {9} && s'.pc.todo == {};
  }

  lemma LastSteps(e: Grants, r: Run, s: State) returns (r': Run, s': State)
    requires Reaches(e, r, s) && s.pc == Purging({})
    requires !e.listsSucceed || (s.allocs == map[] && s.crs == map[] && s.children == map[])
    ensures Reaches(e, r', s') && s' == s.(finalizer := false, pc := Idle)
  {
    r', s' := Go(e, r, s, CheckAllocs);
    r', s' := Go(e, r', s', CheckChildren);
    r', s' := Go(e, r', s', RemoveFinalizer);
  }

  /** An NLB CR without an ID is deleted; the ID arrives late; a listener is created on the new NLB. */
  lemma LateIdBreaks(e: Grants) returns (r: Run)
    requires !e.idsSettled
    ensures Legal(e, r) && !CascadeDone(End(e, r))
  {
    var s: State;
    r, s := Go(e, Begin, INIT, CreateCR(0));
    r, s := OneAlloc(e, r, s, true);
    r, s := LateId(e, r, s);
    r, s := Go(e, r, s, CreateListener(0, 3, 9, 5, false));
    r, s := DropAlloc(e, r, s);
    assert 3 in s.listeners;
  }

  /** The order of the cascade holds over all runs if and only if no ID arrives after the collection. */
  lemma CascadeOrderIff(e: Grants)
    ensures (forall r :: Legal(e, r) ==> CascadeDone(End(e, r))) <==> e.idsSettled
  {
    if e.idsSettled {
      forall r | Legal(e, r) ensures CascadeDone(End(e, r)) {
        CascadeOrder(e, r);
      }
    } else {
      var r := LateIdBreaks(e);
      assert Legal(e, r) && !CascadeDone(End(e, r));
    }
  }

  /** The same without a PA: the CR goes away while its late cloud NLB stays. */
  lemma OrphanNlb(e: Grants) returns (r: Run, s: State)
    requires !e.idsSettled
    ensures Reaches(e, r, s) && s.nlbs == {9} && s.pc == Purging({})
    ensures s.crs == map[] && s.allocs == map[] && s.children == map[]
  {
    r, s := Go(e, Begin, INIT, CreateCR(0));
    r, s := LateId(e, r, s);
    r, s := Go(e, r, s, CRGone(0));
    r, s := Purge(e, r, s);
  }

  lemma CleanFails(e: Grants) returns (r: Run)
    requires e != RELIABLE
    ensures Legal(e, r) && !Clean(End(e, r))
  {
    var s: State;
    if !e.listsSucceed {
      r, s := DeletedAlloc(e, true);
    } else if !e.groupsRecorded {
      r, s := DeletedAlloc(e, false);
      r, s := Go(e, r, s, AllocGone(0));
    } else {
      r, s := OrphanNlb(e);
    }
    r, s := LastSteps(e, r, s);
  }

  /** A removed pool finalizer means nothing is left, over all runs, if and only if all three guarantees are granted. */
  lemma NothingLeftBehindIff(e: Grants)
    ensures (forall r :: Legal(e, r) ==> Clean(End(e, r))) <==> e.idsSettled && e.listsSucceed && e.groupsRecorded
  {
    if e == RELIABLE {
      forall r | Legal(e, r) ensures Clean(End(e, r)) {
        NothingLeftBehind(r);
      }
    } else {
      var r := CleanFails(e);
      assert Legal(e, r) && !Clean(End(e, r));
    }
  }
}
