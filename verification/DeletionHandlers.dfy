/** The deletion branch of the pool controller's Reconcile as imperative code over the deletion model.  Nobody else
 acts and every call succeeds in a reconcile that is calm. */
module DeletionHandlers {
  import opened Options
  import opened DeletionModel
  import opened DeletionSafety

  lemma OthersKeepWorker(s: State, st: Step)
    requires Enabled(RELIABLE, s, st) && !ByPool(st)
    ensures var s' := Apply(RELIABLE, s, st);
      s'.pc == s.pc && s'.recorded == s.recorded && s'.finalizer == s.finalizer && (s.deleting ==> s'.deleting)
  {
  }

  predicate AllDeleting(s: State) {
    forall n :: n in s.crs ==> s.crs[n].deleting
  }

  predicate SameCloud(s: State, s': State) {
    s'.nlbs == s.nlbs && s'.listeners == s.listeners && s'.groups == s.groups
  }

  /** Exactly the given children were marked for deletion. */
  predicate Marked(children: map<ChildName, Child>, children': map<ChildName, Child>, names: set<ChildName>) {
    && children'.Keys == children.Keys
    && forall c :: c in children ==>
         children'[c] == children[c].(deleting := children[c].deleting || c in names)
  }

  /** Every other child CR is being deleted, except EIPs that another owner controls: those stay as they are. */
  predicate ChildrenSwept(s: State, s': State) {
    && s'.children.Keys == s.children.Keys
    && forall c :: c in s.children ==>
         if s.children[c].kind.EipCR? && !s.children[c].mine then s'.children[c] == s.children[c]
         else s'.children[c] == s.children[c].(deleting := true)
  }

  /** How far a calm deletion reconcile gets. */
  predicate Advanced(s: State, s': State) {
    && AllDeleting(s') && s'.crs.Keys == s.crs.Keys && s'.allocs.Keys == s.allocs.Keys
    && (s.nlbs == {} ==> forall a :: a in s'.allocs ==> s'.allocs[a].deleting)
    && ChildrenSwept(s, s')
    && (s.nlbs == {} && s.crs == map[] && s.allocs == map[] && s.children == map[] ==> !s'.finalizer)
  }

  class PoolController {
    var st: State
    ghost var history: Run

    /** The current state is the end of a legal run. */
    ghost predicate Valid()
      reads this
    {
      Legal(RELIABLE, history) && End(RELIABLE, history) == st
    }

    constructor ()
      ensures Valid() && st == INIT
    {
      st := INIT;
      history := Begin;
    }

    method Take(step: Step)
      requires Valid() && Enabled(RELIABLE, st, step)
      modifies this
      ensures Valid() && st == Apply(RELIABLE, old(st), step)
    {
      history := Then(history, step);
      st := Apply(RELIABLE, st, step);
    }

    /** The reconcile ends here. */
    method Halt()
      requires Valid()
      modifies this
      ensures Valid() && st == old(st).(pc := Idle)
    {
      Take(Stop);
    }

    /** Everybody else: the NLB operator, the cloud, the PA workers and finalizers. */
    method Interfere(calm: bool)
      requires Valid() && st.deleting
      modifies this
      ensures Valid() && st.deleting && st.pc == old(st.pc) && st.recorded == old(st.recorded)
      ensures st.finalizer == old(st.finalizer) && (calm ==> st == old(st))
    {
      if calm {
        return;
      }
      var steps: seq<Step> := *;
      for n := 0 to |steps|
        invariant Valid() && st.deleting && st.pc == old(st.pc) && st.recorded == old(st.recorded)
        invariant st.finalizer == old(st.finalizer)
      {
        if !ByPool(steps[n]) && Enabled(RELIABLE, st, steps[n]) {
          OthersKeepWorker(st, steps[n]);
          Take(steps[n]);
        }
      }
    }

    /**
     deleteInfrastructure: the other child CRs kind by kind, then the NLB CRs, whose cloud IDs are persisted before any
     deletion is requested.
     */
    method DeleteInfrastructure(calm: bool) returns (ok: bool)
      requires Valid() && st.deleting && st.finalizer && st.pc.Idle?
      modifies this
      ensures Valid() && st.deleting && st.finalizer
      ensures if ok then st.pc.Removing? && st.pc.todo == {} && st.nlbs <= st.recorded else st.pc.Idle?
      ensures calm ==> ok && AllDeleting(st) && SameCloud(old(st), st) && st.allocs == old(st.allocs)
      ensures calm ==> st.crs.Keys == old(st.crs.Keys) && ChildrenSwept(old(st), st)
    {
      ok := SweepChildren(calm);
      if !ok {
        return;
      }
      ok := DeleteNlbs(calm);
    }

    /** The Listener CRs, the ServerGroup CRs and the EIPs of the pool. */
    method SweepChildren(calm: bool) returns (ok: bool)
      requires Valid() && st.deleting && st.finalizer && st.pc.Idle?
      modifies this
      ensures Valid() && st.deleting && st.finalizer
      ensures if ok then st.pc == Sweeping(EipCR, {}) else st.pc.Idle?
      ensures calm ==> ok && st == old(st).(pc := st.pc, children := st.children) && ChildrenSwept(old(st), st)
    {
      ok := SweepKind(calm);
      if ok {
        ok := SweepKind(calm);
        if ok {
          ok := SweepKind(calm);
        }
      }
    }

    /** One List and the deletions of the next kind of children. */
    method SweepKind(calm: bool) returns (ok: bool)
      requires Valid() && st.deleting && st.finalizer
      requires st.pc.Idle? || st.pc == Sweeping(ListenerCR, {}) || st.pc == Sweeping(GroupCR, {})
      modifies this
      ensures Valid() && st.deleting && st.finalizer
      ensures if ok then st.pc == Sweeping(NextKind(old(st.pc)), {}) else st.pc.Idle?
      ensures calm ==> ok && st == old(st).(pc := st.pc, children := st.children)
      ensures calm ==> st.children.Keys == old(st).children.Keys && forall c :: c in st.children ==>
        var x := old(st).children[c];
        st.children[c] ==
          if x.kind == NextKind(old(st.pc)) && (x.kind.EipCR? ==> x.mine) then x.(deleting := true) else x
    {
      Interfere(calm);
      var accepted: bool := *;
      if !accepted && !calm {
        Halt();
        return false;
      }
      Take(ListChildren);
      ok := DeleteChildren(calm);
    }

    /** Deletes the listed children, one call each. */
    method DeleteChildren(calm: bool) returns (ok: bool)
      requires Valid() && st.deleting && st.finalizer && st.pc.Sweeping?
      modifies this
      ensures Valid() && st.deleting && st.finalizer
      ensures if ok then st.pc == Sweeping(old(st.pc.kind), {}) else st.pc.Idle?
      ensures calm ==> ok && st == old(st).(pc := st.pc, children := st.children)
      ensures calm ==> Marked(old(st).children, st.children, old(st.pc.todo))
    {
      while st.pc.todo != {}
        invariant Valid() && st.deleting && st.finalizer && st.pc.Sweeping? && st.pc.kind == old(st.pc.kind)
        invariant calm ==> st == old(st).(pc := st.pc, children := st.children) && st.pc.todo <= old(st.pc.todo)
        invariant calm ==> Marked(old(st).children, st.children, old(st.pc.todo) - st.pc.todo)
        decreases st.pc.todo
      {
        var c :| c in st.pc.todo;
        Interfere(calm);
        var accepted: bool := *;
        if !accepted && !calm {
          Halt();
          return false;
        }
        DropChild(c);
      }
      return true;
    }

    /** One accepted Delete of a child CR; a child that is gone is fine. */
    method DropChild(c: ChildName)
      requires Valid() && st.pc.Sweeping? && c in st.pc.todo
      modifies this
      ensures Valid() && st == old(st).(children := st.children, pc := Sweeping(old(st.pc.kind), old(st.pc.todo) - {c}))
      ensures Marked(old(st).children, st.children, {c})
    {
      Take(DeleteChild(c));
    }

    /** The NLB CRs: persist the cloud IDs, then request every deletion. */
    method DeleteNlbs(calm: bool) returns (ok: bool)
      requires Valid() && st.deleting && st.finalizer && st.pc == Sweeping(EipCR, {})
      modifies this
      ensures Valid() && st.deleting && st.finalizer
      ensures if ok then st.pc.Removing? && st.pc.todo == {} && st.nlbs <= st.recorded else st.pc.Idle?
      ensures calm ==> ok && AllDeleting(st) && SameCloud(old(st), st) && st.allocs == old(st.allocs)
      ensures calm ==> st.crs.Keys == old(st.crs.Keys) && st.children == old(st.children)
    {
      Interfere(calm);
      var accepted: bool := *;
      if !accepted && !calm {
        Halt();
        return false;
      }
      Take(ListCRs);
      Interfere(calm);
      accepted := *;
      if st.recorded == {} && IdsOf(st.pc.crs) != {} && !accepted && !calm {
        // the status write that records the IDs was refused: nothing is deleted
        Halt();
        return false;
      }
      Take(Persist);
      ok := DeleteCRs(calm);
      if ok {
        RecordIsComplete();
      }
    }

    lemma RecordIsComplete()
      requires Valid() && st.pc.Removing?
      ensures st.nlbs <= st.recorded
    {
      RunsAreSafe(RELIABLE, history);
    }

    /** Deletes the listed NLB CRs, one call each. */
    method DeleteCRs(calm: bool) returns (ok: bool)
      requires Valid() && st.deleting && st.finalizer && st.pc.Removing?
      modifies this
      ensures Valid() && st.deleting && st.finalizer
      ensures if ok then st.pc.Removing? && st.pc.todo == {} else st.pc.Idle?
      ensures calm ==> ok && SameCloud(old(st), st) && st.allocs == old(st.allocs) && st.crs.Keys == old(st.crs.Keys)
      ensures calm ==> st.children == old(st.children)
      ensures calm ==> forall n :: n in st.crs ==>
        st.crs[n].deleting == (old(st.crs)[n].deleting || n in old(st.pc.todo))
    {
      while st.pc.todo != {}
        invariant Valid() && st.deleting && st.finalizer && st.pc.Removing?
        invariant calm ==> st.crs.Keys == old(st.crs.Keys) && SameCloud(old(st), st) && st.allocs == old(st.allocs)
        invariant calm ==> st.children == old(st.children)
        invariant calm ==> st.pc.todo <= old(st.pc.todo) && forall n :: n in st.crs ==>
          st.crs[n].deleting == (old(st.crs)[n].deleting || n in old(st.pc.todo) - st.pc.todo)
        decreases st.pc.todo
      {
        var n :| n in st.pc.todo;
        Interfere(calm);
        var accepted: bool := *;
        if !accepted && !calm {
          Halt();
          return false;
        }
        Take(DeleteCR(n));
      }
      return true;
    }

    /** hasCloudNLBs: any answer but "gone" for any recorded ID counts as still there. */
    method HasCloudNLBs(calm: bool) returns (remain: bool)
      requires Valid() && st.deleting && st.finalizer && st.pc.Removing? && st.pc.todo == {}
      modifies this
      ensures Valid() && st.deleting && st.finalizer
      ensures if remain then st.pc.Idle? else st.pc.Cleared? && st.nlbs == {} && st.listeners == map[]
      ensures calm ==> st == old(st).(pc := st.pc, recorded := st.recorded) && (remain ==> st.nlbs != {})
      ensures calm && !remain ==> st.recorded == {}
    {
      Take(StartChecking);
      remain := CheckNlbs(calm);
      if !remain {
        ForgetNlbs(calm);
      }
    }

    /** Asks the cloud for every recorded NLB. */
    method CheckNlbs(calm: bool) returns (remain: bool)
      requires Valid() && st.deleting && st.finalizer && st.pc.Checking?
      modifies this
      ensures Valid() && st.deleting && st.finalizer
      ensures if remain then st.pc.Idle? else st.pc == Checking({})
      ensures calm ==> st == old(st).(pc := st.pc) && (remain ==> st.nlbs != {})
    {
      while st.pc.todo != {}
        invariant Valid() && st.deleting && st.finalizer && st.pc.Checking?
        invariant calm ==> st == old(st).(pc := st.pc)
        decreases st.pc.todo
      {
        var id :| id in st.pc.todo;
        Interfere(calm);
        var answered: bool := *;
        if (!answered && !calm) || id in st.nlbs {
          Halt();
          return true;
        }
        Take(CheckGone(id));
      }
      return false;
    }

    /** Clears the record; the status write may be refused. */
    method ForgetNlbs(calm: bool)
      requires Valid() && st.deleting && st.finalizer && st.pc == Checking({})
      modifies this
      ensures Valid() && st.deleting && st.finalizer && st.pc.Cleared? && st.nlbs == {} && st.listeners == map[]
      ensures calm ==> st == old(st).(pc := st.pc, recorded := {})
    {
      Interfere(calm);
      var stored: bool := *;
      Take(ClearRecord(stored || calm));
      NlbsAreGone();
    }

    lemma NlbsAreGone()
      requires Valid() && st.pc.Cleared?
      ensures st.nlbs == {} && st.listeners == map[]
    {
      RunsAreSafe(RELIABLE, history);
    }

    /** deletePortAllocations, reached only after the cloud NLBs are gone. */
    method DeletePortAllocations(calm: bool) returns (ok: bool)
      requires Valid() && st.deleting && st.finalizer && st.pc.Cleared?
      modifies this
      ensures Valid() && st.deleting && st.finalizer
      ensures if ok then st.pc.Purging? && st.pc.todo == {} else st.pc.Idle?
      ensures calm ==> ok && st == old(st).(pc := st.pc, allocs := st.allocs) && st.allocs.Keys == old(st.allocs.Keys)
      ensures calm ==> forall a :: a in st.allocs ==> st.allocs[a].deleting
    {
      Interfere(calm);
      var accepted: bool := *;
      if !accepted && !calm {
        Halt();
        return false;
      }
      Take(ListAllocs);
      ok := DeleteAllocs(calm);
    }

    /** One accepted Delete of a PA; a PA that is gone is fine. */
    method DropAlloc(a: PaId)
      requires Valid() && st.pc.Purging? && a in st.pc.todo
      modifies this
      ensures Valid() && st == old(st).(allocs := st.allocs, pc := Purging(old(st.pc.todo) - {a}))
      ensures st.allocs.Keys == old(st.allocs.Keys) && forall b :: b in st.allocs ==>
        st.allocs[b] == old(st.allocs[b]).(deleting := old(st.allocs[b]).deleting || b == a)
    {
      Take(DeleteAlloc(a));
    }

    /** Deletes the listed PAs, one call each. */
    method DeleteAllocs(calm: bool) returns (ok: bool)
      requires Valid() && st.deleting && st.finalizer && st.pc.Purging?
      modifies this
      ensures Valid() && st.deleting && st.finalizer
      ensures if ok then st.pc.Purging? && st.pc.todo == {} else st.pc.Idle?
      ensures calm ==> ok && st == old(st).(pc := st.pc, allocs := st.allocs) && st.allocs.Keys == old(st.allocs.Keys)
      ensures calm ==> forall a :: a in st.allocs ==>
        st.allocs[a].deleting == (old(st.allocs)[a].deleting || a in old(st.pc.todo))
    {
      while st.pc.todo != {}
        invariant Valid() && st.deleting && st.finalizer && st.pc.Purging?
        invariant calm ==> st == old(st).(pc := st.pc, allocs := st.allocs) && st.allocs.Keys == old(st.allocs.Keys)
        invariant calm ==> st.pc.todo <= old(st.pc.todo) && forall a :: a in st.allocs ==>
          st.allocs[a].deleting == (old(st.allocs)[a].deleting || a in old(st.pc.todo) - st.pc.todo)
        decreases st.pc.todo
      {
        var a :| a in st.pc.todo;
        Interfere(calm);
        var accepted: bool := *;
        if !accepted && !calm {
          Halt();
          return false;
        }
        DropAlloc(a);
      }
      return true;
    }

    /**
     One deletion reconcile.  It removes the pool's finalizer only when nothing of the pool is left, and on every
     way out a PA is marked for deletion only if no listener of the pool exists any more.  A calm one deletes every NLB
     and other child CR, every PA once the cloud NLBs are gone, and finishes once those are gone too.
     */
    method ReconcileDeletion(calm: bool) returns (done: bool)
      requires Valid() && st.deleting && st.finalizer && st.pc.Idle?
      modifies this
      ensures Valid() && st.pc.Idle? && done == !st.finalizer
      ensures CascadeDone(st)
      ensures done ==>
        && st.children == map[] && st.crs == map[] && st.allocs == map[]
        && st.nlbs == {} && st.listeners == map[] && st.groups == {}
      ensures calm ==> Advanced(old(st), st)
    {
      done := Phases(calm);
      CascadeOrder(RELIABLE, history);
      NothingLeftBehind(history);
    }

    /** The three phases in order, each entered only when the one before is complete. */
    method Phases(calm: bool) returns (done: bool)
      requires Valid() && st.deleting && st.finalizer && st.pc.Idle?
      modifies this
      ensures Valid() && st.pc.Idle? && done == !st.finalizer
      ensures calm ==> Advanced(old(st), st)
    {
      var ok := DeleteInfrastructure(calm);
      if !ok {
        return false;
      }
      var remain := HasCloudNLBs(calm);
      if remain {
        return false;
      }
      ok := DeletePortAllocations(calm);
      if !ok {
        return false;
      }
      done := Finish(calm);
    }

    /** The two checks for remaining children, and the removal of the finalizer. */
    method Finish(calm: bool) returns (done: bool)
      requires Valid() && st.deleting && st.finalizer && st.pc.Purging? && st.pc.todo == {}
      modifies this
      ensures Valid() && st.pc.Idle? && done == !st.finalizer
      ensures calm ==> st == old(st).(pc := Idle, finalizer := st.finalizer)
      ensures calm ==> (done <==> st.crs == map[] && st.allocs == map[] && st.children == map[])
    {
      Interfere(calm);
      if st.allocs != map[] {
        Halt();
        return false;
      }
      Take(CheckAllocs);
      Interfere(calm);
      if st.allocs != map[] || st.crs != map[] || st.children != map[] {
        Halt();
        return false;
      }
      Take(CheckChildren);
      Interfere(calm);
      var accepted: bool := *;
      if !accepted && !calm {
        Halt();
        return false;
      }
      Take(RemoveFinalizer);
      return true;
    }
  }
}
