/**
 Deletion of a pool as a transition system over the pool controller, the PA finalizers, the NLB operator
 and the cloud: first the NLB CRs go, then the cloud NLBs with their listeners, then the PAs with their
 ServerGroups.  Each API call is one step; the pool worker may stop after any of them and start over.
 */
module DeletionModel {
  import opened Options

  type CrName = nat
  type PaId = nat
  type NlbId = nat
  type GroupId = nat
  type ListenerId = nat
  type ChildName = nat

  /** An NLB CR: status.loadBalancerId, and whether its deletion was requested. */
  datatype NlbCR = NlbCR(id: Option<NlbId>, deleting: bool)

  /** A PA with the ServerGroups and listeners its status tracks. */
  datatype Alloc = Alloc(deleting: bool, listeners: seq<ListenerId>, groups: seq<GroupId>)

  /** The other child CRs: Listener and ServerGroup CRs of older versions, and EIPs; mine: controlled by the pool. */
  datatype Kind = ListenerCR | GroupCR | EipCR

  datatype Child = Child(kind: Kind, mine: bool, deleting: bool)

  datatype Listener = Listener(nlb: NlbId, group: GroupId)

  /** Where the pool worker is inside a deletion reconcile, with the lists it read. */
  datatype Pc =
    | Idle
    | Sweeping(kind: Kind, todo: set<ChildName>)
    | Listed(crs: map<CrName, NlbCR>)
    | Removing(crs: map<CrName, NlbCR>, todo: set<CrName>)
    | Checking(todo: set<NlbId>)
    | Cleared
    | Purging(todo: set<PaId>)
    | Verifying
    | Verified

  datatype State = State(
    deleting: bool,
    finalizer: bool,
    recorded: set<NlbId>,
    collected: bool,
    crs: map<CrName, NlbCR>,
    children: map<ChildName, Child>,
    allocs: map<PaId, Alloc>,
    nlbs: set<NlbId>,
    listeners: map<ListenerId, Listener>,
    groups: set<GroupId>,
    usedNlbs: set<NlbId>,
    usedGroups: set<GroupId>,
    pc: Pc)

  const INIT := State(false, true, {}, false, map[], map[], map[], {}, map[], {}, {}, {}, Idle)

  /**
   What the environment grants.
    - idsSettled: no NLB CR receives a LoadBalancerId once the pool controller has collected the IDs
    - listsSucceed: the Lists that look for remaining children succeed (their errors read as "none left")
    - groupsRecorded: a created ServerGroup is recorded in its PA before the PA goes away
   */
  datatype Grants = Grants(idsSettled: bool, listsSucceed: bool, groupsRecorded: bool)

  const RELIABLE := Grants(true, true, true)

  datatype Step =
    // the pool while it is live, the NLB operator, the cloud, the PA workers
    | CreateCR(n: CrName)
    | CreateChild(c: ChildName, kind: Kind, mine: bool)
    | CreateAlloc(a: PaId)
    | DeletePool
    | AssignId(n: CrName, id: NlbId)
    | CloudNlbGone(id: NlbId)
    | CRGone(n: CrName)
    | ChildGone(c: ChildName)
    | CreateGroup(a: PaId, g: GroupId, recorded: bool)
    | CreateListener(a: PaId, l: ListenerId, nlb: NlbId, g: GroupId, recorded: bool)
    // the finalizer of a PA
    | ListenerConfirmedGone(a: PaId)
    | DeleteGroup(a: PaId)
    | AllocGone(a: PaId)
    // the pool worker
    | Stop
    | ListChildren
    | DeleteChild(c: ChildName)
    | ListCRs
    | Persist
    | DeleteCR(n: CrName)
    | StartChecking
    | CheckGone(id: NlbId)
    | ClearRecord(stored: bool)
    | ListAllocs
    | DeleteAlloc(a: PaId)
    | CheckAllocs
    | CheckChildren
    | RemoveFinalizer

  /** A call by the pool worker, as opposed to a step of the rest of the system. */
  predicate ByPool(st: Step) {
    || st.Stop? || st.ListChildren? || st.DeleteChild? || st.ListCRs? || st.Persist? || st.DeleteCR?
    || st.StartChecking? || st.CheckGone? || st.ClearRecord? || st.ListAllocs? || st.DeleteAlloc? || st.CheckAllocs?
    || st.CheckChildren? || st.RemoveFinalizer?
  }

  /** The children of one kind that a reconcile still has to delete; EIPs of another owner are left alone. */
  function Sweepable(s: State, kind: Kind): set<ChildName> {
    set c | c in s.children && s.children[c].kind == kind && !s.children[c].deleting
            && (kind.EipCR? ==> s.children[c].mine)
  }

  /** The kind that is swept after the current position. */
  function NextKind(pc: Pc): Kind {
    if pc.Sweeping? && pc.kind.ListenerCR? then GroupCR else if pc.Sweeping? then EipCR else ListenerCR
  }

  /** The IDs found in a list of NLB CRs. */
  function IdsOf(crs: map<CrName, NlbCR>): set<NlbId> {
    set n | n in crs && crs[n].id.Some? :: crs[n].id.value
  }

  /** A listener in the cloud still forwards to ServerGroup g, so that deleting g answers ResourceInUse. */
  predicate InUse(s: State, g: GroupId) {
    exists l :: l in s.listeners && s.listeners[l].group == g
  }

  predicate Enabled(e: Grants, s: State, st: Step) {
    match st
    case CreateCR(n) => !s.deleting && n !in s.crs
    case CreateChild(c, _, _) => !s.deleting && c !in s.children
    case CreateAlloc(a) => !s.deleting && a !in s.allocs
    case DeletePool => !s.deleting
    case AssignId(n, id) =>
      n in s.crs && s.crs[n].id.None? && id !in s.usedNlbs && (s.collected ==> !e.idsSettled)
    case CloudNlbGone(id) => id in s.nlbs
    case CRGone(n) => n in s.crs && s.crs[n].deleting
    case ChildGone(c) => c in s.children && s.children[c].deleting
    case CreateGroup(a, g, recorded) => a in s.allocs && g !in s.usedGroups && (recorded || !e.groupsRecorded)
    case CreateListener(a, l, nlb, g, _) =>
      a in s.allocs && l !in s.listeners && nlb in s.nlbs && g in s.groups && g in s.allocs[a].groups
    case ListenerConfirmedGone(a) =>
      && a in s.allocs && s.allocs[a].deleting && s.allocs[a].listeners != []
      && s.allocs[a].listeners[0] !in s.listeners
    case DeleteGroup(a) =>
      a in s.allocs && s.allocs[a].deleting && s.allocs[a].listeners == [] && s.allocs[a].groups != []
    case AllocGone(a) =>
      a in s.allocs && s.allocs[a].deleting && s.allocs[a].listeners == [] && s.allocs[a].groups == []
    case Stop => true
    case ListChildren =>
      s.deleting && s.finalizer && (s.pc.Idle? || (s.pc.Sweeping? && s.pc.todo == {} && !s.pc.kind.EipCR?))
    case DeleteChild(c) => s.pc.Sweeping? && c in s.pc.todo
    case ListCRs => s.deleting && s.finalizer && s.pc == Sweeping(EipCR, {})
    case Persist => s.pc.Listed?
    case DeleteCR(n) => s.pc.Removing? && n in s.pc.todo
    case StartChecking => s.pc.Removing? && s.pc.todo == {}
    case CheckGone(id) => s.pc.Checking? && id in s.pc.todo && id !in s.nlbs
    case ClearRecord(_) => s.pc.Checking? && s.pc.todo == {}
    case ListAllocs => s.pc.Cleared?
    case DeleteAlloc(a) => s.pc.Purging? && a in s.pc.todo
    case CheckAllocs => s.pc.Purging? && s.pc.todo == {} && (s.allocs == map[] || !e.listsSucceed)
    case CheckChildren =>
      s.pc.Verifying? && (!e.listsSucceed || (s.allocs == map[] && s.crs == map[] && s.children == map[]))
    case RemoveFinalizer => s.pc.Verified?
  }

  function Apply(e: Grants, s: State, st: Step): State
    requires Enabled(e, s, st)
  {
    match st
    case CreateCR(n) => s.(crs := s.crs[n := NlbCR(None, false)])
    case CreateChild(c, kind, mine) => s.(children := s.children[c := Child(kind, mine, false)])
    case CreateAlloc(a) => s.(allocs := s.allocs[a := Alloc(false, [], [])])
    case DeletePool => s.(deleting := true)
    case AssignId(n, id) =>
      s.(crs := s.crs[n := s.crs[n].(id := Some(id))], nlbs := s.nlbs + {id}, usedNlbs := s.usedNlbs + {id})
    case CloudNlbGone(id) =>
      // the cloud removes the listeners of an NLB together with it
      s.(nlbs := s.nlbs - {id}, listeners := map l | l in s.listeners && s.listeners[l].nlb != id :: s.listeners[l])
    case CRGone(n) => s.(crs := s.crs - {n})
    case ChildGone(c) => s.(children := s.children - {c})
    case CreateGroup(a, g, recorded) =>
      var x := s.allocs[a];
      s.(groups := s.groups + {g}, usedGroups := s.usedGroups + {g},
         allocs := if recorded then s.allocs[a := x.(groups := x.groups + [g])] else s.allocs)
    case CreateListener(a, l, nlb, g, recorded) =>
      var x := s.allocs[a];
      s.(listeners := s.listeners[l := Listener(nlb, g)],
         allocs := if recorded then s.allocs[a := x.(listeners := x.listeners + [l])] else s.allocs)
    case ListenerConfirmedGone(a) =>
      s.(allocs := s.allocs[a := s.allocs[a].(listeners := s.allocs[a].listeners[1..])])
    case DeleteGroup(a) =>
      var x := s.allocs[a];
      if InUse(s, x.groups[0]) then s
      else s.(groups := s.groups - {x.groups[0]}, allocs := s.allocs[a := x.(groups := x.groups[1..])])
    case AllocGone(a) => s.(allocs := s.allocs - {a})
    case Stop => s.(pc := Idle)
    case ListChildren => s.(pc := Sweeping(NextKind(s.pc), Sweepable(s, NextKind(s.pc))))
    case DeleteChild(c) =>
      s.(children := if c in s.children then s.children[c := s.children[c].(deleting := true)] else s.children,
         pc := Sweeping(s.pc.kind, s.pc.todo - {c}))
    case ListCRs => s.(collected := true, pc := Listed(s.crs))
    case Persist =>
      // the IDs are collected only while none are recorded, and written before any CR is deleted
      s.(recorded := if s.recorded == {} then IdsOf(s.pc.crs) else s.recorded,
         pc := Removing(s.pc.crs, set n | n in s.pc.crs && !s.pc.crs[n].deleting))
    case DeleteCR(n) =>
      s.(crs := if n in s.crs then s.crs[n := s.crs[n].(deleting := true)] else s.crs,
         pc := Removing(s.pc.crs, s.pc.todo - {n}))
    case StartChecking => s.(pc := Checking(s.recorded))
    case CheckGone(id) => s.(pc := Checking(s.pc.todo - {id}))
    case ClearRecord(stored) => s.(recorded := if stored then {} else s.recorded, pc := Cleared)
    case ListAllocs => s.(pc := Purging(set a | a in s.allocs && !s.allocs[a].deleting))
    case DeleteAlloc(a) =>
      s.(allocs := if a in s.allocs then s.allocs[a := s.allocs[a].(deleting := true)] else s.allocs,
         pc := Purging(s.pc.todo - {a}))
    case CheckAllocs => s.(pc := Verifying)
    case CheckChildren => s.(pc := Verified)
    case RemoveFinalizer => s.(finalizer := false, pc := Idle)
  }

  datatype Run = Begin | Then(before: Run, step: Step)

  predicate Legal(e: Grants, r: Run)
    decreases r, 0
  {
    r.Then? ==> Legal(e, r.before) && Enabled(e, End(e, r.before), r.step)
  }

  function End(e: Grants, r: Run): State
    requires Legal(e, r)
    decreases r, 1
  {
    match r
    case Begin => INIT
    case Then(before, step) => Apply(e, End(e, before), step)
  }
}
