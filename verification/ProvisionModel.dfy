/**
 Provisioning of port allocations (PAs) against the cloud, as a transition system.  Every API call is one step, so the
 answer of a create call can be lost before its ID is recorded; the next reconcile then repeats the call with the same
 client token.  Listeners may vanish from the cloud at any time.
 */
module ProvisionModel {
  import opened Options
  import opened PortPlan

  type GroupId = nat
  type ListenerId = nat

  datatype Config = Config(plan: Plan, lanes: nat) {
    predicate Valid() {
      plan.Valid() && lanes > 0
    }

    /** The number of listeners of a PA. */
    function Cells(): nat {
      plan.P * lanes
    }
  }

  /** Where a listener listens: the NLB of a lane and a group, and a port. */
  datatype Place = Place(lane: nat, group: nat, port: nat)

  /** The place planned for entry i of the listener array of a slot. */
  function PlaceOf(c: Config, s: nat, i: nat): Place
    requires c.Valid()
  {
    Place(i % c.lanes, GroupOf(c.plan, s), PortOf(c.plan, s, i / c.lanes))
  }

  datatype SgPhase = SgPending | SgCreating | SgActive
  datatype ServerGroup = ServerGroup(id: Option<GroupId>, phase: SgPhase)

  datatype LsnPhase = LsnPending | LsnCreating | LsnRunning
  datatype LsnRecord = LsnRecord(id: Option<ListenerId>, phase: LsnPhase)

  /** spec.serverGroups and the listener IDs of spec.endpoints, in the order of the status arrays. */
  datatype Spec = Spec(groups: seq<Option<GroupId>>, listeners: seq<Option<ListenerId>>)

  /** Where the worker of a PA is inside handleProvisioning. */
  datatype Pc =
    | Idle
    | GotGroup(p: nat, group: GroupId)
    | GotListener(i: nat, listener: ListenerId)
    | Blocked(i: nat)
    | SawGroup(p: nat)
    | SawListener(i: nat)
    | Missing(i: nat)
    | Absent(i: nat)
    | Filled

  /** A PA; before its arrays are initialised sgs is empty. */
  datatype Pa = Pa(sgs: seq<ServerGroup>, lsns: seq<LsnRecord>, spec: Option<Spec>, available: bool, pc: Pc)

  const NEW := Pa([], [], None, false, Idle)

  // Client tokens; the hash of the PA's UID and the token's parts counts as injective.
  datatype SgToken = SgToken(slot: nat, p: nat)
  datatype LsnToken = LsnToken(slot: nat, again: bool, i: nat)

  /** A listener the cloud has created, and for which PA and entry. */
  datatype Listener = Listener(place: Place, group: Option<GroupId>, slot: nat, i: nat)

  /**
   groups and listeners hold everything ever created, live the listeners that still exist, and the two token maps
   what the cloud answers when a token comes again.
   */
  datatype State = State(
    pas: map<nat, Pa>,
    ready: set<(nat, nat)>,
    addressed: set<(nat, nat)>,
    groups: map<GroupId, SgToken>,
    sgTokens: map<SgToken, GroupId>,
    listeners: map<ListenerId, Listener>,
    live: set<ListenerId>,
    lsnTokens: map<LsnToken, ListenerId>)

  const INIT := State(map[], {}, {}, map[], map[], map[], {}, map[])

  datatype Work =
    | Init
    | CreateGroup(p: nat, group: GroupId)
    | RecordGroup
    | SeeGroup(p: nat)
    | ActivateGroup
    | CreateListener(i: nat, listener: ListenerId)
    | ConflictPort(i: nat)
    | FindByPort(found: Option<ListenerId>)
    | RecordListener
    | SeeListener(i: nat)
    | RunListener
    | MissListener(i: nat)
    | ForgetListener(i: nat)
    | FillSpec
    | Promote
    | Drop

  datatype Op =
    | NewPa(slot: nat)
    | NlbReady(lane: nat, group: nat)
    | NlbAddressed(lane: nat, group: nat)
    | Vanish(listener: ListenerId)
    | Do(slot: nat, work: Work)

  predicate AllActive(pa: Pa) {
    forall p :: 0 <= p < |pa.sgs| ==> pa.sgs[p].phase.SgActive?
  }

  predicate AllRunning(pa: Pa) {
    forall i :: 0 <= i < |pa.lsns| ==> pa.lsns[i].phase.LsnRunning?
  }

  predicate AnyRunning(pa: Pa) {
    exists i :: 0 <= i < |pa.lsns| && pa.lsns[i].phase.LsnRunning?
  }

  predicate Complete(pa: Pa) {
    pa.sgs != [] && AllActive(pa) && AllRunning(pa)
  }

  function SpecOf(pa: Pa): Spec {
    Spec(seq(|pa.sgs|, p requires 0 <= p < |pa.sgs| => pa.sgs[p].id),
         seq(|pa.lsns|, i requires 0 <= i < |pa.lsns| => pa.lsns[i].id))
  }

  predicate LiveAt(st: State, x: ListenerId, at: Place) {
    x in st.live && x in st.listeners && st.listeners[x].place == at
  }

  predicate NoneLive(st: State, at: Place) {
    forall x :: x in st.live ==> !LiveAt(st, x, at)
  }

  function GroupIn(pa: Pa, p: nat): Option<GroupId> {
    if p < |pa.sgs| then pa.sgs[p].id else None
  }

  /** The token of a create call for entry i: a re-creation, or a PA that already has a running listener. */
  function TokenFor(s: nat, pa: Pa, i: nat): LsnToken {
    LsnToken(s, pa.pc == Absent(i) || AnyRunning(pa), i)
  }

  /** What the cloud may answer to a create call: the listener of a known token, else a new one. */
  predicate Answers(c: Config, st: State, s: nat, i: nat, x: ListenerId)
    requires c.Valid() && s in st.pas
  {
    var t := TokenFor(s, st.pas[s], i);
    if t in st.lsnTokens then x == st.lsnTokens[t]
    else x !in st.listeners && x !in st.live && NoneLive(st, PlaceOf(c, s, i))
  }

  /** The NLB of every lane of the slot has its address. */
  predicate Addressed(c: Config, st: State, s: nat)
    requires c.Valid()
  {
    forall l :: 0 <= l < c.lanes ==> (l, GroupOf(c.plan, s)) in st.addressed
  }

  predicate CanCreate(c: Config, st: State, s: nat, i: nat)
    requires c.Valid() && s in st.pas
  {
    var pa := st.pas[s];
    && AllActive(pa) && i < |pa.lsns| && (i % c.lanes, GroupOf(c.plan, s)) in st.ready
    && ((pa.pc.Idle? && pa.lsns[i] == LsnRecord(None, LsnPending)) || pa.pc == Absent(i))
  }

  predicate WorkEnabled(c: Config, st: State, s: nat, w: Work)
    requires c.Valid() && s in st.pas
  {
    var pa := st.pas[s];
    && !pa.available
    && match w
       case Init => pa.sgs == []
       case CreateGroup(p, g) =>
         && pa.pc.Idle? && p < |pa.sgs| && pa.sgs[p] == ServerGroup(None, SgPending)
         && (if SgToken(s, p) in st.sgTokens then g == st.sgTokens[SgToken(s, p)] else g !in st.groups)
       case RecordGroup => pa.pc.GotGroup? && pa.pc.p < |pa.sgs|
       case SeeGroup(p) => pa.pc.Idle? && p < |pa.sgs| && pa.sgs[p].phase.SgCreating?
       case ActivateGroup => pa.pc.SawGroup? && pa.pc.p < |pa.sgs|
       case CreateListener(i, x) => CanCreate(c, st, s, i) && Answers(c, st, s, i, x)
       case ConflictPort(i) => pa.pc.Idle? && CanCreate(c, st, s, i) && !NoneLive(st, PlaceOf(c, s, i))
       case FindByPort(found) =>
         && (pa.pc.Blocked? || pa.pc.Missing?)
         && (found.Some? ==> LiveAt(st, found.value, PlaceOf(c, s, pa.pc.i)))
       case RecordListener => pa.pc.GotListener? && pa.pc.i < |pa.lsns|
       case SeeListener(i) =>
         && pa.pc.Idle? && AllActive(pa) && i < |pa.lsns| && pa.lsns[i].phase.LsnCreating?
         && pa.lsns[i].id.Some? && pa.lsns[i].id.value in st.live
       case RunListener => pa.pc.SawListener? && pa.pc.i < |pa.lsns|
       case MissListener(i) => pa.pc.Idle? && AllActive(pa) && i < |pa.lsns| && pa.lsns[i].phase.LsnCreating?
       case ForgetListener(i) => pa.pc.Idle? && AllActive(pa) && i < |pa.lsns| && pa.lsns[i].phase.LsnCreating?
       case FillSpec => pa.pc.Idle? && Complete(pa) && Addressed(c, st, s)
       case Promote => pa.pc.Filled?
       case Drop => true
  }

  predicate Enabled(c: Config, st: State, op: Op)
    requires c.Valid()
  {
    match op
    case NewPa(s) => s !in st.pas
    case NlbReady(_, _) => true
    case NlbAddressed(_, _) => true
    case Vanish(x) => x in st.live
    case Do(s, w) => s in st.pas && WorkEnabled(c, st, s, w)
  }

  /** What a step of the worker of slot s does to its PA. */
  function Next(c: Config, st: State, s: nat, w: Work): Pa
    requires c.Valid() && s in st.pas && WorkEnabled(c, st, s, w)
  {
    var pa := st.pas[s];
    match w
    case Init => pa.(sgs := seq(c.plan.P, _ => ServerGroup(None, SgPending)),
                     lsns := seq(c.Cells(), _ => LsnRecord(None, LsnPending)))
    case CreateGroup(p, g) => pa.(pc := GotGroup(p, g))
    case RecordGroup => pa.(sgs := pa.sgs[pa.pc.p := ServerGroup(Some(pa.pc.group), SgCreating)], pc := Idle)
    case SeeGroup(p) => pa.(pc := SawGroup(p))
    case ActivateGroup => pa.(sgs := pa.sgs[pa.pc.p := pa.sgs[pa.pc.p].(phase := SgActive)], pc := Idle)
    case CreateListener(i, x) => pa.(pc := GotListener(i, x))
    case ConflictPort(i) => pa.(pc := Blocked(i))
    case FindByPort(found) =>
      pa.(pc := if found.Some? then GotListener(pa.pc.i, found.value)
                else if pa.pc.Missing? then Absent(pa.pc.i) else Idle)
    case RecordListener =>
      pa.(lsns := pa.lsns[pa.pc.i := LsnRecord(Some(pa.pc.listener), LsnCreating)], pc := Idle)
    case SeeListener(i) => pa.(pc := SawListener(i))
    case RunListener => pa.(lsns := pa.lsns[pa.pc.i := pa.lsns[pa.pc.i].(phase := LsnRunning)], pc := Idle)
    case MissListener(i) => pa.(pc := Missing(i))
    case ForgetListener(i) => pa.(lsns := pa.lsns[i := LsnRecord(None, LsnPending)])
    case FillSpec => pa.(spec := Some(SpecOf(pa)), pc := Filled)
    case Promote => pa.(available := true, pc := Idle)
    case Drop => pa.(pc := Idle)
  }

  /** What a create call leaves in the cloud. */
  function Cloud(c: Config, st: State, s: nat, w: Work): State
    requires c.Valid() && s in st.pas && WorkEnabled(c, st, s, w)
  {
    match w
    case CreateGroup(p, g) =>
      if SgToken(s, p) in st.sgTokens then st
      else st.(groups := st.groups[g := SgToken(s, p)], sgTokens := st.sgTokens[SgToken(s, p) := g])
    case CreateListener(i, x) =>
      var t := TokenFor(s, st.pas[s], i);
      if t in st.lsnTokens then st
      else
        var made := Listener(PlaceOf(c, s, i), GroupIn(st.pas[s], i / c.lanes), s, i);
        st.(listeners := st.listeners[x := made], live := st.live + {x}, lsnTokens := st.lsnTokens[t := x])
    case _ => st
  }

  function Apply(c: Config, st: State, op: Op): State
    requires c.Valid() && Enabled(c, st, op)
  {
    match op
    case NewPa(s) => st.(pas := st.pas[s := NEW])
    case NlbReady(lane, group) => st.(ready := st.ready + {(lane, group)})
    case NlbAddressed(lane, group) => st.(addressed := st.addressed + {(lane, group)})
    case Vanish(x) => st.(live := st.live - {x})
    case Do(s, w) =>
      Cloud(c, st, s, w).(pas := st.pas[s := Next(c, st, s, w)])
  }

  predicate Legal(c: Config, st: State, ops: seq<Op>)
    requires c.Valid()
    decreases ops
  {
    ops == [] || (Enabled(c, st, ops[0]) && Legal(c, Apply(c, st, ops[0]), ops[1..]))
  }

  function End(c: Config, st: State, ops: seq<Op>): State
    requires c.Valid() && Legal(c, st, ops)
    decreases ops
  {
    if ops == [] then st else End(c, Apply(c, st, ops[0]), ops[1..])
  }

  lemma {:induction false} Append(c: Config, st: State, ops: seq<Op>, op: Op)
    requires c.Valid() && Legal(c, st, ops) && Enabled(c, End(c, st, ops), op)
    ensures Legal(c, st, ops + [op]) && End(c, st, ops + [op]) == Apply(c, End(c, st, ops), op)
    decreases ops
  {
    if ops == [] {
      assert Legal(c, Apply(c, st, op), []);
    } else {
      assert (ops + [op])[1..] == ops[1..] + [op];
      Append(c, Apply(c, st, ops[0]), ops[1..], op);
    }
  }
}
