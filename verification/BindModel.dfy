/**
 The binding protocol of the PortAllocation (PA) controller as a transition system.

 Each call to the API server or to the cloud is one atomic step, so the workers of different PAs
 interleave between any two calls.  A worker may stop after any call (crash, conflict, error return).
 Reconciles of one PA are serial: a slot has one worker.
 */
module BindModel {
  import opened Options

  type PaId = nat
  type PodId = nat
  type Addr = nat

  /** status.phase, from the point where provisioning is over. */
  datatype Phase = Available | Binding | Bound | Disabled | Releasing

  /** status.serverGroups[i].serverStatus; Clear is the empty string, Attached is "Bound". */
  datatype Mark = Clear | Adding | Attached | Removing

  datatype Backend = Backend(ip: Addr, port: nat)

  /** A cloud ServerGroup: its registered backends, each with "an accepted removal has not finished". */
  type Group = map<Backend, bool>

  /** One pod incarnation.  ver is its resourceVersion; a pod that is not alive reads as NotFound. */
  datatype Pod = Pod(ver: nat, alive: bool, ip: Option<Addr>, claim: Option<PaId>, pooled: bool, disabled: bool)

  /** What a worker remembers about one ServerGroup between a cloud call and the status patch. */
  datatype Note = Nothing | Added(i: nat) | Removed(i: nat) | Saw(i: nat, found: bool)

  /** Where a worker is inside the reconcile of its PA, with the (possibly stale) objects it read. */
  datatype Pc =
    | Idle
    | Started
    | Listed(pods: map<PodId, Pod>)
    | Chosen(pod: PodId, podVer: nat, ip: Addr)
    | Reserved(pod: PodId, podVer: nat)
    | Undoing
    | Resuming(pod: PodId, seen: Pod)
    | Confirmed(newIP: Option<Addr>)
    | Moving(to: Phase)
    | Attaching(note: Note)
    | Detaching(note: Note)
    | Draining(note: Note)
    | Clearing
    | Freed
    | Resetting

  /** A PA object, the container port and the cloud state of each of its ServerGroups, and its worker. */
  datatype Slot = Slot(
    ver: nat,
    boundPod: Option<PodId>,
    boundIP: Option<Addr>,
    phase: Phase,
    marks: seq<Mark>,
    ports: seq<nat>,
    groups: seq<Group>,
    known: nat,
    pc: Pc)
  {
    function At(where: Pc): Slot {
      this.(pc := where)
    }

    /** The API server accepts a write of this object and the worker sees the new version. */
    function Written(): Slot {
      this.(ver := ver + 1, known := ver + 1)
    }

    predicate Current() {
      known == ver
    }

    predicate AllMarked(m: Mark) {
      forall i :: 0 <= i < |marks| ==> marks[i] == m
    }

    /** The backend the PA registers in ServerGroup i while it is bound. */
    function Target(i: nat): Backend
      requires boundIP.Some? && i < |ports|
    {
      Backend(boundIP.value, ports[i])
    }
  }

  /** owner tells which pod incarnation an address was last given to. */
  datatype State = State(slots: map<PaId, Slot>, pods: map<PodId, Pod>, owner: map<Addr, PodId>)

  const INIT := State(map[], map[], map[])

  /**
   What the environment grants.
    - freshReads: the Get of the PA another pod's claim points to succeeds and returns the current object
    - clearsLand: clearPodClaim reads the pod, and its patch is applied
    - addsRecorded: an accepted AddServers is followed by the patch that records "Adding"
    - addressesRest: an address passes to another pod only when no PA records it any more
    - addressesKept: the former address of a pod that still exists does not pass to another pod
    - addressesUnshared: the present address of a pod that still exists does not pass to another pod
   */
  datatype Grants = Grants(freshReads: bool, clearsLand: bool, addsRecorded: bool,
                           addressesRest: bool, addressesKept: bool, addressesUnshared: bool)

  const RELIABLE := Grants(true, true, true, true, true, true)

  datatype Step =
    // the environment
    | Provision(a: PaId, ports: seq<nat>)
    | Touch(a: PaId)
    | CreatePod(p: PodId, pooled: bool, disabled: bool)
    | EditPod(p: PodId, pooled: bool, disabled: bool)
    | AssignIP(p: PodId, ip: Addr)
    | DeletePod(p: PodId)
    | FinishRemoval(a: PaId, i: nat, b: Backend)
    // one call by the worker of a PA
    | Work(a: PaId, op: Op)

  datatype Op =
    | Start | Stop
    | ListPods | Choose(p: PodId) | Reserve | ClaimPod | ClaimFails | Undo
    | ReadBound | ResumeDecide | ResumeClaim | ResumeFails | Confirm | WritePhase
    | Verify | AddServer(i: nat) | MarkAdding | Poll(i: nat) | MarkSeen | EnterBound
    | CheckBound | RemoveServer(i: nat) | MarkRemoving | EnterDisabled | CheckDisabled
    | Drain | DrainServer(b: Backend) | ReadClaim | ClearClaim | SkipClear | RemoveBest(i: nat)
    | Unreserve | WriteAvailable

  /** The pod a PA names in spec.boundPod can be fetched. */
  predicate PodFound(x: Slot, pods: map<PodId, Pod>) {
    x.boundPod.Some? && x.boundPod.value in pods && pods[x.boundPod.value].alive
  }

  /** The bound pod can be fetched and its claim annotation names a. */
  predicate ClaimSeen(a: PaId, x: Slot, pods: map<PodId, Pod>) {
    PodFound(x, pods) && pods[x.boundPod.value].claim == Some(a)
  }

  predicate HasIP(g: Group, ip: Addr) {
    exists b :: b in g && b.ip == ip
  }

  /** A pod in the list is acceptable to PA a: no claim, its own claim, or a claim judged stale. */
  predicate Claimable(e: Grants, s: State, a: PaId, p: PodId, seen: Pod) {
    && seen.alive && seen.pooled && seen.ip.Some?
    && match seen.claim {
         case None => true
         case Some(b) => b == a || !e.freshReads || b !in s.slots || s.slots[b].boundPod != Some(p)
       }
  }

  /** The state an SG poll looks for: the bound address, or when draining any backend at all. */
  predicate PollResult(x: Slot, i: nat)
    requires i < |x.groups|
  {
    if x.pc.Draining? then x.groups[i] != map[] else x.boundIP.Some? && HasIP(x.groups[i], x.boundIP.value)
  }

  /** Pod p can get address ip: nobody else ever had it, or every guarantee about passing it on is respected. */
  predicate Assignable(e: Grants, s: State, p: PodId, ip: Addr) {
    ip in s.owner && s.owner[ip] != p ==>
      && s.owner[ip] in s.pods
      && (s.pods[s.owner[ip]].alive ==> if s.pods[s.owner[ip]].ip == Some(ip) then !e.addressesUnshared
                                        else !e.addressesKept)
      && (e.addressesRest ==> forall a :: a in s.slots ==> s.slots[a].boundIP != Some(ip))
  }

  predicate OpEnabled(e: Grants, s: State, a: PaId, op: Op)
    requires a in s.slots
  {
    var x := s.slots[a];
    var n := |x.marks|;
    match op
    case Start => x.pc.Idle?
    case Stop => x.pc.Attaching? && x.pc.note.Added? ==> !e.addsRecorded
    // handleAvailable
    case ListPods => x.pc.Started? && x.phase.Available? && x.boundPod.None?
    case Choose(p) => x.pc.Listed? && p in x.pc.pods && Claimable(e, s, a, p, x.pc.pods[p])
    case Reserve => x.pc.Chosen? && x.Current()
    case ClaimPod =>
      && x.pc.Reserved? && x.pc.pod in s.pods && s.pods[x.pc.pod].alive
      && s.pods[x.pc.pod].ver == x.pc.podVer
    case ClaimFails => x.pc.Reserved?
    case Undo => x.pc.Undoing? && x.Current()
    // availableResumeBind
    case ReadBound => x.pc.Started? && x.phase.Available? && x.boundPod.Some?
    case ResumeDecide => x.pc.Resuming? && x.pc.seen.claim.Some?
    case ResumeClaim =>
      && x.pc.Resuming? && x.pc.seen.claim.None? && x.pc.pod in s.pods && s.pods[x.pc.pod].alive
      && s.pods[x.pc.pod].ver == x.pc.seen.ver
    case ResumeFails => x.pc.Resuming? && x.pc.seen.claim.None?
    case Confirm => x.pc.Confirmed? && x.pc.newIP.Some? && (x.pc.newIP != x.boundIP ==> x.Current())
    case WritePhase => x.pc.Moving? && x.Current()
    // handleBinding
    case Verify => x.pc.Started? && x.phase.Binding?
    case AddServer(i) =>
      && x.pc == Attaching(Nothing) && i < n && i < |x.ports| && i < |x.groups| && x.boundIP.Some?
      && (x.marks[i].Clear? || x.marks[i].Removing?) && x.ports[i] != 0
    case MarkAdding => x.pc.Attaching? && x.pc.note.Added? && x.pc.note.i < n
    case Poll(i) =>
      && i < n && i < |x.groups|
      && ((x.pc == Attaching(Nothing) && x.marks[i].Adding?)
          || (x.pc == Detaching(Nothing) && x.marks[i].Removing?)
          || (x.pc == Draining(Nothing) && !x.marks[i].Clear?))
    case MarkSeen =>
      (x.pc.Attaching? || x.pc.Detaching? || x.pc.Draining?) && x.pc.note.Saw? && x.pc.note.i < n
    case EnterBound => x.pc == Attaching(Nothing) && x.AllMarked(Attached) && x.Current()
    // handleBound, handleDisable, handleDisabled
    case CheckBound => x.pc.Started? && x.phase.Bound?
    case RemoveServer(i) =>
      && x.pc == Detaching(Nothing) && i < n && i < |x.ports| && i < |x.groups| && x.boundIP.Some?
      && (x.marks[i].Adding? || x.marks[i].Attached?)
    case MarkRemoving => x.pc.Detaching? && x.pc.note.Removed? && x.pc.note.i < n
    case EnterDisabled => x.pc == Detaching(Nothing) && x.AllMarked(Clear) && x.Current()
    case CheckDisabled => x.pc.Started? && x.phase.Disabled?
    // handleReleasing, clearPodClaim, resetToAvailable
    case Drain => x.pc.Started? && x.phase.Releasing?
    case DrainServer(b) =>
      && x.pc.Draining? && x.pc.note.Saw? && x.pc.note.found && x.pc.note.i < |x.groups|
      && b in x.groups[x.pc.note.i]
    case ReadClaim => (x.pc == Draining(Nothing) && x.AllMarked(Clear)) || x.pc.Freed?
    case ClearClaim => x.pc.Clearing? && x.boundPod.Some?
    // the Get of the pod fails, or its patch is lost
    case SkipClear =>
      && (x.pc.Clearing? || (x.pc == Draining(Nothing) && x.AllMarked(Clear)) || x.pc.Freed?)
      && !e.clearsLand
    case RemoveBest(i) =>
      x.pc.Freed? && i < |x.ports| && i < |x.groups| && x.boundIP.Some? && x.Target(i) in x.groups[i]
    case Unreserve => x.pc.Freed? && x.Current()
    case WriteAvailable => x.pc.Resetting? && x.Current()
  }

  /** The worker's slot after the call. */
  function OpSlot(e: Grants, s: State, a: PaId, op: Op): Slot
    requires a in s.slots && OpEnabled(e, s, a, op)
  {
    var x := s.slots[a];
    match op
    case Start => x.(known := x.ver, pc := Started)
    case Stop => x.At(Idle)
    case ListPods => x.At(Listed(s.pods))
    case Choose(p) => x.At(Chosen(p, x.pc.pods[p].ver, x.pc.pods[p].ip.value))
    case Reserve =>
      x.(boundPod := Some(x.pc.pod), boundIP := Some(x.pc.ip), pc := Reserved(x.pc.pod, x.pc.podVer)).Written()
    case ClaimPod => x.At(Moving(Binding))
    case ClaimFails => x.At(Undoing)
    case Undo => x.(boundPod := None, boundIP := None, pc := Idle).Written()
    case ReadBound =>
      x.At(if PodFound(x, s.pods) then Resuming(x.boundPod.value, s.pods[x.boundPod.value]) else Undoing)
    case ResumeDecide => x.At(if x.pc.seen.claim == Some(a) then Confirmed(x.pc.seen.ip) else Undoing)
    case ResumeClaim => x.At(Confirmed(x.pc.seen.ip))
    case ResumeFails => x.At(Undoing)
    case Confirm =>
      if x.pc.newIP == x.boundIP then x.At(Moving(Binding))
      else x.(boundIP := x.pc.newIP, pc := Moving(Binding)).Written()
    case WritePhase => x.(phase := x.pc.to, pc := Idle).Written()
    case Verify => x.At(if x.boundIP.Some? && ClaimSeen(a, x, s.pods) then Attaching(Nothing) else Moving(Releasing))
    case AddServer(i) =>
      var g := x.groups[i];
      x.(groups := x.groups[i := if x.Target(i) in g then g else g[x.Target(i) := false]], pc := Attaching(Added(i)))
    case MarkAdding => x.(marks := x.marks[x.pc.note.i := Adding], pc := Attaching(Nothing)).Written()
    case Poll(i) =>
      var note := Saw(i, PollResult(x, i));
      x.At(if x.pc.Attaching? then Attaching(note) else if x.pc.Detaching? then Detaching(note) else Draining(note))
    case MarkSeen =>
      var i := x.pc.note.i;
      if x.pc.Attaching? then
        x.(marks := x.marks[i := if x.pc.note.found then Attached else Clear], pc := Attaching(Nothing)).Written()
      else
        var next := if x.pc.Detaching? then Detaching(Nothing) else Draining(Nothing);
        if x.pc.note.found then x.At(next) else x.(marks := x.marks[i := Clear], pc := next).Written()
    case EnterBound => x.(phase := Bound, pc := Idle).Written()
    case CheckBound =>
      x.At(if !PodFound(x, s.pods) then Moving(Releasing)
           else if s.pods[x.boundPod.value].disabled then Detaching(Nothing)
           else if !s.pods[x.boundPod.value].pooled || s.pods[x.boundPod.value].claim != Some(a) then Moving(Releasing)
           else Idle)
    case RemoveServer(i) =>
      if x.Target(i) in x.groups[i] then
        x.(groups := x.groups[i := x.groups[i][x.Target(i) := true]], pc := Detaching(Removed(i)))
      else x.At(Detaching(Saw(i, false)))
    case MarkRemoving => x.(marks := x.marks[x.pc.note.i := Removing], pc := Detaching(Nothing)).Written()
    case EnterDisabled => x.(phase := Disabled, pc := Idle).Written()
    case CheckDisabled =>
      x.At(if !PodFound(x, s.pods) then Moving(Releasing)
           else if !s.pods[x.boundPod.value].disabled then Moving(Binding) else Idle)
    case Drain => x.At(Draining(Nothing))
    case DrainServer(b) => x.(groups := x.groups[x.pc.note.i := x.groups[x.pc.note.i][b := true]])
    case ReadClaim => x.At(if ClaimSeen(a, x, s.pods) then Clearing else Freed)
    case ClearClaim => x.At(Freed)
    case SkipClear => x.At(Freed)
    case RemoveBest(i) => x.(groups := x.groups[i := x.groups[i][x.Target(i) := true]])
    case Unreserve => x.(boundPod := None, boundIP := None, pc := Resetting).Written()
    case WriteAvailable => x.(marks := seq(|x.marks|, _ => Clear), phase := Available, pc := Idle).Written()
  }

  /** A claim write by the API server; writing the value already stored does not change the version. */
  function SetClaim(pod: Pod, claim: Option<PaId>): Pod {
    if pod.claim == claim then pod else pod.(claim := claim, ver := pod.ver + 1)
  }

  /** The pods after the call. */
  function OpPods(e: Grants, s: State, a: PaId, op: Op): map<PodId, Pod>
    requires a in s.slots && OpEnabled(e, s, a, op)
  {
    var x := s.slots[a];
    match op
    case ClaimPod => s.pods[x.pc.pod := SetClaim(s.pods[x.pc.pod], Some(a))]
    case ResumeClaim => s.pods[x.pc.pod := SetClaim(s.pods[x.pc.pod], Some(a))]
    case ClearClaim =>
      if PodFound(x, s.pods) then s.pods[x.boundPod.value := SetClaim(s.pods[x.boundPod.value], None)] else s.pods
    case _ => s.pods
  }

  predicate Enabled(e: Grants, s: State, st: Step) {
    match st
    case Provision(a, ports) => a !in s.slots
    case Touch(a) => a in s.slots
    case CreatePod(p, _, _) => p !in s.pods
    case EditPod(p, _, _) => p in s.pods && s.pods[p].alive
    case AssignIP(p, ip) => p in s.pods && s.pods[p].alive && Assignable(e, s, p, ip)
    case DeletePod(p) => p in s.pods && s.pods[p].alive
    case FinishRemoval(a, i, b) =>
      a in s.slots && i < |s.slots[a].groups| && b in s.slots[a].groups[i] && s.slots[a].groups[i][b]
    case Work(a, op) => a in s.slots && OpEnabled(e, s, a, op)
  }

  function Apply(e: Grants, s: State, st: Step): State
    requires Enabled(e, s, st)
  {
    match st
    case Provision(a, ports) =>
      var n := |ports|;
      s.(slots := s.slots[a := Slot(0, None, None, Available, seq(n, _ => Clear), ports, seq(n, _ => map[]), 0, Idle)])
    case Touch(a) => s.(slots := s.slots[a := s.slots[a].(ver := s.slots[a].ver + 1)])
    case CreatePod(p, pooled, disabled) => s.(pods := s.pods[p := Pod(0, true, None, None, pooled, disabled)])
    case EditPod(p, pooled, disabled) =>
      s.(pods := s.pods[p := s.pods[p].(ver := s.pods[p].ver + 1, pooled := pooled, disabled := disabled)])
    case AssignIP(p, ip) =>
      s.(pods := s.pods[p := s.pods[p].(ver := s.pods[p].ver + 1, ip := Some(ip))], owner := s.owner[ip := p])
    case DeletePod(p) => s.(pods := s.pods[p := s.pods[p].(ver := s.pods[p].ver + 1, alive := false)])
    case FinishRemoval(a, i, b) =>
      var x := s.slots[a];
      s.(slots := s.slots[a := x.(groups := x.groups[i := x.groups[i] - {b}])])
    case Work(a, op) => State(s.slots[a := OpSlot(e, s, a, op)], OpPods(e, s, a, op), s.owner)
  }

  /** A finite run from the empty cluster, its last step outermost. */
  datatype Run = Begin | Then(before: Run, step: Step)

  predicate Legal(e: Grants, r: Run)
    decreases r, 0
  {
    r.Then? ==> Legal(e, r.before) && Enabled(e, End(e, r.before), r.step)
  }

  function End(e: Grants, r: Run): State
    requires Legal(e, r)
    decreases r, 1
  {
    match r
    case Begin => INIT
    case Then(before, step) => Apply(e, End(e, before), step)
  }
}
