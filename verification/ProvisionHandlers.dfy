/**
 handleProvisioning as imperative code over the provisioning model.  Between any two calls the rest of the system may
 take any steps; every call may fail, and every patch may be lost.  In a visit that is faultFree nothing fails, nothing
 vanishes, and whatever is polled is ready.
 */
module ProvisionHandlers {
  import opened Options
  import opened PortPlan
  import opened ProvisionModel
  import opened ProvisionSafety
  import opened ProvisionTheorems
  import opened ProvisionLiveness

  /** A create call of the worker of slot s. */
  predicate CreatesFor(op: Op, s: nat) {
    op.Do? && op.slot == s && Creates(op.work)
  }

  /** The part of the trace after position n holds no create call of slot s. */
  ghost predicate QuietSince(trace: seq<Op>, n: nat, s: nat) {
    forall k :: n <= k < |trace| ==> !CreatesFor(trace[k], s)
  }

  /** 0 new, 1 initialised, 2 all ServerGroups created, 3 all Active and all listeners created, 4 Available. */
  function Level(pa: Pa): nat {
    if pa.available then 4
    else if pa.sgs == [] then 0
    else if AllActive(pa) && forall i :: 0 <= i < |pa.lsns| ==> !pa.lsns[i].phase.LsnPending? then 3
    else if forall p :: 0 <= p < |pa.sgs| ==> !pa.sgs[p].phase.SgPending? then 2
    else 1
  }

  /** One undisturbed visit moves a ServerGroup on by one phase. */
  predicate GroupMoved(a: ServerGroup, b: ServerGroup) {
    if a.phase.SgPending? then b.phase.SgCreating? else b.phase.SgActive?
  }

  predicate ListenerMoved(a: LsnRecord, b: LsnRecord) {
    if a.phase.LsnPending? then b.phase.LsnCreating? else b.phase.LsnRunning?
  }

  /** What one fault-free visit makes of a PA with its arrays initialised. */
  ghost predicate Visited(a: Pa, b: Pa) {
    && |b.sgs| == |a.sgs| && |b.lsns| == |a.lsns|
    && (forall p :: 0 <= p < |a.sgs| ==> GroupMoved(a.sgs[p], b.sgs[p]))
    && (AllActive(b) ==> forall i :: 0 <= i < |a.lsns| ==> ListenerMoved(a.lsns[i], b.lsns[i]))
    && (AllActive(b) && AllRunning(b) ==> b.available)
  }

  lemma Climbs(a: Pa, b: Pa)
    requires !a.available
    ensures if a.sgs == [] then b.sgs != [] ==> Level(b) > Level(a) else Visited(a, b) ==> Level(b) > Level(a)
  {
  }

  /** What the cloud says of a listener: no answer, not yet running, running, a not-found error, or nothing. */
  datatype Answer = Silent | Starting | Up | NotFound | Unknown

  /** What each answer makes of a Creating entry. */
  predicate Settles(answer: Answer, a: LsnRecord, b: LsnRecord) {
    match answer
    case Up => b == LsnRecord(a.id, LsnRunning)
    case NotFound => b == LsnRecord(None, LsnPending)
    case Unknown => b.phase.LsnCreating? && b.id.Some?
    case _ => b == a
  }

  /** The PA is being provisioned and its worker is between two calls. */
  predicate Open(st: State, s: nat) {
    s in st.pas && !st.pas[s].available && st.pas[s].pc.Idle?
  }

  /** What happens between two calls of the worker of slot s; in a fault-free visit no listener vanishes. */
  ghost predicate Elsewhere(st: State, st': State, s: nat, faultFree: bool) {
    && s in st.pas && s in st'.pas && st'.pas[s] == st.pas[s]
    && st.ready <= st'.ready && st.addressed <= st'.addressed && Remembers(st, st')
    && (faultFree ==> st.live <= st'.live && (NothingLost(st) ==> NothingLost(st')))
  }

  /** Only the worker of slot s touches its PA. */
  lemma ElsewhereStep(c: Config, st: State, op: Op, s: nat, faultFree: bool)
    requires c.Valid() && s in st.pas && Enabled(c, st, op) && !(op.Do? && op.slot == s) && !(faultFree && op.Vanish?)
    ensures Elsewhere(st, Apply(c, st, op), s, faultFree)
  {
    if op.Do? {
      CloudRemembers(c, st, op.slot, op.work);
    }
  }

  lemma ElsewhereComposes(a: State, b: State, d: State, s: nat, faultFree: bool)
    requires Elsewhere(a, b, s, faultFree) && Elsewhere(b, d, s, faultFree)
    ensures Elsewhere(a, d, s, faultFree)
  {
  }

  class Provisioner {
    const c: Config
    var st: State
    ghost var trace: seq<Op>

    /** The current state is the end of the trace. */
    ghost predicate Valid()
      reads this
    {
      c.Valid() && Legal(c, INIT, trace) && End(c, INIT, trace) == st
    }

    constructor (c: Config)
      requires c.Valid()
      ensures Valid() && this.c == c && st == INIT
    {
      this.c := c;
      st := INIT;
      trace := [];
    }

    method Take(op: Op)
      requires Valid() && Enabled(c, st, op)
      modifies this
      ensures Valid() && st == Apply(c, old(st), op) && trace == old(trace) + [op]
    {
      Append(c, INIT, trace, op);
      trace := trace + [op];
      st := Apply(c, st, op);
    }

    /** The outcome of one call. */
    method Succeeds(faultFree: bool) returns (ok: bool)
      ensures faultFree ==> ok
    {
      ok := *;
      ok := ok || faultFree;
    }

    /** No listener was lost, and the NLBs of slot s are ready and have their addresses. */
    predicate Calm(s: nat)
      requires c.Valid()
      reads this
    {
      && NothingLost(st) && Addressed(c, st, s)
      && forall l :: 0 <= l < c.lanes ==> (l, GroupOf(c.plan, s)) in st.ready
    }

    /** A step of the worker of slot s. */
    method Call(s: nat, w: Work)
      requires Valid() && s in st.pas && WorkEnabled(c, st, s, w)
      modifies this
      ensures Valid() && s in st.pas && trace == old(trace) + [Do(s, w)]
      ensures st == Apply(c, old(st), Do(s, w)) && st.pas[s] == Next(c, old(st), s, w)
      ensures old(Calm(s)) ==> Calm(s)
    {
      Take(Do(s, w));
      if NothingLost(old(st)) {
        NothingLostStep(c, old(st), Do(s, w));
      }
    }

    /** Everybody else: other PAs, the pool, the NLBs, and listeners that vanish. */
    method Interfere(s: nat, faultFree: bool)
      requires Valid() && s in st.pas
      modifies this
      ensures Valid() && Elsewhere(old(st), st, s, faultFree)
      ensures old(trace) <= trace && QuietSince(trace, |old(trace)|, s) && (faultFree && old(Calm(s)) ==> Calm(s))
    {
      var ops: seq<Op> := *;
      for n := 0 to |ops|
        invariant Valid() && Elsewhere(old(st), st, s, faultFree)
        invariant old(trace) <= trace && QuietSince(trace, |old(trace)|, s)
      {
        if !(ops[n].Do? && ops[n].slot == s) && !(faultFree && ops[n].Vanish?) && Enabled(c, st, ops[n]) {
          ghost var here := st;
          ElsewhereStep(c, here, ops[n], s, faultFree);
          Take(ops[n]);
          ElsewhereComposes(old(st), here, st, s, faultFree);
        }
      }
    }

    lemma Covered(s: nat)
      requires Valid() && s in st.pas
      ensures forall p :: 0 <= p < |st.pas[s].sgs| ==>
        (st.pas[s].sgs[p].phase.SgPending? <==> st.pas[s].sgs[p].id.None?)
      ensures forall i :: 0 <= i < |st.pas[s].lsns| ==>
        (st.pas[s].lsns[i].phase.LsnPending? <==> st.pas[s].lsns[i].id.None?)
    {
      assert Reach(c, INIT, st);
      RecordsCovered(c, st, s);
    }

    /** The Pending branch for ServerGroup p: create under its token, then record. */
    method CreateSg(s: nat, p: nat, faultFree: bool) returns (ok: bool)
      requires Valid() && Open(st, s) && p < |st.pas[s].sgs| && st.pas[s].sgs[p].phase.SgPending?
      modifies this
      ensures Valid() && Open(st, s) && old(trace) <= trace && (faultFree ==> ok)
      ensures faultFree && old(Calm(s)) ==> Calm(s)
      ensures !ok ==> st.pas[s] == old(st.pas[s])
      ensures ok ==> SgToken(s, p) in st.sgTokens
      ensures ok ==> var sg := ServerGroup(Some(st.sgTokens[SgToken(s, p)]), SgCreating);
        st.pas[s] == old(st.pas[s]).(sgs := old(st.pas[s]).sgs[p := sg])
    {
      Covered(s);
      Interfere(s, faultFree);
      ok := Succeeds(faultFree);
      if !ok {
        return;
      }
      FreshGroup(st);
      var g: nat :| g !in st.groups;
      if SgToken(s, p) in st.sgTokens {
        g := st.sgTokens[SgToken(s, p)];
      }
      Call(s, CreateGroup(p, g));
      ok := RecordSg(s, faultFree);
    }

    /** The ServerGroup in hand is recorded, or the patch is lost. */
    method RecordSg(s: nat, faultFree: bool) returns (ok: bool)
      requires Valid() && s in st.pas && !st.pas[s].available && st.pas[s].pc.GotGroup?
      requires st.pas[s].pc.p < |st.pas[s].sgs|
      modifies this
      ensures Valid() && Open(st, s) && old(trace) <= trace && (faultFree ==> ok) && Remembers(old(st), st)
      ensures faultFree && old(Calm(s)) ==> Calm(s)
      ensures st.pas[s].(pc := old(st.pas[s].pc)) == if !ok then old(st.pas[s]) else
        old(st.pas[s]).(sgs := old(st.pas[s]).sgs[old(st.pas[s].pc.p) :=
          ServerGroup(Some(old(st.pas[s].pc.group)), SgCreating)])
    {
      Interfere(s, faultFree);
      ok := Succeeds(faultFree);
      if ok {
        Call(s, RecordGroup);
      } else {
        Call(s, Drop);
      }
    }

    /** Phase 1: go tells that every ServerGroup is Active. */
    method EnsureServerGroups(s: nat, faultFree: bool) returns (go: bool)
      requires Valid() && Open(st, s) && st.pas[s].sgs != []
      modifies this
      ensures Valid() && Open(st, s) && old(trace) <= trace && (faultFree && old(Calm(s)) ==> Calm(s))
      ensures st.pas[s] == old(st.pas[s]).(sgs := st.pas[s].sgs) && |st.pas[s].sgs| == |old(st.pas[s].sgs)|
      ensures go ==> AllActive(st.pas[s])
      ensures old(AllActive(st.pas[s])) ==> go && st.pas[s] == old(st.pas[s]) && QuietSince(trace, |old(trace)|, s)
      ensures faultFree ==> forall p :: 0 <= p < |st.pas[s].sgs| ==> GroupMoved(old(st.pas[s].sgs[p]), st.pas[s].sgs[p])
      ensures faultFree && AllActive(st.pas[s]) ==> go
    {
      go := true;
      ghost var was := st.pas[s];
      for p := 0 to |st.pas[s].sgs|
        invariant Valid() && Open(st, s) && old(trace) <= trace && (faultFree && old(Calm(s)) ==> Calm(s))
        invariant st.pas[s] == was.(sgs := st.pas[s].sgs) && |st.pas[s].sgs| == |was.sgs|
        invariant forall q :: p <= q < |was.sgs| ==> st.pas[s].sgs[q] == was.sgs[q]
        invariant go ==> forall q :: 0 <= q < p ==> st.pas[s].sgs[q].phase.SgActive?
        invariant AllActive(was) ==> go && st.pas[s] == was && QuietSince(trace, |old(trace)|, s)
        invariant faultFree ==> forall q :: 0 <= q < p ==> GroupMoved(was.sgs[q], st.pas[s].sgs[q])
        invariant faultFree && (forall q :: 0 <= q < p ==> st.pas[s].sgs[q].phase.SgActive?) ==> go
      {
        match st.pas[s].sgs[p].phase {
          case SgPending =>
            var ok := CreateSg(s, p, faultFree);
            if !ok {
              return false;
            }
            go := false;
          case SgCreating =>
            Interfere(s, faultFree);
            var answered := Succeeds(faultFree);
            if !answered {
              return false;
            }
            var available := Succeeds(faultFree);
            if available {
              var ok := RecordActive(s, p, faultFree);
              if !ok {
                return false;
              }
            } else {
              go := false;
            }
          case SgActive =>
        }
      }
    }

    /** The ServerGroup was polled as available; the patch that records it may be lost. */
    method RecordActive(s: nat, p: nat, faultFree: bool) returns (ok: bool)
      requires Valid() && Open(st, s) && p < |st.pas[s].sgs| && st.pas[s].sgs[p].phase.SgCreating?
      modifies this
      ensures Valid() && Open(st, s) && old(trace) <= trace && (faultFree ==> ok)
      ensures faultFree && old(Calm(s)) ==> Calm(s)
      ensures var pa := old(st.pas[s]);
        st.pas[s] == if ok then pa.(sgs := pa.sgs[p := pa.sgs[p].(phase := SgActive)]) else pa
    {
      Call(s, SeeGroup(p));
      Interfere(s, faultFree);
      ok := Succeeds(faultFree);
      Call(s, if ok then ActivateGroup else Drop);
    }

    /** The listener was polled as running; it may vanish before the patch, and the patch may be lost. */
    method RecordRunning(s: nat, i: nat, faultFree: bool) returns (ok: bool)
      requires Valid() && Open(st, s) && WorkEnabled(c, st, s, SeeListener(i))
      modifies this
      ensures Valid() && Open(st, s) && old(trace) <= trace && (faultFree ==> ok)
      ensures faultFree && old(Calm(s)) ==> Calm(s)
      ensures var pa := old(st.pas[s]);
        st.pas[s] == if ok then pa.(lsns := pa.lsns[i := pa.lsns[i].(phase := LsnRunning)]) else pa
    {
      Call(s, SeeListener(i));
      Interfere(s, faultFree);
      ok := Succeeds(faultFree);
      Call(s, if ok then RunListener else Drop);
    }

    /** The listener in hand is recorded, or the patch is lost. */
    method RecordLsn(s: nat, faultFree: bool) returns (ok: bool)
      requires Valid() && s in st.pas && !st.pas[s].available && st.pas[s].pc.GotListener?
      requires st.pas[s].pc.i < |st.pas[s].lsns|
      modifies this
      ensures Valid() && Open(st, s) && old(trace) <= trace && QuietSince(trace, |old(trace)|, s) && (faultFree ==> ok)
      ensures faultFree && old(Calm(s)) ==> Calm(s)
      ensures st.pas[s].(pc := old(st.pas[s].pc)) == if !ok then old(st.pas[s]) else
        old(st.pas[s]).(lsns := old(st.pas[s]).lsns[old(st.pas[s].pc.i) :=
          LsnRecord(Some(old(st.pas[s].pc.listener)), LsnCreating)])
    {
      Interfere(s, faultFree);
      ok := Succeeds(faultFree);
      if ok {
        Call(s, RecordListener);
      } else {
        Call(s, Drop);
      }
    }

    /** ListListenersByPort at the place of entry i: the listener there, if the List succeeds. */
    method FindAt(s: nat, i: nat, faultFree: bool) returns (found: Option<ListenerId>)
      requires c.Valid()
      ensures found.Some? ==> LiveAt(st, found.value, PlaceOf(c, s, i))
      ensures faultFree && !NoneLive(st, PlaceOf(c, s, i)) ==> found.Some?
    {
      var listed := Succeeds(faultFree);
      if NoneLive(st, PlaceOf(c, s, i)) || !listed {
        return None;
      }
      var x :| x in st.live && LiveAt(st, x, PlaceOf(c, s, i));
      return Some(x);
    }

    /** The create call for entry i: the answer in hand, a port conflict, or a failure. */
    method CallCreate(s: nat, i: nat, faultFree: bool)
      requires Valid() && s in st.pas && !st.pas[s].available && CanCreate(c, st, s, i)
      modifies this
      ensures Valid() && s in st.pas && old(trace) <= trace && (old(Calm(s)) ==> Calm(s))
      ensures st.pas[s] == old(st.pas[s]).(pc := st.pas[s].pc)
      ensures match st.pas[s].pc
        case Idle => !faultFree || old(st.pas[s].pc).Absent?
        case GotListener(j, x) =>
          && j == i && TokenFor(s, old(st.pas[s]), i) in st.lsnTokens
          && x == st.lsnTokens[TokenFor(s, old(st.pas[s]), i)]
        case Blocked(j) => j == i && old(st.pas[s].pc).Idle? && !NoneLive(st, PlaceOf(c, s, i))
        case _ => false
    {
      var ok := Succeeds(faultFree);
      var tokenFirst: bool := *;
      if !ok {
        Call(s, Drop);
      } else if TokenFor(s, st.pas[s], i) in st.lsnTokens && (tokenFirst || NoneLive(st, PlaceOf(c, s, i))) {
        Call(s, CreateListener(i, st.lsnTokens[TokenFor(s, st.pas[s], i)]));
      } else if NoneLive(st, PlaceOf(c, s, i)) {
        FreshListener(st);
        var x: nat :| x !in st.listeners && x !in st.live;
        Call(s, CreateListener(i, x));
      } else if st.pas[s].pc.Idle? {
        Call(s, ConflictPort(i));
      } else {
        // a conflict while re-creating is a plain failure
        Call(s, Drop);
      }
    }
  
    /** The Pending branch for listener i: create, or adopt on a port conflict, then record. */
    method CreateLsn(s: nat, i: nat, faultFree: bool) returns (ok: bool)
      requires Valid() && Open(st, s) && AllActive(st.pas[s])
      requires i < |st.pas[s].lsns| && st.pas[s].lsns[i].phase.LsnPending?
      modifies this
      ensures Valid() && Open(st, s) && old(trace) <= trace && (faultFree && old(Calm(s)) ==> ok && Calm(s))
      ensures !ok ==> st.pas[s] == old(st.pas[s])
      ensures ok ==> |st.pas[s].lsns| == |old(st.pas[s].lsns)| && st.pas[s].lsns[i].phase.LsnCreating?
      ensures ok ==> st.pas[s] == old(st.pas[s]).(lsns := old(st.pas[s]).lsns[i := st.pas[s].lsns[i]])
    {
      Covered(s);
      Interfere(s, faultFree);
      if (i % c.lanes, GroupOf(c.plan, s)) !in st.ready {
        return false;
      }
      CallCreate(s, i, faultFree);
      if st.pas[s].pc.Idle? {
        return false;
      }
      if st.pas[s].pc.Blocked? {
        ok := AdoptLsn(s, i, faultFree);
        if !ok {
          return;
        }
      }
      ok := RecordLsn(s, faultFree);
    }

    /** After Conflict.Port: take the listener found at the place. */
    method AdoptLsn(s: nat, i: nat, faultFree: bool) returns (ok: bool)
      requires Valid() && s in st.pas && !st.pas[s].available && st.pas[s].pc == Blocked(i)
      requires !NoneLive(st, PlaceOf(c, s, i))
      modifies this
      ensures Valid() && s in st.pas && old(trace) <= trace && (faultFree ==> ok && (old(Calm(s)) ==> Calm(s)))
      ensures st.pas[s] == old(st.pas[s]).(pc := st.pas[s].pc)
      ensures if ok then st.pas[s].pc.GotListener? && st.pas[s].pc.i == i else st.pas[s].pc.Idle?
    {
      ghost var x :| x in st.live && LiveAt(st, x, PlaceOf(c, s, i));
      Interfere(s, faultFree);
      assert faultFree ==> LiveAt(st, x, PlaceOf(c, s, i));
      var found := FindAt(s, i, faultFree);
      Call(s, FindByPort(found));
      ok := found.Some?;
    }
  
    /** A Creating listener the cloud does not know by its ID: fix the ID by port, or re-create. */
    method RecreateLsn(s: nat, i: nat, faultFree: bool) returns (ok: bool)
      requires Valid() && s in st.pas && !st.pas[s].available && st.pas[s].pc == Missing(i)
      requires AllActive(st.pas[s]) && i < |st.pas[s].lsns| && st.pas[s].lsns[i].phase.LsnCreating?
      modifies this
      ensures Valid() && Open(st, s) && old(trace) <= trace
      ensures |st.pas[s].lsns| == |old(st.pas[s].lsns)| && st.pas[s].lsns[i].phase.LsnCreating?
      ensures ok ==> st.pas[s].lsns[i].id.Some?
      ensures st.pas[s] == old(st.pas[s]).(lsns := old(st.pas[s]).lsns[i := st.pas[s].lsns[i]], pc := Idle)
    {
      Interfere(s, faultFree);
      if (i % c.lanes, GroupOf(c.plan, s)) !in st.ready {
        Call(s, Drop);
        return false;
      }
      var found := FindAt(s, i, faultFree);
      Call(s, FindByPort(found));
      ok := true;
      if found.None? {
        ok := CreateAgain(s, i, faultFree);
      }
      if ok {
        ok := RecordLsn(s, faultFree);
      }
    }

    /** The create call after a lookup that found nothing. */
    method CreateAgain(s: nat, i: nat, faultFree: bool) returns (ok: bool)
      requires Valid() && s in st.pas && !st.pas[s].available && st.pas[s].pc == Absent(i) && AllActive(st.pas[s])
      requires i < |st.pas[s].lsns| && (i % c.lanes, GroupOf(c.plan, s)) in st.ready
      modifies this
      ensures Valid() && s in st.pas && old(trace) <= trace
      ensures st.pas[s] == old(st.pas[s]).(pc := st.pas[s].pc)
      ensures if ok then st.pas[s].pc.GotListener? && st.pas[s].pc.i == i else st.pas[s].pc.Idle?
    {
      Interfere(s, faultFree);
      CallCreate(s, i, faultFree);
      ok := !st.pas[s].pc.Idle?;
    }

    /** The Creating branch for listener i: run it when the cloud says so, else forget, fix or re-create it. */
    method PollLsn(s: nat, i: nat, faultFree: bool) returns (ok: bool, answer: Answer)
      requires Valid() && Open(st, s) && AllActive(st.pas[s])
      requires i < |st.pas[s].lsns| && st.pas[s].lsns[i].phase.LsnCreating?
      modifies this
      ensures Valid() && Open(st, s) && old(trace) <= trace && |st.pas[s].lsns| == |old(st.pas[s].lsns)|
      ensures faultFree && old(Calm(s)) ==> ok && Calm(s) && answer.Up?
      ensures st.pas[s] == old(st.pas[s]).(lsns := old(st.pas[s]).lsns[i := st.pas[s].lsns[i]])
      ensures ok ==> !answer.Silent? && Settles(answer, old(st.pas[s]).lsns[i], st.pas[s].lsns[i])
      ensures !ok && !answer.Unknown? ==> st.pas[s] == old(st.pas[s])
    {
      Interfere(s, faultFree);
      RecordedKnown(s, i);
      answer := PollCloud(s, i, faultFree);
      match answer {
        case Silent => ok := false;
        case Starting => ok := true;
        case Up => ok := RecordRunning(s, i, faultFree);
        case NotFound =>
          ok := Succeeds(faultFree);
          if ok {
            Call(s, ForgetListener(i));
          }
        case Unknown =>
          Call(s, MissListener(i));
          ok := RecreateLsn(s, i, faultFree);
      }
    }

    /** GetListenerAttribute for the recorded listener of entry i. */
    method PollCloud(s: nat, i: nat, faultFree: bool) returns (answer: Answer)
      requires Valid() && s in st.pas && i < |st.pas[s].lsns| && st.pas[s].lsns[i].id.Some?
      ensures answer.Up? ==> st.pas[s].lsns[i].id.value in st.live
      ensures faultFree && st.pas[s].lsns[i].id.value in st.live ==> answer.Up?
    {
      answer := *;
      if faultFree || answer.Up? {
        answer := if st.pas[s].lsns[i].id.value in st.live then Up else Unknown;
      }
    }

    /** A recorded listener was created by the cloud. */
    lemma RecordedKnown(s: nat, i: nat)
      requires Valid() && s in st.pas && i < |st.pas[s].lsns| && st.pas[s].lsns[i].phase.LsnCreating?
      ensures st.pas[s].lsns[i].id.Some? && st.pas[s].lsns[i].id.value in st.listeners
    {
      Covered(s);
      assert Reach(c, INIT, st);
      ListenerRecordsAccurate(c, st, s, i);
    }

    /** Phase 2: go tells that every listener is Running. */
    method EnsureListeners(s: nat, faultFree: bool) returns (go: bool)
      requires Valid() && Open(st, s) && AllActive(st.pas[s])
      modifies this
      ensures Valid() && Open(st, s) && old(trace) <= trace && (faultFree && old(Calm(s)) ==> Calm(s))
      ensures st.pas[s] == old(st.pas[s]).(lsns := st.pas[s].lsns) && |st.pas[s].lsns| == |old(st.pas[s].lsns)|
      ensures go ==> AllRunning(st.pas[s])
      ensures old(AllRunning(st.pas[s])) ==> go && st.pas[s] == old(st.pas[s]) && QuietSince(trace, |old(trace)|, s)
      ensures faultFree && old(Calm(s)) ==>
        forall i :: 0 <= i < |st.pas[s].lsns| ==> ListenerMoved(old(st.pas[s].lsns[i]), st.pas[s].lsns[i])
      ensures faultFree && old(Calm(s)) && AllRunning(st.pas[s]) ==> go
    {
      go := true;
      ghost var was := st.pas[s];
      ghost var good := faultFree && Calm(s);
      for i := 0 to |st.pas[s].lsns|
        invariant Valid() && Open(st, s) && old(trace) <= trace && (good ==> Calm(s))
        invariant st.pas[s] == was.(lsns := st.pas[s].lsns) && |st.pas[s].lsns| == |was.lsns|
        invariant forall j :: i <= j < |was.lsns| ==> st.pas[s].lsns[j] == was.lsns[j]
        invariant go ==> forall j :: 0 <= j < i ==> st.pas[s].lsns[j].phase.LsnRunning?
        invariant AllRunning(was) ==> go && st.pas[s] == was && QuietSince(trace, |old(trace)|, s)
        invariant good ==> forall j :: 0 <= j < i ==> ListenerMoved(was.lsns[j], st.pas[s].lsns[j])
        invariant good && (forall j :: 0 <= j < i ==> st.pas[s].lsns[j].phase.LsnRunning?) ==> go
      {
        match st.pas[s].lsns[i].phase {
          case LsnPending =>
            var ok := CreateLsn(s, i, faultFree);
            if !ok {
              return false;
            }
            go := false;
          case LsnCreating =>
            var ok, answer := PollLsn(s, i, faultFree);
            if !ok {
              return false;
            }
            go := go && st.pas[s].lsns[i].phase.LsnRunning?;
          case LsnRunning =>
        }
      }
    }

    /** Phase 3: with an address for every lane, fill the spec and promote. */
    method FillAndPromote(s: nat, faultFree: bool)
      requires Valid() && Open(st, s) && Complete(st.pas[s])
      modifies this
      ensures Valid() && s in st.pas && old(trace) <= trace && QuietSince(trace, |old(trace)|, s)
      ensures faultFree && old(Calm(s)) ==> st.pas[s].available && Calm(s)
      ensures st.pas[s] == old(st.pas[s]).(spec := st.pas[s].spec, available := st.pas[s].available)
      ensures st.pas[s].available ==> st.pas[s].spec == Some(SpecOf(st.pas[s]))
    {
      for l := 0 to c.lanes
        invariant Valid() && s in st.pas && old(trace) <= trace && QuietSince(trace, |old(trace)|, s)
        invariant st.pas[s] == old(st.pas[s]) && (faultFree && old(Calm(s)) ==> Calm(s))
        invariant forall j :: 0 <= j < l ==> (j, GroupOf(c.plan, s)) in st.addressed
      {
        Interfere(s, faultFree);
        var read := Succeeds(faultFree);
        if !read || (l, GroupOf(c.plan, s)) !in st.addressed {
          return;
        }
      }
      var stored := Succeeds(faultFree);
      if !stored {
        return;
      }
      Call(s, FillSpec);
      Interfere(s, faultFree);
      stored := Succeeds(faultFree);
      Call(s, if stored then Promote else Drop);
    }

    /**
     One reconcile of a PA that is being provisioned.  Fault-free, it climbs a level, and four of them make the PA
     Available; on a complete PA it issues no create call and changes no record.
     */
    method HandleProvisioning(s: nat, faultFree: bool)
      requires Valid() && Open(st, s)
      modifies this
      ensures Valid() && s in st.pas && st.pas[s].pc.Idle? && old(trace) <= trace
      ensures Forward(old(st.pas[s]), st.pas[s])
      ensures st.pas[s].available ==> Complete(st.pas[s]) && st.pas[s].spec == Some(SpecOf(st.pas[s]))
      ensures faultFree && old(Calm(s)) && c.plan.P > 0 ==> Calm(s) && Level(st.pas[s]) > Level(old(st.pas[s]))
      ensures old(Complete(st.pas[s])) ==>
        && QuietSince(trace, |old(trace)|, s)
        && st.pas[s].sgs == old(st.pas[s].sgs) && st.pas[s].lsns == old(st.pas[s].lsns)
    {
      ghost var was := st.pas[s];
      if st.pas[s].sgs == [] {
        var stored := Succeeds(faultFree);
        if stored {
          Call(s, Init);
        }
      } else {
        EnsureResources(s, faultFree);
      }
      Climbs(was, st.pas[s]);
      GrownSince(old(trace), old(st), s);
    }

    /** At most four fault-free visits, with any steps of others in between, make the PA Available. */
    method ProvisioningCompletes(s: nat) returns (visits: nat)
      requires Valid() && Open(st, s) && Calm(s) && c.plan.P > 0
      modifies this
      ensures Valid() && s in st.pas && st.pas[s].available && visits <= 4 && old(trace) <= trace
      ensures Complete(st.pas[s]) && st.pas[s].spec == Some(SpecOf(st.pas[s]))
    {
      visits := 0;
      while !st.pas[s].available
        invariant Valid() && s in st.pas && st.pas[s].pc.Idle? && Calm(s) && old(trace) <= trace
        invariant visits <= Level(st.pas[s])
        invariant st.pas[s].available ==> Complete(st.pas[s]) && st.pas[s].spec == Some(SpecOf(st.pas[s]))
        decreases 4 - Level(st.pas[s])
      {
        HandleProvisioning(s, true);
        Interfere(s, true);
        visits := visits + 1;
      }
    }

    /** handleProvisioning past the initialisation of its arrays. */
    method EnsureResources(s: nat, faultFree: bool)
      requires Valid() && Open(st, s) && st.pas[s].sgs != []
      modifies this
      ensures Valid() && s in st.pas && st.pas[s].pc.Idle? && old(trace) <= trace
      ensures st.pas[s].available ==> Complete(st.pas[s]) && st.pas[s].spec == Some(SpecOf(st.pas[s]))
      ensures faultFree && old(Calm(s)) ==> Calm(s) && Visited(old(st.pas[s]), st.pas[s])
      ensures old(Complete(st.pas[s])) ==>
        && QuietSince(trace, |old(trace)|, s)
        && st.pas[s].sgs == old(st.pas[s].sgs) && st.pas[s].lsns == old(st.pas[s].lsns)
    {
      var go := EnsureServerGroups(s, faultFree);
      if go {
        go := EnsureListeners(s, faultFree);
        if go {
          FillAndPromote(s, faultFree);
        }
      }
    }

    /** The PA of slot s only moved forward since the trace was was. */
    lemma GrownSince(was: seq<Op>, first: State, s: nat)
      requires Valid() && was <= trace && Legal(c, INIT, was) && End(c, INIT, was) == first && s in first.pas
      ensures s in st.pas && Forward(first.pas[s], st.pas[s])
    {
      assert trace == was + trace[|was|..];
      Split(c, INIT, was, trace[|was|..]);
      InitIsSafe(c);
      RunsAreSafe(c, INIT, was);
      RecordsOnlyGrow(c, first, trace[|was|..], s);
    }
  }

  lemma {:induction false} Split(c: Config, st: State, a: seq<Op>, b: seq<Op>)
    requires c.Valid() && Legal(c, st, a + b)
    ensures Legal(c, st, a) && Legal(c, End(c, st, a), b) && End(c, End(c, st, a), b) == End(c, st, a + b)
    decreases a
  {
    if a == [] {
      assert a + b == b;
    } else {
      assert (a + b)[1..] == a[1..] + b;
      Split(c, Apply(c, st, a[0]), a[1..], b);
    }
  }

  lemma FreshGroup(st: State)
    ensures exists g: nat :: g !in st.groups
  {
    var g := FreshId(st.groups.Keys);
  }

  lemma FreshListener(st: State)
    ensures exists x: nat :: x !in st.listeners && x !in st.live
  {
    var x := FreshId(st.listeners.Keys + st.live);
  }
}
