/**
 The finalizer of a PA: it unbinds its pod as well as it can, waits for its listeners to disappear, then deletes its
 ServerGroups, popping the two lists of its status as it goes.  Status writes are best effort and may be lost; a run
 may end at any call.  In a calm run every call succeeds and nothing else happens.
 */
module PaTeardown {
  import opened Options

  type ListenerId = nat
  type GroupId = nat
  type PodId = nat
  type PaId = nat
  type Addr = nat

  /** An entry of spec.serverGroups with the container port its backend gets. */
  datatype GroupRef = GroupRef(id: Option<GroupId>, port: nat)

  datatype Backend = Backend(group: GroupId, ip: Addr, port: nat)

  /** spec.boundPod and spec.boundPodIP. */
  datatype Binding = Binding(pod: Option<PodId>, ip: Option<Addr>)

  const UNBOUND := Binding(None, None)

  /** The backends the binding put into the first n ServerGroups of the spec. */
  ghost function Targets(refs: seq<GroupRef>, ip: Addr, n: nat): set<Backend>
    requires n <= |refs|
  {
    set k | 0 <= k < n && refs[k].id.Some? :: Backend(refs[k].id.value, ip, refs[k].port)
  }

  /** Claims change at most by losing the claim of pod p on PA me. */
  ghost predicate OnlyOwnClaim(claims: map<PodId, Option<PaId>>, claims': map<PodId, Option<PaId>>,
                               p: Option<PodId>, me: PaId) {
    && claims'.Keys == claims.Keys
    && forall q :: q in claims && claims'[q] != claims[q] ==>
         p == Some(q) && claims[q] == Some(me) && claims'[q].None?
  }

  /** Every entry of all before the position where rest starts names something outside live. */
  ghost predicate DroppedGone(all: seq<Option<nat>>, rest: seq<Option<nat>>, live: set<nat>) {
    && |rest| <= |all|
    && rest == all[|all| - |rest|..]
    && (forall k :: 0 <= k < |all| - |rest| ==> all[k].None? || all[k].value !in live)
  }

  ghost predicate NoneLive(all: seq<Option<nat>>, live: set<nat>) {
    forall k :: 0 <= k < |all| ==> all[k].None? || all[k].value !in live
  }

  /** No listener forwards to any of the ServerGroups. */
  ghost predicate Unused(all: seq<Option<nat>>, cloudListeners: map<nat, nat>) {
    forall k :: 0 <= k < |all| ==> all[k].None? || all[k].value !in cloudListeners.Values
  }

  /** Every entry with an ID that was dropped from the list is dropped from its stored copy, too. */
  ghost predicate Saved(rest: seq<Option<nat>>, stored: seq<Option<nat>>) {
    && |rest| <= |stored|
    && rest == stored[|stored| - |rest|..]
    && forall k :: 0 <= k < |stored| - |rest| ==> stored[k].None?
  }

  lemma PopUnsaved(rest: seq<Option<nat>>, stored: seq<Option<nat>>)
    requires Saved(rest, stored) && rest != [] && rest[0].None?
    ensures Saved(rest[1..], stored)
  {
    assert stored[|stored| - |rest|] == rest[0];
    assert rest[1..] == stored[|stored| - |rest| + 1..];
  }

  /** Popping a confirmed entry keeps the rest a suffix whose dropped part is gone. */
  lemma Pop(all: seq<Option<nat>>, rest: seq<Option<nat>>, live: set<nat>)
    requires DroppedGone(all, rest, live) && rest != [] && (rest[0].None? || rest[0].value !in live)
    ensures DroppedGone(all, rest[1..], live)
  {
    var k := |all| - |rest|;
    assert all[k] == rest[0];
    assert rest[1..] == all[k + 1..];
  }

  class Finalizer {
    // the PA as the API server stores it, and as the running reconcile holds it
    var storedListeners: seq<Option<ListenerId>>
    var storedGroups: seq<Option<GroupId>>
    var listeners: seq<Option<ListenerId>>
    var groups: seq<Option<GroupId>>
    var storedBinding: Binding
    var binding: Binding
    const me: PaId
    const refs: seq<GroupRef>
    var finalizer: bool
    // the claim annotations of the existing pods
    var claims: map<PodId, Option<PaId>>
    // the cloud: backends nobody has asked to leave, listeners with the ServerGroup they forward to, ServerGroups
    var backends: set<Backend>
    var cloudListeners: map<ListenerId, GroupId>
    var cloudGroups: set<GroupId>
    // what the PA tracked when its deletion began
    ghost const allListeners: seq<Option<ListenerId>>
    ghost const allGroups: seq<Option<GroupId>>

    /** A run that starts over from the stored lists finds no listener and no ServerGroup it has dealt with before. */
    ghost predicate AllSaved()
      reads this`listeners, this`groups, this`storedListeners, this`storedGroups
    {
      Saved(listeners, storedListeners) && Saved(groups, storedGroups)
    }

    ghost predicate Valid()
      reads this
    {
      && DroppedGone(allListeners, storedListeners, cloudListeners.Keys)
      && DroppedGone(allListeners, listeners, cloudListeners.Keys)
      && DroppedGone(allGroups, storedGroups, cloudGroups)
      && DroppedGone(allGroups, groups, cloudGroups)
      && (forall l :: l in cloudListeners ==> cloudListeners[l] in cloudGroups)
      && (!finalizer ==> NoneLive(allListeners, cloudListeners.Keys) && NoneLive(allGroups, cloudGroups))
    }

    constructor (me: PaId, refs: seq<GroupRef>, binding: Binding, claims: map<PodId, Option<PaId>>,
                 backends: set<Backend>, listeners: seq<Option<ListenerId>>, groups: seq<Option<GroupId>>,
                 cloudListeners: map<ListenerId, GroupId>, cloudGroups: set<GroupId>)
      requires forall l :: l in cloudListeners ==> cloudListeners[l] in cloudGroups
      ensures Valid() && finalizer
      ensures this.listeners == listeners && this.groups == groups
      ensures this.cloudListeners == cloudListeners && this.cloudGroups == cloudGroups
      ensures allListeners == listeners && allGroups == groups
      ensures this.me == me && this.refs == refs && this.binding == storedBinding == binding
      ensures this.claims == claims && this.backends == backends
    {
      this.me, this.refs, this.binding, storedBinding := me, refs, binding, binding;
      this.claims, this.backends := claims, backends;
      storedListeners, storedGroups := listeners, groups;
      this.listeners, this.groups := listeners, groups;
      finalizer := true;
      this.cloudListeners, this.cloudGroups := cloudListeners, cloudGroups;
      allListeners, allGroups := listeners, groups;
    }

    /** A status write; its error is ignored. */
    method SaveStatus(calm: bool)
      requires Valid()
      modifies this`storedListeners, this`storedGroups
      ensures Valid()
      ensures || (storedListeners == listeners && storedGroups == groups)
              || (!calm && storedListeners == old(storedListeners) && storedGroups == old(storedGroups))
    {
      var accepted: bool := *;
      if accepted || calm {
        storedListeners, storedGroups := listeners, groups;
      }
    }

    /** The cascade of a deleted NLB removes some listeners. */
    method Cascade(calm: bool)
      requires Valid()
      modifies this`cloudListeners
      ensures Valid() && cloudListeners.Keys <= old(cloudListeners.Keys)
      ensures forall l :: l in cloudListeners ==> cloudListeners[l] == old(cloudListeners)[l]
      ensures calm ==> cloudListeners == old(cloudListeners)
    {
      var gone: set<ListenerId> := *;
      gone := if calm then {} else gone;
      cloudListeners := cloudListeners - gone;
    }

    /** DeleteServerGroup: refused while a listener still forwards to the group; deleting an absent group is fine. */
    method DeleteServerGroup(g: GroupId, calm: bool) returns (ok: bool)
      requires Valid()
      requires NoneLive(allListeners, cloudListeners.Keys)
      modifies this`cloudGroups
      ensures Valid() && (ok ==> cloudGroups == old(cloudGroups) - {g}) && (!ok ==> cloudGroups == old(cloudGroups))
      ensures calm ==> (ok <==> g !in cloudListeners.Values)
    {
      ok := *;
      if (ok || calm) && (forall l | l in cloudListeners :: cloudListeners[l] != g) {
        cloudGroups := cloudGroups - {g};
        ok := true;
      } else {
        ok := false;
      }
    }

    /**
     Step 1, best effort: take the bound address out of the ServerGroups, drop the pod's claim, clear the spec.  Any of
     the three may fail; nothing but the binding's own backends and the PA's own claim is ever touched.
     */
    method Unbind(calm: bool)
      requires Valid() && finalizer
      modifies this`backends, this`claims, this`binding, this`storedBinding
      ensures Valid()
      ensures old(binding).ip.None? ==>
        && backends == old(backends) && claims == old(claims)
        && binding == old(binding) && storedBinding == old(storedBinding)
      ensures old(binding).ip.Some? ==>
        && binding == UNBOUND && (storedBinding == UNBOUND || storedBinding == old(storedBinding))
        && backends <= old(backends) && old(backends) - backends <= Targets(refs, old(binding).ip.value, |refs|)
        && OnlyOwnClaim(old(claims), claims, old(binding).pod, me)
      ensures calm && old(binding).ip.Some? ==>
        && storedBinding == UNBOUND && backends == old(backends) - Targets(refs, old(binding).ip.value, |refs|)
        && (old(binding).pod.Some? && old(binding).pod.value in claims ==> claims[old(binding).pod.value] != Some(me))
    {
      if binding.ip.None? {
        return;
      }
      RemoveServers(binding.ip.value, calm);
      ClearPodClaim(calm);
      binding := UNBOUND;
      var accepted: bool := *;
      if accepted || calm {
        storedBinding := binding;
      }
    }

    /** removeServers: one call for each ServerGroup; a throttled one is skipped, any other failure ends the loop. */
    method RemoveServers(ip: Addr, calm: bool)
      requires Valid()
      modifies this`backends
      ensures Valid() && backends <= old(backends) && old(backends) - backends <= Targets(refs, ip, |refs|)
      ensures forall b :: b in old(backends) && b !in backends ==>
        b.ip == ip && exists k :: 0 <= k < |refs| && refs[k].id == Some(b.group) && refs[k].port == b.port
      ensures calm ==> backends == old(backends) - Targets(refs, ip, |refs|)
      ensures calm ==> forall b, k :: b in backends && 0 <= k < |refs| ==>
        b.ip != ip || refs[k].id != Some(b.group) || refs[k].port != b.port
    {
      for k := 0 to |refs|
        invariant Valid() && backends <= old(backends) && old(backends) - backends <= Targets(refs, ip, k)
        invariant forall b :: b in old(backends) && b !in backends ==>
          b.ip == ip && exists j :: 0 <= j < |refs| && refs[j].id == Some(b.group) && refs[j].port == b.port
        invariant calm ==> backends == old(backends) - Targets(refs, ip, k)
        invariant calm ==> forall b, j :: b in backends && 0 <= j < k ==>
          b.ip != ip || refs[j].id != Some(b.group) || refs[j].port != b.port
      {
        assert Targets(refs, ip, k + 1)
            == Targets(refs, ip, k) + if refs[k].id.Some? then {Backend(refs[k].id.value, ip, refs[k].port)} else {};
        if refs[k].id.Some? {
          var accepted: bool, throttled: bool := *, *;
          if accepted || calm {
            backends := backends - {Backend(refs[k].id.value, ip, refs[k].port)};
          } else if !throttled {
            assert Targets(refs, ip, k) <= Targets(refs, ip, |refs|);
            return;
          }
        }
      }
    }

    /** clearPodClaim: the pod is read, and patched if it still names this PA; errors are swallowed. */
    method ClearPodClaim(calm: bool)
      requires Valid()
      modifies this`claims
      ensures Valid() && OnlyOwnClaim(old(claims), claims, binding.pod, me)
      ensures calm && binding.pod.Some? && binding.pod.value in claims ==> claims[binding.pod.value] != Some(me)
    {
      var read: bool, patched: bool := *, *;
      if binding.pod.None? || (!read && !calm) {
        return;
      }
      var p := binding.pod.value;
      if p in claims && claims[p] == Some(me) && (patched || calm) {
        claims := claims[p := None];
      }
    }

    /** The first listener is confirmed absent: drop it, and save unless the entry never had an ID. */
    method DropListener(calm: bool)
      requires Valid() && listeners != []
      requires listeners[0].Some? ==> listeners[0].value !in cloudListeners
      modifies this`listeners, this`storedListeners, this`storedGroups
      ensures Valid() && listeners == old(listeners)[1..] && (calm && old(AllSaved()) ==> AllSaved())
    {
      var l := listeners[0];
      Pop(allListeners, listeners, cloudListeners.Keys);
      if l.None? && Saved(listeners, storedListeners) {
        PopUnsaved(listeners, storedListeners);
      }
      listeners := listeners[1..];
      if l.Some? {
        SaveStatus(calm);
      }
    }

    /** The first ServerGroup is gone: drop it, and save unless the entry never had an ID. */
    method DropGroup(calm: bool)
      requires Valid() && groups != []
      requires groups[0].Some? ==> groups[0].value !in cloudGroups
      modifies this`groups, this`storedListeners, this`storedGroups
      ensures Valid() && groups == old(groups)[1..] && (calm && old(AllSaved()) ==> AllSaved())
    {
      var g := groups[0];
      Pop(allGroups, groups, cloudGroups);
      if g.None? && Saved(groups, storedGroups) {
        PopUnsaved(groups, storedGroups);
      }
      groups := groups[1..];
      if g.Some? {
        SaveStatus(calm);
      }
    }

    /** Step 2: pop the listeners confirmed absent; gone is false when the run has to end here. */
    method AwaitListeners(calm: bool) returns (gone: bool)
      requires Valid() && finalizer
      modifies this`listeners, this`storedListeners, this`storedGroups, this`cloudListeners
      ensures Valid()
      ensures cloudListeners.Keys <= old(cloudListeners.Keys)
      ensures exists n :: 0 <= n <= |old(listeners)| && listeners == old(listeners)[n..]
      ensures gone ==> listeners == [] && NoneLive(allListeners, cloudListeners.Keys)
      ensures forall l :: l in cloudListeners ==> cloudListeners[l] == old(cloudListeners)[l]
      ensures calm ==> cloudListeners == old(cloudListeners)
      ensures calm && old(AllSaved()) ==> AllSaved()
      ensures calm && NoneLive(old(listeners), old(cloudListeners.Keys)) ==> gone
    {
      ghost var n := 0;
      while listeners != []
        invariant Valid() && cloudListeners.Keys <= old(cloudListeners.Keys)
        invariant 0 <= n <= |old(listeners)| && listeners == old(listeners)[n..]
        invariant forall l :: l in cloudListeners ==> cloudListeners[l] == old(cloudListeners)[l]
        invariant calm ==> cloudListeners == old(cloudListeners)
        invariant calm && old(AllSaved()) ==> AllSaved()
        decreases |listeners|
      {
        Cascade(calm);
        var l := listeners[0];
        assert l == old(listeners)[n];
        if l.Some? {
          var answered: bool := *;
          if !answered && !calm {
            SaveStatus(calm);
            return false;
          }
          if l.value in cloudListeners {
            return false;
          }
        }
        DropListener(calm);
        n := n + 1;
      }
      return true;
    }

    /** Step 3: delete the tracked ServerGroups, which no tracked listener can use any more. */
    method DeleteGroups(calm: bool) returns (gone: bool)
      requires Valid() && finalizer && listeners == []
      modifies this`groups, this`storedListeners, this`storedGroups, this`cloudGroups
      ensures Valid()
      ensures exists n :: 0 <= n <= |old(groups)| && groups == old(groups)[n..]
      ensures cloudGroups <= old(cloudGroups)
      ensures forall g :: g in old(cloudGroups) && g !in cloudGroups ==> Some(g) in old(groups)
      ensures gone ==> groups == [] && NoneLive(allGroups, cloudGroups)
      ensures calm && old(AllSaved()) ==> AllSaved()
      ensures calm && Unused(old(groups), cloudListeners) ==> gone
    {
      ghost var n := 0;
      while groups != []
        invariant Valid()
        invariant 0 <= n <= |old(groups)| && groups == old(groups)[n..]
        invariant cloudGroups <= old(cloudGroups)
        invariant calm && old(AllSaved()) ==> AllSaved()
        invariant forall g :: g in old(cloudGroups) && g !in cloudGroups ==> Some(g) in old(groups)
        decreases |groups|
      {
        var g := groups[0];
        assert g == old(groups)[n];
        if g.Some? {
          var ok := DeleteServerGroup(g.value, calm);
          if !ok {
            var inUse := exists l | l in cloudListeners :: cloudListeners[l] == g.value;
            if !inUse {
              SaveStatus(calm);
            }
            return false;
          }
        }
        DropGroup(calm);
        n := n + 1;
      }
      return true;
    }

    /**
     One run of handleDeletion from the stored PA.  It touches no pod's claim but its own pod's, and no backend but its
     own.  Only tracked ServerGroups are deleted, and only after every
     tracked listener is gone; the finalizer goes only when all that was ever tracked is gone, however many earlier
     status writes were lost.  Once no listener holds on to anything, a calm run finishes.
     */
    method HandleDeletion(calm: bool) returns (done: bool)
      requires Valid() && finalizer
      modifies this
      ensures Valid() && done == !finalizer
      ensures done ==> NoneLive(allListeners, cloudListeners.Keys) && NoneLive(allGroups, cloudGroups)
      ensures backends <= old(backends) && OnlyOwnClaim(old(claims), claims, old(storedBinding).pod, me)
      ensures calm && old(storedBinding).ip.Some? ==>
        && storedBinding == UNBOUND && backends == old(backends) - Targets(refs, old(storedBinding).ip.value, |refs|)
        && (old(storedBinding).pod.Some? && old(storedBinding).pod.value in claims ==>
              claims[old(storedBinding).pod.value] != Some(me))
      ensures calm ==> AllSaved()
      ensures cloudGroups <= old(cloudGroups)
      ensures forall g :: g in old(cloudGroups) && g !in cloudGroups ==>
        Some(g) in old(storedGroups) && NoneLive(allListeners, cloudListeners.Keys)
      ensures calm && NoneLive(old(storedListeners), old(cloudListeners.Keys)) ==>
        Unused(old(storedGroups), old(cloudListeners)) ==> done
    {
      listeners, groups, binding := storedListeners, storedGroups, storedBinding;
      Unbind(calm);
      done := CleanUp(calm);
    }

    /** Steps 2 and 3, and the removal of the finalizer. */
    method CleanUp(calm: bool) returns (done: bool)
      requires Valid() && finalizer
      modifies this`listeners, this`groups, this`storedListeners, this`storedGroups, this`cloudListeners,
               this`cloudGroups, this`finalizer
      ensures Valid() && done == !finalizer
      ensures done ==> NoneLive(allListeners, cloudListeners.Keys) && NoneLive(allGroups, cloudGroups)
      ensures calm && old(AllSaved()) ==> AllSaved()
      ensures cloudGroups <= old(cloudGroups)
      ensures forall g :: g in old(cloudGroups) && g !in cloudGroups ==>
        Some(g) in old(groups) && NoneLive(allListeners, cloudListeners.Keys)
      ensures calm && NoneLive(old(listeners), old(cloudListeners.Keys)) ==>
        Unused(old(groups), old(cloudListeners)) ==> done
    {
      var gone := AwaitListeners(calm);
      if !gone {
        return false;
      }
      gone := DeleteGroups(calm);
      if !gone {
        return false;
      }
      var accepted: bool := *;
      done := accepted || calm;
      if done {
        finalizer := false;
      }
    }
  }
}
