/** Who is in a placement group and where, over every run of join attempts and of Tower. */
module PlacementRuns {
  import opened Results
  import opened Hosts
  import opened Tower
  import opened PlacementGroup
  import opened PlacementMigration

  datatype State = State(vms: map<string, VM>, members: set<string>)

  /** What a machine brings to an attempt to join. */
  datatype Attempt = Attempt(spec: Spec, e: Answers, st: Status, vm: string, target: string)

  datatype Step =
    | TryJoin(attempt: Attempt, applied: bool)
    | Place(vm: VM)
    | Remove(id: string)
    | Leave(id: string)

  predicate Up(s: State, id: string) {
    id in s.vms && !s.vms[id].status.Stopped?
  }

  predicate ApartFrom(s: State, id: string, host: string) {
    forall other :: other in s.members && other != id && Up(s, other) ==> s.vms[other].host != host
  }

  /** No two members that are up share a host. */
  predicate Apart(s: State) {
    forall id :: id in s.members && Up(s, id) ==> ApartFrom(s, id, s.vms[id].host)
  }

  /** The attempt sees the group as it is, the VMs of all its members, and its own VM. */
  predicate Current(s: State, a: Attempt) {
    && a.vm in s.vms && s.vms[a.vm].id == a.vm
    && (a.e.group.Group? ==> a.e.group.members == s.members)
    && (forall id :: id in s.members && id in s.vms ==> s.vms[id] in a.e.memberVMs)
    && Keyed(a.e.hosts) && Listable(a.spec, a.e, s.vms[a.vm], a.target)
  }

  function Outcome(s: State, a: Attempt): Out
    requires a.vm in s.vms
  {
    Join(a.spec, a.e, a.st, s.vms[a.vm], a.target)
  }

  /** The group after a member set was sent to Tower and its task succeeded. */
  function Updated(s: State, calls: seq<Call>, applied: bool): State {
    if applied && calls != [] && calls[0].UpdateGroup? then s.(members := calls[0].members) else s
  }

  predicate Next(s: State, step: Step, s': State) {
    match step
    case TryJoin(a, applied) =>
      && Current(s, a) && a.spec.controlPlane && a.spec.failureDomain == ""
      && s' == Updated(s, Outcome(s, a).calls, applied)
    // Tower starts, moves, stops or creates a virtual machine, and keeps the policy for members.
    case Place(vm) =>
      && (vm.id in s.members && !vm.status.Stopped? ==> ApartFrom(s, vm.id, vm.host))
      && s' == s.(vms := s.vms[vm.id := vm])
    case Remove(id) => s' == State(s.vms - {id}, s.members - {id})
    case Leave(id) => s' == s.(members := s.members - {id})
  }

  predicate Run(states: seq<State>, steps: seq<Step>) {
    && |states| == |steps| + 1 && Apart(states[0])
    && forall i :: 0 <= i < |steps| ==> Next(states[i], steps[i], states[i + 1])
  }

  /** What an attempt sends to Tower: nothing, one migration of its own VM, or the old members and its VM. */
  lemma JoinAddsOnlyItself(s: State, a: Attempt)
    requires Current(s, a)
    ensures var calls := Outcome(s, a).calls;
            || calls == []
            || calls == [Migrate(a.vm, a.target)]
            || (a.vm !in s.members && calls == [UpdateGroup(a.e.group.id, s.members + {a.vm})])
  {
    hide Join, Listable;
    JoinCalls(a.spec, a.e, a.st, s.vms[a.vm], a.target);
  }

  /** A group is newly recorded for a machine only when its VM is in the group, or was just put there. */
  lemma RecordsMembership(s: State, a: Attempt)
    requires Current(s, a) && Outcome(s, a).status.groupRef != a.st.groupRef
    ensures a.e.group.Group? && Outcome(s, a).status.groupRef == a.e.group.id
    ensures a.vm in Updated(s, Outcome(s, a).calls, true).members
  {
    hide Targets, UsedHosts, RecordedHosts;
  }

  /** On the control plane path a VM that is up is only added from a host no member is on. */
  lemma JoinsFromFreeHost(s: State, a: Attempt)
    requires Current(s, a) && a.spec.controlPlane && a.spec.failureDomain == ""
    requires Outcome(s, a).calls != [] && Outcome(s, a).calls[0].UpdateGroup?
    ensures Up(s, a.vm) ==> ApartFrom(s, a.vm, s.vms[a.vm].host)
  {
    hide Join, Listable;
    JoinIsFree(a.spec, a.e, a.st, s.vms[a.vm], a.target);
  }

  lemma StepKeepsApart(s: State, step: Step, s': State)
    requires Apart(s) && Next(s, step, s')
    ensures Apart(s')
  {
    hide Join, Current;
    if step.TryJoin? {
      var a := step.attempt;
      assert a.vm in s.vms by { CurrentHasVM(s, a); }
      JoinAddsOnlyItself(s, a);
      if Outcome(s, a).calls != [] && Outcome(s, a).calls[0].UpdateGroup? {
        JoinsFromFreeHost(s, a);
      }
    }
  }

  lemma CurrentHasVM(s: State, a: Attempt)
    requires Current(s, a)
    ensures a.vm in s.vms
  {
  }

  /** In every run no two members that are up ever share a host. */
  lemma {:induction false} RunKeepsApart(states: seq<State>, steps: seq<Step>, i: nat)
    requires Run(states, steps) && i < |states|
    ensures Apart(states[i])
  {
    hide Next;
    if i > 0 {
      RunKeepsApart(states, steps, i - 1);
      StepKeepsApart(states[i - 1], steps[i - 1], states[i]);
    }
  }

  // ---- Joining by any path ----

  /** The attempt sees no VM but those of members. */
  predicate Exact(s: State, a: Attempt) {
    Current(s, a) && forall vm :: vm in a.e.memberVMs ==> exists id :: id in s.members && id in s.vms && s.vms[id] == vm
  }

  /** Whatever path an attempt takes, in a failure domain or not, adding its VM keeps the members apart
      exactly when the VM is stopped or the attempt sees no member that is up on the VM's host. */
  lemma UpdateKeepsApartIff(s: State, a: Attempt)
    requires Apart(s) && Exact(s, a) && Outcome(s, a).calls != [] && Outcome(s, a).calls[0].UpdateGroup?
    ensures var vm := s.vms[a.vm];
            Apart(Updated(s, Outcome(s, a).calls, true)) <==>
            vm.status.Stopped? || forall m :: m in a.e.memberVMs && !m.status.Stopped? ==> m.host != vm.host
  {
    hide Join, Listable;
    JoinAddsOnlyItself(s, a);
    var vm, after := s.vms[a.vm], Updated(s, Outcome(s, a).calls, true);
    if m :| m in a.e.memberVMs && !m.status.Stopped? && m.host == vm.host {
      var id :| id in s.members && id in s.vms && s.vms[id] == m;
      assert id in after.members && Up(after, id);
      if !vm.status.Stopped? {
        assert a.vm in after.members && Up(after, a.vm);
        assert !ApartFrom(after, a.vm, vm.host);
      }
    } else if !vm.status.Stopped? {
      assert ApartFrom(after, a.vm, vm.host);
    }
  }

  /** In a failure domain the VM is added wherever it is, so that two members can share a host. */
  lemma FailureDomainMayCollide()
    ensures exists s: State, a: Attempt ::
              && Current(s, a) && a.spec.controlPlane && a.spec.failureDomain != "" && Apart(s)
              && !Apart(Updated(s, Outcome(s, a).calls, true))
  {
    var first, second := VM("first", "host", Running), VM("second", "host", Running);
    var s := State(map["first" := first, "second" := second], {"first"});
    var e := Answers(
      false, true, Group("group", {"first"}), false, map[], false, [first],
      false, ControlPlane(3, 3, 3), false, [], false, false, false, false);
    var a := Attempt(Spec("machine", true, "domain", 0), e, Status("", false), "second", "");
    assert Targets(a.spec, e, second) == map[];
    assert Current(s, a);
    var calls := Outcome(s, a).calls;
    assert |"first"| != |"second"|;
    assert calls == [UpdateGroup("group", {"first"} + {"second"})];
    var after := Updated(s, calls, true);
    assert "first" in after.members && "second" in after.members && Up(after, "first") && Up(after, "second");
    assert !ApartFrom(after, "first", "host");
  }
}
