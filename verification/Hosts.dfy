/** Sets of hosts keyed by their IDs. */
module Hosts {
  import opened Results

  datatype HostStatus = Healthy | Warning | Connecting | ConnectedError | SessionExpired | Initializing
  datatype HostState = InUse | EnteringMaintenance | Maintenance

  datatype Host = Host(id: string, status: Option<HostStatus>, state: Option<HostState>, memory: int)
  type HostSet = map<string, Host>

  /** A memory of zero or less is not checked. */
  predicate IsAvailable(host: Host, memory: int) {
    && host.status.Some?
    && !host.status.value.ConnectedError? && !host.status.value.SessionExpired? && !host.status.value.Initializing?
    && (host.state.Some? ==> host.state.value.InUse?)
    && !(memory > 0 && memory > host.memory)
  }

  /** Connected in some way, not in or entering maintenance, and with the memory that is asked for. */
  lemma AvailableIff(host: Host, memory: int)
    ensures IsAvailable(host, memory) <==>
            && (host.status == Some(Healthy) || host.status == Some(Warning) || host.status == Some(Connecting))
            && host.state != Some(Maintenance) && host.state != Some(EnteringMaintenance)
            && (memory <= 0 || memory <= host.memory)
  {
  }

  predicate Keyed(hosts: HostSet) {
    forall id :: id in hosts ==> hosts[id].id == id
  }

  function Where(hosts: HostSet, wanted: Host -> bool): HostSet {
    map id | id in hosts && wanted(hosts[id]) :: hosts[id]
  }

  function Find(hosts: HostSet, ids: set<string>): HostSet {
    Where(hosts, (h: Host) => h.id in ids)
  }

  function Difference(hosts: HostSet, others: HostSet): HostSet {
    Where(hosts, (h: Host) => h.id !in others)
  }

  /** Finding some hosts and taking them away split the set in two. */
  lemma FindAndDifference(hosts: HostSet, ids: set<string>)
    requires Keyed(hosts)
    ensures var found, rest := Find(hosts, ids), Difference(hosts, Find(hosts, ids));
            && Keyed(found) && Keyed(rest)
            && found.Keys == hosts.Keys * ids && rest.Keys == hosts.Keys - ids
            && found + rest == hosts
  {
  }

  /** Inserting each host in turn, absent ones skipped, keys every host by its ID. */
  method NewHosts(list: seq<Option<Host>>) returns (hosts: HostSet)
    ensures Keyed(hosts)
    ensures forall h :: h in hosts.Values ==> Some(h) in list
    ensures forall i :: 0 <= i < |list| && list[i].Some? ==> list[i].value.id in hosts
    ensures forall i :: 0 <= i < |list| && list[i].Some? &&
                        (forall j :: i < j < |list| && list[j].Some? ==> list[j].value.id != list[i].value.id)
                        ==> hosts[list[i].value.id] == list[i].value
  {
    hosts := map[];
    for n := 0 to |list|
      invariant Keyed(hosts)
      invariant forall h :: h in hosts.Values ==> Some(h) in list
      invariant forall i :: 0 <= i < n && list[i].Some? ==> list[i].value.id in hosts
      invariant forall i :: 0 <= i < n && list[i].Some? &&
                            (forall j :: i < j < n && list[j].Some? ==> list[j].value.id != list[i].value.id)
                            ==> hosts[list[i].value.id] == list[i].value
    {
      if list[n].Some? {
        hosts := hosts[list[n].value.id := list[n].value];
      }
    }
  }

  /** The hosts that pass a filter, collected from the values of the set in whatever order they come. */
  method Filter(hosts: HostSet, wanted: Host -> bool) returns (kept: HostSet)
    requires Keyed(hosts)
    ensures kept == Where(hosts, wanted)
  {
    kept := map[];
    var left := hosts;
    while left != map[]
      invariant left.Keys <= hosts.Keys && forall id :: id in left ==> left[id] == hosts[id]
      invariant forall id :: id in kept <==> id in hosts && id !in left && wanted(hosts[id])
      invariant forall id :: id in kept ==> kept[id] == hosts[id]
      decreases |left|
    {
      var id :| id in left;
      if wanted(left[id]) {
        kept := kept[left[id].id := left[id]];
      }
      left := left - {id};
    }
  }
}
