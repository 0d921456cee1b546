/** pkg/seata/synchronizers.go: the in-place merges of desired into found objects. */
module Synchronizers {
  import opened Api
  import opened Generators

  class HeadlessService {
    const key: ObjectKey
    const crName: string
    var ports: seq<NamedPort>

    constructor (key: ObjectKey, stored: Service)
      ensures this.key == key && Value() == stored
    {
      this.key := key;
      crName := stored.crName;
      ports := stored.ports;
    }

    function Value(): Service
      reads this
    {
      Service(crName, ports)
    }
  }

  method SyncService(curr: HeadlessService, next: HeadlessService)
    modifies curr
    ensures curr.Value() == old(curr.Value()).(ports := next.ports)
  {
    curr.ports := next.ports;
  }

  /** Template and replicas are taken over, the replicas by pointer: from here on curr and next, and
      whatever next was made from, share one cell. */
  method SyncStatefulSet(curr: StatefulSet, next: StatefulSet)
    modifies curr
    ensures curr.replicas == next.replicas
    ensures curr.Value() == old(curr.Value()).(template := next.template, replicas := next.replicas.value)
  {
    curr.template := next.template;
    curr.replicas := next.replicas;
  }
}
