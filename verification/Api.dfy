/** api/v1alpha1/seataserver_types.go and api/v1/seataserver_types.go (the two versions have the
    same fields and the same defaulting): the SeataServer resource, as the API server stores it
    and as the mutable object a reconcile pass works on. */
module Api {
  import opened Text

  const RETAIN := "Retain"
  const DELETE := "Delete"
  const READ_WRITE_ONCE := "ReadWriteOnce"
  const STORAGE := "storage"

  /** Quantities are integers: bytes for storage and memory, millicores for cpu. */
  const GI: int := 0x4000_0000
  const DEFAULT_STORAGE: int := 5 * GI

  const DEFAULT_CONTAINER := "seata-server"
  const DEFAULT_SERVICE := "seata-server-cluster"
  const DEFAULT_IMAGE := "apache/seata-server:latest"

  datatype ObjectKey = ObjectKey(namespace: string, name: string)

  datatype Ports = Ports(consolePort: int, servicePort: int, raftPort: int)

  const NO_PORTS := Ports(0, 0, 0)
  const DEFAULT_PORTS := Ports(7091, 8091, 9091)

  datatype KeySelector = KeySelector(name: string, key: string, optional: bool)
  datatype EnvSource = EnvSource(configMapKeyRef: Option<KeySelector>, secretKeyRef: Option<KeySelector>,
                                 fieldPath: Option<string>)
  datatype EnvVar = EnvVar(name: string, value: string, valueFrom: Option<EnvSource>)

  datatype Resources = Resources(requests: map<string, int>, limits: map<string, int>)
  datatype ClaimSpec = ClaimSpec(accessModes: seq<string>, requests: map<string, int>)
  datatype Persistence = Persistence(volumeReclaimPolicy: string, claim: ClaimSpec)

  datatype Spec = Spec(containerName: string, image: string, env: seq<EnvVar>, resources: Resources,
                       replicas: int, serviceName: string, ports: Ports, persistence: Persistence,
                       storeSize: Option<int>)

  datatype ServerError = ServerError(kind: string, message: string)

  datatype Status = Status(synchronized: bool, replicas: int, readyReplicas: int, errors: seq<ServerError>)

  /** A SeataServer as stored: metadata that matters, spec and status. */
  datatype Server = Server(uid: string, deleting: bool, finalizers: seq<string>, spec: Spec, status: Status)

  // ---------------------------------------------------------------- what defaulting means

  predicate Unset(p: Persistence) {
    || (p.volumeReclaimPolicy != DELETE && p.volumeReclaimPolicy != RETAIN)
    || STORAGE !in p.claim.requests
    || p.claim.requests[STORAGE] == 0
  }

  /** Some field that defaulting reports on is not set. */
  predicate DefaultsPending(s: Spec) {
    || s.containerName == "" || s.serviceName == "" || s.image == ""
    || s.ports == NO_PORTS || Unset(s.persistence) || s.storeSize == None
  }

  function DefaultedPersistence(p: Persistence): Persistence {
    Persistence(
      if p.volumeReclaimPolicy == DELETE then DELETE else RETAIN,
      ClaimSpec([READ_WRITE_ONCE],
                if STORAGE in p.claim.requests && p.claim.requests[STORAGE] != 0
                then p.claim.requests else map[STORAGE := DEFAULT_STORAGE]))
  }

  function OrDefault(s: string, d: string): string {
    if s == "" then d else s
  }

  function Defaulted(s: Spec): Spec {
    s.(containerName := OrDefault(s.containerName, DEFAULT_CONTAINER),
       serviceName := OrDefault(s.serviceName, DEFAULT_SERVICE),
       image := OrDefault(s.image, DEFAULT_IMAGE),
       ports := if s.ports == NO_PORTS then DEFAULT_PORTS else s.ports,
       persistence := DefaultedPersistence(s.persistence),
       storeSize := if s.storeSize == None then Some(DEFAULT_STORAGE) else s.storeSize)
  }

  // ---------------------------------------------------------------- the object in memory

  /** The cell behind &s.Spec.Replicas, which the desired and the found StatefulSet come to share. */
  class ReplicaCell {
    var value: int

    constructor (v: int)
      ensures value == v
    {
      value := v;
    }
  }

  /** The SeataServer of one reconcile pass; its methods update it in place. */
  class SeataServer {
    const key: ObjectKey
    const uid: string
    const replicas: ReplicaCell
    var deleting: bool
    var finalizers: seq<string>
    var containerName: string
    var image: string
    var env: seq<EnvVar>
    var resources: Resources
    var serviceName: string
    var ports: Ports
    var persistence: Persistence
    var storeSize: Option<int>
    var status: Status

    /** A decoded copy of the stored resource. */
    constructor (k: ObjectKey, stored: Server)
      ensures key == k && Value() == stored && fresh(replicas)
    {
      key := k;
      uid := stored.uid;
      replicas := new ReplicaCell(stored.spec.replicas);
      deleting := stored.deleting;
      finalizers := stored.finalizers;
      containerName := stored.spec.containerName;
      image := stored.spec.image;
      env := stored.spec.env;
      resources := stored.spec.resources;
      serviceName := stored.spec.serviceName;
      ports := stored.spec.ports;
      persistence := stored.spec.persistence;
      storeSize := stored.spec.storeSize;
      status := stored.status;
    }

    function SpecValue(): Spec
      reads this, replicas
    {
      Spec(containerName, image, env, resources, replicas.value, serviceName, ports, persistence, storeSize)
    }

    function Value(): Server
      reads this, replicas
    {
      Server(uid, deleting, finalizers, SpecValue(), status)
    }

    /** The answer of a successful write is decoded over this object, through the shared cell too. */
    method Decode(stored: Server)
      requires stored.uid == uid
      modifies this, replicas
      ensures Value() == stored
    {
      deleting, finalizers, status := stored.deleting, stored.finalizers, stored.status;
      containerName, image, env := stored.spec.containerName, stored.spec.image, stored.spec.env;
      resources, serviceName, ports := stored.spec.resources, stored.spec.serviceName, stored.spec.ports;
      persistence, storeSize := stored.spec.persistence, stored.spec.storeSize;
      replicas.value := stored.spec.replicas;
    }

    method PortsWithDefaults() returns (changed: bool)
      modifies this`ports
      ensures changed == (old(ports) == NO_PORTS)
      ensures ports == if changed then DEFAULT_PORTS else old(ports)
    {
      if ports == NO_PORTS {
        ports := ports.(consolePort := 7091);
        ports := ports.(servicePort := 8091);
        ports := ports.(raftPort := 9091);
        return true;
      }
      return false;
    }

    method PersistenceWithDefaults() returns (changed: bool)
      modifies this`persistence
      ensures changed == Unset(old(persistence))
      ensures persistence == DefaultedPersistence(old(persistence))
    {
      changed := false;
      if persistence.volumeReclaimPolicy != DELETE && persistence.volumeReclaimPolicy != RETAIN {
        changed := true;
        persistence := persistence.(volumeReclaimPolicy := RETAIN);
      }
      persistence := persistence.(claim := persistence.claim.(accessModes := [READ_WRITE_ONCE]));
      var requests := persistence.claim.requests;
      if STORAGE !in requests || requests[STORAGE] == 0 {
        persistence := persistence.(claim := persistence.claim.(requests := map[STORAGE := DEFAULT_STORAGE]));
        changed := true;
      }
    }

    method WithDefaults() returns (changed: bool)
      modifies this`containerName, this`serviceName, this`image, this`ports, this`persistence, this`storeSize
      ensures changed == DefaultsPending(old(SpecValue()))
      ensures SpecValue() == Defaulted(old(SpecValue()))
    {
      changed := false;
      if containerName == "" {
        containerName := DEFAULT_CONTAINER;
        changed := true;
      }
      if serviceName == "" {
        serviceName := DEFAULT_SERVICE;
        changed := true;
      }
      if image == "" {
        image := DEFAULT_IMAGE;
        changed := true;
      }
      var portsChanged := PortsWithDefaults();
      var persistenceChanged := PersistenceWithDefaults();
      changed := portsChanged || persistenceChanged || changed;
      if storeSize == None {
        storeSize := Some(DEFAULT_STORAGE);
        changed := true;
      }
    }
  }

  // ---------------------------------------------------------------- defaulting is a fixed point

  /** A second defaulting reports nothing and changes nothing; one that reports nothing changes at
      most the access modes; and it reports nothing on exactly its own results, access modes aside. */
  lemma DefaultedIsFixedPoint(s: Spec)
    ensures !DefaultsPending(Defaulted(s)) && Defaulted(Defaulted(s)) == Defaulted(s)
    ensures !DefaultsPending(s) <==>
            s == Defaulted(s).(persistence := DefaultedPersistence(s.persistence).(claim :=
              DefaultedPersistence(s.persistence).claim.(accessModes := s.persistence.claim.accessModes)))
    ensures Defaulted(s).replicas == s.replicas && Defaulted(s).env == s.env && Defaulted(s).resources == s.resources
    ensures var c := Defaulted(s).persistence.claim;
            c.accessModes == [READ_WRITE_ONCE] && STORAGE in c.requests && c.requests[STORAGE] != 0
  {
  }

  /** What the defaults are, field by field. */
  lemma DefaultsAre(s: Spec)
    ensures var d := Defaulted(s);
            && d.containerName == (if s.containerName == "" then "seata-server" else s.containerName)
            && d.serviceName == (if s.serviceName == "" then "seata-server-cluster" else s.serviceName)
            && d.image == (if s.image == "" then "apache/seata-server:latest" else s.image)
            && d.env == s.env && d.resources == s.resources && d.replicas == s.replicas
    ensures var none := s.ports.consolePort == 0 && s.ports.servicePort == 0 && s.ports.raftPort == 0;
            && Defaulted(s).ports.consolePort == (if none then 7091 else s.ports.consolePort)
            && Defaulted(s).ports.servicePort == (if none then 8091 else s.ports.servicePort)
            && Defaulted(s).ports.raftPort == (if none then 9091 else s.ports.raftPort)
    ensures var c, policy := s.persistence.claim, s.persistence.volumeReclaimPolicy;
            && Defaulted(s).persistence.volumeReclaimPolicy == (if policy in {"Retain", "Delete"} then policy else "Retain")
            && Defaulted(s).persistence.claim.accessModes == ["ReadWriteOnce"]
            && Defaulted(s).persistence.claim.requests ==
               (if "storage" in c.requests && c.requests["storage"] != 0 then c.requests else map["storage" := 5368709120])
            && Defaulted(s).storeSize == (if s.storeSize == None then Some(5368709120) else s.storeSize)
  {
  }
}
