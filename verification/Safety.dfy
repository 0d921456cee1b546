/** Which volume claims a reconciler may delete, over every run and every interleaving. */
module Safety {
  import opened Text
  import opened Utils
  import opened Api
  import opened Cluster
  import opened Pass
  import opened Runs

  /** The ready count a pass compares with the replicas: that of the StatefulSet it updates, or the
      stored one when it creates the StatefulSet. */
  function ReadySeen(w: World, key: ObjectKey): int
    requires key in w.servers
  {
    if key in w.sets then w.sets[key].readyReplicas else w.servers[key].status.readyReplicas
  }

  /** The pass over a live server comes to delete orphans: both objects and the finalizer are in place, the
      ready count it saw is the replica count, and both Lists succeed, the first showing more claims. */
  predicate LiveCleanup(w: World, key: ObjectKey, p: Plan) {
    && PassesSet(w, key, p) && !w.servers[key].deleting
    && w.servers[key].spec.persistence.volumeReclaimPolicy == DELETE
    && (SEATA_FINALIZER in w.servers[key].finalizers || !p.writeServerFails)
    && !p.firstListFails && !p.secondListFails
    && ReadySeen(w, key) == w.servers[key].spec.replicas < |ClaimsOf(w, key, w.servers[key])|
  }

  /** The pass over a server being deleted comes to delete all its claims. */
  predicate FinalCleanup(w: World, key: ObjectKey, p: Plan) {
    && PassesSet(w, key, p) && w.servers[key].deleting && SEATA_FINALIZER in w.servers[key].finalizers
    && w.servers[key].spec.persistence.volumeReclaimPolicy == DELETE
    && !p.firstListFails
  }

  /** The claims after one of these, or neither. */
  function ClaimsAfter(w: World, key: ObjectKey, p: Plan): seq<Claim> {
    if LiveCleanup(w, key, p) then
      Without(w.claims, Doomed(ClaimsOf(w, key, w.servers[key]), Some(w.servers[key].spec.replicas), p.undeletable))
    else if FinalCleanup(w, key, p) then
      Without(w.claims, Doomed(ClaimsOf(w, key, w.servers[key]), None, p.undeletable))
    else w.claims
  }

  lemma SetStepReady(w: World, key: ObjectKey, s: Server, p: Plan)
    requires key in w.servers && s == Loaded(w, key) && SetStep(w, key, s, p).ok
    ensures var r := SetStep(w, key, s, p).server;
            && r.uid == s.uid && r.deleting == s.deleting && r.finalizers == s.finalizers
            && r.status.readyReplicas == ReadySeen(w, key)
            && r.spec.replicas == s.spec.replicas
            && (r.spec == s.spec || r.spec == w.servers[key].spec)
            && r.status == SetStep(w, key, s, p).world.servers[key].status
  {
    SetStepFrame(w, key, s, p);
    if key in w.sets { UpdateSetStepFrame(w, key, s, p); }
  }

  lemma FinalizerStepClaims(v: World, key: ObjectKey, t: Server, p: Plan)
    requires key in v.servers && v.servers[key].status == t.status
    ensures FinalizerStep(v, key, t, p).world.claims ==
            if t.spec.persistence.volumeReclaimPolicy != DELETE then v.claims
            else if t.deleting then
              if SEATA_FINALIZER in t.finalizers && !p.firstListFails
              then Without(v.claims, Doomed(ClaimsOf(v, key, t), None, p.undeletable)) else v.claims
            else if (SEATA_FINALIZER in t.finalizers || !p.writeServerFails) && !p.firstListFails && !p.secondListFails
                    && t.status.readyReplicas == t.spec.replicas < |ClaimsOf(v, key, t)|
            then Without(v.claims, Doomed(ClaimsOf(v, key, t), Some(t.spec.replicas), p.undeletable))
            else v.claims
  {
  }

  lemma PassingClaims(w: World, key: ObjectKey, p: Plan)
    requires PassesSet(w, key, p)
    ensures Reconciled(w, key, p).world.claims == ClaimsAfter(w, key, p)
  {
    var s := Loaded(w, key);
    var service := ServiceStep(w, key, s, p);
    PassesSetExactly(w, key, p);
    ServiceStepFrame(w, key, s, p);
    var second := SetStep(service.world, key, s, p);
    SetStepFrame(service.world, key, s, p);
    SetStepReady(service.world, key, s, p);
    LoadedOutcome(w, key, p);
    FinalizerStepClaims(second.world, key, second.server, p);
  }

  lemma StoppedClaims(w: World, key: ObjectKey, p: Plan)
    requires !PassesSet(w, key, p)
    ensures Reconciled(w, key, p).world.claims == w.claims
  {
    if !p.getServerFails && Settable(w, key) {
      var s := Loaded(w, key);
      PassesSetExactly(w, key, p);
      ServiceStepFrame(w, key, s, p);
      SetStepFrame(ServiceStep(w, key, s, p).world, key, s, p);
    }
  }

  /** What any pass leaves of the claims, whatever fails in it: it does one of two cleanups, each under
      exactly its condition, or leaves them alone. */
  lemma PassClaims(w: World, key: ObjectKey, p: Plan)
    ensures Reconciled(w, key, p).world.claims == ClaimsAfter(w, key, p)
  {
    if PassesSet(w, key, p) {
      PassingClaims(w, key, p);
    } else {
      StoppedClaims(w, key, p);
    }
  }

  // ---------------------------------------------------------------- one pass

  /** A claim is known by its key. */
  predicate KeyedOnce(claims: seq<Claim>) {
    forall c, c' :: c in claims && c' in claims && c.key == c'.key ==> c == c'
  }

  /** The server under this key may have the claim deleted. */
  predicate Entitled(w: World, key: ObjectKey, c: Claim) {
    && key in w.servers
    && w.servers[key].spec.persistence.volumeReclaimPolicy == DELETE
    && Labelled(c, key.namespace, key.name, w.servers[key].uid)
    && (w.servers[key].deleting || IsPVCOrphan(c.key.name, w.servers[key].spec.replicas))
  }

  /** Whatever fails, a pass deletes only claims it is entitled to; of a live server, only once the ready
      count it saw is the replica count, and never one whose true ordinal is below the replica count. */
  lemma DeletedClaim(w: World, key: ObjectKey, p: Plan, c: Claim)
    requires KeyedOnce(w.claims) && c in w.claims && c !in Reconciled(w, key, p).world.claims
    ensures Entitled(w, key, c) && c.key !in p.undeletable
    ensures w.servers[key].deleting ==> SEATA_FINALIZER in w.servers[key].finalizers
    ensures !w.servers[key].deleting ==>
              && ReadySeen(w, key) == w.servers[key].spec.replicas < |ClaimsOf(w, key, w.servers[key])|
              && forall k: nat :: c.key.name == PvcName(key.name, k) ==> k >= w.servers[key].spec.replicas
  {
    PassClaims(w, key, p);
    forall k: nat | c.key.name == PvcName(key.name, k)
      ensures IsPVCOrphan(c.key.name, w.servers[key].spec.replicas) ==> k >= w.servers[key].spec.replicas
    {
      OrphanExactly(key.name, k, w.servers[key].spec.replicas);
    }
  }

  // ---------------------------------------------------------------- runs

  /** The event is not a user deleting this claim, nor a pass entitled to. */
  predicate Spares(w: World, e: Event, c: Claim) {
    && (e.ClaimDeleted? ==> e.key != c.key)
    && (e.PassRuns? ==> !Entitled(w, e.key, c))
  }

  lemma KeyedOnceKept(w: World, e: Event)
    requires KeyedOnce(w.claims)
    ensures KeyedOnce(After(w, e).claims)
  {
    if e.PassRuns? {
      PassClaims(w, e.key, e.plan);
    }
  }

  /** A claim survives every run in which nobody entitled to delete it acts. */
  lemma {:induction false} ClaimSurvives(w: World, events: seq<Event>, c: Claim)
    requires KeyedOnce(w.claims) && c in w.claims
    requires forall n :: 0 <= n < |events| ==> Spares(Run(w, events[..n]), events[n], c)
    ensures KeyedOnce(Run(w, events).claims) && c in Run(w, events).claims
  {
    if events != [] {
      var n := |events| - 1;
      forall m | 0 <= m < n ensures Spares(Run(w, events[..n][..m]), events[..n][m], c) {
        assert events[..n][..m] == events[..m];
      }
      ClaimSurvives(w, events[..n], c);
      var v := Run(w, events[..n]);
      KeyedOnceKept(v, events[n]);
      if events[n].PassRuns? && c !in After(v, events[n]).claims {
        DeletedClaim(v, events[n].key, events[n].plan, c);
        assert false;
      }
    }
  }

  /** The claim of pod k of a server: named after both, and labelled with the server's name and uid; it may
      carry any other labels. */
  predicate VolumeOf(c: Claim, owner: ObjectKey, uid: string, k: nat) {
    && c.key == ObjectKey(owner.namespace, "seata-store-" + owner.name + "-" + Dec(k))
    && "app" in c.labels && c.labels["app"] == owner.name && "uid" in c.labels && c.labels["uid"] == uid
  }

  /** In the cluster, the volume of pod k is one the owner wants: the owner, if it is still the same
      one, either retains volumes or is live and has more than k replicas. */
  predicate Wanted(w: World, owner: ObjectKey, uid: string, k: nat) {
    owner in w.servers && w.servers[owner].uid == uid ==>
      || w.servers[owner].spec.persistence.volumeReclaimPolicy != DELETE
      || (!w.servers[owner].deleting && k < w.servers[owner].spec.replicas)
  }

  lemma WantedIsSpared(v: World, e: Event, owner: ObjectKey, uid: string, k: nat, c: Claim)
    requires VolumeOf(c, owner, uid, k) && Wanted(v, owner, uid, k) && (e.ClaimDeleted? ==> e.key != c.key)
    ensures Spares(v, e, c)
  {
    if e.PassRuns? && Entitled(v, e.key, c) {
      assert e.key == owner;
      OrphanExactly(owner.name, k, v.servers[owner].spec.replicas);
      assert false;
    }
  }

  /** The volumes 0..Replicas-1 of every server survive every run: passes of that server, of other
      servers and of a later server of the same name, with any calls failing; so do all volumes of a
      server that retains them, even when it is deleted. */
  lemma WantedVolumeSurvives(w: World, events: seq<Event>, owner: ObjectKey, uid: string, k: nat, c: Claim)
    requires KeyedOnce(w.claims) && c in w.claims && VolumeOf(c, owner, uid, k)
    requires forall n :: 0 <= n < |events| ==> Wanted(Run(w, events[..n]), owner, uid, k)
    requires forall n :: 0 <= n < |events| && events[n].ClaimDeleted? ==> events[n].key != c.key
    ensures c in Run(w, events).claims
  {
    forall n | 0 <= n < |events| ensures Spares(Run(w, events[..n]), events[n], c) {
      WantedIsSpared(Run(w, events[..n]), events[n], owner, uid, k, c);
    }
    ClaimSurvives(w, events, c);
  }
}
