/** controllers/seataserver_controller.go: the reconciler itself, proved against module Pass. */
module Reconciler {
  import opened Text
  import opened Utils
  import opened Api
  import opened Credentials
  import opened Generators
  import opened Synchronizers
  import opened Cluster
  import opened Pass

  class SeataServerReconciler {
    const api: ApiServer

    constructor (api: ApiServer)
      ensures this.api == api
    {
      this.api := api;
    }

    /** s is the pass's own copy of a stored server. */
    ghost predicate Working(s: SeataServer)
      reads api, s, s.replicas
    {
      s.key in api.world.servers && api.world.servers[s.key].uid == s.uid && api.world.servers[s.key].deleting == s.deleting
    }

    /** Retries a conflicting status write, at most RETRY_STEPS tries in all. */
    method RecordError(key: ObjectKey, kind: string, message: string, record: seq<Attempt>) returns (ok: bool)
      modifies api
      ensures api.world == Recorded(old(api.world), key, ServerError(kind, message), record)
      ensures ok == (key in old(api.world).servers && RecordLands(record, RETRY_STEPS))
    {
      var newError := ServerError(kind, message);
      var left := record;
      for tries := RETRY_STEPS downto 0
        invariant api.world == old(api.world)
        invariant key in api.world.servers ==> RecordLands(record, RETRY_STEPS) == RecordLands(left, tries)
      {
        if key !in api.world.servers || (left != [] && left[0] == Breaks) {
          return false;
        }
        var toUpdate := api.world.servers[key];
        var errors := toUpdate.status.errors;
        if |errors| >= MAX_RECENT_ERRORS {
          errors := errors[1..];
        }
        errors := errors + [newError];
        if left == [] || left[0] == Lands {
          toUpdate := toUpdate.(status := toUpdate.status.(errors := errors));
          api.world := api.world.(servers := api.world.servers[key := toUpdate]);
          return true;
        }
        left := left[1..];
      }
      return false;
    }

    method ReconcileHeadlessService(s: SeataServer, p: Plan) returns (ok: bool)
      requires Working(s)
      modifies api
      ensures StepResult(api.world, s.Value(), ok) == ServiceStep(old(api.world), s.key, s.Value(), p)
    {
      var svc := new HeadlessService(ObjectKey(s.key.namespace, s.serviceName), ServiceFor(s.key, s.SpecValue()));
      if p.ownServiceFails {
        var _ := RecordError(s.key, SERVICE_ERROR, "Failed to set owner reference for Headless Service", p.record);
        return false;
      }
      var r, found := api.GetService(svc.key, p.getServiceFails);
      if r == NotFound {
        var created := api.WriteService(svc, p.writeServiceFails);
        if created != Ok {
          var _ := RecordError(s.key, SERVICE_ERROR, "Failed to create Headless Service", p.record);
          return false;
        }
      } else if r != Ok {
        var _ := RecordError(s.key, SERVICE_ERROR, "Failed to get Headless Service", p.record);
        return false;
      } else {
        SyncService(found, svc);
        var updated := api.WriteService(found, p.writeServiceFails);
        if updated != Ok {
          var _ := RecordError(s.key, SERVICE_ERROR, "Failed to update Headless Service", p.record);
          return false;
        }
      }
      return true;
    }

    /** Takes over the counts; with the pods ready and the cluster not known in step, pushes the membership. */
    method Observe(s: SeataServer, foundSts: StatefulSet, sts: StatefulSet, p: Plan)
      requires sts.replicas == s.replicas
      modifies api, s`status
      ensures s.status == ObservedStatus(foundSts.Value(), old(s.Value()), PushGranted(old(api.world), s.key, s.SpecValue(), p))
      ensures api.world == if PushDue(foundSts.Value(), old(s.Value())) then Pushed(old(api.world), s.key, s.SpecValue(), p)
                           else old(api.world)
    {
      s.status := s.status.(replicas := foundSts.podReplicas);
      s.status := s.status.(readyReplicas := foundSts.readyReplicas);

      var readySize := foundSts.readyReplicas;
      var newSize := sts.replicas.value;
      if readySize != newSize {
        s.status := s.status.(synchronized := false);
      }
      if readySize == newSize && !s.status.synchronized {
        var username, password := ResolveCredentials(api.world.store, s.key.namespace, s.env);
        var pushed := api.SyncRaftCluster(s, p.grants, username, password);
        if !pushed {
          s.status := s.status.(synchronized := false);
        } else {
          s.status := s.status.(synchronized := true);
        }
      }
    }

    /** The desired state merged into the found StatefulSet, and this written. */
    method WriteMerged(s: SeataServer, foundSts: StatefulSet, sts: StatefulSet, p: Plan) returns (ok: bool)
      requires foundSts.key == s.key && s.key in api.world.sets && foundSts.Value() == api.world.sets[s.key] && foundSts != sts
      requires sts.replicas == s.replicas && sts.template == TemplateFor(s.key, s.SpecValue())
      modifies api, s.replicas, foundSts
      ensures ok == !p.writeSetFails && s.Value() == old(s.Value()) && sts.replicas.value == old(sts.replicas.value)
      ensures foundSts.Value() == UpdatedSet(old(api.world).sets[s.key], s.key, s.SpecValue())
      ensures api.world == if ok then old(api.world).(sets := old(api.world).sets[s.key := foundSts.Value()]) else old(api.world)
    {
      SyncStatefulSet(foundSts, sts);
      var r := api.WriteStatefulSet(foundSts, p.writeSetFails);
      ok := r == Ok;
    }

    method UpdateStatefulSet(s: SeataServer, foundSts: StatefulSet, sts: StatefulSet, p: Plan) returns (ok: bool)
      requires Working(s) && s.key in api.world.sets
      requires foundSts.key == s.key && foundSts.Value() == api.world.sets[s.key] && foundSts != sts
      requires sts.replicas == s.replicas && sts.template == TemplateFor(s.key, s.SpecValue())
      modifies api, s, s.replicas, foundSts
      ensures StepResult(api.world, s.Value(), ok) == UpdateSetStep(old(api.world), s.key, old(s.Value()), p)
    {
      ok := WriteMerged(s, foundSts, sts, p);
      if !ok {
        return false;
      }
      Observe(s, foundSts, sts, p);
      var r := api.UpdateStatus(s, p.writeStatusFails);
      ok := r == Ok;
    }

    method ReconcileStatefulSet(s: SeataServer, p: Plan) returns (ok: bool)
      requires Working(s)
      modifies api, s, s.replicas
      ensures StepResult(api.world, s.Value(), ok) == SetStep(old(api.world), s.key, old(s.Value()), p)
    {
      var sts := MakeStatefulSet(s);
      if p.ownSetFails {
        return false;
      }
      var r, foundSts := api.GetStatefulSet(sts.key, p.getSetFails);
      if r == NotFound {
        var created := api.WriteStatefulSet(sts, p.writeSetFails);
        if created != Ok {
          var _ := RecordError(s.key, SET_ERROR, "Failed to create StatefulSet", p.record);
          return false;
        }
      } else if r != Ok {
        var _ := RecordError(s.key, SET_ERROR, "Failed to get StatefulSet", p.record);
        return false;
      } else {
        var updated := UpdateStatefulSet(s, foundSts, sts, p);
        if !updated {
          var _ := RecordError(s.key, SET_ERROR, "Failed to update StatefulSet", p.record);
          return false;
        }
      }
      return true;
    }

    /** The deleting loop of both cleanups: all listed claims, or the orphans among them. */
    method DeleteListed(list: seq<Claim>, orphansOf: Option<int>, undeletable: set<ObjectKey>)
      modifies api
      ensures api.world == old(api.world).(claims := Without(old(api.world).claims, Doomed(list, orphansOf, undeletable)))
    {
      ghost var before := api.world;
      WithoutNothing(before.claims, {});
      assert Doomed(list[..0], orphansOf, undeletable) == {};
      for i := 0 to |list|
        invariant api.world == before.(claims := Without(before.claims, Doomed(list[..i], orphansOf, undeletable)))
      {
        var item := list[i];
        assert list[..i + 1] == list[..i] + [item];
        DoomedSnoc(list[..i], item, orphansOf, undeletable);
        if orphansOf.None? || IsPVCOrphan(item.key.name, orphansOf.value) {
          var _ := api.DeleteClaim(item.key, item.key in undeletable);
          WithoutTwice(before.claims, Doomed(list[..i], orphansOf, undeletable), {item.key});
        }
      }
      assert list[..|list|] == list;
    }

    method CleanupOrphanPVCs(s: SeataServer, p: Plan) returns (ok: bool)
      modifies api
      ensures StepResult(api.world, s.Value(), ok) == OrphanStep(old(api.world), s.key, s.Value(), p)
    {
      if s.status.readyReplicas == s.replicas.value {
        var counted, counting := api.ListClaims(s.key.namespace, s.key.name, s.uid, p.firstListFails);
        if counted != Ok {
          return false;
        }
        if |counting| > s.replicas.value {
          var listed, list := api.ListClaims(s.key.namespace, s.key.name, s.uid, p.secondListFails);
          if listed != Ok {
            return false;
          }
          DeleteListed(list, Some(s.replicas.value), p.undeletable);
        }
      }
      return true;
    }

    method CleanUpAllPVCs(s: SeataServer, p: Plan) returns (ok: bool)
      modifies api
      ensures ok == !p.firstListFails
      ensures api.world == if ok then old(api.world).(claims := Without(old(api.world).claims,
                             Doomed(ClaimsOf(old(api.world), s.key, s.Value()), None, p.undeletable))) else old(api.world)
    {
      var r, list := api.ListClaims(s.key.namespace, s.key.name, s.uid, p.firstListFails);
      if r != Ok {
        return false;
      }
      DeleteListed(list, None, p.undeletable);
      return true;
    }

    /** The branch for a server that is not being deleted. */
    method MarkLive(s: SeataServer, p: Plan) returns (ok: bool)
      requires Working(s)
      modifies api, s, s.replicas
      ensures StepResult(api.world, s.Value(), ok) == MarkStep(old(api.world), s.key, old(s.Value()), p)
    {
      var has := ContainsString(s.finalizers, SEATA_FINALIZER);
      if !has {
        s.finalizers := s.finalizers + [SEATA_FINALIZER];
        var r := api.UpdateServer(s, p.writeServerFails);
        if r != Ok {
          var _ := RecordError(s.key, SERVER_ERROR, "Failed to update resource SeataServer Finalizers", p.record);
          return false;
        }
      }
      ok := CleanupOrphanPVCs(s, p);
    }

    /** The branch for a server that is being deleted. */
    method Release(s: SeataServer, p: Plan) returns (ok: bool)
      requires Working(s)
      modifies api, s, s.replicas
      ensures StepResult(api.world, s.Value(), ok) == ReleaseStep(old(api.world), s.key, old(s.Value()), p)
    {
      var has := ContainsString(s.finalizers, SEATA_FINALIZER);
      if has {
        var cleaned := CleanUpAllPVCs(s, p);
        if !cleaned {
          var _ := RecordError(s.key, SERVER_ERROR, "Failed to delete resource SeataServer PVCs", p.record);
          return false;
        }
        s.finalizers := RemoveString(s.finalizers, SEATA_FINALIZER);
        var r := api.UpdateServer(s, p.writeServerFails);
        if r != Ok {
          var _ := RecordError(s.key, SERVER_ERROR, "Failed to update resource SeataServer Finalizers", p.record);
          return false;
        }
      }
      return true;
    }

    method ReconcileFinalizers(s: SeataServer, p: Plan) returns (ok: bool)
      requires Working(s)
      modifies api, s, s.replicas
      ensures StepResult(api.world, s.Value(), ok) == FinalizerStep(old(api.world), s.key, old(s.Value()), p)
    {
      if s.persistence.volumeReclaimPolicy != DELETE {
        return true;
      }
      if !s.deleting {
        ok := MarkLive(s, p);
      } else {
        ok := Release(s, p);
      }
    }

    /** The three steps in order, the first failure ending the pass. */
    method ReconcileLoadedServer(s: SeataServer, p: Plan) returns (result: PassResult)
      requires Working(s)
      modifies api, s, s.replicas
      ensures Outcome(api.world, result) == ReconcileLoaded(old(api.world), s.key, old(s.Value()), p)
    {
      var ok := ReconcileHeadlessService(s, p);
      if !ok { return Error; }
      ok := ReconcileStatefulSet(s, p);
      if !ok { return Error; }
      ok := ReconcileFinalizers(s, p);
      if !ok { return Error; }
      if !s.status.synchronized {
        return RequeueAfter;
      }
      return Done;
    }

    method Reconcile(key: ObjectKey, p: Plan) returns (result: PassResult)
      modifies api
      ensures Outcome(api.world, result) == Reconciled(old(api.world), key, p)
    {
      var r, s := api.GetServer(key, p.getServerFails);
      if r == NotFound {
        return Done;
      }
      if r != Ok {
        var _ := RecordError(key, SERVER_ERROR, "Failed to fetch SeataServer", p.record);
        return Error;
      }
      var changed := s.WithDefaults();
      if changed {
        var u := api.UpdateServer(s, p.writeServerFails);
        if u != Ok {
          var _ := RecordError(key, SERVER_ERROR, "Failed to update SeataServer with defaults", p.record);
          return Error;
        }
        return Requeue;
      }
      result := ReconcileLoadedServer(s, p);
    }
  }
}
