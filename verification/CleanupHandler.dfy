/** pkg/finalizer/cleanup_handler.go: list-then-delete loops that carry on past failed deletes. Both API
    versions run the same code. */
module CleanupHandler {
  import opened Lists
  import opened Api

  datatype Kind = PersistentVolumeClaims | ConfigMaps | Secrets

  datatype Object = Object(kind: Kind, key: ObjectKey, labels: map<string, string>)

  /** How a List ends. */
  datatype Listing = Listed | NoneFound | ListFails

  /** How each List ends and which objects' Deletes fail. */
  datatype Faults = Faults(lists: Kind -> Listing, undeletable: set<Object>)

  predicate Selects(selector: map<string, string>, labels: map<string, string>) {
    forall l :: l in selector ==> l in labels && labels[l] == selector[l]
  }

  predicate Matches(o: Object, kind: Kind, namespace: string, selector: map<string, string>) {
    o.kind == kind && o.key.namespace == namespace && Selects(selector, o.labels)
  }

  function Matching(objects: seq<Object>, kind: Kind, namespace: string, selector: map<string, string>): seq<Object> {
    Filter(objects, (o: Object) => Matches(o, kind, namespace, selector))
  }

  /** The objects that go when these are attempted. */
  function Dead(attempted: seq<Object>, undeletable: set<Object>): set<Object> {
    (set o | o in attempted) - undeletable
  }

  function Remaining(objects: seq<Object>, dead: set<Object>): seq<Object> {
    Filter(objects, (o: Object) => o !in dead)
  }

  lemma RemainingTwice(objects: seq<Object>, a: set<Object>, b: set<Object>)
    ensures Remaining(Remaining(objects, a), b) == Remaining(objects, a + b)
  {
    FilterTwice(objects, (o: Object) => o !in a, (o: Object) => o !in b, (o: Object) => o !in a + b);
  }

  lemma RemainingNothing(objects: seq<Object>)
    ensures Remaining(objects, {}) == objects
  {
    var none: set<Object> := {};
    FilterAll(objects, (o: Object) => o !in none);
  }

  /** Deleting objects of other kinds does not change what a List of this kind returns. */
  lemma OtherKindStays(objects: seq<Object>, dead: set<Object>, kind: Kind, namespace: string, selector: map<string, string>)
    requires forall o :: o in dead ==> o.kind != kind
    ensures Matching(Remaining(objects, dead), kind, namespace, selector) == Matching(objects, kind, namespace, selector)
  {
    var wanted := (o: Object) => Matches(o, kind, namespace, selector);
    FilterTwice(objects, (o: Object) => o !in dead, wanted, wanted);
  }

  /** Two rounds of attempts leave what one joint round would. */
  lemma AttemptsAdd(objects: seq<Object>, a: seq<Object>, b: seq<Object>, undeletable: set<Object>)
    ensures Remaining(Remaining(objects, Dead(a, undeletable)), Dead(b, undeletable)) == Remaining(objects, Dead(a + b, undeletable))
  {
    RemainingTwice(objects, Dead(a, undeletable), Dead(b, undeletable));
    assert Dead(a + b, undeletable) == Dead(a, undeletable) + Dead(b, undeletable);
  }

  function ClaimSelector(name: string, uid: string): map<string, string> {
    map["app" := name, "uid" := uid]
  }

  function NameSelector(name: string): map<string, string> {
    map["app" := name]
  }

  /** What a List returns and the loop behind it goes through. */
  function Attempted(objects: seq<Object>, kind: Kind, namespace: string, selector: map<string, string>, f: Faults): seq<Object> {
    if f.lists(kind) == Listed then Matching(objects, kind, namespace, selector) else []
  }

  /** The first loop's attempts. */
  function ClaimAttempts(objects: seq<Object>, name: string, namespace: string, uid: string, policy: string, f: Faults): seq<Object> {
    if policy == DELETE then Attempted(objects, PersistentVolumeClaims, namespace, ClaimSelector(name, uid), f) else []
  }

  /** The attempts of the two loops behind it. */
  function OtherAttempts(objects: seq<Object>, name: string, namespace: string, f: Faults): seq<Object> {
    Attempted(objects, ConfigMaps, namespace, NameSelector(name), f) + Attempted(objects, Secrets, namespace, NameSelector(name), f)
  }

  /** All delete attempts of a cleanup, in order. */
  function AllAttempts(objects: seq<Object>, name: string, namespace: string, uid: string, policy: string, f: Faults): seq<Object> {
    if policy == DELETE && f.lists(PersistentVolumeClaims) == ListFails then []
    else ClaimAttempts(objects, name, namespace, uid, policy, f) + OtherAttempts(objects, name, namespace, f)
  }

  /** Attempts on other kinds do not change what a loop goes through, and what is left adds up. */
  lemma LoopAfter(objects: seq<Object>, first: seq<Object>, kind: Kind, namespace: string, selector: map<string, string>, f: Faults)
    requires forall o :: o in first ==> o.kind != kind
    ensures var rest := Remaining(objects, Dead(first, f.undeletable));
            var list := Attempted(objects, kind, namespace, selector, f);
            && Attempted(rest, kind, namespace, selector, f) == list
            && Remaining(rest, Dead(list, f.undeletable)) == Remaining(objects, Dead(first + list, f.undeletable))
  {
    OtherKindStays(objects, Dead(first, f.undeletable), kind, namespace, selector);
    AttemptsAdd(objects, first, Attempted(objects, kind, namespace, selector, f), f.undeletable);
  }

  lemma OthersAfterClaims(objects: seq<Object>, first: seq<Object>, name: string, namespace: string, f: Faults)
    requires forall o :: o in first ==> o.kind == PersistentVolumeClaims
    ensures var rest := Remaining(objects, Dead(first, f.undeletable));
            var others := OtherAttempts(objects, name, namespace, f);
            && OtherAttempts(rest, name, namespace, f) == others
            && Remaining(rest, Dead(others, f.undeletable)) == Remaining(objects, Dead(first + others, f.undeletable))
  {
    LoopAfter(objects, first, ConfigMaps, namespace, NameSelector(name), f);
    LoopAfter(objects, first, Secrets, namespace, NameSelector(name), f);
    AttemptsAdd(objects, first, OtherAttempts(objects, name, namespace, f), f.undeletable);
  }

  class Handler {
    var objects: seq<Object>
    var attempts: seq<Object>

    /** Delete one object; an error other than NotFound is logged by the callers and forgotten. */
    method Delete(o: Object, f: Faults) returns (ok: bool)
      modifies this
      ensures attempts == old(attempts) + [o] && objects == Remaining(old(objects), Dead([o], f.undeletable))
      ensures ok == (o !in f.undeletable)
    {
      attempts := attempts + [o];
      ok := o !in f.undeletable;
      assert Dead([o], f.undeletable) == if ok then {o} else {};
      RemainingNothing(objects);
      if ok {
        objects := Remaining(objects, {o});
      }
    }

    method DeleteAll(list: seq<Object>, f: Faults)
      modifies this
      ensures attempts == old(attempts) + list && objects == Remaining(old(objects), Dead(list, f.undeletable))
    {
      RemainingNothing(objects);
      assert Dead(list[..0], f.undeletable) == {};
      for i := 0 to |list|
        invariant attempts == old(attempts) + list[..i]
        invariant objects == Remaining(old(objects), Dead(list[..i], f.undeletable))
      {
        AttemptsAdd(old(objects), list[..i], [list[i]], f.undeletable);
        assert list[..i + 1] == list[..i] + [list[i]];
        var _ := Delete(list[i], f);
      }
      assert list[..|list|] == list;
    }

    method CleanupKind(kind: Kind, namespace: string, selector: map<string, string>, f: Faults) returns (ok: bool)
      modifies this
      ensures ok == (f.lists(kind) != ListFails)
      ensures var list := Attempted(old(objects), kind, namespace, selector, f);
              attempts == old(attempts) + list && objects == Remaining(old(objects), Dead(list, f.undeletable))
    {
      RemainingNothing(objects);
      assert Dead([], f.undeletable) == {};
      match f.lists(kind) {
        case ListFails => return false;
        case NoneFound => return true;
        case Listed =>
          DeleteAll(Matching(objects, kind, namespace, selector), f);
          return true;
      }
    }

    /** The ConfigMap and Secret loops, whose errors the caller only logs. */
    method CleanupOthers(name: string, namespace: string, f: Faults)
      modifies this
      ensures var list := OtherAttempts(old(objects), name, namespace, f);
              attempts == old(attempts) + list && objects == Remaining(old(objects), Dead(list, f.undeletable))
    {
      LoopAfter(objects, Attempted(objects, ConfigMaps, namespace, NameSelector(name), f), Secrets, namespace, NameSelector(name), f);
      var _ := CleanupKind(ConfigMaps, namespace, NameSelector(name), f);
      var _ := CleanupKind(Secrets, namespace, NameSelector(name), f);
    }

    method HandleCleanup(name: string, namespace: string, uid: string, policy: string, f: Faults) returns (ok: bool)
      modifies this
      ensures ok == !(policy == DELETE && f.lists(PersistentVolumeClaims) == ListFails)
      ensures var list := AllAttempts(old(objects), name, namespace, uid, policy, f);
              attempts == old(attempts) + list && objects == Remaining(old(objects), Dead(list, f.undeletable))
    {
      RemainingNothing(objects);
      assert Dead([], f.undeletable) == {};
      OthersAfterClaims(objects, ClaimAttempts(objects, name, namespace, uid, policy, f), name, namespace, f);
      if policy == DELETE {
        var claims := CleanupKind(PersistentVolumeClaims, namespace, ClaimSelector(name, uid), f);
        if !claims {
          return false;
        }
      }
      CleanupOthers(name, namespace, f);
      return true;
    }
  }

  // ---------------------------------------------------------------- what a cleanup amounts to

  predicate Once(objects: seq<Object>) {
    forall i, j :: 0 <= i < j < |objects| ==> objects[i] != objects[j]
  }

  predicate Carries(o: Object, name: string, value: string) {
    name in o.labels && o.labels[name] == value
  }

  /** The object is one this cleanup is after: by namespace and labels, whatever other labels it carries. */
  predicate Owned(o: Object, name: string, namespace: string, uid: string, policy: string) {
    && o.key.namespace == namespace && Carries(o, "app", name)
    && (o.kind == PersistentVolumeClaims ==> policy == "Delete" && Carries(o, "uid", uid))
  }

  lemma OwnedMeansSelected(o: Object, name: string, namespace: string, uid: string, policy: string)
    ensures Owned(o, name, namespace, uid, policy) <==>
            || (policy == DELETE && Matches(o, PersistentVolumeClaims, namespace, ClaimSelector(name, uid)))
            || Matches(o, ConfigMaps, namespace, NameSelector(name))
            || Matches(o, Secrets, namespace, NameSelector(name))
  {
    var byUid, byName := ClaimSelector(name, uid), NameSelector(name);
    assert Selects(byName, o.labels) <==> Carries(o, "app", name) by {
      assert "app" in byName;
    }
    assert Selects(byUid, o.labels) <==> Carries(o, "app", name) && Carries(o, "uid", uid) by {
      assert "app" in byUid && "uid" in byUid;
    }
  }

  lemma {:induction false} FilterOnce(objects: seq<Object>, keep: Object -> bool)
    requires Once(objects)
    ensures Once(Filter(objects, keep))
  {
    if objects != [] {
      var front, last := objects[..|objects| - 1], objects[|objects| - 1];
      FilterOnce(front, keep);
      assert last !in front;
    }
  }

  lemma MatchingOnce(objects: seq<Object>, kind: Kind, namespace: string, selector: map<string, string>)
    requires Once(objects)
    ensures Once(Matching(objects, kind, namespace, selector))
  {
    FilterOnce(objects, (o: Object) => Matches(o, kind, namespace, selector));
  }

  lemma OnceTogether(a: seq<Object>, b: seq<Object>)
    requires Once(a) && Once(b) && forall o :: o in a ==> o !in b
    ensures Once(a + b)
  {
    forall i, j | 0 <= i < j < |a + b| ensures (a + b)[i] != (a + b)[j] {
      if i < |a| <= j { assert a[i] in a && b[j - |a|] in b; }
    }
  }

  /** Whatever deletes fail: if the claims cannot be listed nothing at all is touched; otherwise every
      object behind a successful list gets exactly one attempt and nothing else gets any. */
  lemma CleanupExactly(objects: seq<Object>, name: string, namespace: string, uid: string, policy: string, f: Faults)
    requires Once(objects)
    ensures Once(AllAttempts(objects, name, namespace, uid, policy, f))
    ensures forall o :: o in AllAttempts(objects, name, namespace, uid, policy, f) <==>
              && o in objects && Owned(o, name, namespace, uid, policy) && f.lists(o.kind) == Listed
              && !(policy == DELETE && f.lists(PersistentVolumeClaims) == ListFails)
  {
    MatchingOnce(objects, PersistentVolumeClaims, namespace, ClaimSelector(name, uid));
    MatchingOnce(objects, ConfigMaps, namespace, NameSelector(name));
    MatchingOnce(objects, Secrets, namespace, NameSelector(name));
    forall o ensures Owned(o, name, namespace, uid, policy) <==>
                     || (policy == DELETE && Matches(o, PersistentVolumeClaims, namespace, ClaimSelector(name, uid)))
                     || Matches(o, ConfigMaps, namespace, NameSelector(name))
                     || Matches(o, Secrets, namespace, NameSelector(name))
    {
      OwnedMeansSelected(o, name, namespace, uid, policy);
    }
    OnceTogether(Attempted(objects, ConfigMaps, namespace, NameSelector(name), f),
                 Attempted(objects, Secrets, namespace, NameSelector(name), f));
    OnceTogether(ClaimAttempts(objects, name, namespace, uid, policy, f), OtherAttempts(objects, name, namespace, f));
  }

  /** What is left: everything not owned, and of the owned what was not listed or resisted deletion. */
  lemma SurvivorsExactly(objects: seq<Object>, name: string, namespace: string, uid: string, policy: string, f: Faults, o: Object)
    requires Once(objects) && o in objects
    ensures o in Remaining(objects, Dead(AllAttempts(objects, name, namespace, uid, policy, f), f.undeletable)) <==>
              || !Owned(o, name, namespace, uid, policy) || o in f.undeletable || f.lists(o.kind) != Listed
              || (policy == DELETE && f.lists(PersistentVolumeClaims) == ListFails)
  {
    CleanupExactly(objects, name, namespace, uid, policy, f);
  }

  /** Claims go first, then ConfigMaps, then Secrets. */
  lemma CleanupOrder(objects: seq<Object>, name: string, namespace: string, uid: string, policy: string, f: Faults, i: nat, j: nat)
    requires i < j < |AllAttempts(objects, name, namespace, uid, policy, f)|
    ensures var list := AllAttempts(objects, name, namespace, uid, policy, f);
            && (list[j].kind == PersistentVolumeClaims ==> list[i].kind == PersistentVolumeClaims)
            && (list[i].kind == Secrets ==> list[j].kind == Secrets)
  {
    var claims := ClaimAttempts(objects, name, namespace, uid, policy, f);
    var maps := Attempted(objects, ConfigMaps, namespace, NameSelector(name), f);
    var secrets := Attempted(objects, Secrets, namespace, NameSelector(name), f);
    var list := AllAttempts(objects, name, namespace, uid, policy, f);
    assert list == claims + (maps + secrets);
    forall k | 0 <= k < |list|
      ensures list[k] in (if k < |claims| then claims else if k < |claims| + |maps| then maps else secrets)
    {
    }
  }
}
