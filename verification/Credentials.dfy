/** pkg/seata/fetchers.go, and the loop of the reconciler that resolves the console credentials. */
module Credentials {
  import opened Text
  import opened Api

  const USERNAME := "console.user.username"
  const PASSWORD := "console.user.password"
  const FALLBACK := "seata"

  /** The objects a value can refer to; a Get of a broken one fails with something other than NotFound. */
  datatype Store = Store(configMaps: map<ObjectKey, map<string, string>>,
                         secrets: map<ObjectKey, map<string, string>>,
                         brokenConfigMaps: set<ObjectKey>, brokenSecrets: set<ObjectKey>)

  datatype Fetched = Fetched(value: string, failed: bool)

  function FetchKey(objects: map<ObjectKey, map<string, string>>, broken: set<ObjectKey>,
                    namespace: string, sel: KeySelector): Fetched
  {
    var key := ObjectKey(namespace, sel.name);
    if key in broken then Fetched("", true)
    else if key !in objects then Fetched("", !sel.optional)
    else if sel.key !in objects[key] then Fetched("", !sel.optional)
    else Fetched(objects[key][sel.key], false)
  }

  function FetchEnvVar(store: Store, namespace: string, e: EnvVar): Fetched {
    match e.valueFrom
    case None => Fetched(e.value, false)
    case Some(source) =>
      match source.configMapKeyRef
      case Some(sel) => FetchKey(store.configMaps, store.brokenConfigMaps, namespace, sel)
      case None =>
        match source.secretKeyRef
        case Some(sel) => FetchKey(store.secrets, store.brokenSecrets, namespace, sel)
        case None => Fetched("", false)
  }

  /** The entry a container sees under a name: of several, the last. */
  function LastNamed(env: seq<EnvVar>, name: string): (r: Option<EnvVar>)
    ensures r == None <==> forall e :: e in env ==> e.name != name
  {
    if env == [] then None
    else
      var last := env[|env| - 1];
      assert env == env[..|env| - 1] + [last];
      if last.name == name then Some(last) else LastNamed(env[..|env| - 1], name)
  }

  function Resolved(store: Store, namespace: string, env: seq<EnvVar>, name: string): string {
    match LastNamed(env, name)
    case None => FALLBACK
    case Some(e) => FetchEnvVar(store, namespace, e).value
  }

  /** A later entry overwrites an earlier one, and a failed fetch leaves the empty string. */
  method ResolveCredentials(store: Store, namespace: string, env: seq<EnvVar>)
    returns (username: string, password: string)
    ensures username == Resolved(store, namespace, env, USERNAME)
    ensures password == Resolved(store, namespace, env, PASSWORD)
  {
    username, password := FALLBACK, FALLBACK;
    for i := 0 to |env|
      invariant username == Resolved(store, namespace, env[..i], USERNAME)
      invariant password == Resolved(store, namespace, env[..i], PASSWORD)
    {
      assert env[..i + 1][..i] == env[..i];
      if env[i].name == USERNAME {
        username := FetchEnvVar(store, namespace, env[i]).value;
      }
      if env[i].name == PASSWORD {
        password := FetchEnvVar(store, namespace, env[i]).value;
      }
    }
    assert env[..|env|] == env;
  }

  lemma {:induction false} LastNamedAt(env: seq<EnvVar>, i: nat, name: string)
    requires i < |env| && env[i].name == name
    requires forall j :: i < j < |env| ==> env[j].name != name
    ensures LastNamed(env, name) == Some(env[i])
  {
    if i < |env| - 1 {
      LastNamedAt(env[..|env| - 1], i, name);
    }
  }

  lemma {:induction false} LastNamedAppended(front: seq<EnvVar>, back: seq<EnvVar>, name: string)
    ensures LastNamed(front + back, name) ==
            if LastNamed(back, name).Some? then LastNamed(back, name) else LastNamed(front, name)
  {
    if back == [] {
      assert front + back == front;
    } else {
      var all := front + back;
      assert all[..|all| - 1] == front + back[..|back| - 1];
      LastNamedAppended(front, back[..|back| - 1], name);
    }
  }

  /** The value a reference stands for, if the object and the key are there. */
  function Referenced(objects: map<ObjectKey, map<string, string>>, namespace: string, sel: KeySelector): Option<string> {
    var key := ObjectKey(namespace, sel.name);
    if key in objects && sel.key in objects[key] then Some(objects[key][sel.key]) else None
  }

  /** A ConfigMap reference goes before a Secret reference. A fetch fails exactly when the object cannot be
      read, or its key or itself is missing and the reference is not optional; a failed or missing value is
      the empty string. */
  lemma FetchExactly(store: Store, namespace: string, e: EnvVar)
    ensures var r := FetchEnvVar(store, namespace, e);
            match e.valueFrom
            case None => r == Fetched(e.value, false)
            case Some(source) =>
              if source.configMapKeyRef.None? && source.secretKeyRef.None? then r == Fetched("", false)
              else
                var useMap := source.configMapKeyRef.Some?;
                var sel := if useMap then source.configMapKeyRef.value else source.secretKeyRef.value;
                var broken := ObjectKey(namespace, sel.name) in if useMap then store.brokenConfigMaps else store.brokenSecrets;
                var held := Referenced(if useMap then store.configMaps else store.secrets, namespace, sel);
                && (r.failed <==> broken || (held == None && !sel.optional))
                && r.value == if broken || held == None then "" else held.value
  {
  }

  /** The entry with every reference made optional. */
  function Forgiving(e: EnvVar): EnvVar {
    match e.valueFrom
    case None => e
    case Some(source) =>
      var config := if source.configMapKeyRef.Some? then Some(source.configMapKeyRef.value.(optional := true)) else None;
      var secret := if source.secretKeyRef.Some? then Some(source.secretKeyRef.value.(optional := true)) else None;
      e.(valueFrom := Some(source.(configMapKeyRef := config, secretKeyRef := secret)))
  }

  /** Optional only forgives: it never changes the value, and a fetch that still fails would fail without it.
      A failed fetch yields nothing. Behind a ConfigMap reference no Secret is looked at. */
  lemma FetchLaws(store: Store, namespace: string, e: EnvVar, other: Store)
    ensures var r, forgiven := FetchEnvVar(store, namespace, e), FetchEnvVar(store, namespace, Forgiving(e));
            forgiven.value == r.value && (forgiven.failed ==> r.failed) && (r.failed ==> r.value == "")
    ensures e.valueFrom.Some? && e.valueFrom.value.configMapKeyRef.Some?
            && other.configMaps == store.configMaps && other.brokenConfigMaps == store.brokenConfigMaps
            ==> FetchEnvVar(other, namespace, e) == FetchEnvVar(store, namespace, e)
  {
  }
}
