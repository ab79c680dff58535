/**
 * The ECR handler (lib/handlers/ecr.go): for every namespace that is not
 * excluded, keep a docker-config secret holding the registry tokens; in an
 * excluded namespace, remove that secret. The cluster's secrets are a map
 * reached through four API calls; the token fetch is an input.
 */
module EcrHandlers {
  import opened Outcomes
  import opened Handlers

  /** The watched object (`*v1.Namespace`), identified by its name. */
  datatype Namespace = Namespace(name: string)

  /** One `auths` entry of a docker config. */
  datatype RegistryAuth = RegistryAuth(auth: string, email: string)

  /** The docker config; its JSON bytes are represented by the value itself. */
  datatype DockerConfig = DockerConfig(auths: map<string, RegistryAuth>)

  /** The parts of a `v1.Secret` the handler sets. */
  datatype Secret = Secret(name: string, namespace: string, secretType: string, data: map<string, DockerConfig>)

  /** What a Get of a secret that does not exist hands back: an empty object. */
  const EmptySecret := Secret("", "", "", map[])

  const DefaultSecretName := "ecr"
  const DockerConfigJsonType := "kubernetes.io/dockerconfigjson"
  const DockerConfigJsonKey := ".dockerconfigjson"
  const NoEmail := "none"

  /** One authorization returned by ECR: the registry endpoint and its token. */
  datatype AuthData = AuthData(proxyEndpoint: string, authorizationToken: string)

  /** A secret's address: (namespace, name). */
  type SecretRef = (string, string)

  /**
   * The cluster as the handler sees it: its secrets, the secrets whose writes
   * the API server refuses (for instance, for lack of permission), and the
   * addresses whose reads fail (the handler ignores a read's error and sees
   * the empty object the client hands back with it).
   */
  datatype ClusterState = ClusterState(secrets: map<SecretRef, Secret>, rejected: set<SecretRef>,
                                       unreadable: set<SecretRef>)

  /** Every stored secret sits at its own address and has a name. */
  predicate WellFormed(st: ClusterState) {
    forall r :: r in st.secrets ==> st.secrets[r].namespace == r.0 && st.secrets[r].name == r.1 && r.1 != ""
  }

  // ---------------------------------------------------------------------------
  // The Kubernetes secret API on that state.

  const Forbidden := Error("forbidden")
  const AlreadyExists := Error("already exists")
  const NotFound := Error("not found")

  /** Get: the stored secret, or the empty object when there is none or the read fails. */
  function ApiGet(st: ClusterState, namespace: string, name: string): Secret {
    var r := (namespace, name);
    if r in st.secrets && r !in st.unreadable then st.secrets[r] else EmptySecret
  }

  /** Create: refused when the secret exists already. */
  function ApiCreate(st: ClusterState, namespace: string, s: Secret): Reply<ClusterState> {
    var r := (namespace, s.name);
    if r in st.rejected then Reply(st, Failure(Forbidden))
    else if r in st.secrets then Reply(st, Failure(AlreadyExists))
    else Reply(st.(secrets := st.secrets[r := s]), Success)
  }

  /** Update: refused when the secret does not exist. */
  function ApiUpdate(st: ClusterState, namespace: string, s: Secret): Reply<ClusterState> {
    var r := (namespace, s.name);
    if r in st.rejected then Reply(st, Failure(Forbidden))
    else if r !in st.secrets then Reply(st, Failure(NotFound))
    else Reply(st.(secrets := st.secrets[r := s]), Success)
  }

  /** Delete: refused when the secret does not exist. */
  function ApiDelete(st: ClusterState, namespace: string, name: string): Reply<ClusterState> {
    var r := (namespace, name);
    if r in st.rejected then Reply(st, Failure(Forbidden))
    else if r !in st.secrets then Reply(st, Failure(NotFound))
    else Reply(st.(secrets := st.secrets - {r}), Success)
  }

  /** The cluster's secret API as an object whose secrets the calls change. */
  class Cluster {
    var secrets: map<SecretRef, Secret>
    const rejected: set<SecretRef>
    const unreadable: set<SecretRef>

    function State(): ClusterState
      reads this
    {
      ClusterState(secrets, rejected, unreadable)
    }

    constructor (secrets: map<SecretRef, Secret>, rejected: set<SecretRef>, unreadable: set<SecretRef>)
      ensures State() == ClusterState(secrets, rejected, unreadable)
    {
      this.secrets := secrets;
      this.rejected := rejected;
      this.unreadable := unreadable;
    }

    method GetSecret(namespace: string, name: string) returns (s: Secret)
      ensures s == ApiGet(State(), namespace, name)
    {
      var r := (namespace, name);
      if r in secrets && r !in unreadable {
        s := secrets[r];
      } else {
        s := EmptySecret;
      }
    }

    method CreateSecret(namespace: string, s: Secret) returns (err: Outcome)
      modifies this
      ensures Reply(State(), err) == ApiCreate(old(State()), namespace, s)
    {
      var r := (namespace, s.name);
      if r in rejected {
        return Failure(Forbidden);
      } else if r in secrets {
        return Failure(AlreadyExists);
      }
      secrets := secrets[r := s];
      return Success;
    }

    method UpdateSecret(namespace: string, s: Secret) returns (err: Outcome)
      modifies this
      ensures Reply(State(), err) == ApiUpdate(old(State()), namespace, s)
    {
      var r := (namespace, s.name);
      if r in rejected {
        return Failure(Forbidden);
      } else if r !in secrets {
        return Failure(NotFound);
      }
      secrets := secrets[r := s];
      return Success;
    }

    method DeleteSecret(namespace: string, name: string) returns (err: Outcome)
      modifies this
      ensures Reply(State(), err) == ApiDelete(old(State()), namespace, name)
    {
      var r := (namespace, name);
      if r in rejected {
        return Failure(Forbidden);
      } else if r !in secrets {
        return Failure(NotFound);
      }
      secrets := secrets - {r};
      return Success;
    }
  }

  // ---------------------------------------------------------------------------
  // The handler's settings and its decisions.

  /** The handler's configuration: the excluded namespaces and the secret's name. */
  datatype EcrSettings = EcrSettings(excludeNamespaces: seq<string>, secretName: string)

  /** The secret name `NewEcrHandler` settles on: the one given, or "ecr" when none is. */
  function SecretNameOrDefault(secretName: string): (name: string)
    ensures name != ""
    ensures secretName != "" ==> name == secretName
    ensures secretName == "" ==> name == DefaultSecretName
  {
    if secretName != "" then secretName else DefaultSecretName
  }

  /** Linear search for `x` in `xs` (the repository's `InArray`). */
  function InArray(x: string, xs: seq<string>): (found: bool)
    ensures found <==> x in xs
  {
    if xs == [] then false else xs[0] == x || InArray(x, xs[1..])
  }

  /** `ifSkip`: a namespace is skipped exactly when it is listed as excluded. */
  predicate IfSkip(h: EcrSettings, namespace: string): (skip: bool)
    ensures skip <==> namespace in h.excludeNamespaces
  {
    InArray(namespace, h.excludeNamespaces)
  }

  /** The `auths` map after the loop over the fetched tokens: later endpoints overwrite earlier ones. */
  function AuthsOf(data: seq<AuthData>): map<string, RegistryAuth>
    decreases |data|
  {
    if data == [] then map[]
    else
      var last := data[|data| - 1];
      AuthsOf(data[..|data| - 1])[last.proxyEndpoint := RegistryAuth(last.authorizationToken, NoEmail)]
  }

  /**
   * One entry per endpoint that occurs, and no other; each holds the token of
   * the endpoint's last occurrence, with email "none".
   */
  lemma AuthsOfEntries(data: seq<AuthData>)
    ensures forall e :: e in AuthsOf(data) <==> exists i :: 0 <= i < |data| && data[i].proxyEndpoint == e
    ensures forall i :: 0 <= i < |data| && (forall j :: i < j < |data| ==> data[j].proxyEndpoint != data[i].proxyEndpoint)
              ==> AuthsOf(data)[data[i].proxyEndpoint] == RegistryAuth(data[i].authorizationToken, NoEmail)
  {
    AuthsOfDomain(data);
    forall i | 0 <= i < |data| && (forall j :: i < j < |data| ==> data[j].proxyEndpoint != data[i].proxyEndpoint)
      ensures AuthsOf(data)[data[i].proxyEndpoint] == RegistryAuth(data[i].authorizationToken, NoEmail)
    {
      AuthsOfLastWins(data, i);
    }
  }

  lemma {:induction false} AuthsOfDomain(data: seq<AuthData>)
    ensures forall e :: e in AuthsOf(data) <==> exists i :: 0 <= i < |data| && data[i].proxyEndpoint == e
    decreases |data|
  {
    if data != [] {
      var n := |data| - 1;
      var init := data[..n];
      AuthsOfDomain(init);
      assert AuthsOf(data) == AuthsOf(init)[data[n].proxyEndpoint := RegistryAuth(data[n].authorizationToken, NoEmail)];
      forall e ensures e in AuthsOf(data) <==> exists i :: 0 <= i < |data| && data[i].proxyEndpoint == e {
        if e in AuthsOf(data) && e != data[n].proxyEndpoint {
          assert e in AuthsOf(init);
          var i :| 0 <= i < |init| && init[i].proxyEndpoint == e;
          assert data[i] == init[i];
        }
        if exists i :: 0 <= i < |data| && data[i].proxyEndpoint == e {
          var i :| 0 <= i < |data| && data[i].proxyEndpoint == e;
          if i < n {
            assert init[i] == data[i];
          }
        }
      }
    }
  }

  /** An endpoint that does not occur again keeps the token given with it. */
  lemma {:induction false} AuthsOfLastWins(data: seq<AuthData>, i: int)
    requires 0 <= i < |data|
    requires forall j :: i < j < |data| ==> data[j].proxyEndpoint != data[i].proxyEndpoint
    ensures data[i].proxyEndpoint in AuthsOf(data)
    ensures AuthsOf(data)[data[i].proxyEndpoint] == RegistryAuth(data[i].authorizationToken, NoEmail)
    decreases |data|
  {
    var n := |data| - 1;
    if i < n {
      var init := data[..n];
      assert init[i] == data[i];
      forall j | i < j < |init| ensures init[j].proxyEndpoint != init[i].proxyEndpoint {
        assert init[j] == data[j];
      }
      AuthsOfLastWins(init, i);
    }
  }

  /** `buildEcrSecret`'s result, when the token fetch gives `fetch`. */
  function EcrSecret(h: EcrSettings, namespace: string, fetch: Result<seq<AuthData>>): Result<Secret> {
    match fetch
    case Err(e) => Err(e)
    case Ok(data) =>
      Ok(Secret(h.secretName, namespace, DockerConfigJsonType,
                map[DockerConfigJsonKey := DockerConfig(AuthsOf(data))]))
  }

  /**
   * `Upsert` on the cluster state: in an excluded namespace, delete an existing
   * secret and succeed whatever the delete says; otherwise build the secret
   * (a fetch error is returned as it is) and create it when the lookup yields
   * no name, or update it when it does.
   */
  function Upserted(h: EcrSettings, fetch: Result<seq<AuthData>>, st: ClusterState, ns: Namespace): Reply<ClusterState> {
    var n := ns.name;
    if IfSkip(h, n) then
      if ApiGet(st, n, h.secretName).name != "" then Reply(ApiDelete(st, n, h.secretName).state, Success)
      else Reply(st, Success)
    else
      match EcrSecret(h, n, fetch)
      case Err(e) => Reply(st, Failure(e))
      case Ok(secret) =>
        if ApiGet(st, n, h.secretName).name == "" then ApiCreate(st, n, secret)
        else ApiUpdate(st, n, secret)
  }

  /** The handler contract for the ECR handler: Create and Update upsert the new namespace; Delete does nothing. */
  function Handle(h: EcrSettings, fetch: Result<seq<AuthData>>, st: ClusterState, c: Call<Namespace>): Reply<ClusterState> {
    match c
    case Create(obj) => Upserted(h, fetch, st, obj)
    case Update(_, newObj) => Upserted(h, fetch, st, newObj)
    case Delete(_) => Reply(st, Success)
  }

  // ---------------------------------------------------------------------------
  // What Upsert promises.

  /**
   * The built secret: named after the settings, in the given namespace, of
   * the docker-config type, with the single `.dockerconfigjson` key; no
   * secret at all when the fetch failed, whose error is passed on.
   */
  lemma EcrSecretShape(h: EcrSettings, namespace: string, fetch: Result<seq<AuthData>>)
    ensures fetch.Err? ==> EcrSecret(h, namespace, fetch) == Err(fetch.error)
    ensures fetch.Ok? ==> var s := EcrSecret(h, namespace, fetch).value;
              && s.name == h.secretName && s.namespace == namespace
              && s.secretType == DockerConfigJsonType
              && s.data.Keys == {DockerConfigJsonKey}
              && s.data[DockerConfigJsonKey].auths == AuthsOf(fetch.value)
  {
  }

  /**
   * In an excluded namespace, Upsert succeeds, deletes the secret if it is
   * there (and the API lets it read and delete it), and never creates or
   * changes any secret.
   */
  lemma ExcludedNamespaceLosesSecret(h: EcrSettings, fetch: Result<seq<AuthData>>, st: ClusterState, ns: Namespace)
    requires WellFormed(st) && IfSkip(h, ns.name)
    ensures var r := Upserted(h, fetch, st, ns);
            var ref := (ns.name, h.secretName);
            && r.outcome == Success
            && r.state.rejected == st.rejected && r.state.unreadable == st.unreadable
            && r.state.secrets == (if ref in st.secrets && ref !in st.unreadable && ref !in st.rejected
                                   then st.secrets - {ref} else st.secrets)
            && (forall x :: x in r.state.secrets ==> x in st.secrets && r.state.secrets[x] == st.secrets[x])
  {
    var ref := (ns.name, h.secretName);
    if ref in st.secrets && ref !in st.unreadable {
      assert ApiGet(st, ns.name, h.secretName).name == h.secretName;
    }
  }

  /** Without tokens, Upsert in a namespace that is not excluded returns the fetch error and changes nothing. */
  lemma FetchFailureChangesNothing(h: EcrSettings, e: Error, st: ClusterState, ns: Namespace)
    requires !IfSkip(h, ns.name)
    ensures Upserted(h, Err(e), st, ns) == Reply(st, Failure(e))
  {
  }

  /**
   * Upsert can put its secret at `ref`: the API allows the write, and an
   * existing secret is readable, so that the handler updates it rather than
   * attempting a create that clashes with it.
   */
  predicate CanInstall(st: ClusterState, ref: SecretRef) {
    ref !in st.rejected && (ref in st.secrets ==> ref !in st.unreadable)
  }

  /**
   * Convergence: in a namespace that is not excluded, with tokens fetched,
   * Upsert leaves exactly the built secret at its address (by create when it
   * was missing, by update when it was there) and succeeds, when it can; a
   * refused write fails with Forbidden, and an existing secret whose read
   * fails is taken as missing, so the create fails with AlreadyExists; in
   * both failures nothing changes.
   */
  lemma UpsertInstallsSecret(h: EcrSettings, data: seq<AuthData>, st: ClusterState, ns: Namespace)
    requires WellFormed(st) && h.secretName != "" && !IfSkip(h, ns.name)
    ensures var r := Upserted(h, Ok(data), st, ns);
            var ref := (ns.name, h.secretName);
            var secret := EcrSecret(h, ns.name, Ok(data)).value;
            && (CanInstall(st, ref) ==> r == Reply(st.(secrets := st.secrets[ref := secret]), Success))
            && (ref in st.rejected ==> r == Reply(st, Failure(Forbidden)))
            && (ref !in st.rejected && !CanInstall(st, ref) ==> r == Reply(st, Failure(AlreadyExists)))
            && WellFormed(r.state)
  {
    var ref := (ns.name, h.secretName);
    if ref in st.secrets && ref !in st.unreadable {
      assert ApiGet(st, ns.name, h.secretName).name == h.secretName;
    } else {
      assert ApiGet(st, ns.name, h.secretName) == EmptySecret;
    }
  }

  /** Upsert touches the handler's own secret in that namespace and nothing else. */
  lemma UpsertTouchesOnlyItsSecret(h: EcrSettings, fetch: Result<seq<AuthData>>, st: ClusterState, ns: Namespace)
    ensures var r := Upserted(h, fetch, st, ns);
            var ref := (ns.name, h.secretName);
            && r.state.rejected == st.rejected && r.state.unreadable == st.unreadable
            && r.state.secrets - {ref} == st.secrets - {ref}
  {
  }

  /** Update ignores the old object; Delete never fails and changes nothing. */
  lemma HandleDelegatesToUpsert(h: EcrSettings, fetch: Result<seq<AuthData>>, st: ClusterState,
                                oldObj: Option<Namespace>, obj: Namespace, stale: Option<Namespace>)
    ensures Handle(h, fetch, st, Update(oldObj, obj)) == Handle(h, fetch, st, Create(obj))
    ensures Handle(h, fetch, st, Create(obj)) == Upserted(h, fetch, st, obj)
    ensures Handle(h, fetch, st, Delete(stale)) == Reply(st, Success)
  {
  }

  // ---------------------------------------------------------------------------

  /** `EcrHandler`: the client, the excluded namespaces and the secret name. */
  class EcrHandler {
    const client: Cluster
    const excludeNamespaces: seq<string>
    const secretName: string

    function Settings(): EcrSettings {
      EcrSettings(excludeNamespaces, secretName)
    }

    /** `NewEcrHandler`. */
    constructor (client: Cluster, nsExclude: seq<string>, secretName: string)
      ensures this.client == client
      ensures Settings() == EcrSettings(nsExclude, SecretNameOrDefault(secretName))
    {
      this.client := client;
      excludeNamespaces := nsExclude;
      var name: string;
      if secretName != "" {
        name := secretName;
      } else {
        name := DefaultSecretName;
      }
      this.secretName := name;
    }

    /** The `auths` loop of `buildEcrSecret`. */
    static method BuildAuths(data: seq<AuthData>) returns (auths: map<string, RegistryAuth>)
      ensures auths == AuthsOf(data)
    {
      auths := map[];
      for i := 0 to |data|
        invariant auths == AuthsOf(data[..i])
      {
        assert data[..i + 1][..i] == data[..i];
        auths := auths[data[i].proxyEndpoint := RegistryAuth(data[i].authorizationToken, NoEmail)];
      }
      assert data[..|data|] == data;
    }

    /** `buildEcrSecret`: the fetch result decides; JSON encoding of the config cannot fail. */
    method BuildEcrSecret(namespace: string, fetch: Result<seq<AuthData>>) returns (r: Result<Secret>)
      ensures r == EcrSecret(Settings(), namespace, fetch)
    {
      if fetch.Err? {
        return Err(fetch.error);
      }
      var auths := BuildAuths(fetch.value);
      var secret := Secret(secretName, namespace, DockerConfigJsonType,
                           map[DockerConfigJsonKey := DockerConfig(auths)]);
      return Ok(secret);
    }

    /** `Upsert`, step by step through the cluster's API. */
    method Upsert(obj: Namespace, fetch: Result<seq<AuthData>>) returns (err: Outcome)
      modifies client
      ensures Reply(client.State(), err) == Upserted(Settings(), fetch, old(client.State()), obj)
    {
      var n := obj.name;
      if InArray(n, excludeNamespaces) {
        var existing := client.GetSecret(n, secretName);
        if existing.name != "" {
          var deleteErr := client.DeleteSecret(n, secretName);  // a failure is only logged
        }
        return Success;
      }
      var built := BuildEcrSecret(n, fetch);
      if built.Err? {
        return Failure(built.error);
      }
      var existing := client.GetSecret(n, secretName);
      if existing.name == "" {
        err := client.CreateSecret(n, built.value);
        if err.Failure? {
          return err;
        }
      } else {
        err := client.UpdateSecret(n, built.value);
        if err.Failure? {
          return err;
        }
      }
      return Success;
    }

    method Create(obj: Namespace, fetch: Result<seq<AuthData>>) returns (err: Outcome)
      modifies client
      ensures Reply(client.State(), err) == Handle(Settings(), fetch, old(client.State()), Call.Create(obj))
    {
      err := Upsert(obj, fetch);
    }

    method Update(oldObj: Option<Namespace>, newObj: Namespace, fetch: Result<seq<AuthData>>) returns (err: Outcome)
      modifies client
      ensures Reply(client.State(), err) == Handle(Settings(), fetch, old(client.State()), Call.Update(oldObj, newObj))
    {
      err := Upsert(newObj, fetch);
    }

    /** A deleted namespace takes its secrets with it: nothing to do. */
    method Delete(obj: Option<Namespace>) returns (err: Outcome)
      ensures err == Success
    {
      err := Success;
    }
  }
}
