/**
 * The secret store behind SecretClient.createSecretIfAbsent: secrets keyed by
 * namespace and name, where creating a secret whose key is taken does nothing.
 */
module SecretClient {
  import opened KubeUtils

  /** A secret's identity in the cluster: its namespace and its name. */
  type SecretKey = (string, string)

  /** The store after creating `secret` in `namespace` unless a secret of that name is there. */
  function CreateIfAbsent(store: map<SecretKey, Secret>, namespace: string, secret: Secret): (r: map<SecretKey, Secret>)
    ensures r.Keys == store.Keys + {(namespace, secret.name)}
    ensures forall k :: k in store ==> r[k] == store[k]
    ensures (namespace, secret.name) !in store ==> r[(namespace, secret.name)] == secret
  {
    if (namespace, secret.name) in store then store else store[(namespace, secret.name) := secret]
  }

  /** The keys the secrets would take in `namespace`. */
  function KeysOf(namespace: string, secrets: seq<Secret>): set<SecretKey>
  {
    set s | s in secrets :: (namespace, s.name)
  }

  /** The store after creating each secret in turn, if absent: it gains exactly their keys. */
  function CreateAllIfAbsent(store: map<SecretKey, Secret>, namespace: string, secrets: seq<Secret>): (r: map<SecretKey, Secret>)
    ensures r.Keys == store.Keys + KeysOf(namespace, secrets)
  {
    if |secrets| == 0 then
      assert KeysOf(namespace, secrets) == {};
      store
    else
      var init, last := secrets[..|secrets| - 1], secrets[|secrets| - 1];
      assert secrets == init + [last];
      KeysOfSnoc(namespace, init, last);
      CreateIfAbsent(CreateAllIfAbsent(store, namespace, init), namespace, last)
  }

  lemma KeysOfSnoc(namespace: string, secrets: seq<Secret>, last: Secret)
    ensures KeysOf(namespace, secrets + [last]) == KeysOf(namespace, secrets) + {(namespace, last.name)}
  {
    forall s | s in secrets + [last] ensures s in secrets || s == last { }
  }

  /** Creating secrets if absent leaves every existing secret unchanged. */
  lemma {:induction false} CreateAllIfAbsentKeeps(store: map<SecretKey, Secret>, namespace: string, secrets: seq<Secret>)
    ensures forall k :: k in store ==>
      (k in CreateAllIfAbsent(store, namespace, secrets) && CreateAllIfAbsent(store, namespace, secrets)[k] == store[k])
  {
    if |secrets| > 0 {
      CreateAllIfAbsentKeeps(store, namespace, secrets[..|secrets| - 1]);
    }
  }

  /** Under a key that was free, the store holds one of the secrets, one of that name. */
  lemma {:induction false} CreateAllIfAbsentFills(store: map<SecretKey, Secret>, namespace: string, secrets: seq<Secret>)
    ensures forall k :: k in CreateAllIfAbsent(store, namespace, secrets) && k !in store ==>
      CreateAllIfAbsent(store, namespace, secrets)[k] in secrets && CreateAllIfAbsent(store, namespace, secrets)[k].name == k.1
  {
    if |secrets| > 0 {
      var init, last := secrets[..|secrets| - 1], secrets[|secrets| - 1];
      CreateAllIfAbsentFills(store, namespace, init);
      forall s | s in init ensures s in secrets {
        assert secrets == init + [last];
      }
    }
  }

  /**
   * Creating secrets if absent adds exactly their keys, leaves every existing secret
   * unchanged, and stores under a new key one of the secrets that has that name.
   */
  lemma CreateAllIfAbsentEffect(store: map<SecretKey, Secret>, namespace: string, secrets: seq<Secret>)
    ensures CreateAllIfAbsent(store, namespace, secrets).Keys == store.Keys + KeysOf(namespace, secrets)
    ensures forall k :: k in store ==> CreateAllIfAbsent(store, namespace, secrets)[k] == store[k]
    ensures forall k :: k in CreateAllIfAbsent(store, namespace, secrets) && k !in store ==>
      CreateAllIfAbsent(store, namespace, secrets)[k] in secrets && CreateAllIfAbsent(store, namespace, secrets)[k].name == k.1
  {
    CreateAllIfAbsentKeeps(store, namespace, secrets);
    CreateAllIfAbsentFills(store, namespace, secrets);
  }

  /** Creating secrets whose keys are all taken changes nothing: composing again is a no-op. */
  lemma {:induction false} CreateAllIfAbsentPresent(store: map<SecretKey, Secret>, namespace: string, secrets: seq<Secret>)
    requires KeysOf(namespace, secrets) <= store.Keys
    ensures CreateAllIfAbsent(store, namespace, secrets) == store
  {
    if |secrets| > 0 {
      var init := secrets[..|secrets| - 1];
      var last := secrets[|secrets| - 1];
      assert secrets == init + [last];
      assert KeysOf(namespace, init) <= KeysOf(namespace, secrets);
      CreateAllIfAbsentPresent(store, namespace, init);
      assert (namespace, last.name) in KeysOf(namespace, secrets);
    }
  }

  lemma CreateAllIfAbsentSnoc(store: map<SecretKey, Secret>, namespace: string, secrets: seq<Secret>, last: Secret)
    ensures CreateAllIfAbsent(store, namespace, secrets + [last])
         == CreateIfAbsent(CreateAllIfAbsent(store, namespace, secrets), namespace, last)
  {
    assert (secrets + [last])[..|secrets|] == secrets;
  }

  /** Creating one batch of secrets and then another is creating their concatenation. */
  lemma {:induction false} CreateAllIfAbsentAppend(store: map<SecretKey, Secret>, namespace: string, first: seq<Secret>, second: seq<Secret>)
    ensures CreateAllIfAbsent(store, namespace, first + second)
         == CreateAllIfAbsent(CreateAllIfAbsent(store, namespace, first), namespace, second)
  {
    if |second| > 0 {
      var init, last := second[..|second| - 1], second[|second| - 1];
      assert second == init + [last];
      assert first + second == (first + init) + [last];
      assert (first + second)[..|first + second| - 1] == first + init;
      CreateAllIfAbsentAppend(store, namespace, first, init);
    } else {
      assert first + second == first;
    }
  }

  /** The cluster's secrets as far as this controller sees them. */
  class SecretStore {
    var secrets: map<SecretKey, Secret>

    constructor (initial: map<SecretKey, Secret>)
      ensures secrets == initial
    {
      secrets := initial;
    }

    /** Creates the secret in the resource's namespace unless one of that name exists there. */
    method CreateSecretIfAbsent(resource: CustomResource, secret: Secret)
      modifies this
      ensures secrets == CreateIfAbsent(old(secrets), resource.namespace, secret)
    {
      if (resource.namespace, secret.name) !in secrets {
        secrets := secrets[(resource.namespace, secret.name) := secret];
      }
    }
  }
}
