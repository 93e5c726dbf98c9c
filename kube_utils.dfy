/**
 * The naming and ownership helpers of the controller's KubeUtils: snake-casing,
 * shortening to the 64-character label limit, secret-key references, generated
 * credential secrets, owner references and the ownership test.
 */
module KubeUtils {
  import opened Text

  const PASSWORD_KEY: string := "password"
  const USERNAME_KEY: string := "username"
  const DEFAULT_INGRESS_SUFFIX: string := "ingress"

  /** What the helpers use of a custom resource: its type coordinates and its metadata. */
  datatype CustomResource = CustomResource(
    apiVersion: string,
    kind: string,
    name: string,
    namespace: string,
    uid: string)

  datatype OwnerReference = OwnerReference(
    apiVersion: string,
    kind: string,
    name: string,
    uid: string,
    blockOwnerDeletion: bool,
    controller: bool)

  /** A reference to one key of a secret, the only kind of value source the controller builds. */
  datatype EnvVarSource = SecretKeyRef(key: string, secretName: string, optional: bool)

  /** A secret as the controller builds it: metadata and the unencoded string data. */
  datatype Secret = Secret(
    name: string,
    ownerReferences: seq<OwnerReference>,
    labels: map<string, string>,
    stringData: map<string, string>)

  /** A reference to `key` in the secret `secretName` that must be present. */
  function SecretKeyRefOf(secretName: string, key: string): (r: EnvVarSource)
    ensures r.secretName == secretName && r.key == key
    ensures !r.optional
  {
    SecretKeyRef(key, secretName, false)
  }

  /** `s` with every `from` replaced by `to`, as String.replace does for one-character strings. */
  function Replace(s: string, from: char, to: char): (r: string)
    ensures |r| == |s|
    ensures forall i :: 0 <= i < |s| ==> r[i] == (if s[i] == from then to else s[i])
  {
    if |s| == 0 then ""
    else [if s[0] == from then to else s[0]] + Replace(s[1..], from, to)
  }

  /** How snake-casing treats one character. */
  function SnakeChar(c: char): char
  {
    if c == '-' || c == '.' then '_' else c
  }

  /** Resource name turned into an identifier: dashes and dots become underscores. */
  function SnakeCaseOf(s: string): (r: string)
    ensures |r| == |s|
    ensures forall i :: 0 <= i < |s| ==> r[i] == SnakeChar(s[i])
    ensures '-' !in r && '.' !in r
  {
    Replace(Replace(s, '-', '_'), '.', '_')
  }

  lemma SnakeCaseIdempotent(s: string)
    ensures SnakeCaseOf(SnakeCaseOf(s)) == SnakeCaseOf(s)
  {
  }

  /**
   * A label value or container name cut to 64 characters: a longer string keeps its
   * first 61 characters and gets the random three-digit `suffix`.
   */
  function ShortenTo64Chars(s: string, suffix: Discriminator): (r: string)
    ensures |r| <= 64
    ensures r == s <==> |s| <= 64
    ensures |s| > 64 ==> |r| == 64 && r[..61] == s[..61] && IsNumeric(r[61..])
  {
    if |s| > 64 then s[..64 - 3] + suffix else s
  }

  function BuildOwnerReference(resource: CustomResource): (r: OwnerReference)
    ensures r.name == resource.name && r.kind == resource.kind
    ensures r.apiVersion == resource.apiVersion && r.uid == resource.uid
    ensures r.controller && r.blockOwnerDeletion
  {
    OwnerReference(resource.apiVersion, resource.kind, resource.name, resource.uid, true, true)
  }

  /** The credential secret `secretName` owned by `resource`. */
  function BuildSecret(resource: CustomResource, secretName: string, username: string, password: string): (r: Secret)
    ensures r.name == secretName
    ensures r.stringData.Keys == {USERNAME_KEY, PASSWORD_KEY}
    ensures r.stringData[USERNAME_KEY] == username && r.stringData[PASSWORD_KEY] == password
    ensures r.ownerReferences == [BuildOwnerReference(resource)]
    ensures CustomResourceOwns(resource, r.ownerReferences)
    ensures r.labels == map[resource.kind := resource.name]
  {
    Secret(secretName, [BuildOwnerReference(resource)], map[resource.kind := resource.name],
      map[USERNAME_KEY := username, PASSWORD_KEY := password])
  }

  /** BuildSecret with a freshly generated password; the generator's draw is the parameter. */
  function GenerateSecret(resource: CustomResource, secretName: string, username: string, password: Password): (r: Secret)
    ensures r == BuildSecret(resource, secretName, username, password)
    ensures |r.stringData[PASSWORD_KEY]| == 10 && IsAlphanumericString(r.stringData[PASSWORD_KEY])
  {
    BuildSecret(resource, secretName, username, password)
  }

  function StandardIngressName(resource: CustomResource): (r: string)
    ensures |r| == |resource.name| + 8
    ensures r[..|resource.name|] == resource.name && r[|resource.name|..] == "-ingress"
  {
    resource.name + "-" + DEFAULT_INGRESS_SUFFIX
  }

  /** An owner reference naming the resource by both its name and its kind. */
  predicate MatchesResource(resource: CustomResource, ref: OwnerReference)
  {
    resource.name == ref.name && resource.kind == ref.kind
  }

  /** Whether any of an object's owner references names the resource (a stream anyMatch). */
  function CustomResourceOwns(resource: CustomResource, ownerReferences: seq<OwnerReference>): (r: bool)
    ensures r <==> exists i :: 0 <= i < |ownerReferences| && MatchesResource(resource, ownerReferences[i])
  {
    if |ownerReferences| == 0 then false
    else if MatchesResource(resource, ownerReferences[0]) then true
    else
      var rest := CustomResourceOwns(resource, ownerReferences[1..]);
      assert forall i :: 1 <= i < |ownerReferences| ==> ownerReferences[i] == ownerReferences[1..][i - 1];
      rest
  }

  /** Every object carrying the reference built for a resource is owned by that resource. */
  lemma OwnerReferenceOwns(resource: CustomResource, ownerReferences: seq<OwnerReference>)
    requires BuildOwnerReference(resource) in ownerReferences
    ensures CustomResourceOwns(resource, ownerReferences)
  {
    var i :| 0 <= i < |ownerReferences| && ownerReferences[i] == BuildOwnerReference(resource);
    assert MatchesResource(resource, ownerReferences[i]);
  }

  /** Ownership ignores the uid and api version: a same-named resource of the same kind owns too. */
  lemma OwnershipIgnoresUid(resource: CustomResource, other: CustomResource, ownerReferences: seq<OwnerReference>)
    requires resource.name == other.name && resource.kind == other.kind
    ensures CustomResourceOwns(resource, ownerReferences) == CustomResourceOwns(other, ownerReferences)
  {
  }
}
