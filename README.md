# Database-preparation job pod, Kubernetes helpers and pod exec script

A Dafny model of three pieces of the Entando Kubernetes operator's common library:

- **DatabasePreparationPodCreator** (`database_preparation.dfy`). It builds the one-off job pod that prepares
  a deployable's databases. For every db-aware component, in order, it adds:
  - one schema-creation init container per schema qualifier;
  - a credentials secret per schema, created only if absent;
  - the component's optional population container, asked for with the map of schemas just created.

  The pod carries the unique label set of the deployable's qualifier. The same set selects the old pods removed beforehand.
  Schema names are the snake-cased resource name plus `_qualifier`. A name over the vendor's limit is truncated and ends in the creator's fixed three-digit discriminator.
- **KubeUtils** (`kube_utils.dfy`): secret key references, snake casing, 64-character shortening, owner references, secret building, the ownership test and the standard ingress name.
- **SecretClient.createSecretIfAbsent** (`secret_client.dfy`). It is modelled as a store of secrets keyed by namespace and name, where a taken key is left alone. The class `SecretStore` updates that map in place.
- **PodClient.executeAndWait** (`pod_client.dfy`). It models the shell script the builder loop assembles and the decision taken when the listener stops waiting.

`Text` (`text.dfy`) holds the string helpers: join, split, newline-terminated lines and flattening. `Wrappers` holds `Option` and `Result`.

Randomness becomes parameters:
- the creator's discriminator is a `Discriminator` (three digits), fixed when the creator is constructed;
- each generated password is a `Password` (ten alphanumerics);
- the pod name's UUID prefix is a four-character string;
- the suffix drawn by `shortenTo64Chars` is a `Discriminator`.

The image resolver, `shortenTo63Chars` and the force-password-reset property come in as a `Collaborators` value.
The values of the label-key constants `JOB_KIND_LABEL_NAME`, `JOB_KIND_DB_PREPARATION` and `DEPLOYMENT_QUALIFIER_LABEL_NAME` are not modelled; they come in as a `JobLabelNames` value. The resource's own labels, returned by `labelsFromResource()`, are a separate `labelsFromResource` input of the creator's constructor.

## Model

| member | source | states |
|---|---|---|
| KubeUtils.SecretKeyRefOf | src/main/java/org/entando/kubernetes/controller/KubeUtils.java:70-72 | the reference names the given secret and key and is not optional |
| KubeUtils.SnakeCaseOf | src/main/java/org/entando/kubernetes/controller/KubeUtils.java:74-76 | same length; each '-' and '.' becomes '_', every other character is kept; no '-' or '.' remains |
| KubeUtils.SnakeCaseIdempotent | src/main/java/org/entando/kubernetes/controller/KubeUtils.java:74-76 | snake-casing twice is snake-casing once |
| KubeUtils.ShortenTo64Chars | src/main/java/org/entando/kubernetes/controller/KubeUtils.java:129-134 | result has at most 64 characters; it is the input exactly when the input has at most 64; a longer input keeps its first 61 characters followed by three digits |
| KubeUtils.BuildOwnerReference | src/main/java/org/entando/kubernetes/controller/KubeUtils.java:105-113 | the reference carries the resource's api version, kind, name and uid, with controller and blockOwnerDeletion set |
| KubeUtils.BuildSecret | src/main/java/org/entando/kubernetes/controller/KubeUtils.java:84-95 | the secret has the given name; its string data is exactly username and password with the given values; it has one owner reference, the resource's, so the resource owns it; it is labelled kind -> name |
| KubeUtils.GenerateSecret | src/main/java/org/entando/kubernetes/controller/KubeUtils.java:78-82 | it is BuildSecret with a drawn password of ten alphanumeric characters |
| KubeUtils.StandardIngressName | src/main/java/org/entando/kubernetes/controller/KubeUtils.java:115-117 | the resource name followed by "-ingress" |
| KubeUtils.CustomResourceOwns | src/main/java/org/entando/kubernetes/controller/KubeUtils.java:119-124 | true iff some owner reference has the resource's name and kind |
| KubeUtils.OwnerReferenceOwns | src/main/java/org/entando/kubernetes/controller/KubeUtils.java:105-124 | an object carrying the reference built for a resource is owned by that resource |
| KubeUtils.OwnershipIgnoresUid | src/main/java/org/entando/kubernetes/controller/KubeUtils.java:119-124 | two resources with the same name and kind own exactly the same objects, whatever their uid |
| SecretClient.CreateIfAbsent | src/main/java/org/entando/kubernetes/controller/creators/DatabasePreparationPodCreator.java:147-151 | the store gains the secret's key; existing entries are unchanged; a new key holds the secret |
| SecretClient.CreateAllIfAbsent | src/main/java/org/entando/kubernetes/controller/creators/DatabasePreparationPodCreator.java:108-114 | the reference for a run of createSecretIfAbsent calls: the store gains exactly the keys of the secrets |
| SecretClient.SecretStore.CreateSecretIfAbsent | src/main/java/org/entando/kubernetes/controller/creators/DatabasePreparationPodCreator.java:147-151 | the store's new state is CreateIfAbsent of its old state |
| SecretClient.CreateAllIfAbsentEffect | src/main/java/org/entando/kubernetes/controller/creators/DatabasePreparationPodCreator.java:108-114 | creating a batch adds exactly the batch's keys and keeps existing secrets; each new key holds a batch secret of that name |
| SecretClient.CreateAllIfAbsentKeeps | src/main/java/org/entando/kubernetes/controller/creators/DatabasePreparationPodCreator.java:147-151 | creating a batch keeps every existing secret unchanged |
| SecretClient.CreateAllIfAbsentPresent | src/main/java/org/entando/kubernetes/controller/creators/DatabasePreparationPodCreator.java:147-151 | a batch whose keys are all taken leaves the store unchanged |
| SecretClient.CreateAllIfAbsentAppend | src/main/java/org/entando/kubernetes/controller/creators/DatabasePreparationPodCreator.java:96-101 | creating two batches in turn is creating their concatenation |
| DatabasePreparation.JdbcParameters | src/main/java/org/entando/kubernetes/controller/creators/DatabasePreparationPodCreator.java:181-185 | the JDBC_PARAMETERS value is empty iff there are no parameters; otherwise it starts with the first `key=value` entry |
| DatabasePreparation.JdbcParametersRoundTrip | src/main/java/org/entando/kubernetes/controller/creators/DatabasePreparationPodCreator.java:180-184 | splitting the JDBC_PARAMETERS value at ',' and each part at '=' gives back every key and value in order, provided none contains ',' or '=' |
| DatabasePreparation.DatabasePreparationPodCreator.constructor | src/main/java/org/entando/kubernetes/controller/creators/DatabasePreparationPodCreator.java:53-58 | the creator keeps its resource and its discriminator, drawn once |
| DatabasePreparation.DatabasePreparationPodCreator.UniqueLabels | src/main/java/org/entando/kubernetes/controller/creators/DatabasePreparationPodCreator.java:86-91 | the keys are the resource's labels plus the job-kind and qualifier keys; the qualifier key maps to the qualifier; the job-kind key maps to the db-preparation kind unless the two keys coincide; every other resource label is kept |
| DatabasePreparation.DatabasePreparationPodCreator.UniqueLabelsSelectOwnQualifierOnly | src/main/java/org/entando/kubernetes/controller/creators/DatabasePreparationPodCreator.java:86-91 | the label set of one qualifier selects the pod labelled for another qualifier iff the two qualifiers are equal |
| DatabasePreparation.DatabasePreparationPodCreator.BaseSchemaName | src/main/java/org/entando/kubernetes/controller/creators/DatabasePreparationPodCreator.java:130 | its length is the resource name's, plus one, plus the qualifier's |
| DatabasePreparation.DatabasePreparationPodCreator.SchemaName | src/main/java/org/entando/kubernetes/controller/creators/DatabasePreparationPodCreator.java:129-136 | at most the vendor's maximum; equals snake(name)_q iff that fits; otherwise exactly the maximum: the first max-3 characters of snake(name)_q followed by the discriminator; no '-' or '.' when the qualifier has none |
| DatabasePreparation.DatabasePreparationPodCreator.SchemaSecretName | src/main/java/org/entando/kubernetes/controller/creators/DatabasePreparationPodCreator.java:138-140 | the name is the resource name, then `-`, the qualifier and `-secret`, each readable back from its position, so the qualifier is recoverable |
| DatabasePreparation.DatabasePreparationPodCreator.SchemaSecretNameInjective | src/main/java/org/entando/kubernetes/controller/creators/DatabasePreparationPodCreator.java:138-140 | distinct qualifiers get distinct secret names |
| DatabasePreparation.DatabasePreparationPodCreator.CreateSchemaResult | src/main/java/org/entando/kubernetes/controller/creators/DatabasePreparationPodCreator.java:142-145 | the result carries the database service, the qualifier's schema name and its secret name |
| DatabasePreparation.DatabasePreparationPodCreator.SchemaSecret | src/main/java/org/entando/kubernetes/controller/creators/DatabasePreparationPodCreator.java:147-151 | the secret is named as the schema result names it; its username is the result's schema name; the resource owns it |
| DatabasePreparation.DatabasePreparationPodCreator.Environment | src/main/java/org/entando/kubernetes/controller/creators/DatabasePreparationPodCreator.java:165-188 | nine variables plus one per configured option (password reset, tablespace, non-empty JDBC parameters); the schema user and password are read from the schema secret's username and password keys |
| DatabasePreparation.DatabasePreparationPodCreator.EnvironmentNames | src/main/java/org/entando/kubernetes/controller/creators/DatabasePreparationPodCreator.java:165-188 | the variable names come in the fixed order; FORCE_PASSWORD_RESET appears iff the property is set; TABLESPACE appears iff a tablespace is present; JDBC_PARAMETERS appears iff the parameters are non-empty |
| DatabasePreparation.DatabasePreparationPodCreator.EnvironmentBindings | src/main/java/org/entando/kubernetes/controller/creators/DatabasePreparationPodCreator.java:165-192 | each variable is bound as the name-indexed reference Binding says: admin credentials from the database secret, schema credentials from the schema secret, literals for the rest |
| DatabasePreparation.DatabasePreparationPodCreator.SchemaCreationContainer | src/main/java/org/entando/kubernetes/controller/creators/DatabasePreparationPodCreator.java:153-163 | image resolved from entando/entando-k8s-dbjob, pull policy Always, the shortened name-q-schema-creation-job name, no command, and the schema environment |
| DatabasePreparation.DatabasePreparationPodCreator.PopulationContainer | src/main/java/org/entando/kubernetes/controller/creators/DatabasePreparationPodCreator.java:117-127 | the populator's image resolved, pull policy Always, the shortened name-q-db-population-job name, and the populator's command and environment |
| DatabasePreparation.DatabasePreparationPodCreator.SchemaResults | src/main/java/org/entando/kubernetes/controller/creators/DatabasePreparationPodCreator.java:108-114 | the map handed to a component has exactly its qualifiers as keys; each holds the qualifier's schema name and name-q-secret |
| DatabasePreparation.DatabasePreparationPodCreator.ComponentContainersShape | src/main/java/org/entando/kubernetes/controller/creators/DatabasePreparationPodCreator.java:96-101 | a component contributes its schema containers in qualifier order, then one population container iff it returns a populator |
| DatabasePreparation.DatabasePreparationPodCreator.Containers | src/main/java/org/entando/kubernetes/controller/creators/DatabasePreparationPodCreator.java:93-103 | the reference for the whole init-container chain: a container is in it iff it is in some component's share |
| DatabasePreparation.DatabasePreparationPodCreator.ContainersSnoc | src/main/java/org/entando/kubernetes/controller/creators/DatabasePreparationPodCreator.java:96-101 | adding a component appends exactly its share to the chain |
| DatabasePreparation.DatabasePreparationPodCreator.ContainersCount | src/main/java/org/entando/kubernetes/controller/creators/DatabasePreparationPodCreator.java:93-103 | the chain's length is the total number of qualifiers plus the number of populators |
| DatabasePreparation.DatabasePreparationPodCreator.ContainersAppend | src/main/java/org/entando/kubernetes/controller/creators/DatabasePreparationPodCreator.java:93-103 | the chain for two groups of components is the first group's chain followed by the second's |
| DatabasePreparation.DatabasePreparationPodCreator.ContainersAt | src/main/java/org/entando/kubernetes/controller/creators/DatabasePreparationPodCreator.java:93-103 | component i's containers sit in the chain right after those of the components before it |
| DatabasePreparation.DatabasePreparationPodCreator.SchemaSecretFits | src/main/java/org/entando/kubernetes/controller/creators/DatabasePreparationPodCreator.java:129-151 | a schema secret's username is the schema name of whichever qualifier its name belongs to |
| DatabasePreparation.DatabasePreparationPodCreator.AllSchemaSecretsKeys | src/main/java/org/entando/kubernetes/controller/creators/DatabasePreparationPodCreator.java:105-115 | the secrets of a composition take exactly the keys of all qualifiers' secret names, whatever passwords are drawn |
| DatabasePreparation.DatabasePreparationPodCreator.AllSchemaSecretsUsernames | src/main/java/org/entando/kubernetes/controller/creators/DatabasePreparationPodCreator.java:129-151 | each secret of a composition has as username the schema name of the qualifier its name belongs to |
| DatabasePreparation.DatabasePreparationPodCreator.SecretUsernameIsSchemaName | src/main/java/org/entando/kubernetes/controller/creators/DatabasePreparationPodCreator.java:129-151 | after composing, a qualifier whose secret was absent has a secret whose username is the schemaName in the map handed to its component |
| DatabasePreparation.DatabasePreparationPodCreator.ComposeTwiceKeepsSecrets | src/main/java/org/entando/kubernetes/controller/creators/DatabasePreparationPodCreator.java:147-151 | composing a second time, with any passwords, leaves the store as the first composition left it |
| DatabasePreparation.SampleDeployableContainer | src/test/java/org/entando/kubernetes/controller/common/examples/SampleDeployableContainer.java:103-111 | the test fixture's component: qualifier "server", one schema qualifier "db", and no population step whatever schemas it is handed |
| DatabasePreparation.DatabasePreparationPodCreator.SampleComponentYieldsOneContainer | src/test/java/org/entando/kubernetes/controller/common/examples/SampleDeployableContainer.java:103-111 | the sample component (name qualifier "server", schema qualifier "db", no populator) yields exactly one schema-creation container and a map keyed by "db" alone |
| DatabasePreparation.DatabasePreparationPodCreator.CreateSchemaSecret | src/main/java/org/entando/kubernetes/controller/creators/DatabasePreparationPodCreator.java:147-151 | the store's new state is the old one with the qualifier's schema secret created if absent |
| DatabasePreparation.DatabasePreparationPodCreator.AddSchema | src/main/java/org/entando/kubernetes/controller/creators/DatabasePreparationPodCreator.java:110-112 | one qualifier's round: its schema-creation container is appended, its CreateSchemaResult is put under the qualifier, and its secret is created if absent |
| DatabasePreparation.DatabasePreparationPodCreator.PrepareContainersToCreateSchemas | src/main/java/org/entando/kubernetes/controller/creators/DatabasePreparationPodCreator.java:105-115 | the list gains one schema container per qualifier in order; the returned map is SchemaResults; each qualifier's secret is created if absent, in order |
| DatabasePreparation.DatabasePreparationPodCreator.AddComponentContainers | src/main/java/org/entando/kubernetes/controller/creators/DatabasePreparationPodCreator.java:96-101 | one loop turn: the list gains the component's schema containers, then a population container iff useDatabaseSchemas, given SchemaResults, returns a populator; the component's schema secrets are created if absent |
| DatabasePreparation.DatabasePreparationPodCreator.BuildContainers | src/main/java/org/entando/kubernetes/controller/creators/DatabasePreparationPodCreator.java:93-103 | the result is the chain Containers, in which each component is handed its SchemaResults; the store holds all schema secrets, created if absent, in order |
| DatabasePreparation.DatabasePreparationPodCreator.DummyContainer | src/main/java/org/entando/kubernetes/controller/creators/DatabasePreparationPodCreator.java:78-81 | named "dummy", with the resolved busybox image, no pull policy, and no command or environment |
| DatabasePreparation.DatabasePreparationPodCreator.BuildJobPod | src/main/java/org/entando/kubernetes/controller/creators/DatabasePreparationPodCreator.java:67-84 | the pod is in the resource's namespace, owned by it, named job-name plus '-' plus a four-character prefix, labelled UniqueLabels(job name), with the whole chain as init containers, only the dummy container, and restart policy Never |
| DatabasePreparation.DatabasePreparationPodCreator.RunToCompletion | src/main/java/org/entando/kubernetes/controller/creators/DatabasePreparationPodCreator.java:60-65 | pods are removed in the resource's namespace, and the new pod is in that namespace; the removal selector equals the new pod's labels, so it selects it; the pod is owned by the resource, has only the dummy container, is named after the deployable's qualifier, has restart policy Never and the whole init chain; the store holds the schema secrets, created if absent |
| PodClient.Script | src/main/java/org/entando/kubernetes/controller/k8sclient/PodClient.java:45-50 | the script ends with the line "exit 0" |
| PodClient.BuildScript | src/main/java/org/entando/kubernetes/controller/k8sclient/PodClient.java:45-50 | the builder loop yields Script(commands): each command followed by a newline, then "exit 0\n" |
| PodClient.ScriptLength | src/main/java/org/entando/kubernetes/controller/k8sclient/PodClient.java:45-50 | the script's length is the sum of each command's length plus one, plus 7 |
| PodClient.ScriptOfEmpty | src/main/java/org/entando/kubernetes/controller/k8sclient/PodClient.java:45-50 | with no commands the script is just "exit 0\n" |
| PodClient.ScriptLines | src/main/java/org/entando/kubernetes/controller/k8sclient/PodClient.java:45-50 | splitting the script at newlines gives the commands in order, then "exit 0" and "", provided no command contains a newline |
| PodClient.AfterWait | src/main/java/org/entando/kubernetes/controller/k8sclient/PodClient.java:64-74 | success iff the listener completed without failing, returning the exec handle; a failed listener gives the wait-condition error quoting the whole script; an interrupt gives its own error |
| PodClient.ExecuteAndWait | src/main/java/org/entando/kubernetes/controller/k8sclient/PodClient.java:43-76 | the container's input is Script(commands) and the outcome is AfterWait on it |

## Left out

- Kubernetes API calls: removing old pods, starting the pod and waiting for it to complete, and opening the exec session. They are cluster I/O. The model returns the removal namespace, the removal selector and the built pod instead.
- Polling the listener: the mutex, the one-second waits and the listener holder are concurrency. The wait's outcome is a parameter (`PodClient.WaitOutcome`), and the exec handle is an opaque value.
- Randomness: `RandomStringUtils` and `UUID` draws are parameters, constrained only by their shape.
- `shortenTo63Chars`, `determineImageUri` and `lookupProperty` are called, not modelled. Their definitions are not part of this model, so they come in as `Collaborators`.
- `KubeUtils.ready` writes a file, and `getKindOf` uses reflection. Both are left out.
- Label-key constants: `JOB_KIND_LABEL_NAME` and its siblings, and `labelsFromResource()`, are not part of this model. They are the `JobLabelNames` and `labelsFromResource` inputs of the creator.
- DatabasePreparation.DatabasePreparationPodCreator.SchemaName: requires a vendor maximum of at least 3 (`ValidVendor`) for every name. The source throws from `substring` only when such a vendor meets a base name that is too long; with a maximum below 3 it still works when every base name fits or no component has a qualifier. Every member that composes schemas inherits this requirement: `SchemaResults`, `Populator`, `Containers`, the secret functions, `PrepareContainersToCreateSchemas`, `BuildContainers`, `BuildJobPod` and `RunToCompletion`. The model therefore does not cover a vendor maximum below 3 at all.
- String lengths are counted in `char`s of Dafny strings. Java counts UTF-16 code units, which differ only for characters outside the basic plane.
- The JDBC parameter map's iteration order is whatever the map yields. The model takes the entries as a sequence in that order.
- DatabasePreparation.DatabasePreparationPodCreator.SecretUsernameIsSchemaName: it holds only for secrets absent before the composition. A secret of the same name that already exists is kept as it is. Its username may be a schema name computed by an earlier creator with another discriminator.
- The secret client is reduced to `createSecretIfAbsent` over a map keyed by namespace and name. Its other operations are not part of this model.
