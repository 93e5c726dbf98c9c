/**
 * The database-preparation job pod: one pod whose init containers create a schema for
 * every schema qualifier of every db-aware component of a deployable, each followed by
 * the component's optional population step, with a credentials secret per schema.
 */
module DatabasePreparation {
  import opened Wrappers
  import opened Text
  import opened KubeUtils
  import opened SecretClient

  const SCHEMA_CREATION_IMAGE: string := "entando/entando-k8s-dbjob"
  const BUSYBOX_IMAGE: string := "entando/busybox"
  const CREATE_SCHEMA_COMMAND: string := "CREATE_SCHEMA"

  /** What the creator reads of a database vendor's configuration. */
  datatype VendorConfig = VendorConfig(name: string, maxNameLength: int)

  /** The database server the schemas are created on. */
  datatype DatabaseServiceResult = DatabaseServiceResult(
    internalServiceHostname: string,
    port: string,
    databaseName: string,
    databaseSecretName: string,
    vendor: VendorConfig,
    tablespace: Option<string>,
    jdbcParameters: seq<(string, string)>)

  /** What a component learns about one schema created for it. */
  datatype DatabaseSchemaCreationResult = DatabaseSchemaCreationResult(
    databaseService: DatabaseServiceResult,
    schemaName: string,
    schemaSecretName: string)

  /** An environment variable: a literal value or a value taken from a secret key. */
  datatype EnvVar = EnvVar(name: string, value: Option<string>, valueFrom: Option<EnvVarSource>)

  datatype Container = Container(
    name: string,
    image: string,
    imagePullPolicy: Option<string>,
    command: seq<string>,
    env: seq<EnvVar>)

  /** A component's step that loads data into its freshly created schemas. */
  datatype DatabasePopulator = DatabasePopulator(
    dockerImageInfo: string,
    command: seq<string>,
    environmentVariables: seq<EnvVar>)

  /**
   * A component that needs database schemas: its qualifiers, and its answer, given the
   * schemas created for it, on whether a population step should follow.
   */
  datatype DbAware = DbAware(
    nameQualifier: string,
    dbSchemaQualifiers: seq<string>,
    useDatabaseSchemas: map<string, DatabaseSchemaCreationResult> -> Option<DatabasePopulator>)

  datatype DbAwareDeployable = DbAwareDeployable(
    nameQualifier: string,
    dbAwareContainers: seq<DbAware>,
    databaseServiceResult: DatabaseServiceResult)

  datatype Pod = Pod(
    namespace: string,
    name: string,
    ownerReferences: seq<OwnerReference>,
    labels: map<string, string>,
    initContainers: seq<Container>,
    containers: seq<Container>,
    restartPolicy: string)

  /**
   * Collaborators the creator calls but which are not part of this model: the image
   * resolver, the 63-character name shortener, and the operator's
   * force-db-password-reset configuration property.
   */
  datatype Collaborators = Collaborators(
    determineImageUri: string -> string,
    shortenTo63Chars: string -> string,
    forceDbPasswordReset: Option<string>)

  /** The label keys and the job-kind value that mark database-preparation pods. */
  datatype JobLabelNames = JobLabelNames(
    jobKindLabelName: string,
    jobKindDbPreparation: string,
    deploymentQualifierLabelName: string)

  /** Vendor limits the creator can shorten to: room for the three-digit discriminator. */
  predicate ValidVendor(db: DatabaseServiceResult)
  {
    db.vendor.maxNameLength >= 3
  }

  /** One random password per schema qualifier of every component. */
  predicate PasswordsFit(components: seq<DbAware>, passwords: seq<seq<Password>>)
  {
    |passwords| == |components| &&
    forall i :: 0 <= i < |components| ==> |passwords[i]| == |components[i].dbSchemaQualifiers|
  }

  /** Whether a label selector selects an object carrying `labels`. */
  predicate Selects(selector: map<string, string>, labels: map<string, string>)
  {
    forall k :: k in selector ==> k in labels && labels[k] == selector[k]
  }

  /** The names of the variables, in order. */
  function Names(env: seq<EnvVar>): seq<string>
  {
    seq(|env|, i requires 0 <= i < |env| => env[i].name)
  }

  lemma NamesAppend(a: seq<EnvVar>, b: seq<EnvVar>)
    ensures Names(a + b) == Names(a) + Names(b)
  {
  }

  /** The order of the schema-creation tool's variables, given which optional ones are present. */
  function EnvNames(forceReset: bool, tablespace: bool, jdbc: bool): seq<string>
  {
    ["DATABASE_SERVER_HOST", "DATABASE_SERVER_PORT", "DATABASE_ADMIN_USER", "DATABASE_ADMIN_PASSWORD", "DATABASE_NAME"]
    + (if forceReset then ["FORCE_PASSWORD_RESET"] else [])
    + ["DATABASE_VENDOR", "DATABASE_SCHEMA_COMMAND", "DATABASE_USER", "DATABASE_PASSWORD"]
    + (if tablespace then ["TABLESPACE"] else [])
    + (if jdbc then ["JDBC_PARAMETERS"] else [])
  }

  /** Each parameter as a `key=value` entry, in order. */
  function JdbcEntries(parameters: seq<(string, string)>): seq<string>
  {
    seq(|parameters|, i requires 0 <= i < |parameters| => parameters[i].0 + "=" + parameters[i].1)
  }

  /** The JDBC parameters as `key=value` entries separated by commas. */
  function JdbcParameters(parameters: seq<(string, string)>): (r: string)
    ensures r == "" <==> |parameters| == 0
    ensures |parameters| > 0 ==>
      var first := parameters[0].0 + "=" + parameters[0].1;
      |r| >= |first| && r[..|first|] == first
  {
    if |parameters| > 0 then
      JoinStartsWithFirst(JdbcEntries(parameters), ',');
      Join(JdbcEntries(parameters), ',')
    else
      Join(JdbcEntries(parameters), ',')
  }

  /**
   * Reading the JDBC_PARAMETERS value back: splitting at commas and then at the equals
   * sign gives back every key and value, in order, when none of them contains either.
   */
  lemma JdbcParametersRoundTrip(parameters: seq<(string, string)>)
    requires |parameters| > 0
    requires forall i :: 0 <= i < |parameters| ==>
      ',' !in parameters[i].0 && ',' !in parameters[i].1 && '=' !in parameters[i].0 && '=' !in parameters[i].1
    ensures |Split(JdbcParameters(parameters), ',')| == |parameters|
    ensures forall i :: 0 <= i < |parameters| ==>
      Split(Split(JdbcParameters(parameters), ',')[i], '=') == [parameters[i].0, parameters[i].1]
  {
    var entries := JdbcEntries(parameters);
    assert NoneContains(entries, ',') by {
      forall i | 0 <= i < |entries| ensures ',' !in entries[i] {
        assert entries[i] == parameters[i].0 + "=" + parameters[i].1;
      }
    }
    SplitJoin(entries, ',');
    forall i | 0 <= i < |parameters|
      ensures Split(entries[i], '=') == [parameters[i].0, parameters[i].1]
    {
      SplitAtFirstSeparator(parameters[i].0, parameters[i].1, '=');
      SplitWithoutSeparator(parameters[i].1, '=');
      assert parameters[i].0 + "=" + parameters[i].1 == parameters[i].0 + ['='] + parameters[i].1;
    }
  }

  /** The job pod's component scenario from the test suite: one schema "db", no population step. */
  function SampleDeployableContainer(): (r: DbAware)
    ensures r.nameQualifier == "server" && r.dbSchemaQualifiers == ["db"]
    ensures forall schemas :: r.useDatabaseSchemas(schemas) == None
  {
    DbAware("server", ["db"], (schemas: map<string, DatabaseSchemaCreationResult>) => None)
  }

  function TotalQualifiers(components: seq<DbAware>): nat
  {
    if |components| == 0 then 0
    else TotalQualifiers(components[..|components| - 1]) + |components[|components| - 1].dbSchemaQualifiers|
  }

  class DatabasePreparationPodCreator {
    const resource: CustomResource
    /** The resource's own labels, which every job pod of it carries. */
    const labelsFromResource: map<string, string>
    const labelNames: JobLabelNames
    /** Drawn once per creator; tails every schema name it has to shorten. */
    const resourceNameDiscriminator: Discriminator

    constructor (resource: CustomResource, labelsFromResource: map<string, string>, labelNames: JobLabelNames,
                 resourceNameDiscriminator: Discriminator)
      ensures this.resource == resource && this.labelsFromResource == labelsFromResource
      ensures this.labelNames == labelNames && this.resourceNameDiscriminator == resourceNameDiscriminator
    {
      this.resource := resource;
      this.labelsFromResource := labelsFromResource;
      this.labelNames := labelNames;
      this.resourceNameDiscriminator := resourceNameDiscriminator;
    }

    /**
     * The labels that identify the one database-preparation pod for `qualifier`: the
     * resource's labels, the job kind and the qualifier.
     */
    function UniqueLabels(qualifier: string): (r: map<string, string>)
      ensures r.Keys == labelsFromResource.Keys + {labelNames.jobKindLabelName, labelNames.deploymentQualifierLabelName}
      ensures r[labelNames.deploymentQualifierLabelName] == qualifier
      ensures labelNames.jobKindLabelName != labelNames.deploymentQualifierLabelName ==>
        r[labelNames.jobKindLabelName] == labelNames.jobKindDbPreparation
      ensures forall k :: (k in labelsFromResource && k != labelNames.jobKindLabelName
        && k != labelNames.deploymentQualifierLabelName) ==> r[k] == labelsFromResource[k]
    {
      labelsFromResource[labelNames.jobKindLabelName := labelNames.jobKindDbPreparation]
                        [labelNames.deploymentQualifierLabelName := qualifier]
    }

    /** The label set selects the pods of its own qualifier and never those of another. */
    lemma UniqueLabelsSelectOwnQualifierOnly(q1: string, q2: string)
      ensures Selects(UniqueLabels(q1), UniqueLabels(q2)) <==> q1 == q2
    {
      if q1 != q2 {
        assert labelNames.deploymentQualifierLabelName in UniqueLabels(q1);
      }
    }

    /** The resource name in snake case, an underscore and the qualifier. */
    function BaseSchemaName(nameQualifier: string): (r: string)
      ensures |r| == |resource.name| + 1 + |nameQualifier|
    {
      SnakeCaseOf(resource.name) + "_" + nameQualifier
    }

    /**
     * The schema name for a qualifier: the base name if the vendor allows its length,
     * otherwise its first `max - 3` characters and the creator's discriminator.
     */
    function SchemaName(db: DatabaseServiceResult, nameQualifier: string): (r: string)
      requires ValidVendor(db)
      ensures |r| <= db.vendor.maxNameLength
      ensures r == BaseSchemaName(nameQualifier) <==> |BaseSchemaName(nameQualifier)| <= db.vendor.maxNameLength
      ensures |BaseSchemaName(nameQualifier)| > db.vendor.maxNameLength ==>
        |r| == db.vendor.maxNameLength &&
        r[..db.vendor.maxNameLength - 3] == BaseSchemaName(nameQualifier)[..db.vendor.maxNameLength - 3] &&
        r[db.vendor.maxNameLength - 3..] == resourceNameDiscriminator
      ensures '-' !in nameQualifier && '.' !in nameQualifier ==> '-' !in r && '.' !in r
    {
      var schemaName := BaseSchemaName(nameQualifier);
      var max := db.vendor.maxNameLength;
      if |schemaName| > max then
        var r := schemaName[..max - 3] + resourceNameDiscriminator;
        assert forall i :: 0 <= i < max - 3 ==> r[i] == schemaName[i];
        assert forall i :: max - 3 <= i < |r| ==> IsDigit(r[i]);
        r
      else
        schemaName
    }

    /** The resource's name, '-', the qualifier and "-secret": the qualifier can be read back from it. */
    function SchemaSecretName(nameQualifier: string): (r: string)
      ensures |r| == |resource.name| + |nameQualifier| + 8
      ensures r[..|resource.name|] == resource.name && r[|r| - 7..] == "-secret"
      ensures r[|resource.name| + 1..|r| - 7] == nameQualifier
    {
      resource.name + "-" + nameQualifier + "-secret"
    }

    /** Different qualifiers never share a schema secret. */
    lemma SchemaSecretNameInjective(q1: string, q2: string)
      requires SchemaSecretName(q1) == SchemaSecretName(q2)
      ensures q1 == q2
    {
    }

    function CreateSchemaResult(db: DatabaseServiceResult, nameQualifier: string): (r: DatabaseSchemaCreationResult)
      requires ValidVendor(db)
      ensures r.databaseService == db
      ensures r.schemaName == SchemaName(db, nameQualifier) && r.schemaSecretName == SchemaSecretName(nameQualifier)
    {
      DatabaseSchemaCreationResult(db, SchemaName(db, nameQualifier), SchemaSecretName(nameQualifier))
    }

    /**
     * The secret createSchemaSecret asks the store to create: named as the schema result
     * names it, with the schema name of the result as its username.
     */
    function SchemaSecret(db: DatabaseServiceResult, nameQualifier: string, password: Password): (r: Secret)
      requires ValidVendor(db)
      ensures r.name == CreateSchemaResult(db, nameQualifier).schemaSecretName
      ensures USERNAME_KEY in r.stringData && r.stringData[USERNAME_KEY] == CreateSchemaResult(db, nameQualifier).schemaName
      ensures CustomResourceOwns(resource, r.ownerReferences)
    {
      GenerateSecret(resource, SchemaSecretName(nameQualifier), SchemaName(db, nameQualifier), password)
    }

    /** The value the schema-creation tool expects under each variable name. */
    function Binding(ctx: Collaborators, db: DatabaseServiceResult, nameQualifier: string, name: string): EnvVar
    {
      if name == "DATABASE_SERVER_HOST" then EnvVar(name, Some(db.internalServiceHostname), None)
      else if name == "DATABASE_SERVER_PORT" then EnvVar(name, Some(db.port), None)
      else if name == "DATABASE_ADMIN_USER" then EnvVar(name, None, Some(SecretKeyRefOf(db.databaseSecretName, USERNAME_KEY)))
      else if name == "DATABASE_ADMIN_PASSWORD" then EnvVar(name, None, Some(SecretKeyRefOf(db.databaseSecretName, PASSWORD_KEY)))
      else if name == "DATABASE_NAME" then EnvVar(name, Some(db.databaseName), None)
      else if name == "FORCE_PASSWORD_RESET" then EnvVar(name, ctx.forceDbPasswordReset, None)
      else if name == "DATABASE_VENDOR" then EnvVar(name, Some(db.vendor.name), None)
      else if name == "DATABASE_SCHEMA_COMMAND" then EnvVar(name, Some(CREATE_SCHEMA_COMMAND), None)
      else if name == "DATABASE_USER" then EnvVar(name, None, Some(SecretKeyRefOf(SchemaSecretName(nameQualifier), USERNAME_KEY)))
      else if name == "DATABASE_PASSWORD" then EnvVar(name, None, Some(SecretKeyRefOf(SchemaSecretName(nameQualifier), PASSWORD_KEY)))
      else if name == "TABLESPACE" then EnvVar(name, db.tablespace, None)
      else if name == "JDBC_PARAMETERS" then EnvVar(name, Some(JdbcParameters(db.jdbcParameters)), None)
      else EnvVar(name, None, None)
    }

    /** The variables that locate the database server and its administrator. */
    function ServerVars(db: DatabaseServiceResult): seq<EnvVar>
    {
      [EnvVar("DATABASE_SERVER_HOST", Some(db.internalServiceHostname), None),
       EnvVar("DATABASE_SERVER_PORT", Some(db.port), None),
       EnvVar("DATABASE_ADMIN_USER", None, Some(SecretKeyRefOf(db.databaseSecretName, USERNAME_KEY))),
       EnvVar("DATABASE_ADMIN_PASSWORD", None, Some(SecretKeyRefOf(db.databaseSecretName, PASSWORD_KEY))),
       EnvVar("DATABASE_NAME", Some(db.databaseName), None)]
    }

    function ForceResetVars(ctx: Collaborators): seq<EnvVar>
    {
      match ctx.forceDbPasswordReset
      case Some(s) => [EnvVar("FORCE_PASSWORD_RESET", Some(s), None)]
      case None => []
    }

    /** The variables that name the schema to create and its credentials. */
    function SchemaVars(db: DatabaseServiceResult, nameQualifier: string): seq<EnvVar>
    {
      [EnvVar("DATABASE_VENDOR", Some(db.vendor.name), None),
       EnvVar("DATABASE_SCHEMA_COMMAND", Some(CREATE_SCHEMA_COMMAND), None),
       EnvVar("DATABASE_USER", None, Some(SecretKeyRefOf(SchemaSecretName(nameQualifier), USERNAME_KEY))),
       EnvVar("DATABASE_PASSWORD", None, Some(SecretKeyRefOf(SchemaSecretName(nameQualifier), PASSWORD_KEY)))]
    }

    function TablespaceVars(db: DatabaseServiceResult): seq<EnvVar>
    {
      match db.tablespace
      case Some(s) => [EnvVar("TABLESPACE", Some(s), None)]
      case None => []
    }

    function JdbcVars(db: DatabaseServiceResult): seq<EnvVar>
    {
      if |db.jdbcParameters| == 0 then []
      else [EnvVar("JDBC_PARAMETERS", Some(JdbcParameters(db.jdbcParameters)), None)]
    }

    /** The schema-creation container's environment. */
    function Environment(ctx: Collaborators, db: DatabaseServiceResult, nameQualifier: string): (r: seq<EnvVar>)
      ensures |r| == 9 + (if ctx.forceDbPasswordReset.Some? then 1 else 0) + (if db.tablespace.Some? then 1 else 0)
        + (if |db.jdbcParameters| > 0 then 1 else 0)
      ensures EnvVar("DATABASE_USER", None, Some(SecretKeyRefOf(SchemaSecretName(nameQualifier), USERNAME_KEY))) in r
      ensures EnvVar("DATABASE_PASSWORD", None, Some(SecretKeyRefOf(SchemaSecretName(nameQualifier), PASSWORD_KEY))) in r
    {
      ServerVars(db) + ForceResetVars(ctx) + SchemaVars(db, nameQualifier) + TablespaceVars(db) + JdbcVars(db)
    }

    /** Every variable in `vars` is bound as the schema-creation tool expects. */
    predicate BoundAsExpected(ctx: Collaborators, db: DatabaseServiceResult, nameQualifier: string, vars: seq<EnvVar>)
    {
      forall i :: 0 <= i < |vars| ==> vars[i] == Binding(ctx, db, nameQualifier, vars[i].name)
    }

    lemma BoundAsExpectedAppend(ctx: Collaborators, db: DatabaseServiceResult, nameQualifier: string,
                                a: seq<EnvVar>, b: seq<EnvVar>)
      requires BoundAsExpected(ctx, db, nameQualifier, a) && BoundAsExpected(ctx, db, nameQualifier, b)
      ensures BoundAsExpected(ctx, db, nameQualifier, a + b)
    {
      forall i | 0 <= i < |a + b| ensures (a + b)[i] == Binding(ctx, db, nameQualifier, (a + b)[i].name) {
        if i < |a| {
          assert (a + b)[i] == a[i];
        } else {
          assert (a + b)[i] == b[i - |a|];
        }
      }
    }

    lemma ServerVarsBound(ctx: Collaborators, db: DatabaseServiceResult, nameQualifier: string)
      ensures BoundAsExpected(ctx, db, nameQualifier, ServerVars(db))
    {
    }

    lemma SchemaVarsBound(ctx: Collaborators, db: DatabaseServiceResult, nameQualifier: string)
      ensures BoundAsExpected(ctx, db, nameQualifier, SchemaVars(db, nameQualifier))
    {
    }

    lemma ForceResetVarsBound(ctx: Collaborators, db: DatabaseServiceResult, nameQualifier: string)
      ensures BoundAsExpected(ctx, db, nameQualifier, ForceResetVars(ctx))
    {
    }

    lemma TablespaceVarsBound(ctx: Collaborators, db: DatabaseServiceResult, nameQualifier: string)
      ensures BoundAsExpected(ctx, db, nameQualifier, TablespaceVars(db))
    {
    }

    lemma JdbcVarsBound(ctx: Collaborators, db: DatabaseServiceResult, nameQualifier: string)
      ensures BoundAsExpected(ctx, db, nameQualifier, JdbcVars(db))
    {
    }

    /**
     * The environment lists the variables in the tool's fixed order, the optional ones
     * exactly when configured.
     */
    lemma EnvironmentNames(ctx: Collaborators, db: DatabaseServiceResult, nameQualifier: string)
      ensures Names(Environment(ctx, db, nameQualifier))
           == EnvNames(ctx.forceDbPasswordReset.Some?, db.tablespace.Some?, |db.jdbcParameters| > 0)
    {
      var server, force, schema := ServerVars(db), ForceResetVars(ctx), SchemaVars(db, nameQualifier);
      var tablespace, jdbc := TablespaceVars(db), JdbcVars(db);
      NamesAppend(server, force);
      NamesAppend(server + force, schema);
      NamesAppend(server + force + schema, tablespace);
      NamesAppend(server + force + schema + tablespace, jdbc);
      assert Names(server)
          == ["DATABASE_SERVER_HOST", "DATABASE_SERVER_PORT", "DATABASE_ADMIN_USER", "DATABASE_ADMIN_PASSWORD", "DATABASE_NAME"];
      assert Names(force) == if ctx.forceDbPasswordReset.Some? then ["FORCE_PASSWORD_RESET"] else [];
      assert Names(schema) == ["DATABASE_VENDOR", "DATABASE_SCHEMA_COMMAND", "DATABASE_USER", "DATABASE_PASSWORD"];
      assert Names(tablespace) == if db.tablespace.Some? then ["TABLESPACE"] else [];
      assert Names(jdbc) == if |db.jdbcParameters| > 0 then ["JDBC_PARAMETERS"] else [];
    }

    /** Each variable of the environment is bound as the schema-creation tool expects. */
    lemma EnvironmentBindings(ctx: Collaborators, db: DatabaseServiceResult, nameQualifier: string)
      ensures BoundAsExpected(ctx, db, nameQualifier, Environment(ctx, db, nameQualifier))
    {
      ServerVarsBound(ctx, db, nameQualifier);
      SchemaVarsBound(ctx, db, nameQualifier);
      ForceResetVarsBound(ctx, db, nameQualifier);
      TablespaceVarsBound(ctx, db, nameQualifier);
      JdbcVarsBound(ctx, db, nameQualifier);
      var q := nameQualifier;
      BoundAsExpectedAppend(ctx, db, q, ServerVars(db), ForceResetVars(ctx));
      BoundAsExpectedAppend(ctx, db, q, ServerVars(db) + ForceResetVars(ctx), SchemaVars(db, q));
      BoundAsExpectedAppend(ctx, db, q, ServerVars(db) + ForceResetVars(ctx) + SchemaVars(db, q), TablespaceVars(db));
      BoundAsExpectedAppend(ctx, db, q, ServerVars(db) + ForceResetVars(ctx) + SchemaVars(db, q) + TablespaceVars(db),
        JdbcVars(db));
    }

    /** The init container that creates the schema for one qualifier. */
    function SchemaCreationContainer(ctx: Collaborators, db: DatabaseServiceResult, nameQualifier: string): (r: Container)
      ensures r.image == ctx.determineImageUri(SCHEMA_CREATION_IMAGE) && r.imagePullPolicy == Some("Always")
      ensures r.name == ctx.shortenTo63Chars(resource.name + "-" + nameQualifier + "-schema-creation-job")
      ensures r.command == [] && r.env == Environment(ctx, db, nameQualifier)
    {
      Container(ctx.shortenTo63Chars(resource.name + "-" + nameQualifier + "-schema-creation-job"),
        ctx.determineImageUri(SCHEMA_CREATION_IMAGE), Some("Always"), [], Environment(ctx, db, nameQualifier))
    }

    /** The init container that runs a component's population step. */
    function PopulationContainer(ctx: Collaborators, populator: DatabasePopulator, nameQualifier: string): (r: Container)
      ensures r.image == ctx.determineImageUri(populator.dockerImageInfo) && r.imagePullPolicy == Some("Always")
      ensures r.name == ctx.shortenTo63Chars(resource.name + "-" + nameQualifier + "-db-population-job")
      ensures r.command == populator.command && r.env == populator.environmentVariables
    {
      Container(ctx.shortenTo63Chars(resource.name + "-" + nameQualifier + "-db-population-job"),
        ctx.determineImageUri(populator.dockerImageInfo), Some("Always"), populator.command,
        populator.environmentVariables)
    }

    /** The schema-creation containers for a component's qualifiers, in qualifier order. */
    function SchemaContainers(ctx: Collaborators, db: DatabaseServiceResult, qualifiers: seq<string>): seq<Container>
    {
      seq(|qualifiers|, j requires 0 <= j < |qualifiers| => SchemaCreationContainer(ctx, db, qualifiers[j]))
    }

    /**
     * The schemas handed to a component: one entry per qualifier, keyed by it, naming
     * the schema and its secret.
     */
    function SchemaResults(db: DatabaseServiceResult, qualifiers: seq<string>): (r: map<string, DatabaseSchemaCreationResult>)
      requires ValidVendor(db)
      ensures forall q :: q in r <==> q in qualifiers
      ensures forall q :: q in r ==>
        r[q].schemaName == SchemaName(db, q) && r[q].schemaSecretName == resource.name + "-" + q + "-secret"
    {
      map q | q in qualifiers :: CreateSchemaResult(db, q)
    }

    /** The population step a component asks for once it has seen its schemas. */
    function Populator(db: DatabaseServiceResult, component: DbAware): Option<DatabasePopulator>
      requires ValidVendor(db)
    {
      component.useDatabaseSchemas(SchemaResults(db, component.dbSchemaQualifiers))
    }

    /** The population container a component asked for, if any. */
    function PopulationShare(ctx: Collaborators, populator: Option<DatabasePopulator>, nameQualifier: string): seq<Container>
    {
      match populator
      case Some(p) => [PopulationContainer(ctx, p, nameQualifier)]
      case None => []
    }

    /** A component's share of the init containers. */
    function ComponentContainers(ctx: Collaborators, db: DatabaseServiceResult, component: DbAware): seq<Container>
      requires ValidVendor(db)
    {
      SchemaContainers(ctx, db, component.dbSchemaQualifiers)
      + PopulationShare(ctx, Populator(db, component), component.nameQualifier)
    }

    /**
     * A component contributes one schema-creation container per qualifier, in qualifier
     * order, then one population container exactly when it asks for one.
     */
    lemma ComponentContainersShape(ctx: Collaborators, db: DatabaseServiceResult, component: DbAware)
      requires ValidVendor(db)
      ensures var r := ComponentContainers(ctx, db, component);
        var n := |component.dbSchemaQualifiers|;
        && |r| == n + (if Populator(db, component).Some? then 1 else 0)
        && (forall j :: 0 <= j < n ==> r[j] == SchemaCreationContainer(ctx, db, component.dbSchemaQualifiers[j]))
        && (Populator(db, component).Some? ==>
             r[n] == PopulationContainer(ctx, Populator(db, component).value, component.nameQualifier))
    {
    }

    /** Each component's share, in component order. */
    function Shares(ctx: Collaborators, db: DatabaseServiceResult, components: seq<DbAware>): (r: seq<seq<Container>>)
      requires ValidVendor(db)
    {
      seq(|components|, i requires 0 <= i < |components| => ComponentContainers(ctx, db, components[i]))
    }

    /** The whole init-container chain: the components' shares one after another. */
    function Containers(ctx: Collaborators, db: DatabaseServiceResult, components: seq<DbAware>): (r: seq<Container>)
      requires ValidVendor(db)
      ensures forall c :: c in r <==>
        exists i :: 0 <= i < |components| && c in ComponentContainers(ctx, db, components[i])
    {
      var shares := Shares(ctx, db, components);
      FlattenMembers(shares);
      assert forall i :: 0 <= i < |components| ==> shares[i] == ComponentContainers(ctx, db, components[i]);
      Flatten(shares)
    }

    function PopulatorCount(db: DatabaseServiceResult, components: seq<DbAware>): nat
      requires ValidVendor(db)
    {
      if |components| == 0 then 0
      else PopulatorCount(db, components[..|components| - 1])
           + (if Populator(db, components[|components| - 1]).Some? then 1 else 0)
    }

    lemma ContainersSnoc(ctx: Collaborators, db: DatabaseServiceResult, components: seq<DbAware>, last: DbAware)
      requires ValidVendor(db)
      ensures Containers(ctx, db, components + [last])
           == Containers(ctx, db, components) + ComponentContainers(ctx, db, last)
    {
      assert Shares(ctx, db, components + [last]) == Shares(ctx, db, components) + [ComponentContainers(ctx, db, last)];
      FlattenSnoc(Shares(ctx, db, components), ComponentContainers(ctx, db, last));
    }

    /** The chain holds one container per schema qualifier plus one per population step. */
    lemma {:induction false} ContainersCount(ctx: Collaborators, db: DatabaseServiceResult, components: seq<DbAware>)
      requires ValidVendor(db)
      ensures |Containers(ctx, db, components)| == TotalQualifiers(components) + PopulatorCount(db, components)
    {
      if |components| > 0 {
        var n := |components| - 1;
        assert components == components[..n] + [components[n]];
        ContainersCount(ctx, db, components[..n]);
        ContainersSnoc(ctx, db, components[..n], components[n]);
        ComponentContainersShape(ctx, db, components[n]);
      } else {
        assert Shares(ctx, db, components) == [];
      }
    }

    /** The chain for consecutive groups of components is the chains of the groups, in order. */
    lemma ContainersAppend(ctx: Collaborators, db: DatabaseServiceResult, first: seq<DbAware>, second: seq<DbAware>)
      requires ValidVendor(db)
      ensures Containers(ctx, db, first + second) == Containers(ctx, db, first) + Containers(ctx, db, second)
    {
      assert Shares(ctx, db, first + second) == Shares(ctx, db, first) + Shares(ctx, db, second);
      FlattenAppend(Shares(ctx, db, first), Shares(ctx, db, second));
    }

    /**
     * Component `i`'s containers sit in the chain right after those of the components
     * before it.
     */
    lemma ContainersAt(ctx: Collaborators, db: DatabaseServiceResult, components: seq<DbAware>, i: nat)
      requires ValidVendor(db) && i < |components|
      ensures var offset := |Containers(ctx, db, components[..i])|;
        var own := ComponentContainers(ctx, db, components[i]);
        offset + |own| <= |Containers(ctx, db, components)| &&
        Containers(ctx, db, components)[offset..offset + |own|] == own
    {
      assert components == (components[..i] + [components[i]]) + components[i + 1..];
      ContainersAppend(ctx, db, components[..i] + [components[i]], components[i + 1..]);
      ContainersSnoc(ctx, db, components[..i], components[i]);
    }

    /** The secrets created for one component, one per qualifier, in order. */
    function SchemaSecrets(db: DatabaseServiceResult, qualifiers: seq<string>, passwords: seq<Password>): seq<Secret>
      requires ValidVendor(db) && |passwords| == |qualifiers|
    {
      seq(|qualifiers|, j requires 0 <= j < |qualifiers| => SchemaSecret(db, qualifiers[j], passwords[j]))
    }

    function SecretShares(db: DatabaseServiceResult, components: seq<DbAware>, passwords: seq<seq<Password>>): seq<seq<Secret>>
      requires ValidVendor(db) && PasswordsFit(components, passwords)
    {
      seq(|components|, i requires 0 <= i < |components| =>
        SchemaSecrets(db, components[i].dbSchemaQualifiers, passwords[i]))
    }

    /** The secrets created for all components, in order. */
    function AllSchemaSecrets(db: DatabaseServiceResult, components: seq<DbAware>, passwords: seq<seq<Password>>): seq<Secret>
      requires ValidVendor(db) && PasswordsFit(components, passwords)
    {
      Flatten(SecretShares(db, components, passwords))
    }

    lemma AllSchemaSecretsSnoc(db: DatabaseServiceResult, components: seq<DbAware>, passwords: seq<seq<Password>>, i: nat)
      requires ValidVendor(db) && PasswordsFit(components, passwords) && i < |components|
      ensures AllSchemaSecrets(db, components[..i + 1], passwords[..i + 1])
           == AllSchemaSecrets(db, components[..i], passwords[..i])
              + SchemaSecrets(db, components[i].dbSchemaQualifiers, passwords[i])
    {
      var own := SchemaSecrets(db, components[i].dbSchemaQualifiers, passwords[i]);
      assert SecretShares(db, components[..i + 1], passwords[..i + 1])
          == SecretShares(db, components[..i], passwords[..i]) + [own];
      FlattenSnoc(SecretShares(db, components[..i], passwords[..i]), own);
    }

    /** The store keys of the schema secrets of the qualifiers of the given components. */
    function QualifierSecretKeys(components: seq<DbAware>): set<SecretKey>
    {
      set i, q | 0 <= i < |components| && q in components[i].dbSchemaQualifiers
        :: (resource.namespace, SchemaSecretName(q))
    }

    /** A secret whose name is some qualifier's schema-secret name has that qualifier's schema name as username. */
    ghost predicate UsernameFitsName(db: DatabaseServiceResult, secret: Secret)
      requires ValidVendor(db)
    {
      forall q :: secret.name == SchemaSecretName(q) ==>
        USERNAME_KEY in secret.stringData && secret.stringData[USERNAME_KEY] == SchemaName(db, q)
    }

    lemma SchemaSecretFits(db: DatabaseServiceResult, nameQualifier: string, password: Password)
      requires ValidVendor(db)
      ensures UsernameFitsName(db, SchemaSecret(db, nameQualifier, password))
    {
      var s := SchemaSecret(db, nameQualifier, password);
      forall q | s.name == SchemaSecretName(q)
        ensures USERNAME_KEY in s.stringData && s.stringData[USERNAME_KEY] == SchemaName(db, q)
      {
        SchemaSecretNameInjective(q, nameQualifier);
      }
    }

    /** Every secret of a composition is the schema secret of some component's qualifier. */
    lemma AllSchemaSecretsMember(db: DatabaseServiceResult, components: seq<DbAware>, passwords: seq<seq<Password>>,
                                 s: Secret) returns (i: nat, j: nat)
      requires ValidVendor(db) && PasswordsFit(components, passwords)
      requires s in AllSchemaSecrets(db, components, passwords)
      ensures i < |components| && j < |components[i].dbSchemaQualifiers|
      ensures s == SchemaSecret(db, components[i].dbSchemaQualifiers[j], passwords[i][j])
    {
      var shares := SecretShares(db, components, passwords);
      FlattenMember(shares, s);
      i :| 0 <= i < |shares| && s in shares[i];
      j :| 0 <= j < |shares[i]| && shares[i][j] == s;
    }

    /** The secrets of a composition take exactly the keys of the components' qualifiers, whatever passwords were drawn. */
    lemma AllSchemaSecretsKeys(db: DatabaseServiceResult, components: seq<DbAware>, passwords: seq<seq<Password>>)
      requires ValidVendor(db) && PasswordsFit(components, passwords)
      ensures KeysOf(resource.namespace, AllSchemaSecrets(db, components, passwords)) == QualifierSecretKeys(components)
    {
      var ns := resource.namespace;
      var all := AllSchemaSecrets(db, components, passwords);
      forall s | s in all ensures (ns, s.name) in QualifierSecretKeys(components) {
        var i, j := AllSchemaSecretsMember(db, components, passwords, s);
        assert components[i].dbSchemaQualifiers[j] in components[i].dbSchemaQualifiers;
      }
      forall k | k in QualifierSecretKeys(components) ensures k in KeysOf(ns, all) {
        var i, q :| 0 <= i < |components| && q in components[i].dbSchemaQualifiers
          && k == (ns, SchemaSecretName(q));
        var j :| 0 <= j < |components[i].dbSchemaQualifiers| && components[i].dbSchemaQualifiers[j] == q;
        var shares := SecretShares(db, components, passwords);
        assert SchemaSecret(db, q, passwords[i][j]) == shares[i][j];
        FlattenMember(shares, shares[i][j]);
      }
    }

    /** Each secret of a composition carries its qualifier's schema name as username. */
    lemma AllSchemaSecretsUsernames(db: DatabaseServiceResult, components: seq<DbAware>, passwords: seq<seq<Password>>)
      requires ValidVendor(db) && PasswordsFit(components, passwords)
      ensures forall s :: s in AllSchemaSecrets(db, components, passwords) ==> UsernameFitsName(db, s)
    {
      forall s | s in AllSchemaSecrets(db, components, passwords) ensures UsernameFitsName(db, s) {
        var i, j := AllSchemaSecretsMember(db, components, passwords, s);
        SchemaSecretFits(db, components[i].dbSchemaQualifiers[j], passwords[i][j]);
      }
    }

    /**
     * Because the discriminator is fixed per creator, the secret a composition creates for a
     * qualifier has as its username the very schema name handed to the component.
     */
    lemma SecretUsernameIsSchemaName(store: map<SecretKey, Secret>, db: DatabaseServiceResult, components: seq<DbAware>,
                                     passwords: seq<seq<Password>>, i: nat, j: nat)
      requires ValidVendor(db) && PasswordsFit(components, passwords)
      requires i < |components| && j < |components[i].dbSchemaQualifiers|
      requires (resource.namespace, SchemaSecretName(components[i].dbSchemaQualifiers[j])) !in store
      ensures var q := components[i].dbSchemaQualifiers[j];
        var after := CreateAllIfAbsent(store, resource.namespace, AllSchemaSecrets(db, components, passwords));
        var key := (resource.namespace, SchemaSecretName(q));
        key in after && USERNAME_KEY in after[key].stringData && after[key].stringData[USERNAME_KEY]
          == SchemaResults(db, components[i].dbSchemaQualifiers)[q].schemaName
    {
      var q := components[i].dbSchemaQualifiers[j];
      var ss := AllSchemaSecrets(db, components, passwords);
      var key := (resource.namespace, SchemaSecretName(q));
      AllSchemaSecretsKeys(db, components, passwords);
      AllSchemaSecretsUsernames(db, components, passwords);
      CreateAllIfAbsentEffect(store, resource.namespace, ss);
      assert key in QualifierSecretKeys(components);
      var after := CreateAllIfAbsent(store, resource.namespace, ss);
      assert after[key] in ss;
      assert UsernameFitsName(db, after[key]);
    }

    /**
     * Composing again with the same components, whatever passwords are drawn, leaves the
     * store as the first composition left it: no secret is created twice or replaced.
     */
    lemma ComposeTwiceKeepsSecrets(store: map<SecretKey, Secret>, db: DatabaseServiceResult, components: seq<DbAware>,
                                   first: seq<seq<Password>>, second: seq<seq<Password>>)
      requires ValidVendor(db) && PasswordsFit(components, first) && PasswordsFit(components, second)
      ensures var once := CreateAllIfAbsent(store, resource.namespace, AllSchemaSecrets(db, components, first));
        CreateAllIfAbsent(once, resource.namespace, AllSchemaSecrets(db, components, second)) == once
    {
      var ns := resource.namespace;
      AllSchemaSecretsKeys(db, components, first);
      AllSchemaSecretsKeys(db, components, second);
      CreateAllIfAbsentEffect(store, ns, AllSchemaSecrets(db, components, first));
      CreateAllIfAbsentPresent(CreateAllIfAbsent(store, ns, AllSchemaSecrets(db, components, first)), ns,
        AllSchemaSecrets(db, components, second));
    }

    /** With the test suite's sample component, the chain is one schema-creation container for "db". */
    lemma SampleComponentYieldsOneContainer(ctx: Collaborators, db: DatabaseServiceResult)
      requires ValidVendor(db)
      ensures Containers(ctx, db, [SampleDeployableContainer()]) == [SchemaCreationContainer(ctx, db, "db")]
      ensures SchemaResults(db, SampleDeployableContainer().dbSchemaQualifiers).Keys == {"db"}
    {
      var c := SampleDeployableContainer();
      ContainersSnoc(ctx, db, [], c);
      assert [] + [c] == [c];
      assert Shares(ctx, db, []) == [];
      assert Populator(db, c) == None;
      assert SchemaContainers(ctx, db, c.dbSchemaQualifiers) == [SchemaCreationContainer(ctx, db, "db")];
    }

    lemma SchemaContainersSnoc(ctx: Collaborators, db: DatabaseServiceResult, qualifiers: seq<string>, q: string)
      ensures SchemaContainers(ctx, db, qualifiers + [q])
           == SchemaContainers(ctx, db, qualifiers) + [SchemaCreationContainer(ctx, db, q)]
    {
    }

    lemma SchemaResultsSnoc(db: DatabaseServiceResult, qualifiers: seq<string>, q: string)
      requires ValidVendor(db)
      ensures SchemaResults(db, qualifiers + [q]) == SchemaResults(db, qualifiers)[q := CreateSchemaResult(db, q)]
    {
    }

    lemma SchemaSecretsSnoc(db: DatabaseServiceResult, qualifiers: seq<string>, passwords: seq<Password>, j: nat)
      requires ValidVendor(db) && |passwords| == |qualifiers| && j < |qualifiers|
      ensures SchemaSecrets(db, qualifiers[..j + 1], passwords[..j + 1])
           == SchemaSecrets(db, qualifiers[..j], passwords[..j]) + [SchemaSecret(db, qualifiers[j], passwords[j])]
    {
    }

    /**
     * One round of the component loop extends the chain by the component's schema
     * containers and the population step it asks for, and the secrets by its own.
     */
    lemma ComponentStep(ctx: Collaborators, db: DatabaseServiceResult, store: map<SecretKey, Secret>,
                        components: seq<DbAware>, passwords: seq<seq<Password>>, i: nat)
      requires ValidVendor(db) && PasswordsFit(components, passwords) && i < |components|
      ensures Containers(ctx, db, components[..i + 1])
           == Containers(ctx, db, components[..i]) + SchemaContainers(ctx, db, components[i].dbSchemaQualifiers)
              + PopulationShare(ctx, components[i].useDatabaseSchemas(SchemaResults(db, components[i].dbSchemaQualifiers)),
                  components[i].nameQualifier)
      ensures CreateAllIfAbsent(store, resource.namespace, AllSchemaSecrets(db, components[..i + 1], passwords[..i + 1]))
           == CreateAllIfAbsent(CreateAllIfAbsent(store, resource.namespace, AllSchemaSecrets(db, components[..i], passwords[..i])),
                resource.namespace, SchemaSecrets(db, components[i].dbSchemaQualifiers, passwords[i]))
    {
      assert components[..i + 1] == components[..i] + [components[i]];
      ContainersSnoc(ctx, db, components[..i], components[i]);
      AllSchemaSecretsSnoc(db, components, passwords, i);
      CreateAllIfAbsentAppend(store, resource.namespace,
        AllSchemaSecrets(db, components[..i], passwords[..i]),
        SchemaSecrets(db, components[i].dbSchemaQualifiers, passwords[i]));
    }

    /** One round of the schema loop extends each of the three results by the qualifier's share. */
    lemma SchemaStep(ctx: Collaborators, db: DatabaseServiceResult, store: map<SecretKey, Secret>,
                     containerList: seq<Container>, qualifiers: seq<string>, passwords: seq<Password>, j: nat)
      requires ValidVendor(db) && |passwords| == |qualifiers| && j < |qualifiers|
      ensures containerList + SchemaContainers(ctx, db, qualifiers[..j + 1])
           == (containerList + SchemaContainers(ctx, db, qualifiers[..j])) + [SchemaCreationContainer(ctx, db, qualifiers[j])]
      ensures SchemaResults(db, qualifiers[..j + 1])
           == SchemaResults(db, qualifiers[..j])[qualifiers[j] := CreateSchemaResult(db, qualifiers[j])]
      ensures CreateAllIfAbsent(store, resource.namespace, SchemaSecrets(db, qualifiers[..j + 1], passwords[..j + 1]))
           == CreateIfAbsent(CreateAllIfAbsent(store, resource.namespace, SchemaSecrets(db, qualifiers[..j], passwords[..j])),
                resource.namespace, SchemaSecret(db, qualifiers[j], passwords[j]))
    {
      var q := qualifiers[j];
      assert qualifiers[..j + 1] == qualifiers[..j] + [q];
      SchemaContainersSnoc(ctx, db, qualifiers[..j], q);
      SchemaResultsSnoc(db, qualifiers[..j], q);
      SchemaSecretsSnoc(db, qualifiers, passwords, j);
      CreateAllIfAbsentSnoc(store, resource.namespace,
        SchemaSecrets(db, qualifiers[..j], passwords[..j]), SchemaSecret(db, q, passwords[j]));
    }

    /** Creates the schema's secret unless the store already holds one of that name. */
    method CreateSchemaSecret(store: SecretStore, db: DatabaseServiceResult, nameQualifier: string, password: Password)
      requires ValidVendor(db)
      modifies store
      ensures store.secrets == CreateIfAbsent(old(store.secrets), resource.namespace, SchemaSecret(db, nameQualifier, password))
    {
      store.CreateSecretIfAbsent(resource,
        GenerateSecret(resource, SchemaSecretName(nameQualifier), SchemaName(db, nameQualifier), password));
    }

    /**
     * One round of the schema loop: the qualifier's schema-creation container, its entry
     * in the schema results and its secret, created unless present.
     */
    method AddSchema(ctx: Collaborators, store: SecretStore, db: DatabaseServiceResult, nameQualifier: string,
                     password: Password, containerList: seq<Container>,
                     schemaResults: map<string, DatabaseSchemaCreationResult>)
      returns (containers: seq<Container>, results: map<string, DatabaseSchemaCreationResult>)
      requires ValidVendor(db)
      modifies store
      ensures containers == containerList + [SchemaCreationContainer(ctx, db, nameQualifier)]
      ensures results == schemaResults[nameQualifier := CreateSchemaResult(db, nameQualifier)]
      ensures store.secrets == CreateIfAbsent(old(store.secrets), resource.namespace, SchemaSecret(db, nameQualifier, password))
    {
      containers := containerList + [SchemaCreationContainer(ctx, db, nameQualifier)];
      results := schemaResults[nameQualifier := CreateSchemaResult(db, nameQualifier)];
      CreateSchemaSecret(store, db, nameQualifier, password);
    }

    /**
     * Appends a schema-creation container per qualifier of `component` to
     * `containerList`, creates each schema's secret if absent, and returns the schemas
     * created, keyed by qualifier.
     */
    method PrepareContainersToCreateSchemas(ctx: Collaborators, store: SecretStore, db: DatabaseServiceResult,
                                            component: DbAware, containerList: seq<Container>, passwords: seq<Password>)
      returns (containers: seq<Container>, schemaResults: map<string, DatabaseSchemaCreationResult>)
      requires ValidVendor(db) && |passwords| == |component.dbSchemaQualifiers|
      modifies store
      ensures containers == containerList + SchemaContainers(ctx, db, component.dbSchemaQualifiers)
      ensures schemaResults == SchemaResults(db, component.dbSchemaQualifiers)
      ensures store.secrets == CreateAllIfAbsent(old(store.secrets), resource.namespace,
        SchemaSecrets(db, component.dbSchemaQualifiers, passwords))
    {
      var qualifiers := component.dbSchemaQualifiers;
      containers := containerList;
      schemaResults := map[];
      ghost var store0 := store.secrets;
      var j := 0;
      assert SchemaContainers(ctx, db, qualifiers[..0]) == [];
      while j < |qualifiers|
        invariant 0 <= j <= |qualifiers|
        invariant containers == containerList + SchemaContainers(ctx, db, qualifiers[..j])
        invariant schemaResults == SchemaResults(db, qualifiers[..j])
        invariant store.secrets == CreateAllIfAbsent(store0, resource.namespace,
          SchemaSecrets(db, qualifiers[..j], passwords[..j]))
      {
        SchemaStep(ctx, db, store0, containerList, qualifiers, passwords, j);
        containers, schemaResults := AddSchema(ctx, store, db, qualifiers[j], passwords[j], containers, schemaResults);
        j := j + 1;
      }
      assert qualifiers[..j] == qualifiers;
      assert passwords[..j] == passwords;
    }

    /**
     * One component's turn in buildContainers: its schema containers and secrets, then
     * the population container it asks for when handed its schemas.
     */
    method AddComponentContainers(ctx: Collaborators, store: SecretStore, db: DatabaseServiceResult,
                                  component: DbAware, containerList: seq<Container>, passwords: seq<Password>)
      returns (result: seq<Container>)
      requires ValidVendor(db) && |passwords| == |component.dbSchemaQualifiers|
      modifies store
      ensures result == containerList + SchemaContainers(ctx, db, component.dbSchemaQualifiers)
        + PopulationShare(ctx, component.useDatabaseSchemas(SchemaResults(db, component.dbSchemaQualifiers)),
            component.nameQualifier)
      ensures store.secrets == CreateAllIfAbsent(old(store.secrets), resource.namespace,
        SchemaSecrets(db, component.dbSchemaQualifiers, passwords))
    {
      var schemaResults;
      result, schemaResults := PrepareContainersToCreateSchemas(ctx, store, db, component, containerList, passwords);
      var populator := component.useDatabaseSchemas(schemaResults);
      if populator.Some? {
        result := result + [PopulationContainer(ctx, populator.value, component.nameQualifier)];
      }
    }

    /**
     * The init-container chain of the job pod, with the secrets created on the way and
     * the schemas each component was handed.
     */
    method BuildContainers(ctx: Collaborators, store: SecretStore, deployable: DbAwareDeployable,
                           passwords: seq<seq<Password>>)
      returns (result: seq<Container>)
      requires ValidVendor(deployable.databaseServiceResult)
      requires PasswordsFit(deployable.dbAwareContainers, passwords)
      modifies store
      ensures result == Containers(ctx, deployable.databaseServiceResult, deployable.dbAwareContainers)
      ensures store.secrets == CreateAllIfAbsent(old(store.secrets), resource.namespace,
        AllSchemaSecrets(deployable.databaseServiceResult, deployable.dbAwareContainers, passwords))
    {
      var db := deployable.databaseServiceResult;
      var components := deployable.dbAwareContainers;
      result := [];
      ghost var store0 := store.secrets;
      var i := 0;
      assert Shares(ctx, db, components[..0]) == [];
      assert SecretShares(db, components[..0], passwords[..0]) == [];
      while i < |components|
        invariant 0 <= i <= |components|
        invariant result == Containers(ctx, db, components[..i])
        invariant store.secrets == CreateAllIfAbsent(store0, resource.namespace,
          AllSchemaSecrets(db, components[..i], passwords[..i]))
      {
        ComponentStep(ctx, db, store0, components, passwords, i);
        result := AddComponentContainers(ctx, store, db, components[i], result, passwords[i]);
        i := i + 1;
      }
      assert components[..i] == components;
      assert passwords[..i] == passwords;
    }

    /** The placeholder container that keeps the job pod schedulable. */
    function DummyContainer(ctx: Collaborators): (r: Container)
      ensures r.name == "dummy" && r.image == ctx.determineImageUri(BUSYBOX_IMAGE)
      ensures r.imagePullPolicy == None && r.command == [] && r.env == []
    {
      Container("dummy", ctx.determineImageUri(BUSYBOX_IMAGE), None, [], [])
    }

    /**
     * The job pod: in the resource's namespace, owned by it, labelled with the unique
     * labels of `dbJobName`, with the whole init-container chain, a single dummy
     * container, and restart policy Never.
     */
    method BuildJobPod(ctx: Collaborators, store: SecretStore, deployable: DbAwareDeployable,
                       passwords: seq<seq<Password>>, dbJobName: string, uuidPrefix: string)
      returns (pod: Pod)
      requires ValidVendor(deployable.databaseServiceResult)
      requires PasswordsFit(deployable.dbAwareContainers, passwords)
      requires |uuidPrefix| == 4
      modifies store
      ensures pod.namespace == resource.namespace && pod.name == dbJobName + "-" + uuidPrefix
      ensures pod.ownerReferences == [BuildOwnerReference(resource)] && CustomResourceOwns(resource, pod.ownerReferences)
      ensures pod.labels == UniqueLabels(dbJobName)
      ensures pod.initContainers == Containers(ctx, deployable.databaseServiceResult, deployable.dbAwareContainers)
      ensures pod.containers == [DummyContainer(ctx)] && pod.restartPolicy == "Never"
      ensures store.secrets == CreateAllIfAbsent(old(store.secrets), resource.namespace,
        AllSchemaSecrets(deployable.databaseServiceResult, deployable.dbAwareContainers, passwords))
    {
      var initContainers;
      initContainers := BuildContainers(ctx, store, deployable, passwords);
      pod := Pod(resource.namespace, dbJobName + "-" + uuidPrefix, [BuildOwnerReference(resource)],
        UniqueLabels(dbJobName), initContainers, [DummyContainer(ctx)], "Never");
      OwnerReferenceOwns(resource, pod.ownerReferences);
    }

    /**
     * The preparation of a run: the pods removed first are those in the resource's
     * namespace carrying the labels of the deployable's qualifier, and the job pod then
     * run to completion lives in that namespace and carries those very labels. Removing,
     * starting and waiting are cluster calls outside this model.
     */
    method RunToCompletion(ctx: Collaborators, store: SecretStore, deployable: DbAwareDeployable,
                           passwords: seq<seq<Password>>, uuidPrefix: string)
      returns (removalNamespace: string, removalSelector: map<string, string>, pod: Pod)
      requires ValidVendor(deployable.databaseServiceResult)
      requires PasswordsFit(deployable.dbAwareContainers, passwords)
      requires |uuidPrefix| == 4
      modifies store
      ensures removalNamespace == resource.namespace && pod.namespace == removalNamespace
      ensures removalSelector == UniqueLabels(deployable.nameQualifier) && pod.labels == removalSelector
      ensures Selects(removalSelector, pod.labels)
      ensures pod.ownerReferences == [BuildOwnerReference(resource)] && CustomResourceOwns(resource, pod.ownerReferences)
      ensures pod.containers == [DummyContainer(ctx)]
      ensures pod.name == deployable.nameQualifier + "-" + uuidPrefix && pod.restartPolicy == "Never"
      ensures pod.initContainers == Containers(ctx, deployable.databaseServiceResult, deployable.dbAwareContainers)
      ensures store.secrets == CreateAllIfAbsent(old(store.secrets), resource.namespace,
        AllSchemaSecrets(deployable.databaseServiceResult, deployable.dbAwareContainers, passwords))
    {
      removalNamespace := resource.namespace;
      removalSelector := UniqueLabels(deployable.nameQualifier);
      pod := BuildJobPod(ctx, store, deployable, passwords, deployable.nameQualifier, uuidPrefix);
      UniqueLabelsSelectOwnQualifierOnly(deployable.nameQualifier, deployable.nameQualifier);
    }
  }
}
