/** The props tables of troposphere/serverless.py as schema data: the five
    GlobalsHelperFn subclasses, whose constructor is the closed-schema walk,
    and the classes that carry a validate hook. */
module ServerlessSchemas {
  import opened Outcomes
  import opened PyValues
  import opened GlobalsHelper
  import opened PresenceRules
  import opened ServerlessValidators

  // ---------------------------------------------------------------------------
  // Type specifications that several tables share

  const StrSpec: TypeSpec := Types([StrType])
  const BoolSpec: TypeSpec := Types([BoolType])
  const ListSpec: TypeSpec := Types([ListType])
  const DictSpec: TypeSpec := Types([DictType])
  function ClassSpec(name: string): TypeSpec { Types([ClassType(name)]) }

  /** `policytypes`: (dict, list, str, PolicyDocument). Without awacs the
      tuple lacks PolicyDocument, but then no PolicyDocument value exists, so
      the two tuples accept the same values. */
  const PolicySpec: TypeSpec := Types([DictType, ListType, StrType, ClassType("PolicyDocument")])

  // ---------------------------------------------------------------------------
  // GlobalsHelperFn subclasses

  datatype GlobalsClass = FunctionGlobals | ApiGlobals | HttpApiGlobals | SimpleTableGlobals | Globals

  function GlobalsName(c: GlobalsClass): string
  {
    match c
    case FunctionGlobals => "FunctionGlobals"
    case ApiGlobals => "ApiGlobals"
    case HttpApiGlobals => "HttpApiGlobals"
    case SimpleTableGlobals => "SimpleTableGlobals"
    case Globals => "Globals"
  }

  const FunctionGlobalsProps: seq<Decl> := [
    Decl("AssumeRolePolicyDocument", PolicySpec, false),
    Decl("AutoPublishAlias", StrSpec, false),
    Decl("CodeUri", Types([ClassType("S3Location"), StrType]), false),
    Decl("DeadLetterQueue", ClassSpec("DeadLetterQueue"), false),
    Decl("DeploymentPreference", ClassSpec("DeploymentPreference"), false),
    Decl("Description", StrSpec, false),
    Decl("Environment", ClassSpec("Environment"), false),
    Decl("EventInvokeConfig", ClassSpec("EventInvokeConfiguration"), false),
    Decl("FileSystemConfigs", ListOf([ClassType("FileSystemConfig")]), false),
    Decl("Handler", StrSpec, false),
    Decl("KmsKeyArn", StrSpec, false),
    Decl("Layers", ListOf([StrType]), false),
    Decl("MemorySize", ValidatorFn("validate_memory_size"), false),
    Decl("PermissionsBoundary", StrSpec, false),
    Decl("ProvisionedConcurrencyConfig", ClassSpec("ProvisionedConcurrencyConfiguration"), false),
    Decl("ReservedConcurrentExecutions", ValidatorFn("positive_integer"), false),
    Decl("Runtime", StrSpec, false),
    Decl("Tags", DictSpec, false),
    Decl("Timeout", ValidatorFn("positive_integer"), false),
    Decl("Tracing", StrSpec, false),
    Decl("VpcConfig", ClassSpec("VPCConfig"), false)
  ]

  const ApiGlobalsProps: seq<Decl> := [
    Decl("AccessLogSetting", ClassSpec("AccessLogSetting"), false),
    Decl("Auth", ClassSpec("Auth"), false),
    Decl("BinaryMediaTypes", ListOf([StrType]), false),
    Decl("CacheClusterEnabled", BoolSpec, false),
    Decl("CacheClusterSize", StrSpec, false),
    Decl("CanarySetting", ClassSpec("CanarySetting"), false),
    Decl("Cors", Types([StrType, ClassType("Cors")]), false),
    Decl("DefinitionUri", Types([StrType, ClassType("ApiDefinition")]), false),
    Decl("Domain", ClassSpec("Domain"), false),
    Decl("EndpointConfiguration", ClassSpec("EndpointConfiguration"), false),
    Decl("MethodSettings", ListOf([ClassType("MethodSetting")]), false),
    Decl("MinimumCompressionSize", ValidatorFn("integer_range(0, 10485760)"), false),
    Decl("Name", StrSpec, false),
    Decl("OpenApiVersion", StrSpec, false),
    Decl("TracingEnabled", BoolSpec, false),
    Decl("Variables", DictSpec, false)
  ]

  const HttpApiGlobalsProps: seq<Decl> := [
    Decl("AccessLogSettings", ClassSpec("AccessLogSettings"), false),
    Decl("Auth", ClassSpec("HttpApiAuth"), false),
    Decl("StageVariables", DictSpec, false),
    Decl("Tags", DictSpec, false)
  ]

  const SimpleTableGlobalsProps: seq<Decl> := [
    Decl("SSESpecification", ClassSpec("SSESpecification"), false)
  ]

  const GlobalsProps: seq<Decl> := [
    Decl("Api", ClassSpec("ApiGlobals"), false),
    Decl("Function", ClassSpec("FunctionGlobals"), false),
    Decl("HttpApi", ClassSpec("HttpApiGlobals"), false),
    Decl("SimpleTable", ClassSpec("SimpleTableGlobals"), false)
  ]

  function PropsOf(c: GlobalsClass): seq<Decl>
  {
    match c
    case FunctionGlobals => FunctionGlobalsProps
    case ApiGlobals => ApiGlobalsProps
    case HttpApiGlobals => HttpApiGlobalsProps
    case SimpleTableGlobals => SimpleTableGlobalsProps
    case Globals => GlobalsProps
  }

  /** `FunctionGlobals(**kwargs)` and its siblings. */
  function NewGlobals(c: GlobalsClass, kwargs: seq<Arg>): Result<Instance, CtorError>
  {
    Construct(GlobalsName(c), PropsOf(c), kwargs)
  }

  /** The Globals argument that takes an instance of `c`. */
  function GlobalsField(c: GlobalsClass): string
  {
    match c
    case FunctionGlobals => "Function"
    case ApiGlobals => "Api"
    case HttpApiGlobals => "HttpApi"
    case SimpleTableGlobals => "SimpleTable"
    case Globals => "Globals"
  }

  /** A constructed helper as a Python value another constructor receives. */
  function AsValue(inst: Instance): Value
  {
    HelperFn(inst.cls, inst.data)
  }

  // ---------------------------------------------------------------------------
  // Props tables of the hooked classes

  const DeadLetterQueueProps: seq<Decl> := [Decl("Type", StrSpec, false), Decl("TargetArn", StrSpec, false)]

  const EventInvokeDestinationProps: seq<Decl> := [Decl("Destination", StrSpec, false), Decl("Type", StrSpec, false)]

  const FunctionProps: seq<Decl> := [
    Decl("Architectures", ListOf([StrType]), false),
    Decl("AssumeRolePolicyDocument", PolicySpec, false),
    Decl("AutoPublishAlias", StrSpec, false),
    Decl("AutoPublishCodeSha256", StrSpec, false),
    Decl("CodeSigningConfigArn", StrSpec, false),
    Decl("CodeUri", Types([ClassType("S3Location"), StrType]), false),
    Decl("DeadLetterQueue", ClassSpec("DeadLetterQueue"), false),
    Decl("DeploymentPreference", ClassSpec("DeploymentPreference"), false),
    Decl("Description", StrSpec, false),
    Decl("Environment", ClassSpec("Environment"), false),
    Decl("EventInvokeConfig", ClassSpec("EventInvokeConfiguration"), false),
    Decl("Events", DictSpec, false),
    Decl("FileSystemConfigs", ListOf([ClassType("FileSystemConfig")]), false),
    Decl("FunctionName", StrSpec, false),
    Decl("Handler", StrSpec, false),
    Decl("ImageConfig", ClassSpec("ImageConfig"), false),
    Decl("ImageUri", Types([HelperFnType, StrType, DictType]), false),
    Decl("InlineCode", StrSpec, false),
    Decl("KmsKeyArn", StrSpec, false),
    Decl("Layers", ListOf([StrType]), false),
    Decl("MemorySize", ValidatorFn("validate_memory_size"), false),
    Decl("PackageType", ValidatorFn("validate_package_type"), false),
    Decl("PermissionsBoundary", StrSpec, false),
    Decl("Policies", PolicySpec, false),
    Decl("ProvisionedConcurrencyConfig", ClassSpec("ProvisionedConcurrencyConfiguration"), false),
    Decl("ReservedConcurrentExecutions", ValidatorFn("positive_integer"), false),
    Decl("Role", StrSpec, false),
    Decl("Runtime", StrSpec, false),
    Decl("Tags", DictSpec, false),
    Decl("Timeout", ValidatorFn("positive_integer"), false),
    Decl("Tracing", StrSpec, false),
    Decl("VersionDescription", StrSpec, false),
    Decl("VpcConfig", ClassSpec("VPCConfig"), false)
  ]

  /** `props[name] = (props[name][0], required)` on a copy of the table: the
      entry keeps its position and type and takes the new flag. */
  function SetRequired(decls: seq<Decl>, name: string, required: bool): (r: seq<Decl>)
    ensures |r| == |decls|
    ensures forall i :: 0 <= i < |decls| ==> r[i].name == decls[i].name && r[i].spec == decls[i].spec
    ensures forall i :: 0 <= i < |decls| && decls[i].name != name ==> r[i] == decls[i]
    ensures forall i :: 0 <= i < |decls| && decls[i].name == name ==> r[i].required == required
  {
    seq(|decls|, i requires 0 <= i < |decls| =>
      if decls[i].name == name then Decl(name, decls[i].spec, required) else decls[i])
  }

  /** FunctionForPackaging's props: Function's, with CodeUri made optional. */
  function FunctionForPackagingProps(): seq<Decl>
  {
    SetRequired(FunctionProps, "CodeUri", false)
  }

  const Route53Props: seq<Decl> := [
    Decl("DistributionDomainName", StrSpec, false),
    Decl("EvaluateTargetHealth", BoolSpec, false),
    Decl("HostedZoneId", StrSpec, false),
    Decl("HostedZoneName", StrSpec, false),
    Decl("IpV6", BoolSpec, false)
  ]

  const DomainProps: seq<Decl> := [
    Decl("BasePath", ListSpec, false),
    Decl("CertificateArn", StrSpec, true),
    Decl("DomainName", StrSpec, true),
    Decl("EndpointConfiguration", StrSpec, false),
    Decl("Route53", ClassSpec("Route53"), false)
  ]

  const EndpointConfigurationProps: seq<Decl> := [Decl("Type", StrSpec, false), Decl("VPCEndpointIds", ListSpec, false)]

  const ApiProps: seq<Decl> := [
    Decl("AccessLogSetting", ClassSpec("AccessLogSetting"), false),
    Decl("Auth", ClassSpec("Auth"), false),
    Decl("BinaryMediaTypes", ListOf([StrType]), false),
    Decl("CacheClusterEnabled", BoolSpec, false),
    Decl("CacheClusterSize", StrSpec, false),
    Decl("CanarySetting", ClassSpec("CanarySetting"), false),
    Decl("Cors", Types([StrType, ClassType("Cors")]), false),
    Decl("DefinitionBody", DictSpec, false),
    Decl("DefinitionUri", Types([StrType, ClassType("ApiDefinition")]), false),
    Decl("Domain", ClassSpec("Domain"), false),
    Decl("EndpointConfiguration", ClassSpec("EndpointConfiguration"), false),
    Decl("MethodSettings", ListOf([ClassType("MethodSetting")]), false),
    Decl("MinimumCompressionSize", ValidatorFn("integer_range(0, 10485760)"), false),
    Decl("Name", StrSpec, false),
    Decl("OpenApiVersion", StrSpec, false),
    Decl("StageName", StrSpec, true),
    Decl("TracingEnabled", BoolSpec, false),
    Decl("Variables", DictSpec, false)
  ]

  const HttpApiProps: seq<Decl> := [
    Decl("AccessLogSettings", ClassSpec("AccessLogSettings"), false),
    Decl("Auth", ClassSpec("HttpApiAuth"), false),
    Decl("CorsConfiguration", Types([StrType, ClassType("HttpApiCorsConfiguration")]), false),
    Decl("DefaultRouteSettings", ClassSpec("RouteSettings"), false),
    Decl("DefinitionBody", DictSpec, false),
    Decl("DefinitionUri", Types([StrType, ClassType("HttpApiDefinition")]), false),
    Decl("Description", StrSpec, false),
    Decl("DisableExecuteApiEndpoint", ValidatorFn("boolean"), false),
    Decl("Domain", ClassSpec("HttpApiDomainConfiguration"), false),
    Decl("FailOnWarnings", ValidatorFn("boolean"), false),
    Decl("RouteSettings", DictSpec, false),
    Decl("StageName", StrSpec, false),
    Decl("StageVariables", DictSpec, false),
    Decl("Tags", DictSpec, false)
  ]

  const SQSEventProps: seq<Decl> := [Decl("Queue", StrSpec, true), Decl("BatchSize", ValidatorFn("positive_integer"), true)]

  const ApplicationProps: seq<Decl> := [
    Decl("Location", Types([ClassType("ApplicationLocation"), StrType]), true),
    Decl("NotificationARNs", ListOf([StrType]), false),
    Decl("Parameters", DictSpec, false),
    Decl("Tags", DictSpec, false),
    Decl("TimeoutInMinutes", ValidatorFn("positive_integer"), false)
  ]

  /** The props table a hooked class has, found through its bases as Python
      finds the `props` class attribute. */
  function HookedProps(c: HookedClass): seq<Decl>
  {
    match c
    case DeadLetterQueue => DeadLetterQueueProps
    case EventInvokeDestination => EventInvokeDestinationProps
    case OnFailure => EventInvokeDestinationProps
    case OnSuccess => EventInvokeDestinationProps
    case Function => FunctionProps
    case FunctionForPackaging => FunctionForPackagingProps()
    case Route53 => Route53Props
    case Domain => DomainProps
    case HttpApiDomainConfiguration => DomainProps
    case EndpointConfiguration => EndpointConfigurationProps
    case Api => ApiProps
    case HttpApi => HttpApiProps
    case SQSEvent => SQSEventProps
    case Application => ApplicationProps
  }

  // ---------------------------------------------------------------------------
  // Lemmas

  /** Setting a flag an entry already has leaves the table unchanged. */
  lemma SetRequiredUnchanged(decls: seq<Decl>, name: string, required: bool)
    requires forall d :: d in decls && d.name == name ==> d.required == required
    ensures SetRequired(decls, name, required) == decls
  {
    var r := SetRequired(decls, name, required);
    forall i | 0 <= i < |decls| ensures r[i] == decls[i] {
      assert decls[i] in decls;
    }
  }

  predicate AllOptional(decls: seq<Decl>)
  {
    forall d :: d in decls ==> !d.required
  }

  lemma FunctionPropsHeadOptional()
    ensures forall i :: 0 <= i < 17 ==> !FunctionProps[i].required
  {
    forall i | 0 <= i < 17 ensures !FunctionProps[i].required {
    }
  }

  lemma FunctionPropsTailOptional()
    ensures forall i :: 17 <= i < |FunctionProps| ==> !FunctionProps[i].required
  {
    forall i | 17 <= i < |FunctionProps| ensures !FunctionProps[i].required {
    }
  }

  /** Checked in two halves of the 33-entry table, to keep each proof small. */
  lemma FunctionPropsAllOptional()
    ensures AllOptional(FunctionProps)
  {
    FunctionPropsHeadOptional();
    FunctionPropsTailOptional();
    forall i | 0 <= i < |FunctionProps| ensures !FunctionProps[i].required {
      if i < 17 {
      }
    }
  }

  /** FunctionForPackaging's "CodeUri made optional" changes nothing, since
      Function already declares CodeUri optional: the two tables coincide,
      and the classes differ only in the validate hook. */
  lemma FunctionForPackagingPropsEqualFunctionProps()
    ensures FunctionForPackagingProps() == FunctionProps
    ensures HookedProps(FunctionForPackaging) == HookedProps(Function)
  {
    FunctionPropsAllOptional();
    SetRequiredUnchanged(FunctionProps, "CodeUri", false);
  }

  lemma FunctionGlobalsAllOptional()
    ensures AllOptional(FunctionGlobalsProps)
  {
    forall i | 0 <= i < |FunctionGlobalsProps| ensures !FunctionGlobalsProps[i].required {
    }
  }

  lemma ApiGlobalsAllOptional()
    ensures AllOptional(ApiGlobalsProps)
  {
    forall i | 0 <= i < |ApiGlobalsProps| ensures !ApiGlobalsProps[i].required {
    }
  }

  lemma GlobalsTablesAllOptional(c: GlobalsClass)
    ensures AllOptional(PropsOf(c))
  {
    match c
    case FunctionGlobals => FunctionGlobalsAllOptional();
    case ApiGlobals => ApiGlobalsAllOptional();
    case _ =>
  }

  /** A table with no required entry never yields a missing-required error. */
  lemma AllOptionalNeverMissRequired(cls: string, decls: seq<Decl>, kwargs: seq<Arg>)
    requires AllOptional(decls)
    ensures !Construct(cls, decls, kwargs).Err? || !Construct(cls, decls, kwargs).error.MissingRequired?
  {
    ErrorsAreJustified(cls, decls, kwargs);
  }

  /** No GlobalsHelperFn subclass declares a required property, so none of
      their constructors ever reports a missing required property. */
  lemma GlobalsNeverMissRequired(c: GlobalsClass, kwargs: seq<Arg>)
    ensures !NewGlobals(c, kwargs).Err? || !NewGlobals(c, kwargs).error.MissingRequired?
  {
    GlobalsTablesAllOptional(c);
    AllOptionalNeverMissRequired(GlobalsName(c), PropsOf(c), kwargs);
  }

  /** A successfully built FunctionGlobals / ApiGlobals / HttpApiGlobals /
      SimpleTableGlobals is accepted as the matching Globals argument. */
  lemma NestedGlobalsAccepted(c: GlobalsClass, inst: Instance)
    requires c != Globals && inst.cls == GlobalsName(c)
    ensures var kwargs := [Arg(GlobalsField(c), AsValue(inst))];
            NewGlobals(Globals, kwargs) == Ok(Instance("Globals", kwargs))
  {
    var idx := GlobalsEntry(c);
    var d := GlobalsProps[idx];
    var kwargs := [Arg(GlobalsField(c), AsValue(inst))];
    assert Lookup(kwargs, d.name) == Some(AsValue(inst));
    assert d.spec.accepted[0] == ClassType(GlobalsName(c));
    assert IsInstance(AsValue(inst), d.spec.accepted[0]);
    assert IsInstanceOfAny(AsValue(inst), d.spec.accepted);
    assert Conforms(d, kwargs);
    GlobalsPropsDistinct();
    SingleArgument("Globals", GlobalsProps, idx, AsValue(inst));
  }

  /** Where the Globals table declares the argument for `c`. */
  lemma GlobalsEntry(c: GlobalsClass) returns (idx: nat)
    requires c != Globals
    ensures idx < |GlobalsProps| && GlobalsProps[idx] == Decl(GlobalsField(c), Types([ClassType(GlobalsName(c))]), false)
  {
    match c
    case ApiGlobals => idx := 0;
    case FunctionGlobals => idx := 1;
    case HttpApiGlobals => idx := 2;
    case SimpleTableGlobals => idx := 3;
  }

  lemma GlobalsPropsDistinct()
    ensures forall i, j :: 0 <= i < |GlobalsProps| && 0 <= j < |GlobalsProps| && i != j
              ==> GlobalsProps[i].name != GlobalsProps[j].name
    ensures forall j :: 0 <= j < |GlobalsProps| ==> !GlobalsProps[j].required
  {
  }

  /** The GlobalsHelperFn constructor has no escape hatch for helper
      functions: a Ref given for a dict property is a type error. */
  lemma GlobalsHelperRejectsRef(ref: Value)
    requires ref.HelperFn?
    ensures NewGlobals(HttpApiGlobals, [Arg("Tags", ref)]) == Err(WrongType("HttpApiGlobals", "Tags", [DictType], ref))
  {
    assert HttpApiGlobalsProps[3].name == "Tags";
    SingleArgument("HttpApiGlobals", HttpApiGlobalsProps, 3, ref);
  }

  /** A list literal such as `[str]` in the props table makes `isinstance`
      raise TypeError as soon as that property is supplied. */
  lemma GlobalsHelperListLiteralRaises(types: Value)
    ensures NewGlobals(ApiGlobals, [Arg("BinaryMediaTypes", types)]) == Err(NotAType("ApiGlobals", "BinaryMediaTypes"))
  {
    assert ApiGlobalsProps[2].name == "BinaryMediaTypes";
    SingleArgument("ApiGlobals", ApiGlobalsProps, 2, types);
  }

  /** Unknown keyword arguments are all reported together, in the order they
      were passed. */
  lemma GlobalsReportsAllUnexpected(v: Value, w: Value)
    ensures NewGlobals(SimpleTableGlobals, [Arg("Bogus", v), Arg("Other", w)])
            == Err(Unexpected("SimpleTableGlobals", ["Bogus", "Other"]))
  {
    var kwargs := [Arg("Bogus", v), Arg("Other", w)];
    assert DeclNames(SimpleTableGlobalsProps) == {"SSESpecification"};
    NoneDeclared("SimpleTableGlobals", SimpleTableGlobalsProps, kwargs);
    assert Names(kwargs) == ["Bogus", "Other"];
  }

  lemma ApplicationTableLacksDefinitionBody()
    ensures "DefinitionBody" !in DeclNames(ApplicationProps)
  {
  }

  /** Application's hook checks two keys its own props table does not
      declare, so it passes on every property map that stays inside that
      table. */
  lemma ApplicationValidateVacuous(p: Properties)
    requires forall k :: k in p ==> k in DeclNames(ApplicationProps)
    ensures Validate(Application, p) == Pass
  {
    ApplicationTableLacksDefinitionBody();
    assert "DefinitionBody" !in p;
    assert ValidateDefinitionSource("Application", p) == Pass;
  }

  lemma DeclaredAt(decls: seq<Decl>, i: nat, name: string)
    requires i < |decls| && decls[i].name == name
    ensures name in DeclNames(decls)
  {
    assert decls[i] in decls;
  }

  /** Route53, Api and HttpApi declare both keys of their exclusive pair, so
      the rule is reachable: a property map holding just those two keys stays
      inside the table and fails the class's hook. */
  lemma Route53PairDeclared()
    ensures "HostedZoneId" in DeclNames(Route53Props) && "HostedZoneName" in DeclNames(Route53Props)
    ensures Validate(Route53, map["HostedZoneId" := Str("a"), "HostedZoneName" := Str("b")]).Fail?
  {
    DeclaredAt(Route53Props, 2, "HostedZoneId");
    DeclaredAt(Route53Props, 3, "HostedZoneName");
  }

  /** Both definition sources together fail every class whose hook is the
      DefinitionBody/DefinitionUri exclusion. */
  lemma DefinitionPairFails(c: HookedClass)
    requires c in {Api, HttpApi, Application}
    ensures Validate(c, map["DefinitionBody" := Str("a"), "DefinitionUri" := Str("b")]).Fail?
  {
  }

  lemma ApiPairDeclared()
    ensures "DefinitionBody" in DeclNames(ApiProps) && "DefinitionUri" in DeclNames(ApiProps)
    ensures Validate(Api, map["DefinitionBody" := Str("a"), "DefinitionUri" := Str("b")]).Fail?
  {
    DeclaredAt(ApiProps, 7, "DefinitionBody");
    DeclaredAt(ApiProps, 8, "DefinitionUri");
    DefinitionPairFails(Api);
  }

  lemma HttpApiPairDeclared()
    ensures "DefinitionBody" in DeclNames(HttpApiProps) && "DefinitionUri" in DeclNames(HttpApiProps)
    ensures Validate(HttpApi, map["DefinitionBody" := Str("a"), "DefinitionUri" := Str("b")]).Fail?
  {
    DeclaredAt(HttpApiProps, 4, "DefinitionBody");
    DeclaredAt(HttpApiProps, 5, "DefinitionUri");
    DefinitionPairFails(HttpApi);
  }
}
