/** The validation logic of troposphere/serverless.py: the two enum
    validators and the `validate` hooks that the serverless classes run over
    their property map, resolved through the classes' inheritance. */
module ServerlessValidators {
  import opened Outcomes
  import opened PyValues
  import opened PresenceRules

  /** The ValueError (or KeyError / TypeError) a validator raises. */
  datatype ValidationError =
      /** `field` held a value outside `allowed`. */
    | NotOneOf(field: string, allowed: seq<string>)
    | DestinationRequired
    | CodeSourceMissing
    | Presence(rule: PresenceError)
    | BatchSizeOutOfRange
      /** `properties[key]` on a missing key: Python raises KeyError. */
    | KeyMissing(key: string)
      /** `1 <= value` on a non-number: Python raises TypeError. */
    | NotComparable(key: string, actual: Value)

  // ---------------------------------------------------------------------------
  // Enum validators used as props "types"

  const PrimaryKeyTypes: seq<string> := ["String", "Number", "Binary"]
  const StartingPositions: seq<string> := ["TRIM_HORIZON", "LATEST"]

  /** `primary_key_type_validator(x)`. */
  function PrimaryKeyTypeValidator(x: Value): (r: Result<Value, ValidationError>)
    ensures r.Ok? <==> x == Str("String") || x == Str("Number") || x == Str("Binary")
    ensures r.Ok? ==> r.value == x
    ensures r.Err? ==> r.error == NotOneOf("KeyType", ["String", "Number", "Binary"])
  {
    if IsOneOf(x, PrimaryKeyTypes) then Ok(x) else Err(NotOneOf("KeyType", PrimaryKeyTypes))
  }

  /** `starting_position_validator(x)`. */
  function StartingPositionValidator(x: Value): (r: Result<Value, ValidationError>)
    ensures r.Ok? <==> x == Str("TRIM_HORIZON") || x == Str("LATEST")
    ensures r.Ok? ==> r.value == x
    ensures r.Err? ==> r.error == NotOneOf("StartingPosition", ["TRIM_HORIZON", "LATEST"])
  {
    if IsOneOf(x, StartingPositions) then Ok(x) else Err(NotOneOf("StartingPosition", StartingPositions))
  }

  // ---------------------------------------------------------------------------
  // Per-class validate hooks

  /** An optional field, when present, must hold one of the allowed strings. */
  function OptionalEnum(p: Properties, key: string, allowed: seq<string>): Outcome<ValidationError>
  {
    if key in p && !IsOneOf(p[key], allowed) then Fail(NotOneOf(key, allowed)) else Pass
  }

  /** `DeadLetterQueue.validate`. */
  function ValidateDeadLetterQueue(p: Properties): (r: Outcome<ValidationError>)
    ensures "Type" !in p ==> r == Pass
    ensures "Type" in p ==> (r == Pass <==> p["Type"] == Str("SQS") || p["Type"] == Str("SNS"))
    ensures r.Fail? ==> r.error == NotOneOf("Type", ["SQS", "SNS"])
  {
    OptionalEnum(p, "Type", ["SQS", "SNS"])
  }

  /** `Domain.validate` (inherited by HttpApiDomainConfiguration). */
  function ValidateDomain(p: Properties): (r: Outcome<ValidationError>)
    ensures "EndpointConfiguration" !in p ==> r == Pass
    ensures "EndpointConfiguration" in p
            ==> (r == Pass <==> p["EndpointConfiguration"] == Str("REGIONAL") || p["EndpointConfiguration"] == Str("EDGE"))
    ensures r.Fail? ==> r.error == NotOneOf("EndpointConfiguration", ["REGIONAL", "EDGE"])
  {
    OptionalEnum(p, "EndpointConfiguration", ["REGIONAL", "EDGE"])
  }

  /** `EndpointConfiguration.validate`. */
  function ValidateEndpointConfiguration(p: Properties): (r: Outcome<ValidationError>)
    ensures "Type" !in p ==> r == Pass
    ensures "Type" in p
            ==> (r == Pass <==> p["Type"] == Str("REGIONAL") || p["Type"] == Str("EDGE") || p["Type"] == Str("PRIVATE"))
    ensures r.Fail? ==> r.error == NotOneOf("Type", ["REGIONAL", "EDGE", "PRIVATE"])
  {
    OptionalEnum(p, "Type", ["REGIONAL", "EDGE", "PRIVATE"])
  }

  /** `EventInvokeDestination.validate` (inherited by OnFailure and OnSuccess):
      the destination check comes first, then the Type check. */
  function ValidateEventInvokeDestination(p: Properties): (r: Outcome<ValidationError>)
    ensures var tp := Get(p, "Type");
            r == Pass
            <==> (tp == Str("SQS") || tp == Str("SNS") || tp == Str("Lambda") || tp == Str("EventBridge"))
                 && ((tp == Str("Lambda") || tp == Str("EventBridge")) ==> Truthy(Get(p, "Destination")))
    ensures var tp := Get(p, "Type");
            (tp == Str("Lambda") || tp == Str("EventBridge")) && !Truthy(Get(p, "Destination"))
            ==> r == Fail(DestinationRequired)
    ensures var tp := Get(p, "Type");
            !(tp == Str("SQS") || tp == Str("SNS") || tp == Str("Lambda") || tp == Str("EventBridge"))
            ==> r == Fail(NotOneOf("Type", ["SQS", "SNS", "Lambda", "EventBridge"]))
  {
    var dest := Get(p, "Destination");
    var tp := Get(p, "Type");
    if !Truthy(dest) && IsOneOf(tp, ["Lambda", "EventBridge"]) then Fail(DestinationRequired)
    else if !IsOneOf(tp, ["SQS", "SNS", "Lambda", "EventBridge"]) then
      Fail(NotOneOf("Type", ["SQS", "SNS", "Lambda", "EventBridge"]))
    else Pass
  }

  const CodeKeys: seq<string> := ["CodeUri", "InlineCode", "ImageUri"]

  /** Some code source is given a truthy value. */
  predicate HasCode(p: Properties)
  {
    Truthy(Get(p, "ImageUri")) || Truthy(Get(p, "CodeUri")) || Truthy(Get(p, "InlineCode"))
  }

  /** Exactly one of the three code-source keys is a key of the map
      (whatever its value). */
  predicate OneCodeKeyPresent(p: Properties)
  {
    || ("CodeUri" in p && "InlineCode" !in p && "ImageUri" !in p)
    || ("CodeUri" !in p && "InlineCode" in p && "ImageUri" !in p)
    || ("CodeUri" !in p && "InlineCode" !in p && "ImageUri" in p)
  }

  lemma CodeKeysExactlyOne(p: Properties)
    ensures PresentCount(p, CodeKeys) == 1 <==> OneCodeKeyPresent(p)
  {
    ExactlyOneIff(p, CodeKeys);
    assert CodeKeys[0] == "CodeUri" && CodeKeys[1] == "InlineCode" && CodeKeys[2] == "ImageUri";
    assert OnlyPresent(p, CodeKeys, 0) <==> "CodeUri" in p && "InlineCode" !in p && "ImageUri" !in p;
    assert OnlyPresent(p, CodeKeys, 1) <==> "CodeUri" !in p && "InlineCode" in p && "ImageUri" !in p;
    assert OnlyPresent(p, CodeKeys, 2) <==> "CodeUri" !in p && "InlineCode" !in p && "ImageUri" in p;
  }

  /** `Function.validate` for an instance of class `cls`. */
  function ValidateFunction(cls: string, p: Properties): (r: Outcome<ValidationError>)
    ensures r == Pass
            <==> (HasCode(p) || Truthy(Get(p, "Metadata")))
                 && (HasCode(p) ==> OneCodeKeyPresent(p))
    ensures !HasCode(p) && !Truthy(Get(p, "Metadata")) ==> r == Fail(CodeSourceMissing)
    ensures HasCode(p) && !OneCodeKeyPresent(p) ==> r == Fail(Presence(NotExactlyOne(cls, CodeKeys)))
  {
    CodeKeysExactlyOne(p);
    if !HasCode(p) && !Truthy(Get(p, "Metadata")) then Fail(CodeSourceMissing)
    else if HasCode(p) then
      match ExactlyOne(cls, p, CodeKeys)
      case Fail(e) => Fail(Presence(e))
      case Pass => Pass
    else Pass
  }

  /** `mutually_exclusive` over two keys, as a hook outcome. */
  function ExclusivePair(cls: string, p: Properties, a: string, b: string): (r: Outcome<ValidationError>)
    ensures a != b ==> (r.Fail? <==> a in p && b in p)
    ensures r.Fail? ==> r.error == Presence(NotMutuallyExclusive(cls, [a, b]))
  {
    assert a in p && b in p ==> TwoPresent(p, [a, b]) by {
      if a in p && b in p {
        assert [a, b][0] in p && [a, b][1] in p;
      }
    }
    match MutuallyExclusive(cls, p, [a, b])
    case Fail(e) => Fail(Presence(e))
    case Pass => Pass
  }

  /** `Route53.validate`. */
  function ValidateRoute53(cls: string, p: Properties): (r: Outcome<ValidationError>)
    ensures r.Fail? <==> "HostedZoneId" in p && "HostedZoneName" in p
    ensures r.Fail? ==> r.error == Presence(NotMutuallyExclusive(cls, ["HostedZoneId", "HostedZoneName"]))
  {
    ExclusivePair(cls, p, "HostedZoneId", "HostedZoneName")
  }

  /** `Api.validate`, `HttpApi.validate` and `Application.validate`: all three
      check the same pair of keys. */
  function ValidateDefinitionSource(cls: string, p: Properties): (r: Outcome<ValidationError>)
    ensures r.Fail? <==> "DefinitionBody" in p && "DefinitionUri" in p
    ensures r.Fail? ==> r.error == Presence(NotMutuallyExclusive(cls, ["DefinitionBody", "DefinitionUri"]))
  {
    ExclusivePair(cls, p, "DefinitionBody", "DefinitionUri")
  }

  /** A number Python can order against an int: an int, a float, or a bool
      (which compares as 0 or 1). */
  predicate IsNumber(v: Value)
  {
    v.Int? || v.Float? || v.Bool?
  }

  /** `SQSEvent.validate`: `1 <= properties["BatchSize"] <= 10`, with Python's
      comparison rules (a bool compares as 0 or 1, a float by its value,
      anything else that is not a number cannot be compared). */
  function ValidateSQSEvent(p: Properties): (r: Outcome<ValidationError>)
    ensures r == Pass
            <==> "BatchSize" in p
                 && (|| p["BatchSize"] == Bool(true)
                     || (p["BatchSize"].Int? && 1 <= p["BatchSize"].i <= 10)
                     || (p["BatchSize"].Float? && 1.0 <= p["BatchSize"].r <= 10.0))
    ensures "BatchSize" !in p ==> r == Fail(KeyMissing("BatchSize"))
    ensures "BatchSize" in p && IsNumber(p["BatchSize"]) && r.Fail? ==> r == Fail(BatchSizeOutOfRange)
    ensures "BatchSize" in p && !IsNumber(p["BatchSize"]) ==> r == Fail(NotComparable("BatchSize", p["BatchSize"]))
  {
    if "BatchSize" !in p then Fail(KeyMissing("BatchSize"))
    else
      match p["BatchSize"]
      case Int(n) => if 1 <= n <= 10 then Pass else Fail(BatchSizeOutOfRange)
      case Float(x) => if 1.0 <= x <= 10.0 then Pass else Fail(BatchSizeOutOfRange)
      case Bool(b) => if b then Pass else Fail(BatchSizeOutOfRange)
      case _ => Fail(NotComparable("BatchSize", p["BatchSize"]))
  }

  // ---------------------------------------------------------------------------
  // Method resolution over the classes that define or inherit a hook

  datatype HookedClass =
    | DeadLetterQueue
    | EventInvokeDestination
    | OnFailure
    | OnSuccess
    | Function
    | FunctionForPackaging
    | Route53
    | Domain
    | HttpApiDomainConfiguration
    | EndpointConfiguration
    | Api
    | HttpApi
    | SQSEvent
    | Application

  /** `self.__class__.__name__`. */
  function ClassName(c: HookedClass): string
  {
    match c
    case DeadLetterQueue => "DeadLetterQueue"
    case EventInvokeDestination => "EventInvokeDestination"
    case OnFailure => "OnFailure"
    case OnSuccess => "OnSuccess"
    case Function => "Function"
    case FunctionForPackaging => "FunctionForPackaging"
    case Route53 => "Route53"
    case Domain => "Domain"
    case HttpApiDomainConfiguration => "HttpApiDomainConfiguration"
    case EndpointConfiguration => "EndpointConfiguration"
    case Api => "Api"
    case HttpApi => "HttpApi"
    case SQSEvent => "SQSEvent"
    case Application => "Application"
  }

  function Parent(c: HookedClass): Option<HookedClass>
  {
    match c
    case OnFailure => Some(EventInvokeDestination)
    case OnSuccess => Some(EventInvokeDestination)
    case FunctionForPackaging => Some(Function)
    case HttpApiDomainConfiguration => Some(Domain)
    case _ => None
  }

  function Depth(c: HookedClass): nat
  {
    if Parent(c).Some? then 1 else 0
  }

  /** The `validate` a class body itself defines, run for an instance of
      class `self`; None when the body defines none. */
  function OwnValidate(c: HookedClass, self: HookedClass, p: Properties): Option<Outcome<ValidationError>>
  {
    match c
    case DeadLetterQueue => Some(ValidateDeadLetterQueue(p))
    case EventInvokeDestination => Some(ValidateEventInvokeDestination(p))
    case Function => Some(ValidateFunction(ClassName(self), p))
    case FunctionForPackaging => Some(Pass)
    case Route53 => Some(ValidateRoute53(ClassName(self), p))
    case Domain => Some(ValidateDomain(p))
    case EndpointConfiguration => Some(ValidateEndpointConfiguration(p))
    case Api => Some(ValidateDefinitionSource(ClassName(self), p))
    case HttpApi => Some(ValidateDefinitionSource(ClassName(self), p))
    case SQSEvent => Some(ValidateSQSEvent(p))
    case Application => Some(ValidateDefinitionSource(ClassName(self), p))
    case _ => None
  }

  /** Look `validate` up from class `c` upwards, as Python does: a class's own
      hook overrides its parent's, and every hooked class that defines none
      inherits its direct parent's, so the lookup never falls through to the
      engine's default. */
  function Resolve(c: HookedClass, self: HookedClass, p: Properties): (r: Outcome<ValidationError>)
    ensures OwnValidate(c, self, p).Some? ==> Some(r) == OwnValidate(c, self, p)
    ensures OwnValidate(c, self, p).None?
            ==> Parent(c).Some? && Some(r) == OwnValidate(Parent(c).value, self, p)
    decreases Depth(c)
  {
    match OwnValidate(c, self, p)
    case Some(r) => r
    case None =>
      match Parent(c)
      case Some(b) => Resolve(b, self, p)
      case None => Pass
  }

  /** `instance.validate()` for an instance of class `c`: the hook each class
      runs, with the inherited ones resolved and the class name that the
      presence rules report. */
  function Validate(c: HookedClass, p: Properties): (r: Outcome<ValidationError>)
    ensures c == DeadLetterQueue ==> r == ValidateDeadLetterQueue(p)
    ensures c in {EventInvokeDestination, OnFailure, OnSuccess} ==> r == ValidateEventInvokeDestination(p)
    ensures c == Function ==> r == ValidateFunction("Function", p)
    ensures c == FunctionForPackaging ==> r == Pass
    ensures c == Route53 ==> r == ValidateRoute53("Route53", p)
    ensures c in {Domain, HttpApiDomainConfiguration} ==> r == ValidateDomain(p)
    ensures c == EndpointConfiguration ==> r == ValidateEndpointConfiguration(p)
    ensures c == Api ==> r == ValidateDefinitionSource("Api", p)
    ensures c == HttpApi ==> r == ValidateDefinitionSource("HttpApi", p)
    ensures c == SQSEvent ==> r == ValidateSQSEvent(p)
    ensures c == Application ==> r == ValidateDefinitionSource("Application", p)
  {
    Resolve(c, c, p)
  }

  // ---------------------------------------------------------------------------
  // Lemmas

  /** Every value Domain accepts for its EndpointConfiguration is also a valid
      EndpointConfiguration Type, but not conversely (PRIVATE). */
  lemma DomainEndpointsAreEndpointTypes(v: Value)
    ensures ValidateDomain(map["EndpointConfiguration" := v]) == Pass
            ==> ValidateEndpointConfiguration(map["Type" := v]) == Pass
    ensures ValidateEndpointConfiguration(map["Type" := Str("PRIVATE")]) == Pass
    ensures ValidateDomain(map["EndpointConfiguration" := Str("PRIVATE")]).Fail?
  {
  }

  /** Supplying two code sources makes Function fail whenever one of them is
      truthy; when no code source is truthy and Metadata is, the as-written hook
      lets the pair through, because it only counts keys when some code
      source is truthy. */
  lemma FunctionTwoCodeSources(p: Properties)
    requires "CodeUri" in p && "InlineCode" in p
    ensures (Truthy(p["CodeUri"]) || Truthy(p["InlineCode"])) ==> ValidateFunction("Function", p).Fail?
    ensures !HasCode(p) && Truthy(Get(p, "Metadata")) ==> ValidateFunction("Function", p) == Pass
  {
  }

  /** The batch-size boundaries: 1 and 10 pass, 0 and 11 fail; a fractional
      size inside the range passes, and False compares as 0. */
  lemma SQSEventBoundaries(queue: Value)
    ensures ValidateSQSEvent(map["Queue" := queue, "BatchSize" := Int(1)]) == Pass
    ensures ValidateSQSEvent(map["Queue" := queue, "BatchSize" := Int(10)]) == Pass
    ensures ValidateSQSEvent(map["Queue" := queue, "BatchSize" := Int(0)]) == Fail(BatchSizeOutOfRange)
    ensures ValidateSQSEvent(map["Queue" := queue, "BatchSize" := Int(11)]) == Fail(BatchSizeOutOfRange)
    ensures ValidateSQSEvent(map["Queue" := queue, "BatchSize" := Int(15)]) == Fail(BatchSizeOutOfRange)
    ensures ValidateSQSEvent(map["Queue" := queue, "BatchSize" := Float(2.5)]) == Pass
    ensures ValidateSQSEvent(map["Queue" := queue, "BatchSize" := Float(0.5)]) == Fail(BatchSizeOutOfRange)
    ensures ValidateSQSEvent(map["Queue" := queue, "BatchSize" := Float(10.5)]) == Fail(BatchSizeOutOfRange)
    ensures ValidateSQSEvent(map["Queue" := queue, "BatchSize" := Bool(false)]) == Fail(BatchSizeOutOfRange)
    ensures ValidateSQSEvent(map["Queue" := queue, "BatchSize" := Str("5")]) == Fail(NotComparable("BatchSize", Str("5")))
  {
  }
}
