# Serverless property validation (troposphere) in Dafny

This project models the validation layer of troposphere's serverless module
(`troposphere/serverless.py`). It proves properties of that model. The layer
has three parts, each a pure function of the values it is given:

- **The closed-schema constructor of `GlobalsHelperFn`.** It is used by
  `FunctionGlobals`, `ApiGlobals`, `HttpApiGlobals`, `SimpleTableGlobals`
  and `Globals`. It walks the class's `props` table in declaration order and
  type-checks each supplied keyword argument with `isinstance`. It rejects a
  missing required property. Last, it reports every keyword argument that no
  declaration consumed, all in one error.
- **The enum validators** `primary_key_type_validator` and
  `starting_position_validator`.
- **The per-class `validate` hooks** over a property map: enum checks,
  conditional requirements, presence rules and a range check. Hooks are found
  through the classes' inheritance the way Python finds a method.

Modules:

| file | module | contents |
|---|---|---|
| `outcomes.dfy` | `Outcomes` | `Option`, `Result`, `Outcome` |
| `python_values.dfy` | `PyValues` | Python values, `isinstance`, truthiness, `dict.get` |
| `globals_helper.dfy` | `GlobalsHelper` | props entries, the constructor walk, its declarative reference, lemmas |
| `presence_rules.dfy` | `PresenceRules` | `exactly_one` / `mutually_exclusive` as presence counts |
| `serverless_validators.dfy` | `ServerlessValidators` | enum validators, hooks, method resolution |
| `serverless_schemas.dfy` | `ServerlessSchemas` | the props tables as data, and lemmas that combine tables and hooks |

Keyword arguments are a sequence of `Arg(name, value)`, because Python keeps
them in call order. The "Unexpected" error lists the leftover names in that
order. A props table is a sequence of `Decl(name, spec, required)`.

Behaviour of the code that the model keeps, although a general schema
engine might be expected to differ:

- `GlobalsHelperFn.__init__` has no escape hatch for helper-function values.
  A `Ref` supplied for a `str` property is a type error.
- It does no coercion.
- It does not accept the reserved `Condition` / `Metadata` names. They are
  reported as unexpected.
- Python's `bool` is a subclass of `int`. So `isinstance(True, int)` holds,
  and `SQSEvent`'s `1 <= True <= 10` passes.
- A props entry whose "type" is a list literal (`[str]`) or a function
  (`positive_integer`, `integer_range(...)`) is not something `isinstance`
  accepts. When such a property is supplied to a `GlobalsHelperFn` subclass,
  Python raises `TypeError`. The model reports this as `NotAType`.

## Model

| member | source | states |
|---|---|---|
| PyValues.IsInstance | troposphere/serverless.py:631 | `isinstance(v, t)` holds iff `t` is on the method resolution order of `v`'s class. So `bool` is an `int`, a subclass instance is an instance of its in-file base class, and every helper function is an `AWSHelperFn`. |
| PyValues.Truthy | troposphere/serverless.py:174-188 | Python truthiness: the falsy values are exactly None, the empty string, 0, 0.0, False, the empty list and the empty dict. |
| GlobalsHelper.WalkMatchesReference | troposphere/serverless.py:627-639 | The declared-props loop fails at the first declaration that is not satisfied, with that declaration's error. Otherwise `remaining_kwargs` ends as exactly the keyword arguments no declaration names, in call order. |
| GlobalsHelper.Walk | troposphere/serverless.py:627-638 | The declared-props loop completes iff every declaration is satisfied. Its only errors are the type, not-a-type and missing-required ones, for the constructed class, never the unexpected-names one. |
| GlobalsHelper.Construct | troposphere/serverless.py:626-646 | `__init__` equals the declarative reference on every input: the first declaration that is not satisfied gives its error, then every undeclared name is reported in one error, else the kwargs are stored. |
| GlobalsHelper.ConstructSucceedsIff | troposphere/serverless.py:626-646 | Construction succeeds iff every declaration is satisfied and every supplied name is declared. On success `data` is exactly the supplied kwargs, with nothing added or removed. |
| GlobalsHelper.MissingRequiredFails | troposphere/serverless.py:635-638 | A required declaration with no supplied value makes construction fail. If every earlier declaration is satisfied, the error is "Required … not provided" naming that property. |
| GlobalsHelper.WrongTypeFails | troposphere/serverless.py:629-634 | A supplied value that is an instance of none of the accepted classes makes construction fail. If earlier declarations pass, the error names the property, the accepted classes and the value. |
| GlobalsHelper.ErrorsAreJustified | troposphere/serverless.py:626-646 | Every error the constructor reports is justified by its inputs. "Unexpected" comes only after every declaration is satisfied, and lists exactly the supplied names that no declaration names. |
| GlobalsHelper.AbsentOptionalDeclarationIsSkipped | troposphere/serverless.py:628-638 | An optional declaration whose name is not supplied is skipped: inserting one anywhere in the table leaves the outcome unchanged. |
| GlobalsHelper.SingleArgument | troposphere/serverless.py:626-646 | A single keyword argument naming one entry of a table whose other entries are optional and named differently succeeds iff that entry is satisfied. Otherwise the error is that entry's. |
| GlobalsHelper.NoneDeclared | troposphere/serverless.py:640-644 | Keyword arguments that an all-optional table never declares are all reported as unexpected, by name, in call order. |
| GlobalsHelper.Lookup | troposphere/serverless.py:629-630 | `k in kwargs` holds iff some argument carries that name, and the value found is one supplied under that name. |
| GlobalsHelper.FilterOut | troposphere/serverless.py:630 | Removing names from the remaining kwargs keeps exactly the arguments whose names were not removed. |
| GlobalsHelper.FirstNonconforming | troposphere/serverless.py:628-638 | Finds the index where the loop stops: every earlier declaration is satisfied, and the one at the index (if any) is not. |
| PresenceRules.PresentCount | troposphere/serverless.py:182-188 | The count of listed keys present is at most the number of keys, and is zero iff no listed key is present. |
| PresenceRules.AtMostOneIff | troposphere/serverless.py:307-312 | At most one listed key is present iff no two listed positions are both present. |
| PresenceRules.ExactlyOneIff | troposphere/serverless.py:182-188 | Exactly one listed key is present iff some listed position is present and every other position is absent. |
| PresenceRules.MutuallyExclusive | troposphere/serverless.py:307-312 | `mutually_exclusive` fails iff two listed keys are both present, and the error names the class and the keys. |
| PresenceRules.ExactlyOne | troposphere/serverless.py:182-188 | `exactly_one` passes iff exactly one listed key is present. Otherwise it fails, naming the class and the keys. |
| ServerlessValidators.PrimaryKeyTypeValidator | troposphere/serverless.py:45-49 | Returns its input unchanged iff it is the string String, Number or Binary. It fails with the KeyType error on every other value. |
| ServerlessValidators.StartingPositionValidator | troposphere/serverless.py:509-513 | Returns its input unchanged iff it is TRIM_HORIZON or LATEST. It fails with the StartingPosition error on every other value. |
| ServerlessValidators.ValidateDeadLetterQueue | troposphere/serverless.py:55-58 | Passes when Type is absent. When Type is present, passes iff it is SQS or SNS. |
| ServerlessValidators.ValidateDomain | troposphere/serverless.py:324-330 | Passes when EndpointConfiguration is absent. When present, passes iff it is REGIONAL or EDGE. |
| ServerlessValidators.ValidateEndpointConfiguration | troposphere/serverless.py:336-341 | Passes when Type is absent. When present, passes iff it is REGIONAL, EDGE or PRIVATE. |
| ServerlessValidators.DomainEndpointsAreEndpointTypes | troposphere/serverless.py:324-341 | Every value Domain accepts is also a valid EndpointConfiguration Type. PRIVATE is accepted by the latter only. |
| ServerlessValidators.ValidateEventInvokeDestination | troposphere/serverless.py:92-104 | Passes iff Type is one of SQS, SNS, Lambda, EventBridge and, for Lambda or EventBridge, Destination is truthy. The missing-destination check runs first (line 96). Any other outcome with a Type that is absent or outside the four values gives the "Type must be one of" error. |
| ServerlessValidators.Validate | troposphere/serverless.py:107-112 | Which hook each class runs. OnFailure and OnSuccess run EventInvokeDestination's. HttpApiDomainConfiguration (lines 430-431) runs Domain's. FunctionForPackaging's override (lines 202-203) always passes. Api, HttpApi and Application each run the DefinitionBody/DefinitionUri exclusion under their own class name. |
| ServerlessValidators.Resolve | troposphere/serverless.py:107-112 | Method lookup: a class's own `validate` overrides its parent's. Every hooked class that defines none has a direct parent that does, so the lookup never reaches the engine's default. |
| ServerlessValidators.CodeKeysExactlyOne | troposphere/serverless.py:183-188 | `exactly_one` over CodeUri/InlineCode/ImageUri counts one iff exactly one of the three keys is in the map. |
| ServerlessValidators.ValidateFunction | troposphere/serverless.py:169-188 | Passes iff some code source is truthy or Metadata is truthy, and, when a code source is truthy, exactly one of the three keys is present. With no code source and no Metadata the error is the missing-code-source one. With a truthy code source but not exactly one code key, the error is `exactly_one`'s, naming the class and CodeUri/InlineCode/ImageUri. |
| ServerlessValidators.FunctionTwoCodeSources | troposphere/serverless.py:174-188 | CodeUri and InlineCode together fail whenever either is truthy. If all three code sources (CodeUri, InlineCode, ImageUri) are falsy and Metadata is truthy, the hook lets the pair through. |
| ServerlessValidators.ExclusivePair | troposphere/serverless.py:307-312 | A two-key `mutually_exclusive` fails iff both keys are present. |
| ServerlessValidators.ValidateRoute53 | troposphere/serverless.py:307-312 | Fails iff HostedZoneId and HostedZoneName are both present. |
| ServerlessValidators.ValidateDefinitionSource | troposphere/serverless.py:372-377 | Api's hook (and the identical HttpApi and Application hooks, lines 454-459 and 617-622) fails iff DefinitionBody and DefinitionUri are both present. |
| ServerlessValidators.ValidateSQSEvent | troposphere/serverless.py:594-596 | Passes iff BatchSize is present and compares within [1, 10]: an int or float in range, or True. A missing key is a KeyError. A number out of range, False included, is the range error. Any other value is a TypeError. |
| ServerlessValidators.SQSEventBoundaries | troposphere/serverless.py:594-596 | BatchSize 1, 10 and 2.5 pass. BatchSize 0, 11, 15, 0.5, 10.5 and False fail with the range error. The string "5" is a TypeError. |
| ServerlessSchemas.SetRequired | troposphere/serverless.py:199-200 | Overriding one entry's required flag keeps every entry's name, type and position, changes only the named entry, and gives it the new flag. |
| ServerlessSchemas.SetRequiredUnchanged | troposphere/serverless.py:199-200 | Setting a flag that the entry already has leaves the table unchanged. |
| ServerlessSchemas.FunctionPropsAllOptional | troposphere/serverless.py:133-167 | Function declares no required property. |
| ServerlessSchemas.FunctionForPackagingPropsEqualFunctionProps | troposphere/serverless.py:191-203 | FunctionForPackaging's props (and its HookedProps entry) equal Function's props, because CodeUri was already optional. So the class differs from Function only in its hook, which never fails (see Validate). |
| ServerlessSchemas.FunctionGlobalsAllOptional | troposphere/serverless.py:650-672 | FunctionGlobals declares no required property. |
| ServerlessSchemas.ApiGlobalsAllOptional | troposphere/serverless.py:676-693 | ApiGlobals declares no required property. |
| ServerlessSchemas.GlobalsPropsDistinct | troposphere/serverless.py:717-722 | The Globals table's four names are distinct, and none is required. |
| ServerlessSchemas.ApplicationTableLacksDefinitionBody | troposphere/serverless.py:609-615 | Application's props table does not declare DefinitionBody. |
| ServerlessSchemas.GlobalsTablesAllOptional | troposphere/serverless.py:649-722 | None of the five GlobalsHelperFn subclasses declares a required property. |
| ServerlessSchemas.AllOptionalNeverMissRequired | troposphere/serverless.py:635-638 | A table without required entries never yields a missing-required error. |
| ServerlessSchemas.GlobalsNeverMissRequired | troposphere/serverless.py:649-722 | No Globals-family constructor ever reports a missing required property. |
| ServerlessSchemas.NestedGlobalsAccepted | troposphere/serverless.py:711-722 | A constructed FunctionGlobals, ApiGlobals, HttpApiGlobals or SimpleTableGlobals passes the `isinstance` check of the matching Globals argument. The Globals object stores exactly that argument. |
| ServerlessSchemas.GlobalsHelperRejectsRef | troposphere/serverless.py:629-634 | A helper-function value (such as a Ref) given for the dict-typed HttpApiGlobals Tags is a type error. No escape hatch applies. |
| ServerlessSchemas.GlobalsHelperListLiteralRaises | troposphere/serverless.py:629-631 | Supplying ApiGlobals' BinaryMediaTypes, whose table entry is the list literal `[str]`, makes `isinstance` raise TypeError. |
| ServerlessSchemas.GlobalsReportsAllUnexpected | troposphere/serverless.py:640-644 | Two unknown keyword arguments are reported together, in call order. |
| ServerlessSchemas.ApplicationValidateVacuous | troposphere/serverless.py:606-622 | Application's hook checks two keys that its own props table does not declare. So it passes on every property map that stays within that table. |
| ServerlessSchemas.Route53PairDeclared | troposphere/serverless.py:298-312 | Route53 declares both HostedZoneId and HostedZoneName, so its exclusion rule can trigger: a property map holding just those two keys fails the hook. |
| ServerlessSchemas.DefinitionPairFails | troposphere/serverless.py:372-377 | A property map holding both DefinitionBody and DefinitionUri fails the hook of Api, and likewise of HttpApi (lines 454-459) and Application (lines 617-622). |
| ServerlessSchemas.ApiPairDeclared | troposphere/serverless.py:351-377 | Api declares both DefinitionBody and DefinitionUri, so its exclusion rule can trigger: a property map holding just those two keys fails the hook. |
| ServerlessSchemas.HttpApiPairDeclared | troposphere/serverless.py:437-459 | HttpApi declares both DefinitionBody and DefinitionUri, so its exclusion rule can trigger: a property map holding just those two keys fails the hook. |

## Left out

- `troposphere/kinesis.py`: it holds only props declarations. Their enforcement lives in base classes and validators that are not part of this model.
- The `AWSObject` / `AWSProperty` construction engine, `to_dict` and rendering are not part of this model. Hooks are modelled as functions of a property map. When the engine runs them, and what it accepts before that, is not modelled.
- The bodies of `integer`, `boolean`, `positive_integer`, `integer_range`, `validate_memory_size` and `validate_package_type` are not part of this model. A props entry naming one is data (`ValidatorFn`) only.
- `exactly_one` and `mutually_exclusive` are presence counts over the listed keys. Any special treatment of a `NoValue` placeholder in their unseen bodies is not modelled.
- The optional `awacs` import: `policytypes` is fixed as (dict, list, str, PolicyDocument). Without awacs no PolicyDocument value can exist, so both tuples accept the same values.
- The check that a `GlobalsHelperFn` props entry of type `[T]` or a validator function was evidently meant to perform is not modelled. The model keeps Python's actual behaviour, a TypeError from `isinstance`.
- Props tables of classes with no hook and outside the Globals family (S3Location, Hooks, DeploymentPreference, the authorizer and event classes, and so on) are not encoded: no visible behaviour depends on them.
- `resource_type` strings and `SERVERLESS_TRANSFORM` are constant data with no behaviour.
- Error messages are structured error values, not formatted strings.
- ServerlessValidators.ValidateSQSEvent: float values are plain reals. NaN and the infinities are not modelled, so `1 <= nan` (False in Python) has no counterpart.
- Keyword-argument lists with a repeated name, and `Obj` values whose class is one of the helper-function classes, are outside what Python can produce. The model does not exclude them. For a repeated name, only the first value is type-checked.
- The hooks compare values with Python `==` against string literals. Values other than strings are taken to be unequal to them. Objects and helper functions are taken to be truthy, since the visible code defines neither `__bool__` nor `__len__`.
- `ValidateFunction` reads Metadata from the same property map as the other keys. Whether the unseen base class keeps Metadata there is not modelled.
