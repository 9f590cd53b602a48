/** The closed-schema constructor of `GlobalsHelperFn`: it walks the class's
    declared props table in order, type-checks each supplied keyword argument
    with `isinstance`, rejects a missing required name, and finally reports
    every keyword argument no declaration consumed. */
module GlobalsHelper {
  import opened Outcomes
  import opened PyValues

  /** The "type" half of a props entry. Only a class or a tuple of classes is
      something `isinstance` accepts; a list literal such as `[str]` and a
      validator function such as `positive_integer` are not. */
  datatype TypeSpec =
    | Types(accepted: seq<PyType>)
    | ListOf(elements: seq<PyType>)
    | ValidatorFn(name: string)

  /** One entry `name: (type, required)` of a props table. */
  datatype Decl = Decl(name: string, spec: TypeSpec, required: bool)

  /** The ValueError (or, for NotAType, the TypeError) the constructor raises. */
  datatype CtorError =
    | WrongType(cls: string, prop: string, expected: seq<PyType>, actual: Value)
      /** `isinstance` was given a list literal or a function: Python raises TypeError. */
    | NotAType(cls: string, prop: string)
    | MissingRequired(cls: string, prop: string)
    | Unexpected(cls: string, props: seq<string>)

  /** A constructed helper: its class name and the `data` it stores. */
  datatype Instance = Instance(cls: string, data: seq<Arg>)

  // ---------------------------------------------------------------------------
  // Keyword-argument bookkeeping

  function NameSet(args: seq<Arg>): set<string>
  {
    set a | a in args :: a.name
  }

  function Names(args: seq<Arg>): seq<string>
  {
    seq(|args|, i requires 0 <= i < |args| => args[i].name)
  }

  function DeclNames(decls: seq<Decl>): set<string>
  {
    set d | d in decls :: d.name
  }

  /** `name in kwargs` together with `kwargs[name]`. */
  function Lookup(args: seq<Arg>, k: string): (r: Option<Value>)
    ensures r.None? <==> k !in NameSet(args)
    ensures r.Some? ==> Arg(k, r.value) in args
  {
    if args == [] then None
    else if args[0].name == k then Some(args[0].value)
    else Lookup(args[1..], k)
  }

  /** The arguments whose names are not in `drop`, in their original order. */
  function FilterOut(args: seq<Arg>, drop: set<string>): (r: seq<Arg>)
    ensures forall a :: a in r <==> a in args && a.name !in drop
    ensures |r| <= |args|
  {
    if args == [] then []
    else (if args[0].name in drop then [] else [args[0]]) + FilterOut(args[1..], drop)
  }

  /** `remaining_kwargs.pop(k)`. */
  function Pop(args: seq<Arg>, k: string): seq<Arg>
  {
    FilterOut(args, {k})
  }

  // ---------------------------------------------------------------------------
  // The constructor, step by step as the source performs it

  /** The `for k, (key_type, required) in self.props.items()` loop, as a
      recursive walk; on success it yields the keyword arguments still left
      in `remaining_kwargs`. */
  function Walk(cls: string, decls: seq<Decl>, kwargs: seq<Arg>, remaining: seq<Arg>)
    : (r: Result<seq<Arg>, CtorError>)
    ensures r.Ok? <==> forall d :: d in decls ==> Conforms(d, kwargs)
    ensures r.Err? ==> !r.error.Unexpected? && r.error.cls == cls
    decreases |decls|
  {
    if decls == [] then Ok(remaining)
    else
      var d := decls[0];
      assert forall e :: e in decls <==> e == d || e in decls[1..];
      match Lookup(kwargs, d.name)
      case Some(v) =>
        var remaining' := Pop(remaining, d.name);
        if !d.spec.Types? then assert !Conforms(d, kwargs); Err(NotAType(cls, d.name))
        else if !IsInstanceOfAny(v, d.spec.accepted) then
          assert !Conforms(d, kwargs);
          Err(WrongType(cls, d.name, d.spec.accepted, v))
        else Walk(cls, decls[1..], kwargs, remaining')
      case None =>
        if d.required then assert !Conforms(d, kwargs); Err(MissingRequired(cls, d.name))
        else Walk(cls, decls[1..], kwargs, remaining)
  }

  /** `GlobalsHelperFn.__init__(**kwargs)` for a class named `cls` whose props
      table is `decls`. */
  function Construct(cls: string, decls: seq<Decl>, kwargs: seq<Arg>): (r: Result<Instance, CtorError>)
    ensures r == Expected(cls, decls, kwargs)
  {
    WalkMatchesReference(cls, decls, kwargs, kwargs);
    match Walk(cls, decls, kwargs, kwargs)
    case Err(e) => Err(e)
    case Ok(rest) =>
      if rest != [] then Err(Unexpected(cls, Names(rest)))
      else Ok(Instance(cls, kwargs))
  }

  // ---------------------------------------------------------------------------
  // Declarative reference: what the constructor is meant to decide

  /** A declaration is satisfied: a supplied value is an instance of one of
      the accepted classes, and an absent one is optional. */
  predicate Conforms(d: Decl, kwargs: seq<Arg>)
  {
    match Lookup(kwargs, d.name)
    case None => !d.required
    case Some(v) => d.spec.Types? && IsInstanceOfAny(v, d.spec.accepted)
  }

  /** The error a declaration that is not satisfied is reported with. */
  function DeclError(cls: string, d: Decl, kwargs: seq<Arg>): CtorError
  {
    match Lookup(kwargs, d.name)
    case None => MissingRequired(cls, d.name)
    case Some(v) => if d.spec.Types? then WrongType(cls, d.name, d.spec.accepted, v) else NotAType(cls, d.name)
  }

  /** The index of the first declaration not satisfied, or |decls| if all are. */
  function FirstNonconforming(decls: seq<Decl>, kwargs: seq<Arg>): (i: nat)
    ensures i <= |decls|
    ensures forall j :: 0 <= j < i ==> Conforms(decls[j], kwargs)
    ensures i < |decls| ==> !Conforms(decls[i], kwargs)
  {
    if decls == [] then 0
    else if !Conforms(decls[0], kwargs) then 0
    else 1 + FirstNonconforming(decls[1..], kwargs)
  }

  /** The keyword arguments no declaration names, in kwargs order. */
  function Undeclared(kwargs: seq<Arg>, decls: seq<Decl>): seq<Arg>
  {
    FilterOut(kwargs, DeclNames(decls))
  }

  /** First failing declaration wins; otherwise every undeclared name is
      reported at once; otherwise the kwargs are stored unchanged. */
  function Expected(cls: string, decls: seq<Decl>, kwargs: seq<Arg>): Result<Instance, CtorError>
  {
    var i := FirstNonconforming(decls, kwargs);
    if i < |decls| then Err(DeclError(cls, decls[i], kwargs))
    else if Undeclared(kwargs, decls) != [] then Err(Unexpected(cls, Names(Undeclared(kwargs, decls))))
    else Ok(Instance(cls, kwargs))
  }

  // ---------------------------------------------------------------------------
  // Lemmas

  lemma {:induction false} FilterOutTwice(args: seq<Arg>, a: set<string>, b: set<string>)
    ensures FilterOut(FilterOut(args, a), b) == FilterOut(args, a + b)
  {
    if args != [] {
      FilterOutTwice(args[1..], a, b);
      var head := if args[0].name in a then [] else [args[0]];
      assert FilterOut(head + FilterOut(args[1..], a), b)
          == FilterOut(head, b) + FilterOut(FilterOut(args[1..], a), b) by {
        FilterOutAppend(head, FilterOut(args[1..], a), b);
      }
    }
  }

  lemma {:induction false} FilterOutAppend(x: seq<Arg>, y: seq<Arg>, drop: set<string>)
    ensures FilterOut(x + y, drop) == FilterOut(x, drop) + FilterOut(y, drop)
  {
    if x != [] {
      assert (x + y)[1..] == x[1..] + y;
      FilterOutAppend(x[1..], y, drop);
    } else {
      assert x + y == y;
    }
  }

  /** Dropping names that no argument carries changes nothing. */
  lemma {:induction false} FilterOutAbsent(args: seq<Arg>, drop: set<string>)
    requires forall a :: a in args ==> a.name !in drop
    ensures FilterOut(args, drop) == args
  {
    if args != [] {
      FilterOutAbsent(args[1..], drop);
    }
  }

  lemma {:induction false} FilterOutDropsMore(args: seq<Arg>, k: string, drop: set<string>)
    requires k !in NameSet(args)
    ensures FilterOut(args, {k} + drop) == FilterOut(args, drop)
  {
    if args != [] {
      assert args[0] in args;
      assert NameSet(args[1..]) <= NameSet(args);
      FilterOutDropsMore(args[1..], k, drop);
    }
  }

  /** Popping the first declaration's name, when supplied, and then the rest
      of the table's names drops exactly the table's names. */
  lemma RemainingAfterDecl(remaining: seq<Arg>, kwargs: seq<Arg>, decls: seq<Decl>)
    requires decls != [] && NameSet(remaining) <= NameSet(kwargs)
    ensures var d := decls[0];
            FilterOut(if Lookup(kwargs, d.name).Some? then Pop(remaining, d.name) else remaining, DeclNames(decls[1..]))
            == FilterOut(remaining, DeclNames(decls))
  {
    var d, rest := decls[0], decls[1..];
    assert DeclNames(decls) == {d.name} + DeclNames(rest) by {
      assert decls == [d] + rest;
    }
    if Lookup(kwargs, d.name).Some? {
      FilterOutTwice(remaining, {d.name}, DeclNames(rest));
    } else {
      FilterOutDropsMore(remaining, d.name, DeclNames(rest));
    }
  }

  /** An unsatisfied first declaration stops the walk with its own error. */
  lemma WalkNonconformingStep(cls: string, decls: seq<Decl>, kwargs: seq<Arg>, remaining: seq<Arg>)
    requires decls != [] && !Conforms(decls[0], kwargs)
    ensures Walk(cls, decls, kwargs, remaining) == Err(DeclError(cls, decls[0], kwargs))
  {
  }

  /** A satisfied first declaration only pops its name, if supplied. */
  lemma WalkConformingStep(cls: string, decls: seq<Decl>, kwargs: seq<Arg>, remaining: seq<Arg>)
    requires decls != [] && Conforms(decls[0], kwargs)
    ensures Walk(cls, decls, kwargs, remaining)
            == Walk(cls, decls[1..], kwargs,
                    if Lookup(kwargs, decls[0].name).Some? then Pop(remaining, decls[0].name) else remaining)
  {
  }

  /** The recursive walk decides exactly what the declarative reference
      decides, and leaves behind exactly the undeclared keyword arguments. */
  lemma {:induction false} WalkMatchesReference(cls: string, decls: seq<Decl>, kwargs: seq<Arg>, remaining: seq<Arg>)
    requires NameSet(remaining) <= NameSet(kwargs)
    ensures var i := FirstNonconforming(decls, kwargs);
            Walk(cls, decls, kwargs, remaining)
            == if i < |decls| then Err(DeclError(cls, decls[i], kwargs))
               else Ok(FilterOut(remaining, DeclNames(decls)))
    decreases |decls|
  {
    if decls == [] {
      assert DeclNames(decls) == {};
      FilterOutAbsent(remaining, {});
    } else if !Conforms(decls[0], kwargs) {
      WalkNonconformingStep(cls, decls, kwargs, remaining);
    } else {
      var d := decls[0];
      var rest := decls[1..];
      var remaining' := if Lookup(kwargs, d.name).Some? then Pop(remaining, d.name) else remaining;
      assert NameSet(remaining') <= NameSet(remaining);
      WalkConformingStep(cls, decls, kwargs, remaining);
      WalkMatchesReference(cls, rest, kwargs, remaining');
      var i := FirstNonconforming(rest, kwargs);
      assert FirstNonconforming(decls, kwargs) == 1 + i;
      if i < |rest| {
        assert decls[1 + i] == rest[i];
      } else {
        RemainingAfterDecl(remaining, kwargs, decls);
      }
    }
  }


  /** Construction succeeds exactly when every declaration is satisfied and
      every supplied name is declared; it then stores the kwargs unchanged. */
  lemma ConstructSucceedsIff(cls: string, decls: seq<Decl>, kwargs: seq<Arg>)
    ensures Construct(cls, decls, kwargs).Ok?
            <==> (forall d :: d in decls ==> Conforms(d, kwargs))
                 && (forall a :: a in kwargs ==> a.name in DeclNames(decls))
    ensures Construct(cls, decls, kwargs).Ok? ==> Construct(cls, decls, kwargs).value == Instance(cls, kwargs)
  {
    var i := FirstNonconforming(decls, kwargs);
    if i < |decls| {
      assert decls[i] in decls;
    }
    var u := Undeclared(kwargs, decls);
    if u != [] {
      assert u[0] in u;
    }
  }

  /** A required declaration with no supplied value makes construction fail,
      and if every earlier declaration is satisfied, the failure names it. */
  lemma MissingRequiredFails(cls: string, decls: seq<Decl>, kwargs: seq<Arg>, i: nat)
    requires i < |decls| && decls[i].required && decls[i].name !in NameSet(kwargs)
    ensures Construct(cls, decls, kwargs).Err?
    ensures (forall j :: 0 <= j < i ==> Conforms(decls[j], kwargs))
            ==> Construct(cls, decls, kwargs) == Err(MissingRequired(cls, decls[i].name))
  {
    var f := FirstNonconforming(decls, kwargs);
    assert f <= i;
  }

  /** A supplied value that is an instance of none of the declared classes
      makes construction fail; if every earlier declaration is satisfied,
      the failure names the property, the accepted classes and the value. */
  lemma WrongTypeFails(cls: string, decls: seq<Decl>, kwargs: seq<Arg>, i: nat, v: Value)
    requires i < |decls| && decls[i].spec.Types?
    requires Lookup(kwargs, decls[i].name) == Some(v) && !IsInstanceOfAny(v, decls[i].spec.accepted)
    ensures Construct(cls, decls, kwargs).Err?
    ensures (forall j :: 0 <= j < i ==> Conforms(decls[j], kwargs))
            ==> Construct(cls, decls, kwargs) == Err(WrongType(cls, decls[i].name, decls[i].spec.accepted, v))
  {
    assert !Conforms(decls[i], kwargs);
    var f := FirstNonconforming(decls, kwargs);
    assert f <= i;
    assert Construct(cls, decls, kwargs) == Err(DeclError(cls, decls[f], kwargs));
    if forall j :: 0 <= j < i ==> Conforms(decls[j], kwargs) {
      assert f == i;
      assert DeclError(cls, decls[i], kwargs) == WrongType(cls, decls[i].name, decls[i].spec.accepted, v);
    }
  }

  /** Every reported error is justified by the inputs: the named property is
      declared, and (for the first three kinds) is supplied with the wrong
      kind of value or is required and absent. Unexpected names are reported
      only once every declaration is satisfied, and all of them at once. */
  lemma ErrorsAreJustified(cls: string, decls: seq<Decl>, kwargs: seq<Arg>)
    ensures match Construct(cls, decls, kwargs)
            case Ok(inst) => inst.data == kwargs
            case Err(MissingRequired(c, k)) =>
              c == cls && k !in NameSet(kwargs) && exists d :: d in decls && d.name == k && d.required
            case Err(WrongType(c, k, ts, v)) =>
              c == cls && Arg(k, v) in kwargs && !IsInstanceOfAny(v, ts) && exists d :: d in decls && d == Decl(k, Types(ts), d.required)
            case Err(NotAType(c, k)) =>
              c == cls && k in NameSet(kwargs) && exists d :: d in decls && d.name == k && !d.spec.Types?
            case Err(Unexpected(c, ks)) =>
              && c == cls
              && ks == Names(Undeclared(kwargs, decls)) && ks != []
              && (forall d :: d in decls ==> Conforms(d, kwargs))
              && (forall k :: k in ks <==> k in NameSet(kwargs) && k !in DeclNames(decls))
  {
    var i := FirstNonconforming(decls, kwargs);
    if i < |decls| {
      assert decls[i] in decls;
    } else {
      var u := Undeclared(kwargs, decls);
      forall k
        ensures k in Names(u) <==> k in NameSet(kwargs) && k !in DeclNames(decls)
      {
        if k in Names(u) {
          var j :| 0 <= j < |u| && Names(u)[j] == k;
          assert u[j] in u;
        }
        if k in NameSet(kwargs) && k !in DeclNames(decls) {
          var a :| a in kwargs && a.name == k;
          assert a in u;
          var j :| 0 <= j < |u| && u[j] == a;
          assert Names(u)[j] == k;
        }
      }
    }
  }

  /** A single keyword argument that names declaration `i`, in a table whose
      other entries are optional and named differently: that declaration
      alone decides the outcome. */
  lemma SingleArgument(cls: string, decls: seq<Decl>, i: nat, v: Value)
    requires i < |decls|
    requires forall j :: 0 <= j < |decls| && j != i ==> decls[j].name != decls[i].name && !decls[j].required
    ensures var kwargs := [Arg(decls[i].name, v)];
            Construct(cls, decls, kwargs)
            == if Conforms(decls[i], kwargs) then Ok(Instance(cls, kwargs)) else Err(DeclError(cls, decls[i], kwargs))
  {
    var kwargs := [Arg(decls[i].name, v)];
    assert NameSet(kwargs) == {decls[i].name};
    assert forall j :: 0 <= j < |decls| && j != i ==> Conforms(decls[j], kwargs);
    assert decls[i] in decls;
    var f := FirstNonconforming(decls, kwargs);
    if f < |decls| {
      assert f == i;
    } else {
      assert Undeclared(kwargs, decls) == [];
    }
  }

  /** Keyword arguments none of which a table of optional entries declares
      are all reported as unexpected, in call order. */
  lemma NoneDeclared(cls: string, decls: seq<Decl>, kwargs: seq<Arg>)
    requires forall d :: d in decls ==> !d.required
    requires kwargs != [] && forall a :: a in kwargs ==> a.name !in DeclNames(decls)
    ensures Construct(cls, decls, kwargs) == Err(Unexpected(cls, Names(kwargs)))
  {
    forall d | d in decls ensures Conforms(d, kwargs) {
      assert d.name !in NameSet(kwargs);
    }
    FilterOutAbsent(kwargs, DeclNames(decls));
  }

  /** A declaration that is optional and not supplied is skipped: inserting
      one anywhere in the props table does not change the outcome. */
  lemma {:induction false} AbsentOptionalSkipped(cls: string, decls: seq<Decl>, i: nat, d: Decl, kwargs: seq<Arg>, remaining: seq<Arg>)
    requires i <= |decls| && !d.required && d.name !in NameSet(kwargs)
    requires NameSet(remaining) <= NameSet(kwargs)
    ensures Walk(cls, decls[..i] + [d] + decls[i..], kwargs, remaining) == Walk(cls, decls, kwargs, remaining)
    decreases i
  {
    var inserted := decls[..i] + [d] + decls[i..];
    if i == 0 {
      assert inserted == [d] + decls;
      assert inserted[1..] == decls;
    } else {
      assert inserted[0] == decls[0];
      assert inserted[1..] == decls[1..][..i-1] + [d] + decls[1..][i-1..];
      var d0 := decls[0];
      var remaining' := if Lookup(kwargs, d0.name).Some? then Pop(remaining, d0.name) else remaining;
      assert NameSet(remaining') <= NameSet(remaining);
      AbsentOptionalSkipped(cls, decls[1..], i - 1, d, kwargs, remaining');
    }
  }

  lemma AbsentOptionalDeclarationIsSkipped(cls: string, decls: seq<Decl>, i: nat, d: Decl, kwargs: seq<Arg>)
    requires i <= |decls| && !d.required && d.name !in NameSet(kwargs)
    ensures Construct(cls, decls[..i] + [d] + decls[i..], kwargs) == Construct(cls, decls, kwargs)
  {
    AbsentOptionalSkipped(cls, decls, i, d, kwargs, kwargs);
  }
}
