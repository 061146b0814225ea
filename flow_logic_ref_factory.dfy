/**
 * `FlowLogicRefFactoryImpl`: conversion between a flow class plus constructor arguments and a
 * symbolic `FlowLogicRef` (class name, application context, parameter-name -> value map).
 *
 * Reflection is replaced by explicit data: a flow class is a list of constructor descriptors in
 * declaration order, each a list of parameter descriptors; a `ClassTable` answers
 * `isAssignableFrom`; class loading is a map from class names to flow classes. "Constructing" a
 * flow means returning the chosen constructor with the arguments bound to its parameters.
 */
module FlowLogicRefFactory {
  import opened Outcomes
  import opened JvmTypes

  /** A runtime argument: `null`, or an object known by its runtime class and an opaque identity. */
  datatype Value = Null | Instance(runtimeClass: string, identity: nat)

  /** `value.javaClass` of a non-null value; it is never a primitive class. */
  function JavaClassOf(v: Value): (c: JClass)
    requires v.Instance?
    ensures c.RefClass?
  {
    RefClass(v.runtimeClass)
  }

  /** The `java.lang.reflect.Type` of a parameter, one alternative per kind of `Type`. */
  datatype JType =
    | ClassType(cls: JClass)
    | ParameterizedType(rawType: JType, actualTypeArguments: seq<JType>)
    | TypeVariable(variableName: string)
    | WildcardType
    | GenericArrayType(genericComponentType: JType)

  /**
   * A constructor parameter (`KParameter`): its name, its generic Java type (`type.javaType`),
   * its erased class (the matching entry of `javaConstructor.parameterTypes`), whether it has a
   * default value, and whether its Kotlin type is marked nullable.
   */
  datatype Parameter = Parameter(
    name: string,
    javaType: JType,
    erasure: JClass,
    isOptional: bool,
    isMarkedNullable: bool)

  datatype Constructor = Constructor(parameters: seq<Parameter>)

  /** A flow class: its binary name and its constructors in declaration order. */
  datatype FlowClass = FlowClass(name: string, constructors: seq<Constructor>)

  /** The class-loading context recorded in a ref; attachments are opaque ids. */
  datatype AppContext = AppContext(attachments: seq<string>)

  /**
   * A `FlowLogicRef`: the factory's own implementation, or a ref of some other class that only
   * implements the marker interface.
   */
  datatype FlowLogicRef =
    | FlowLogicRefImpl(flowLogicClassName: string, appContext: AppContext, args: map<string, Value>)
    | ForeignRef(refClassName: string)

  /**
   * What constructing a flow amounts to here: the chosen constructor (and its position) and the
   * arguments bound to its parameters, keyed by parameter position. Parameters left out of the
   * binding take their default values.
   */
  datatype Instantiation = Instantiation(
    flowClassName: string,
    constructorIndex: nat,
    ctor: Constructor,
    params: map<nat, Value>)

  /** Why an `IllegalFlowLogicException` is raised. */
  datatype Reason =
    | AmbiguousConstructorMatch(argTypes: seq<Option<JClass>>)
    | MissingConstructor(argTypes: seq<Option<JClass>>)
    | NoMatchingConstructor(args: map<string, Value>)
    | NotCreatedByFactory

  datatype FlowError =
    | IllegalFlowLogic(className: string, reason: Reason)
    | ClassNotFound(className: string)

  /** How Kotlin's `single { }` fails. */
  datatype SingleFailure = MoreThanOneMatch | NoMatch

  // ---------------------------------------------------------------------------------------------
  // create: positional matching against every constructor
  // ---------------------------------------------------------------------------------------------

  /** `args.map { it?.javaClass }`: the runtime class of each argument, none for `null`. */
  function ArgTypes(args: seq<Value>): (ts: seq<Option<JClass>>)
    ensures |ts| == |args|
    ensures forall i :: 0 <= i < |args| ==> (ts[i].None? <==> args[i].Null?)
    ensures forall i :: 0 <= i < |args| && args[i].Instance? ==> ts[i] == Some(JavaClassOf(args[i]))
  {
    seq(|args|, i requires 0 <= i < |args| =>
      if args[i].Null? then None else Some(JavaClassOf(args[i])))
  }

  /**
   * The positional match of `create`: same arity, and every non-null argument's class is
   * assignable to the boxed erased parameter type; a null argument matches any parameter.
   */
  predicate AcceptsArgTypes(table: ClassTable, argTypes: seq<Option<JClass>>, ctor: Constructor)
  {
    && |argTypes| == |ctor.parameters|
    && forall i :: 0 <= i < |argTypes| && argTypes[i].Some? ==>
         IsAssignableFrom(table, Wrap(ctor.parameters[i].erasure), argTypes[i].value)
  }

  /** Exactly the constructor at `i` matches. */
  predicate UniqueMatch(table: ClassTable, ctors: seq<Constructor>, argTypes: seq<Option<JClass>>, i: nat)
  {
    && i < |ctors|
    && AcceptsArgTypes(table, argTypes, ctors[i])
    && forall j :: 0 <= j < |ctors| && j != i ==> !AcceptsArgTypes(table, argTypes, ctors[j])
  }

  /** Two different constructors match. */
  predicate AmbiguousMatch(table: ClassTable, ctors: seq<Constructor>, argTypes: seq<Option<JClass>>)
  {
    exists j, k :: 0 <= j < k < |ctors| &&
      AcceptsArgTypes(table, argTypes, ctors[j]) && AcceptsArgTypes(table, argTypes, ctors[k])
  }

  /** No constructor matches. */
  predicate NoneMatch(table: ClassTable, ctors: seq<Constructor>, argTypes: seq<Option<JClass>>)
  {
    forall j :: 0 <= j < |ctors| ==> !AcceptsArgTypes(table, argTypes, ctors[j])
  }

  /** Any two different matching constructors make the match ambiguous. */
  lemma TwoMatchesAreAmbiguous(table: ClassTable, ctors: seq<Constructor>, argTypes: seq<Option<JClass>>)
    ensures forall j, k ::
              (0 <= j < |ctors| && 0 <= k < |ctors| && j != k &&
               AcceptsArgTypes(table, argTypes, ctors[j]) && AcceptsArgTypes(table, argTypes, ctors[k])) ==>
              AmbiguousMatch(table, ctors, argTypes)
  {
    forall j, k | 0 <= j < |ctors| && 0 <= k < |ctors| && j != k &&
                  AcceptsArgTypes(table, argTypes, ctors[j]) && AcceptsArgTypes(table, argTypes, ctors[k])
      ensures AmbiguousMatch(table, ctors, argTypes)
    {
      if j < k {
        assert 0 <= j < k < |ctors|;
      } else {
        assert 0 <= k < j < |ctors|;
      }
    }
  }

  /** The three outcomes of the positional match are exhaustive and mutually exclusive. */
  lemma MatchTrichotomy(table: ClassTable, ctors: seq<Constructor>, argTypes: seq<Option<JClass>>)
    ensures NoneMatch(table, ctors, argTypes) || AmbiguousMatch(table, ctors, argTypes) ||
            exists i :: 0 <= i < |ctors| && UniqueMatch(table, ctors, argTypes, i)
    ensures !(NoneMatch(table, ctors, argTypes) && AmbiguousMatch(table, ctors, argTypes))
    ensures forall i :: 0 <= i < |ctors| && UniqueMatch(table, ctors, argTypes, i) ==>
              !NoneMatch(table, ctors, argTypes) && !AmbiguousMatch(table, ctors, argTypes)
  {
    TwoMatchesAreAmbiguous(table, ctors, argTypes);
    if !NoneMatch(table, ctors, argTypes) {
      var i :| 0 <= i < |ctors| && AcceptsArgTypes(table, argTypes, ctors[i]);
      if !UniqueMatch(table, ctors, argTypes, i) {
        var j :| 0 <= j < |ctors| && j != i && AcceptsArgTypes(table, argTypes, ctors[j]);
      }
    }
  }

  /** The body of the `single { }` predicate: the arity test, then the `for`/`continue` loop. */
  method MatchesArgTypes(table: ClassTable, argTypes: seq<Option<JClass>>, ctor: Constructor) returns (ok: bool)
    ensures ok <==> AcceptsArgTypes(table, argTypes, ctor)
  {
    var ctorTypes := seq(|ctor.parameters|, i requires 0 <= i < |ctor.parameters| =>
      Wrap(ctor.parameters[i].erasure));
    if |argTypes| != |ctorTypes| {
      return false;
    }
    for i := 0 to |argTypes|
      invariant forall j :: 0 <= j < i && argTypes[j].Some? ==>
                  IsAssignableFrom(table, ctorTypes[j], argTypes[j].value)
    {
      if argTypes[i].None? {
        continue;
      }
      if !IsAssignableFrom(table, ctorTypes[i], argTypes[i].value) {
        return false;
      }
    }
    return true;
  }

  /**
   * `constructors.single { … }`: the one matching constructor; a second match fails at once with
   * `IllegalArgumentException`, no match fails with `NoSuchElementException`.
   */
  method SingleMatching(table: ClassTable, ctors: seq<Constructor>, argTypes: seq<Option<JClass>>)
    returns (r: Result<nat, SingleFailure>)
    ensures r.Ok? <==> exists i :: 0 <= i < |ctors| && UniqueMatch(table, ctors, argTypes, i)
    ensures r.Ok? ==> UniqueMatch(table, ctors, argTypes, r.value)
    ensures r == Err(MoreThanOneMatch) <==> AmbiguousMatch(table, ctors, argTypes)
    ensures r == Err(NoMatch) <==> NoneMatch(table, ctors, argTypes)
  {
    MatchTrichotomy(table, ctors, argTypes);
    var found: Option<nat> := None;
    var i := 0;
    while i < |ctors|
      invariant 0 <= i <= |ctors|
      invariant found.None? ==> forall j :: 0 <= j < i ==> !AcceptsArgTypes(table, argTypes, ctors[j])
      invariant found.Some? ==> found.value < i && AcceptsArgTypes(table, argTypes, ctors[found.value])
      invariant found.Some? ==>
                  forall j :: 0 <= j < i && j != found.value ==> !AcceptsArgTypes(table, argTypes, ctors[j])
    {
      var ok := MatchesArgTypes(table, argTypes, ctors[i]);
      if ok {
        if found.Some? {
          assert AcceptsArgTypes(table, argTypes, ctors[found.value]);
          return Err(MoreThanOneMatch);
        }
        found := Some(i);
      }
      i := i + 1;
    }
    if found.None? {
      return Err(NoMatch);
    }
    assert UniqueMatch(table, ctors, argTypes, found.value);
    return Ok(found.value);
  }

  /**
   * `args.zip(parameters).map { name to arg }.toMap()` over the first `n` pairs: each parameter
   * name is bound to the argument in its position, a later duplicate name overwriting an earlier one.
   */
  function ArgsMapUpTo(ps: seq<Parameter>, args: seq<Value>, n: nat): map<string, Value>
    requires n <= |ps| && n <= |args|
  {
    if n == 0 then map[] else ArgsMapUpTo(ps, args, n - 1)[ps[n - 1].name := args[n - 1]]
  }

  /** The map `create` builds from its positional arguments; `zip` stops at the shorter list. */
  function ArgsMap(ps: seq<Parameter>, args: seq<Value>): map<string, Value>
  {
    ArgsMapUpTo(ps, args, if |ps| <= |args| then |ps| else |args|)
  }

  /** The set of parameter names of a parameter list. */
  function ParamNames(ps: seq<Parameter>): set<string>
  {
    set i | 0 <= i < |ps| :: ps[i].name
  }

  /** No two parameters share a name (Kotlin guarantees it for a constructor). */
  predicate DistinctNames(ps: seq<Parameter>)
  {
    forall i, j :: 0 <= i < j < |ps| ==> ps[i].name != ps[j].name
  }

  /**
   * With distinct parameter names, the map built from the first `n` pairs has exactly those
   * names as keys and binds the i-th name to the i-th argument.
   */
  lemma {:induction false} ArgsMapUpToBindsPositions(ps: seq<Parameter>, args: seq<Value>, n: nat)
    requires n <= |ps| && n <= |args|
    requires DistinctNames(ps)
    ensures ArgsMapUpTo(ps, args, n).Keys == ParamNames(ps[..n])
    ensures forall i :: 0 <= i < n ==> ArgsMapUpTo(ps, args, n)[ps[i].name] == args[i]
  {
    if n > 0 {
      ArgsMapUpToBindsPositions(ps, args, n - 1);
      ParamNamesExtend(ps, n - 1);
      var m := ArgsMapUpTo(ps, args, n);
      forall i | 0 <= i < n
        ensures m[ps[i].name] == args[i]
      {
        if i < n - 1 {
          assert ps[i].name != ps[n - 1].name;
        }
      }
    }
  }

  /** The map `create` passes on binds every parameter name of a same-arity constructor to its argument. */
  lemma ArgsMapBindsPositions(ps: seq<Parameter>, args: seq<Value>)
    requires |ps| == |args|
    requires DistinctNames(ps)
    ensures ArgsMap(ps, args).Keys == ParamNames(ps)
    ensures forall i :: 0 <= i < |ps| ==> ArgsMap(ps, args)[ps[i].name] == args[i]
  {
    ArgsMapUpToBindsPositions(ps, args, |ps|);
    assert ps[..|ps|] == ps;
  }

  // ---------------------------------------------------------------------------------------------
  // createKotlin / toFlowLogic: matching a name -> value map, first constructor wins
  // ---------------------------------------------------------------------------------------------

  /**
   * `parameterAssignableFrom`: a primitive parameter takes exactly its own wrapper, a class
   * parameter takes any subclass, a parameterised type is checked by its raw type only, and any
   * other kind of type takes nothing.
   */
  function ParameterAssignableFrom(table: ClassTable, t: JType, value: Value): bool
    requires value.Instance?
  {
    match t
    case ClassType(c) =>
      if c.PrimitiveClass? then Unwrap(JavaClassOf(value)) == c
      else IsAssignableFrom(table, c, JavaClassOf(value))
    case ParameterizedType(raw, _) => ParameterAssignableFrom(table, raw, value)
    case _ => false
  }

  /** The raw class of a type: a class is its own, a parameterised type has its raw type's. */
  function RawClass(t: JType): Option<JClass>
  {
    match t
    case ClassType(c) => Some(c)
    case ParameterizedType(raw, _) => RawClass(raw)
    case _ => None
  }

  /**
   * `ParameterAssignableFrom` erases type arguments: a type accepts a value exactly when it has a
   * raw class and that class accepts it (exact unboxing for a primitive, subclassing otherwise).
   */
  lemma {:induction false} ParameterAssignableFromRawClass(table: ClassTable, t: JType, value: Value)
    requires value.Instance?
    ensures ParameterAssignableFrom(table, t, value) <==>
      RawClass(t).Some? &&
      (if RawClass(t).value.PrimitiveClass?
       then value.runtimeClass == BoxName(RawClass(t).value.kind)
       else IsAssignableFrom(table, RawClass(t).value, JavaClassOf(value)))
  {
    match t
    case ClassType(c) =>
      if c.PrimitiveClass? {
        UnwrapIsPrimitiveExactly(value.runtimeClass, c.kind);
      }
    case ParameterizedType(raw, _) =>
      ParameterAssignableFromRawClass(table, raw, value);
    case TypeVariable(_) =>
    case WildcardType =>
    case GenericArrayType(_) =>
  }

  /** `args[name]`: a missing key reads as `null`. */
  function Lookup(args: map<string, Value>, name: string): Value
  {
    if name in args then args[name] else Null
  }

  /**
   * The verdict of `tryBuildParam`: a parameter is satisfied when it is optional and absent, or
   * present with either a non-null assignable value or a nullable type.
   */
  predicate ParamSatisfied(table: ClassTable, args: map<string, Value>, p: Parameter)
  {
    || (p.isOptional && p.name !in args)
    || (p.name in args &&
        ((args[p.name].Instance? && ParameterAssignableFrom(table, p.javaType, args[p.name]))
         || p.isMarkedNullable))
  }

  /** A constructor can be built from the map: every parameter is satisfied and every key is used. */
  predicate Builds(table: ClassTable, ctor: Constructor, args: map<string, Value>)
  {
    && (forall i :: 0 <= i < |ctor.parameters| ==> ParamSatisfied(table, args, ctor.parameters[i]))
    && args.Keys <= ParamNames(ctor.parameters)
  }

  /** The bindings handed to `callBy`: each parameter whose name is in the map, by position. */
  function Bindings(ps: seq<Parameter>, args: map<string, Value>): map<nat, Value>
  {
    map i: nat | i < |ps| && ps[i].name in args :: args[ps[i].name]
  }

  /**
   * `paramCanBeBuilt`: records the (possibly null) value for the parameter, then accepts a
   * non-null assignable value, or any value at all when the parameter is nullable.
   */
  method ParamCanBeBuilt(table: ClassTable, args: map<string, Value>, parameter: Parameter, index: nat,
                         params: map<nat, Value>)
    returns (ok: bool, params': map<nat, Value>)
    ensures params' == params[index := Lookup(args, parameter.name)]
    ensures parameter.isMarkedNullable ==> ok
    ensures ok && !parameter.isMarkedNullable ==>
              Lookup(args, parameter.name).Instance? &&
              ParameterAssignableFrom(table, parameter.javaType, Lookup(args, parameter.name))
    ensures (Lookup(args, parameter.name).Instance? &&
             ParameterAssignableFrom(table, parameter.javaType, Lookup(args, parameter.name))) ==> ok
  {
    var value := Lookup(args, parameter.name);
    params' := params[index := value];
    ok := (value.Instance? && ParameterAssignableFrom(table, parameter.javaType, value)) ||
          parameter.isMarkedNullable;
  }

  /**
   * `tryBuildParam`: an absent optional parameter is fine and records nothing; an absent
   * required one fails; a present one is recorded and judged by `ParamCanBeBuilt`.
   */
  method TryBuildParam(table: ClassTable, args: map<string, Value>, parameter: Parameter, index: nat,
                       params: map<nat, Value>)
    returns (ok: bool, params': map<nat, Value>)
    ensures ok <==> ParamSatisfied(table, args, parameter)
    ensures parameter.name in args ==> params' == params[index := args[parameter.name]]
    ensures parameter.name !in args ==> params' == params
  {
    var containsKey := parameter.name in args;
    ok, params' := parameter.isOptional && !containsKey, params;
    if !ok && containsKey {
      ok, params' := ParamCanBeBuilt(table, args, parameter, index, params);
    }
  }

  /**
   * `buildParams`: fills `params` and `usedKeys` parameter by parameter, gives up on the first
   * unsatisfied parameter, and rejects the constructor when some key of the map was not used.
   */
  method BuildParams(table: ClassTable, ctor: Constructor, args: map<string, Value>)
    returns (r: Option<map<nat, Value>>)
    ensures r.Some? <==> Builds(table, ctor, args)
    ensures r.Some? ==> r.value == Bindings(ctor.parameters, args)
    ensures (exists k :: k in args && k !in ParamNames(ctor.parameters)) ==> r.None?
  {
    var ps := ctor.parameters;
    var params: map<nat, Value> := map[];
    var usedKeys: set<string> := {};
    var i := 0;
    while i < |ps|
      invariant 0 <= i <= |ps|
      invariant forall j :: 0 <= j < i ==> ParamSatisfied(table, args, ps[j])
      invariant params == Bindings(ps[..i], args)
      invariant usedKeys == ParamNames(ps[..i])
    {
      var ok;
      ok, params := TryBuildParam(table, args, ps[i], i, params);
      if !ok {
        return None;
      }
      usedKeys := usedKeys + {ps[i].name};
      BindingsExtend(ps, args, i);
      ParamNamesExtend(ps, i);
      i := i + 1;
    }
    assert ps[..i] == ps;
    if args.Keys - usedKeys != {} {
      return None;
    }
    NoKeyLeftOver(args.Keys, usedKeys);
    return Some(params);
  }

  /** An empty difference means inclusion. */
  lemma NoKeyLeftOver(keys: set<string>, used: set<string>)
    requires keys - used == {}
    ensures keys <= used
  {
    forall k | k in keys
      ensures k in used
    {
      assert k !in keys - used;
    }
  }

  /** Extending the parameter prefix by one adds at most that parameter's binding. */
  lemma BindingsExtend(ps: seq<Parameter>, args: map<string, Value>, i: nat)
    requires i < |ps|
    ensures Bindings(ps[..i + 1], args) ==
      if ps[i].name in args then Bindings(ps[..i], args)[i := args[ps[i].name]] else Bindings(ps[..i], args)
  {
    var a, b := Bindings(ps[..i + 1], args), Bindings(ps[..i], args);
    var b' := if ps[i].name in args then b[i := args[ps[i].name]] else b;
    assert forall j :: j in a <==> j in b';
  }

  /** Extending the parameter prefix by one adds that parameter's name. */
  lemma ParamNamesExtend(ps: seq<Parameter>, i: nat)
    requires i < |ps|
    ensures ParamNames(ps[..i + 1]) == ParamNames(ps[..i]) + {ps[i].name}
  {
    forall x | x in ParamNames(ps[..i + 1])
      ensures x in ParamNames(ps[..i]) + {ps[i].name}
    {
      var j :| 0 <= j < i + 1 && ps[..i + 1][j].name == x;
      if j < i {
        assert ps[..i][j].name == x;
      }
    }
    forall x | x in ParamNames(ps[..i])
      ensures x in ParamNames(ps[..i + 1])
    {
      var j :| 0 <= j < i && ps[..i][j].name == x;
      assert ps[..i + 1][j].name == x;
    }
    assert ps[..i + 1][i].name == ps[i].name;
  }

  /** The first constructor, in declaration order, that can be built from the map. */
  function FirstBuilding(table: ClassTable, ctors: seq<Constructor>, args: map<string, Value>): (r: Option<nat>)
    ensures r.Some? ==> r.value < |ctors| && Builds(table, ctors[r.value], args)
    ensures forall j :: 0 <= j < |ctors| && (r.None? || j < r.value) ==> !Builds(table, ctors[j], args)
  {
    if |ctors| == 0 then None
    else if Builds(table, ctors[0], args) then Some(0)
    else match FirstBuilding(table, ctors[1..], args)
      case None => None
      case Some(k) => Some(k + 1)
  }

  /**
   * What resolving a map against a flow class yields: the first buildable constructor with its
   * bindings, or the "could not find matching constructor" error.
   */
  function Resolution(table: ClassTable, clazz: FlowClass, args: map<string, Value>): (r: Result<Instantiation, FlowError>)
    ensures r.Ok? <==> exists k :: 0 <= k < |clazz.constructors| && Builds(table, clazz.constructors[k], args)
    ensures r.Ok? ==>
      && r.value.flowClassName == clazz.name
      && r.value.constructorIndex < |clazz.constructors|
      && r.value.ctor == clazz.constructors[r.value.constructorIndex]
      && Builds(table, r.value.ctor, args)
      && (forall j :: 0 <= j < r.value.constructorIndex ==> !Builds(table, clazz.constructors[j], args))
      && r.value.params == Bindings(r.value.ctor.parameters, args)
    ensures r.Err? ==> r.error == IllegalFlowLogic(clazz.name, NoMatchingConstructor(args))
  {
    match FirstBuilding(table, clazz.constructors, args)
    case Some(k) =>
      Ok(Instantiation(clazz.name, k, clazz.constructors[k], Bindings(clazz.constructors[k].parameters, args)))
    case None =>
      Err(IllegalFlowLogic(clazz.name, NoMatchingConstructor(args)))
  }

  /** `createConstructor`: tries the constructors in declaration order and returns at the first that builds. */
  method CreateConstructor(table: ClassTable, clazz: FlowClass, args: map<string, Value>)
    returns (r: Result<Instantiation, FlowError>)
    ensures r == Resolution(table, clazz, args)
  {
    var ctors := clazz.constructors;
    var i := 0;
    while i < |ctors|
      invariant 0 <= i <= |ctors|
      invariant forall j :: 0 <= j < i ==> !Builds(table, ctors[j], args)
    {
      var params := BuildParams(table, ctors[i], args);
      if params.Some? {
        return Ok(Instantiation(clazz.name, i, ctors[i], params.value));
      }
      i := i + 1;
    }
    return Err(IllegalFlowLogic(clazz.name, NoMatchingConstructor(args)));
  }

  /** The empty application context every ref is created with. */
  const EmptyAppContext: AppContext := AppContext([])

  /**
   * `createKotlin`: checks that some constructor can be built from the map, without constructing
   * anything, and records the map unchanged in a ref with an empty application context.
   */
  method CreateKotlin(table: ClassTable, clazz: FlowClass, args: map<string, Value>)
    returns (r: Result<FlowLogicRef, FlowError>)
    ensures r.Ok? <==> Resolution(table, clazz, args).Ok?
    ensures r.Ok? ==> r.value == FlowLogicRefImpl(clazz.name, EmptyAppContext, args)
    ensures r.Err? ==> r.error == IllegalFlowLogic(clazz.name, NoMatchingConstructor(args))
  {
    var appContext := EmptyAppContext;
    var checked := CreateConstructor(table, clazz, args);
    if checked.Err? {
      return Err(checked.error);
    }
    return Ok(FlowLogicRefImpl(clazz.name, appContext, args));
  }

  /**
   * `create`: the single constructor whose arity and boxed parameter classes match the
   * arguments (null matching anything) names the arguments, and `createKotlin` validates and
   * records the resulting map.
   */
  method Create(table: ClassTable, clazz: FlowClass, args: seq<Value>)
    returns (r: Result<FlowLogicRef, FlowError>)
    ensures AmbiguousMatch(table, clazz.constructors, ArgTypes(args)) ==>
              r == Err(IllegalFlowLogic(clazz.name, AmbiguousConstructorMatch(ArgTypes(args))))
    ensures NoneMatch(table, clazz.constructors, ArgTypes(args)) ==>
              r == Err(IllegalFlowLogic(clazz.name, MissingConstructor(ArgTypes(args))))
    ensures r.Ok? ==> exists i :: 0 <= i < |clazz.constructors| && UniqueMatch(table, clazz.constructors, ArgTypes(args), i)
    ensures forall i :: 0 <= i < |clazz.constructors| && UniqueMatch(table, clazz.constructors, ArgTypes(args), i) ==>
              var m := ArgsMap(clazz.constructors[i].parameters, args);
              && (r.Ok? <==> Resolution(table, clazz, m).Ok?)
              && (r.Ok? ==> r.value == FlowLogicRefImpl(clazz.name, EmptyAppContext, m))
              && (r.Err? ==> r.error == IllegalFlowLogic(clazz.name, NoMatchingConstructor(m)))
  {
    var argTypes := ArgTypes(args);
    var single := SingleMatching(table, clazz.constructors, argTypes);
    match single
    case Err(MoreThanOneMatch) =>
      return Err(IllegalFlowLogic(clazz.name, AmbiguousConstructorMatch(argTypes)));
    case Err(NoMatch) =>
      return Err(IllegalFlowLogic(clazz.name, MissingConstructor(argTypes)));
    case Ok(i) =>
      var argsMap := ArgsMap(clazz.constructors[i].parameters, args);
      r := CreateKotlin(table, clazz, argsMap);
  }

  /**
   * `toFlowLogic`: only the factory's own refs are accepted; the class is loaded by name and
   * instantiated through `createConstructor`.
   */
  method ToFlowLogic(table: ClassTable, loader: map<string, FlowClass>, ref: FlowLogicRef)
    returns (r: Result<Instantiation, FlowError>)
    ensures ref.ForeignRef? ==> r == Err(IllegalFlowLogic(ref.refClassName, NotCreatedByFactory))
    ensures ref.FlowLogicRefImpl? && ref.flowLogicClassName !in loader ==>
              r == Err(ClassNotFound(ref.flowLogicClassName))
    ensures ref.FlowLogicRefImpl? && ref.flowLogicClassName in loader ==>
              r == Resolution(table, loader[ref.flowLogicClassName], ref.args)
  {
    if ref.ForeignRef? {
      return Err(IllegalFlowLogic(ref.refClassName, NotCreatedByFactory));
    }
    if ref.flowLogicClassName !in loader {
      return Err(ClassNotFound(ref.flowLogicClassName));
    }
    var klass := loader[ref.flowLogicClassName];
    r := CreateConstructor(table, klass, ref.args);
  }

  // ---------------------------------------------------------------------------------------------
  // Properties relating the operations
  // ---------------------------------------------------------------------------------------------

  /** A nullable parameter accepts any value present in the map, whatever its class. */
  lemma NullableAcceptsAnyPresentValue(table: ClassTable, args: map<string, Value>, p: Parameter)
    requires p.isMarkedNullable && p.name in args
    ensures ParamSatisfied(table, args, p)
  {
  }

  /**
   * A null positional argument on a non-nullable parameter of the matched constructor means that
   * constructor cannot be built from the map `create` makes, so `create` then succeeds only if
   * some other constructor can be built from that map.
   */
  lemma NullOnNonNullableParameter(table: ClassTable, ctor: Constructor, args: seq<Value>, j: nat)
    requires |args| == |ctor.parameters| && DistinctNames(ctor.parameters)
    requires j < |args| && args[j].Null? && !ctor.parameters[j].isMarkedNullable
    ensures !Builds(table, ctor, ArgsMap(ctor.parameters, args))
  {
    ArgsMapBindsPositions(ctor.parameters, args);
    assert !ParamSatisfied(table, ArgsMap(ctor.parameters, args), ctor.parameters[j]);
  }

  /**
   * A successful resolution binds every entry of the map to a parameter of the chosen
   * constructor, and every binding holds the map's value for that parameter's name.
   */
  lemma ResolutionUsesEveryArgument(table: ClassTable, clazz: FlowClass, args: map<string, Value>)
    requires Resolution(table, clazz, args).Ok?
    ensures BindsEveryEntry(Resolution(table, clazz, args).value, args)
    ensures var inst := Resolution(table, clazz, args).value;
      forall i :: i in inst.params ==>
        i < |inst.ctor.parameters| && inst.params[i] == args[inst.ctor.parameters[i].name]
  {
    var inst := Resolution(table, clazz, args).value;
    var ps := inst.ctor.parameters;
    forall k | k in args
      ensures exists i :: 0 <= i < |ps| && ps[i].name == k && i in inst.params && inst.params[i] == args[k]
    {
      assert k in ParamNames(ps);
      var i :| 0 <= i < |ps| && ps[i].name == k;
      assert i in inst.params;
    }
  }

  /** A one-parameter constructor taking `x`, with the given erased class and nullability. */
  function SingleParameterConstructor(erasure: JClass, nullable: bool): Constructor
  {
    Constructor([Parameter("x", ClassType(erasure), erasure, false, nullable)])
  }

  /**
   * Creation is strict where resolution is not. Given constructors `(x: Int)` and `(x: Long?)`, a
   * lone null argument matches both, so `create` reports an ambiguous match; yet the map
   * `x -> null` resolves, to the second constructor. Given `(x: Int?)` and `(x: Long?)`, both
   * constructors build from that map and resolution silently takes the first.
   */
  lemma StrictCreationLenientResolution(table: ClassTable)
    ensures var ctors := [SingleParameterConstructor(PrimitiveClass(Int), false),
                          SingleParameterConstructor(RefClass(BoxName(Long)), true)];
      && AmbiguousMatch(table, ctors, ArgTypes([Null]))
      && FirstBuilding(table, ctors, map["x" := Null]) == Some(1)
    ensures var ctors := [SingleParameterConstructor(RefClass(BoxName(Int)), true),
                          SingleParameterConstructor(RefClass(BoxName(Long)), true)];
      && Builds(table, ctors[0], map["x" := Null]) && Builds(table, ctors[1], map["x" := Null])
      && FirstBuilding(table, ctors, map["x" := Null]) == Some(0)
  {
    var ctors := [SingleParameterConstructor(PrimitiveClass(Int), false),
                  SingleParameterConstructor(RefClass(BoxName(Long)), true)];
    assert ArgTypes([Null]) == [None];
    assert AcceptsArgTypes(table, [None], ctors[0]) && AcceptsArgTypes(table, [None], ctors[1]);
    assert 0 <= 0 < 1 < |ctors|;
    assert !ParamSatisfied(table, map["x" := Null], ctors[0].parameters[0]);
    assert ParamNames(ctors[1].parameters) == {"x"} by {
      assert ctors[1].parameters[0].name == "x";
    }
    assert Builds(table, ctors[1..][0], map["x" := Null]);
    var ctors' := [SingleParameterConstructor(RefClass(BoxName(Int)), true),
                   SingleParameterConstructor(RefClass(BoxName(Long)), true)];
    assert ParamNames(ctors'[0].parameters) == {"x"} by {
      assert ctors'[0].parameters[0].name == "x";
    }
    assert ParamNames(ctors'[1].parameters) == {"x"} by {
      assert ctors'[1].parameters[0].name == "x";
    }
  }

  /**
   * Creation and resolution can pick different constructors. Given constructors `(x: Long?)` and
   * `(x: String)` and an empty class table, a `String` argument matches only the second, so
   * `create` succeeds with the map `x -> "s"`; yet resolving that map picks the first, whose
   * nullable parameter accepts a present value of any class.
   */
  lemma CreationAndResolutionDisagree()
    ensures var table := ClassTable(map[]);
      var ctors := [SingleParameterConstructor(RefClass(BoxName(Long)), true),
                    SingleParameterConstructor(RefClass("java.lang.String"), false)];
      var args := [Instance("java.lang.String", 0)];
      var clazz := FlowClass("F", ctors);
      && UniqueMatch(table, ctors, ArgTypes(args), 1)
      && Resolution(table, clazz, ArgsMap(ctors[1].parameters, args)).Ok?
      && Resolution(table, clazz, ArgsMap(ctors[1].parameters, args)).value.constructorIndex == 0
  {
    var table := ClassTable(map[]);
    var ctors := [SingleParameterConstructor(RefClass(BoxName(Long)), true),
                  SingleParameterConstructor(RefClass("java.lang.String"), false)];
    var args := [Instance("java.lang.String", 0)];
    var clazz := FlowClass("F", ctors);
    assert ArgTypes(args) == [Some(RefClass("java.lang.String"))];
    assert BoxName(Long) == "java.lang.Long";
    assert Wrap(ctors[0].parameters[0].erasure) == RefClass("java.lang.Long");
    assert !IsAssignableFrom(table, RefClass("java.lang.Long"), RefClass("java.lang.String"));
    assert !AcceptsArgTypes(table, ArgTypes(args), ctors[0]);
    assert AcceptsArgTypes(table, ArgTypes(args), ctors[1]);
    var m := ArgsMap(ctors[1].parameters, args);
    ArgsMapBindsPositions(ctors[1].parameters, args);
    assert ParamNames(ctors[0].parameters) == {"x"} by {
      assert ctors[0].parameters[0].name == "x";
    }
    assert ParamNames(ctors[1].parameters) == {"x"} by {
      assert ctors[1].parameters[0].name == "x";
    }
    assert m.Keys == {"x"};
    assert Builds(table, ctors[0], m);
  }

  /** The map binds the i-th parameter name to the i-th positional argument. */
  predicate BindsPositionally(ps: seq<Parameter>, args: seq<Value>, m: map<string, Value>)
  {
    forall j :: 0 <= j < |args| && j < |ps| ==> ps[j].name in m && m[ps[j].name] == args[j]
  }

  /** Every entry of the map is bound, with its value, to a parameter of the instantiated constructor. */
  predicate BindsEveryEntry(inst: Instantiation, m: map<string, Value>)
  {
    forall k :: k in m ==>
      exists p :: 0 <= p < |inst.ctor.parameters| && inst.ctor.parameters[p].name == k &&
                  p in inst.params && inst.params[p] == m[k]
  }

  /** The facts the round trip needs about the map built from the matched constructor `i`. */
  lemma MatchedArgumentsRoundTrip(table: ClassTable, clazz: FlowClass, args: seq<Value>, i: nat)
    requires i < |clazz.constructors| && |args| == |clazz.constructors[i].parameters|
    requires DistinctNames(clazz.constructors[i].parameters)
    ensures var m := ArgsMap(clazz.constructors[i].parameters, args);
      && BindsPositionally(clazz.constructors[i].parameters, args, m)
      && (Resolution(table, clazz, m).Ok? ==> BindsEveryEntry(Resolution(table, clazz, m).value, m))
  {
    var ps := clazz.constructors[i].parameters;
    ArgsMapBindsPositions(ps, args);
    forall j | 0 <= j < |args| ensures ps[j].name in ParamNames(ps) {
      assert 0 <= j < |ps|;
    }
    if Resolution(table, clazz, ArgsMap(ps, args)).Ok? {
      ResolutionUsesEveryArgument(table, clazz, ArgsMap(ps, args));
    }
  }

  /**
   * The round trip: when `create` succeeds, resolving its ref against the same class succeeds;
   * the ref binds each parameter name of the matched constructor to the positional argument in
   * that position, and the resolved constructor binds every entry of the ref's map.
   */
  method CreateThenResolve(table: ClassTable, clazz: FlowClass, args: seq<Value>)
    returns (ref: Result<FlowLogicRef, FlowError>, inst: Result<Instantiation, FlowError>)
    requires forall i :: 0 <= i < |clazz.constructors| ==> DistinctNames(clazz.constructors[i].parameters)
    ensures ref.Ok? ==> ref.value.FlowLogicRefImpl? && inst.Ok? && inst.value.flowClassName == clazz.name
    ensures ref.Ok? && ref.value.FlowLogicRefImpl? ==>
              exists i :: 0 <= i < |clazz.constructors| && UniqueMatch(table, clazz.constructors, ArgTypes(args), i) &&
                BindsPositionally(clazz.constructors[i].parameters, args, ref.value.args)
    ensures ref.Ok? && ref.value.FlowLogicRefImpl? && inst.Ok? ==> BindsEveryEntry(inst.value, ref.value.args)
  {
    ref := Create(table, clazz, args);
    if ref.Err? {
      return ref, Err(ref.error);
    }
    var i :| 0 <= i < |clazz.constructors| && UniqueMatch(table, clazz.constructors, ArgTypes(args), i);
    var m := ArgsMap(clazz.constructors[i].parameters, args);
    assert ref.value == FlowLogicRefImpl(clazz.name, EmptyAppContext, m);
    inst := ToFlowLogic(table, map[clazz.name := clazz], ref.value);
    MatchedArgumentsRoundTrip(table, clazz, args, i);
  }
}
