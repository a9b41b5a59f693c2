/**
 * `ConstructorRules`, the builder through which a module author states how
 * to find a constructor: each setter writes one field of the shared
 * `ConstructorRulesData` object, and `build` hands that same object on.
 */
module ConstructorRulesBuilder {
  import opened Options

  /** A `Class<*>` handle, by its fully-qualified name. */
  datatype JavaClass = JavaClass(name: string)

  /** The placeholder class `compat` falls back to for an unresolvable argument. */
  const UndefinedType: JavaClass := JavaClass("com.highcapable.yukihookapi.hook.type.defined.UndefinedType")

  /** An argument of `param(vararg paramType: Any)`: a class, a class name, a `VariousClass` or anything else. */
  datatype ParamArg =
    | ClassArg(cls: JavaClass)
    | NameArg(name: string)
    | VariousArg(names: seq<string>)
    | OtherArg(description: string)

  /** Kotlin's `IntRange` `first..last`. */
  datatype IntRange = IntRange(first: int, last: int)

  /** `ModifierConditions`: a predicate over a member's modifier bits. */
  type ModifierConditions = int -> bool

  /** `ObjectsConditions`: a predicate over the parameter types. */
  type ObjectsConditions = seq<JavaClass> -> bool

  /** `CountConditions`: a predicate over the parameter count. */
  type CountConditions = int -> bool

  /** The value of the fields of a `ConstructorRulesData`. */
  datatype RulesFields = RulesFields(
    paramCount: int,
    modifiers: Option<ModifierConditions>,
    paramTypes: Option<seq<JavaClass>>,
    paramTypesConditions: Option<ObjectsConditions>,
    paramCountRange: IntRange,
    paramCountConditions: Option<CountConditions>)

  /** The mutable criteria holder shared by the builder and its result. */
  class ConstructorRulesData {
    var paramCount: int
    var modifiers: Option<ModifierConditions>
    var paramTypes: Option<seq<JavaClass>>
    var paramTypesConditions: Option<ObjectsConditions>
    var paramCountRange: IntRange
    var paramCountConditions: Option<CountConditions>

    constructor (initial: RulesFields)
      ensures Fields() == initial
    {
      paramCount := initial.paramCount;
      modifiers := initial.modifiers;
      paramTypes := initial.paramTypes;
      paramTypesConditions := initial.paramTypesConditions;
      paramCountRange := initial.paramCountRange;
      paramCountConditions := initial.paramCountConditions;
    }

    function Fields(): RulesFields
      reads this
    {
      RulesFields(paramCount, modifiers, paramTypes, paramTypesConditions, paramCountRange, paramCountConditions)
    }
  }

  /** `MemberRulesResult`, the packaged criteria handed to the finder. */
  datatype MemberRulesResult = MemberRulesResult(rulesData: ConstructorRulesData)

  /** The outcome of `param(vararg)`: it returns, or raises `error(message)`. */
  datatype Outcome = Pass | Fail(message: string)

  const EmptyParamMessage: string := "paramTypes is empty, please use emptyParam() instead"

  /** One argument through `compat`, with `UndefinedType` in place of null. */
  function CompatOrUndefined(compat: ParamArg -> Option<JavaClass>, arg: ParamArg): JavaClass {
    compat(arg).GetOr(UndefinedType)
  }

  /** The list `param(vararg)` builds, one entry appended per argument. */
  function CompatAll(compat: ParamArg -> Option<JavaClass>, args: seq<ParamArg>): seq<JavaClass>
    decreases |args|
  {
    if args == [] then [] else CompatAll(compat, args[..|args| - 1]) + [CompatOrUndefined(compat, args[|args| - 1])]
  }

  /**
   * The list has one entry per argument, in argument order: the class
   * `compat` resolves, or `UndefinedType` where it resolves none.
   */
  lemma {:induction false} CompatAllPointwise(compat: ParamArg -> Option<JavaClass>, args: seq<ParamArg>)
    ensures |CompatAll(compat, args)| == |args|
    ensures forall i :: 0 <= i < |args| ==>
      CompatAll(compat, args)[i] == (if compat(args[i]).Some? then compat(args[i]).value else UndefinedType)
    decreases |args|
  {
    if args != [] {
      CompatAllPointwise(compat, args[..|args| - 1]);
    }
  }

  /** Resolving arguments piecewise and concatenating gives the same list. */
  lemma CompatAllAppend(compat: ParamArg -> Option<JavaClass>, xs: seq<ParamArg>, ys: seq<ParamArg>)
    ensures CompatAll(compat, xs + ys) == CompatAll(compat, xs) + CompatAll(compat, ys)
  {
    CompatAllPointwise(compat, xs + ys);
    CompatAllPointwise(compat, xs);
    CompatAllPointwise(compat, ys);
  }

  /** `ConstructorRules`; `compat` stands for the inherited `BaseRules.compat`. */
  class ConstructorRules {
    const rulesData: ConstructorRulesData
    const compat: ParamArg -> Option<JavaClass>

    constructor (rulesData: ConstructorRulesData, compat: ParamArg -> Option<JavaClass>)
      ensures this.rulesData == rulesData && this.compat == compat
    {
      this.rulesData := rulesData;
      this.compat := compat;
    }

    /** Reading the `paramCount` property: the count held by the shared criteria object. */
    function ParamCount(): (count: int)
      reads rulesData
      ensures count == rulesData.Fields().paramCount
    {
      rulesData.paramCount
    }

    /** Writing the `paramCount` property: read-back gives the value, nothing else changes. */
    method SetParamCount(value: int)
      modifies rulesData
      ensures ParamCount() == value
      ensures rulesData.Fields() == old(rulesData.Fields()).(paramCount := value)
    {
      rulesData.paramCount := value;
    }

    /** `modifiers(conditions)`. */
    method Modifiers(conditions: ModifierConditions)
      modifies rulesData
      ensures rulesData.Fields() == old(rulesData.Fields()).(modifiers := Some(conditions))
    {
      rulesData.modifiers := Some(conditions);
    }

    /** `emptyParam()`: a count of zero; the parameter types stay as they were. */
    method EmptyParam()
      modifies rulesData
      ensures ParamCount() == 0
      ensures rulesData.Fields() == old(rulesData.Fields()).(paramCount := 0)
    {
      rulesData.paramCount := 0;
    }

    /**
     * `param(vararg paramType)`: an empty argument list is an error and
     * leaves the rules as they were; otherwise the resolved types replace
     * `paramTypes`.
     */
    method Param(paramType: seq<ParamArg>) returns (outcome: Outcome)
      modifies rulesData
      ensures paramType == [] ==> outcome == Fail(EmptyParamMessage) && rulesData.Fields() == old(rulesData.Fields())
      ensures paramType != [] ==>
        outcome == Pass && rulesData.Fields() == old(rulesData.Fields()).(paramTypes := Some(CompatAll(compat, paramType)))
    {
      if |paramType| == 0 {
        return Fail(EmptyParamMessage);
      }
      var types: seq<JavaClass> := [];
      var i := 0;
      while i < |paramType|
        invariant 0 <= i <= |paramType|
        invariant types == CompatAll(compat, paramType[..i])
      {
        assert paramType[..i + 1][..i] == paramType[..i];
        types := types + [CompatOrUndefined(compat, paramType[i])];
        i := i + 1;
      }
      assert paramType[..i] == paramType;
      rulesData.paramTypes := Some(types);
      return Pass;
    }

    /** `param(conditions)`. */
    method ParamConditions(conditions: ObjectsConditions)
      modifies rulesData
      ensures rulesData.Fields() == old(rulesData.Fields()).(paramTypesConditions := Some(conditions))
    {
      rulesData.paramTypesConditions := Some(conditions);
    }

    /** `paramCount(numRange)`: the count itself is untouched. */
    method ParamCountRange(numRange: IntRange)
      modifies rulesData
      ensures rulesData.Fields() == old(rulesData.Fields()).(paramCountRange := numRange)
    {
      rulesData.paramCountRange := numRange;
    }

    /** `paramCount(conditions)`: the count itself is untouched. */
    method ParamCountConditions(conditions: CountConditions)
      modifies rulesData
      ensures rulesData.Fields() == old(rulesData.Fields()).(paramCountConditions := Some(conditions))
    {
      rulesData.paramCountConditions := Some(conditions);
    }

    /** `build()`: the result wraps this very criteria object, untransformed. */
    function Build(): (r: MemberRulesResult)
      ensures r.rulesData == rulesData
    {
      MemberRulesResult(rulesData)
    }
  }

  /**
   * `build` does not copy: a setter called after `build` is seen through
   * the result.
   */
  method SetterAfterBuildIsVisible(rules: ConstructorRules, value: int) returns (r: MemberRulesResult)
    modifies rules.rulesData
    ensures r.rulesData == rules.rulesData && r.rulesData.paramCount == value
  {
    r := rules.Build();
    rules.SetParamCount(value);
  }

  /**
   * `emptyParam` followed by `param(...)` keeps both: the count stays 0 and
   * the types are set, and the two are not reconciled here.
   */
  method EmptyParamThenParam(rules: ConstructorRules, paramType: seq<ParamArg>) returns (outcome: Outcome)
    requires paramType != []
    modifies rules.rulesData
    ensures outcome == Pass
    ensures rules.rulesData.paramCount == 0
    ensures rules.rulesData.paramTypes == Some(CompatAll(rules.compat, paramType))
    ensures |rules.rulesData.paramTypes.value| == |paramType|
  {
    rules.EmptyParam();
    outcome := rules.Param(paramType);
    CompatAllPointwise(rules.compat, paramType);
  }
}
