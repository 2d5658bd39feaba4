/** Debug Adapter Protocol message bodies: two responses holding arrays, the `setExpression`
    response, the `initialize` arguments and four requests that name a thread or a stack
    frame by a primitive `int`. */
module DebugProtocol {
  import opened Java

  /** `SetInstructionBreakpointsResponse`: the body of the response to
      `setInstructionBreakpoints`, a mandatory array of breakpoints. */
  class SetInstructionBreakpointsResponse {
    var breakpoints: array?<Option<Obj>>

    /** The class declares no constructor: the implicit one leaves `breakpoints` `null`. */
    constructor ()
      ensures breakpoints == null
    {
      breakpoints := null;
    }

    method SetBreakpoints(breakpoints: array?<Option<Obj>>) returns (outcome: Outcome)
      modifies this`breakpoints
      ensures outcome.Ok? <==> breakpoints != null
      ensures outcome.Ok? ==> this.breakpoints == breakpoints
      ensures outcome.NullArgument? ==> outcome.field == "breakpoints" && this.breakpoints == old(this.breakpoints)
    {
      if breakpoints == null {
        return NullArgument("breakpoints");
      }
      this.breakpoints := breakpoints;
      return Ok;
    }

    /** `equals`: the same class, then `breakpoints` both `null` or `Arrays.deepEquals`: the
        same length and null-safe equal `Breakpoint` elements position by position. */
    function Equals(env: Env, obj: object?): (r: bool)
      reads this, obj
      reads breakpoints, if obj is SetInstructionBreakpointsResponse then {(obj as SetInstructionBreakpointsResponse).breakpoints} else {}
      ensures r ==> obj is SetInstructionBreakpointsResponse
    {
      obj is SetInstructionBreakpointsResponse &&
      var other := obj as SetInstructionBreakpointsResponse;
      ListEquals(env, OfObjArray(breakpoints), OfObjArray(other.breakpoints))
    }

    /** The hashes of the fields in declaration order, 0 for an absent field. */
    function FieldHashes(env: Env): (hs: seq<int32>)
      reads this, breakpoints
      ensures |hs| == 1
    {
      [ListHashOrZero(env, OfObjArray(breakpoints))]
    }

    /** `hashCode`: `31 * 1 + Arrays.deepHashCode(breakpoints)`, which is 31 while
        `breakpoints` is absent. */
    function HashCode(env: Env): (r: int32)
      reads this, breakpoints
      ensures r == Polynomial(1, FieldHashes(env))
      ensures breakpoints == null ==> r == 31
    {
      FoldHashIsPolynomial(1, FieldHashes(env));
      FoldHash(1, FieldHashes(env))
    }

    /** `equals` is reflexive (which covers the `this == obj` shortcut) and symmetric, and
        equal objects have equal hash codes. */
    lemma EqualsContract(env: Env, other: SetInstructionBreakpointsResponse)
      requires Lawful(env)
      ensures Equals(env, this)
      ensures Equals(env, other) ==> other.Equals(env, this)
      ensures Equals(env, other) ==> HashCode(env) == other.HashCode(env)
    {
      FieldComparisonsLawful(env);
    }

    /** Two objects holding distinct arrays with the same elements in the same order are
        equal: `Arrays.deepEquals` compares contents, not references. */
    lemma SameContentsEqual(env: Env, other: SetInstructionBreakpointsResponse)
      requires Lawful(env)
      requires breakpoints != null && other.breakpoints != null && breakpoints != other.breakpoints
      requires breakpoints[..] == other.breakpoints[..]
      ensures Equals(env, other)
    {
      assert OfObjArray(breakpoints).value == OfObjArray(other.breakpoints).value by {
        forall i | 0 <= i < breakpoints.Length ensures breakpoints[i] == other.breakpoints[i] {
          assert breakpoints[i] == breakpoints[..][i];
        }
      }
      FieldComparisonsLawful(env);
    }

    /** Swapping two elements that are not equal to each other makes the objects unequal:
        the comparison is positional. */
    lemma ReorderedUnequal(env: Env, other: SetInstructionBreakpointsResponse, x: Option<Obj>, y: Option<Obj>)
      requires breakpoints != null && other.breakpoints != null
      requires breakpoints[..] == [x, y] && other.breakpoints[..] == [y, x]
      requires !NullSafeEquals(env, OfObj(x), OfObj(y))
      ensures !Equals(env, other)
    {
      var mine, theirs := OfObjArray(breakpoints).value, OfObjArray(other.breakpoints).value;
      assert mine[0] == OfObj(x) && theirs[0] == OfObj(y);
      ElementsEqualAt(env, mine, theirs);
    }

    /** A `null` array equals only a `null` array, in both directions. */
    lemma AbsentArrays(env: Env, other: SetInstructionBreakpointsResponse)
      requires breakpoints == null
      ensures Equals(env, other) <==> other.breakpoints == null
      ensures other.Equals(env, this) <==> other.breakpoints == null
    {
    }

    /** Arrays equal element by element give equal hash codes (`Arrays.deepHashCode`
        agrees with `Arrays.deepEquals`). */
    lemma ElementwiseEqualHashEqual(env: Env, other: SetInstructionBreakpointsResponse)
      requires Lawful(env)
      requires breakpoints != null && other.breakpoints != null && breakpoints.Length == other.breakpoints.Length
      requires forall i :: 0 <= i < breakpoints.Length ==> NullSafeEquals(env, OfObj(breakpoints[i]), OfObj(other.breakpoints[i]))
      ensures Equals(env, other)
      ensures HashCode(env) == other.HashCode(env)
    {
      var mine, theirs := OfObjArray(breakpoints).value, OfObjArray(other.breakpoints).value;
      ElementsEqualAt(env, mine, theirs);
      EqualsContract(env, other);
    }
  }

  /** `CompletionsResponse`: the body of the response to `completions`, a mandatory array of
      completion targets. */
  class CompletionsResponse {
    var targets: array?<Option<Obj>>

    /** The class declares no constructor: the implicit one leaves `targets` `null`. */
    constructor ()
      ensures targets == null
    {
      targets := null;
    }

    method SetTargets(targets: array?<Option<Obj>>) returns (outcome: Outcome)
      modifies this`targets
      ensures outcome.Ok? <==> targets != null
      ensures outcome.Ok? ==> this.targets == targets
      ensures outcome.NullArgument? ==> outcome.field == "targets" && this.targets == old(this.targets)
    {
      if targets == null {
        return NullArgument("targets");
      }
      this.targets := targets;
      return Ok;
    }

    /** `equals`: the same class, then `targets` both `null` or `Arrays.deepEquals`: the
        same length and null-safe equal `CompletionItem` elements position by position. */
    function Equals(env: Env, obj: object?): (r: bool)
      reads this, obj
      reads targets, if obj is CompletionsResponse then {(obj as CompletionsResponse).targets} else {}
      ensures r ==> obj is CompletionsResponse
    {
      obj is CompletionsResponse &&
      var other := obj as CompletionsResponse;
      ListEquals(env, OfObjArray(targets), OfObjArray(other.targets))
    }

    /** The hashes of the fields in declaration order, 0 for an absent field. */
    function FieldHashes(env: Env): (hs: seq<int32>)
      reads this, targets
      ensures |hs| == 1
    {
      [ListHashOrZero(env, OfObjArray(targets))]
    }

    /** `hashCode`: `31 * 1 + Arrays.deepHashCode(targets)`, which is 31 while `targets` is
        absent. */
    function HashCode(env: Env): (r: int32)
      reads this, targets
      ensures r == Polynomial(1, FieldHashes(env))
      ensures targets == null ==> r == 31
    {
      FoldHashIsPolynomial(1, FieldHashes(env));
      FoldHash(1, FieldHashes(env))
    }

    /** `equals` is reflexive (which covers the `this == obj` shortcut) and symmetric, and
        equal objects have equal hash codes. */
    lemma EqualsContract(env: Env, other: CompletionsResponse)
      requires Lawful(env)
      ensures Equals(env, this)
      ensures Equals(env, other) ==> other.Equals(env, this)
      ensures Equals(env, other) ==> HashCode(env) == other.HashCode(env)
    {
      FieldComparisonsLawful(env);
    }

    /** Two objects holding distinct arrays with the same elements in the same order are
        equal: `Arrays.deepEquals` compares contents, not references. */
    lemma SameContentsEqual(env: Env, other: CompletionsResponse)
      requires Lawful(env)
      requires targets != null && other.targets != null && targets != other.targets
      requires targets[..] == other.targets[..]
      ensures Equals(env, other)
    {
      assert OfObjArray(targets).value == OfObjArray(other.targets).value by {
        forall i | 0 <= i < targets.Length ensures targets[i] == other.targets[i] {
          assert targets[i] == targets[..][i];
        }
      }
      FieldComparisonsLawful(env);
    }

    /** Swapping two elements that are not equal to each other makes the objects unequal:
        the comparison is positional. */
    lemma ReorderedUnequal(env: Env, other: CompletionsResponse, x: Option<Obj>, y: Option<Obj>)
      requires targets != null && other.targets != null
      requires targets[..] == [x, y] && other.targets[..] == [y, x]
      requires !NullSafeEquals(env, OfObj(x), OfObj(y))
      ensures !Equals(env, other)
    {
      var mine, theirs := OfObjArray(targets).value, OfObjArray(other.targets).value;
      assert mine[0] == OfObj(x) && theirs[0] == OfObj(y);
      ElementsEqualAt(env, mine, theirs);
    }

    /** A `null` array equals only a `null` array, in both directions. */
    lemma AbsentArrays(env: Env, other: CompletionsResponse)
      requires targets == null
      ensures Equals(env, other) <==> other.targets == null
      ensures other.Equals(env, this) <==> other.targets == null
    {
    }

    /** Arrays equal element by element give equal hash codes (`Arrays.deepHashCode`
        agrees with `Arrays.deepEquals`). */
    lemma ElementwiseEqualHashEqual(env: Env, other: CompletionsResponse)
      requires Lawful(env)
      requires targets != null && other.targets != null && targets.Length == other.targets.Length
      requires forall i :: 0 <= i < targets.Length ==> NullSafeEquals(env, OfObj(targets[i]), OfObj(other.targets[i]))
      ensures Equals(env, other)
      ensures HashCode(env) == other.HashCode(env)
    {
      var mine, theirs := OfObjArray(targets).value, OfObjArray(other.targets).value;
      ElementsEqualAt(env, mine, theirs);
      EqualsContract(env, other);
    }
  }

  /** `SetExpressionResponse`: the body of the response to `setExpression`. Only `value` is
      mandatory; the documented bound on the variable counts is not enforced by the class. */
  class SetExpressionResponse {
    var value: Option<string>
    var valueType: Option<string>
    var presentationHint: Option<Obj>
    var variablesReference: Option<int32>
    var namedVariables: Option<int32>
    var indexedVariables: Option<int32>

    /** The class declares no constructor: the implicit one leaves every field `null`,
        the mandatory `value` included. */
    constructor ()
      ensures value.None? && valueType.None? && presentationHint.None?
      ensures variablesReference.None? && namedVariables.None? && indexedVariables.None?
    {
      value := None;
      valueType := None;
      presentationHint := None;
      variablesReference := None;
      namedVariables := None;
      indexedVariables := None;
    }

    method SetValue(value: Option<string>) returns (outcome: Outcome)
      modifies this`value
      ensures outcome.Ok? <==> value.Some?
      ensures outcome.Ok? ==> this.value == value
      ensures outcome.NullArgument? ==> outcome.field == "value" && this.value == old(this.value)
    {
      var checked := CheckNotNull(value, "value");
      if checked.Failure? {
        return NullArgument(checked.field);
      }
      this.value := Some(checked.value);
      return Ok;
    }

    /** `setType`: the field is `type` in the source, a reserved word here; `null` is
        stored. */
    method SetValueType(valueType: Option<string>)
      modifies this`valueType
      ensures this.valueType == valueType
    {
      this.valueType := valueType;
    }

    method SetPresentationHint(presentationHint: Option<Obj>)
      modifies this`presentationHint
      ensures this.presentationHint == presentationHint
    {
      this.presentationHint := presentationHint;
    }

    method SetVariablesReference(variablesReference: Option<int32>)
      modifies this`variablesReference
      ensures this.variablesReference == variablesReference
    {
      this.variablesReference := variablesReference;
    }

    method SetNamedVariables(namedVariables: Option<int32>)
      modifies this`namedVariables
      ensures this.namedVariables == namedVariables
    {
      this.namedVariables := namedVariables;
    }

    method SetIndexedVariables(indexedVariables: Option<int32>)
      modifies this`indexedVariables
      ensures this.indexedVariables == indexedVariables
    {
      this.indexedVariables := indexedVariables;
    }

    /** `equals`: the same class, then `value`, `valueType`, `presentationHint`,
        `variablesReference`, `namedVariables` and `indexedVariables` null-safe equal. */
    function Equals(env: Env, obj: object?): (r: bool)
      reads this, obj
      ensures r ==> obj is SetExpressionResponse
    {
      obj is SetExpressionResponse &&
      var other := obj as SetExpressionResponse;
      NullSafeEquals(env, OfStr(value), OfStr(other.value)) &&
      NullSafeEquals(env, OfStr(valueType), OfStr(other.valueType)) &&
      NullSafeEquals(env, OfObj(presentationHint), OfObj(other.presentationHint)) &&
      NullSafeEquals(env, OfInt(variablesReference), OfInt(other.variablesReference)) &&
      NullSafeEquals(env, OfInt(namedVariables), OfInt(other.namedVariables)) &&
      NullSafeEquals(env, OfInt(indexedVariables), OfInt(other.indexedVariables))
    }

    /** The hashes of the fields in declaration order, 0 for an absent field. */
    function FieldHashes(env: Env): (hs: seq<int32>)
      reads this
      ensures |hs| == 6
    {
      [ HashOrZero(env, OfStr(value)),
        HashOrZero(env, OfStr(valueType)),
        HashOrZero(env, OfObj(presentationHint)),
        HashOrZero(env, OfInt(variablesReference)),
        HashOrZero(env, OfInt(namedVariables)),
        HashOrZero(env, OfInt(indexedVariables)) ]
    }

    /** `hashCode`: the 31-fold over `value`, `valueType`, `presentationHint`,
        `variablesReference`, `namedVariables` and `indexedVariables` in declaration order,
        starting at 1. */
    function HashCode(env: Env): (r: int32)
      reads this
      ensures r == Polynomial(1, FieldHashes(env))
    {
      FoldHashIsPolynomial(1, FieldHashes(env));
      FoldHash(1, FieldHashes(env))
    }

    /** `equals` is reflexive (which covers the `this == obj` shortcut) and symmetric, and
        equal objects have equal hash codes. */
    lemma EqualsContract(env: Env, other: SetExpressionResponse)
      requires Lawful(env)
      ensures Equals(env, this)
      ensures Equals(env, other) ==> other.Equals(env, this)
      ensures Equals(env, other) ==> HashCode(env) == other.HashCode(env)
    {
      FieldComparisonsLawful(env);
    }
  }

  /** `InitializeRequestArguments`: the arguments of the debug adapter `initialize` request.
      Only `adapterID` is mandatory. */
  class InitializeRequestArguments {
    var clientID: Option<string>
    var clientName: Option<string>
    var adapterID: Option<string>
    var locale: Option<string>
    var linesStartAt1: Option<bool>
    var columnsStartAt1: Option<bool>
    var pathFormat: Option<string>
    var supportsVariableType: Option<bool>
    var supportsVariablePaging: Option<bool>
    var supportsRunInTerminalRequest: Option<bool>
    var supportsMemoryReferences: Option<bool>
    var supportsProgressReporting: Option<bool>
    var supportsInvalidatedEvent: Option<bool>

    /** The class declares no constructor: the implicit one leaves every field `null`,
        the mandatory `adapterID` included. */
    constructor ()
      ensures clientID.None? && clientName.None? && adapterID.None? && locale.None?
      ensures linesStartAt1.None? && columnsStartAt1.None? && pathFormat.None?
      ensures supportsVariableType.None? && supportsVariablePaging.None?
      ensures supportsRunInTerminalRequest.None? && supportsMemoryReferences.None?
      ensures supportsProgressReporting.None? && supportsInvalidatedEvent.None?
    {
      clientID := None;
      clientName := None;
      adapterID := None;
      locale := None;
      linesStartAt1 := None;
      columnsStartAt1 := None;
      pathFormat := None;
      supportsVariableType := None;
      supportsVariablePaging := None;
      supportsRunInTerminalRequest := None;
      supportsMemoryReferences := None;
      supportsProgressReporting := None;
      supportsInvalidatedEvent := None;
    }

    method SetClientID(clientID: Option<string>)
      modifies this`clientID
      ensures this.clientID == clientID
    {
      this.clientID := clientID;
    }

    method SetClientName(clientName: Option<string>)
      modifies this`clientName
      ensures this.clientName == clientName
    {
      this.clientName := clientName;
    }

    method SetAdapterID(adapterID: Option<string>) returns (outcome: Outcome)
      modifies this`adapterID
      ensures outcome.Ok? <==> adapterID.Some?
      ensures outcome.Ok? ==> this.adapterID == adapterID
      ensures outcome.NullArgument? ==> outcome.field == "adapterID" && this.adapterID == old(this.adapterID)
    {
      var checked := CheckNotNull(adapterID, "adapterID");
      if checked.Failure? {
        return NullArgument(checked.field);
      }
      this.adapterID := Some(checked.value);
      return Ok;
    }

    method SetLocale(locale: Option<string>)
      modifies this`locale
      ensures this.locale == locale
    {
      this.locale := locale;
    }

    method SetLinesStartAt1(linesStartAt1: Option<bool>)
      modifies this`linesStartAt1
      ensures this.linesStartAt1 == linesStartAt1
    {
      this.linesStartAt1 := linesStartAt1;
    }

    method SetColumnsStartAt1(columnsStartAt1: Option<bool>)
      modifies this`columnsStartAt1
      ensures this.columnsStartAt1 == columnsStartAt1
    {
      this.columnsStartAt1 := columnsStartAt1;
    }

    method SetPathFormat(pathFormat: Option<string>)
      modifies this`pathFormat
      ensures this.pathFormat == pathFormat
    {
      this.pathFormat := pathFormat;
    }

    method SetSupportsVariableType(supportsVariableType: Option<bool>)
      modifies this`supportsVariableType
      ensures this.supportsVariableType == supportsVariableType
    {
      this.supportsVariableType := supportsVariableType;
    }

    method SetSupportsVariablePaging(supportsVariablePaging: Option<bool>)
      modifies this`supportsVariablePaging
      ensures this.supportsVariablePaging == supportsVariablePaging
    {
      this.supportsVariablePaging := supportsVariablePaging;
    }

    method SetSupportsRunInTerminalRequest(supportsRunInTerminalRequest: Option<bool>)
      modifies this`supportsRunInTerminalRequest
      ensures this.supportsRunInTerminalRequest == supportsRunInTerminalRequest
    {
      this.supportsRunInTerminalRequest := supportsRunInTerminalRequest;
    }

    method SetSupportsMemoryReferences(supportsMemoryReferences: Option<bool>)
      modifies this`supportsMemoryReferences
      ensures this.supportsMemoryReferences == supportsMemoryReferences
    {
      this.supportsMemoryReferences := supportsMemoryReferences;
    }

    method SetSupportsProgressReporting(supportsProgressReporting: Option<bool>)
      modifies this`supportsProgressReporting
      ensures this.supportsProgressReporting == supportsProgressReporting
    {
      this.supportsProgressReporting := supportsProgressReporting;
    }

    method SetSupportsInvalidatedEvent(supportsInvalidatedEvent: Option<bool>)
      modifies this`supportsInvalidatedEvent
      ensures this.supportsInvalidatedEvent == supportsInvalidatedEvent
    {
      this.supportsInvalidatedEvent := supportsInvalidatedEvent;
    }

    /** `equals`: the same class, then `clientID`, `clientName`, `adapterID`, `locale`,
        `linesStartAt1`, `columnsStartAt1`, `pathFormat`, `supportsVariableType`,
        `supportsVariablePaging`, `supportsRunInTerminalRequest`,
        `supportsMemoryReferences`, `supportsProgressReporting` and
        `supportsInvalidatedEvent` null-safe equal. */
    function Equals(env: Env, obj: object?): (r: bool)
      reads this, obj
      ensures r ==> obj is InitializeRequestArguments
    {
      obj is InitializeRequestArguments &&
      var other := obj as InitializeRequestArguments;
      NullSafeEquals(env, OfStr(clientID), OfStr(other.clientID)) &&
      NullSafeEquals(env, OfStr(clientName), OfStr(other.clientName)) &&
      NullSafeEquals(env, OfStr(adapterID), OfStr(other.adapterID)) &&
      NullSafeEquals(env, OfStr(locale), OfStr(other.locale)) &&
      NullSafeEquals(env, OfBool(linesStartAt1), OfBool(other.linesStartAt1)) &&
      NullSafeEquals(env, OfBool(columnsStartAt1), OfBool(other.columnsStartAt1)) &&
      NullSafeEquals(env, OfStr(pathFormat), OfStr(other.pathFormat)) &&
      NullSafeEquals(env, OfBool(supportsVariableType), OfBool(other.supportsVariableType)) &&
      NullSafeEquals(env, OfBool(supportsVariablePaging), OfBool(other.supportsVariablePaging)) &&
      NullSafeEquals(env, OfBool(supportsRunInTerminalRequest), OfBool(other.supportsRunInTerminalRequest)) &&
      NullSafeEquals(env, OfBool(supportsMemoryReferences), OfBool(other.supportsMemoryReferences)) &&
      NullSafeEquals(env, OfBool(supportsProgressReporting), OfBool(other.supportsProgressReporting)) &&
      NullSafeEquals(env, OfBool(supportsInvalidatedEvent), OfBool(other.supportsInvalidatedEvent))
    }

    /** The hashes of the fields in declaration order, 0 for an absent field. */
    function FieldHashes(env: Env): (hs: seq<int32>)
      reads this
      ensures |hs| == 13
    {
      [ HashOrZero(env, OfStr(clientID)),
        HashOrZero(env, OfStr(clientName)),
        HashOrZero(env, OfStr(adapterID)),
        HashOrZero(env, OfStr(locale)),
        HashOrZero(env, OfBool(linesStartAt1)),
        HashOrZero(env, OfBool(columnsStartAt1)),
        HashOrZero(env, OfStr(pathFormat)),
        HashOrZero(env, OfBool(supportsVariableType)),
        HashOrZero(env, OfBool(supportsVariablePaging)),
        HashOrZero(env, OfBool(supportsRunInTerminalRequest)),
        HashOrZero(env, OfBool(supportsMemoryReferences)),
        HashOrZero(env, OfBool(supportsProgressReporting)),
        HashOrZero(env, OfBool(supportsInvalidatedEvent)) ]
    }

    /** `hashCode`: the 31-fold over `clientID`, `clientName`, `adapterID`, `locale`,
        `linesStartAt1`, `columnsStartAt1`, `pathFormat`, `supportsVariableType`,
        `supportsVariablePaging`, `supportsRunInTerminalRequest`,
        `supportsMemoryReferences`, `supportsProgressReporting` and
        `supportsInvalidatedEvent` in declaration order, starting at 1. */
    function HashCode(env: Env): (r: int32)
      reads this
      ensures r == Polynomial(1, FieldHashes(env))
    {
      FoldHashIsPolynomial(1, FieldHashes(env));
      FoldHash(1, FieldHashes(env))
    }

    /** `equals` is reflexive (which covers the `this == obj` shortcut) and symmetric, and
        equal objects have equal hash codes. */
    lemma EqualsContract(env: Env, other: InitializeRequestArguments)
      requires Lawful(env)
      ensures Equals(env, this)
      ensures Equals(env, other) ==> other.Equals(env, this)
      ensures Equals(env, other) ==> HashCode(env) == other.HashCode(env)
    {
      FieldComparisonsLawful(env);
    }
  }

  /** `ExceptionInfoArguments`: the arguments of the `exceptionInfo` request, a thread id. The `int` field is a primitive: never absent, 0 until set. */
  class ExceptionInfoArguments {
    var threadId: int32

    /** The class declares no constructor: the implicit one leaves `threadId` at 0. */
    constructor ()
      ensures threadId == 0
    {
      threadId := 0;
    }

    /** `setThreadId`: the getter returns what was last set. */
    method SetThreadId(threadId: int32)
      modifies this`threadId
      ensures this.threadId == threadId
    {
      this.threadId := threadId;
    }

    /** `equals`: the same class and the same `threadId`. Since `31 + threadId` never collides,
        two objects of this class are equal exactly when their hash codes are. */
    function Equals(obj: object?): (r: bool)
      reads this, obj
      ensures r ==> obj is ExceptionInfoArguments
      ensures obj is ExceptionInfoArguments ==> (r <==> HashCode() == (obj as ExceptionInfoArguments).HashCode())
    {
      if obj is ExceptionInfoArguments then
        SingleFieldHashInjective(threadId, (obj as ExceptionInfoArguments).threadId);
        (obj as ExceptionInfoArguments).threadId == threadId
      else
        false
    }

    /** `hashCode`: `31 * 1 + threadId` in `int` arithmetic, so it wraps for large ids. */
    function HashCode(): (r: int32)
      reads this
      ensures r == Polynomial(1, [threadId])
      ensures -31 <= threadId < 0x8000_0000 - 31 ==> r == 31 + threadId
    {
      FoldHashIsPolynomial(1, [threadId]);
      FoldHash(1, [threadId])
    }

    /** `equals` is reflexive and symmetric, and equal objects have equal hash codes. */
    lemma EqualsContract(other: ExceptionInfoArguments)
      ensures Equals(this)
      ensures Equals(other) ==> other.Equals(this)
      ensures Equals(other) ==> HashCode() == other.HashCode()
    {
    }

    /** The largest `threadId` wraps: `31 + 2147483647` is `-2147483618` as a Java `int`. */
    lemma HashWrapsAtMaximum()
      requires threadId == 0x7fff_ffff
      ensures HashCode() == -2147483618
    {
      assert [threadId][..0] == [];
      assert FoldHash(1, [threadId]) == Mix(FoldHash(1, []), threadId);
      assert HashCode() == Mix(1, threadId);
      WrapPeriodic(-2147483618, 1);
      assert Wrap(2147483678) == -2147483618;
    }
  }

  /** `ScopesArguments`: the arguments of the `scopes` request, a stack frame id. The `int` field is a primitive: never absent, 0 until set. */
  class ScopesArguments {
    var frameId: int32

    /** The class declares no constructor: the implicit one leaves `frameId` at 0. */
    constructor ()
      ensures frameId == 0
    {
      frameId := 0;
    }

    /** `setFrameId`: the getter returns what was last set. */
    method SetFrameId(frameId: int32)
      modifies this`frameId
      ensures this.frameId == frameId
    {
      this.frameId := frameId;
    }

    /** `equals`: the same class and the same `frameId`. Since `31 + frameId` never collides,
        two objects of this class are equal exactly when their hash codes are. */
    function Equals(obj: object?): (r: bool)
      reads this, obj
      ensures r ==> obj is ScopesArguments
      ensures obj is ScopesArguments ==> (r <==> HashCode() == (obj as ScopesArguments).HashCode())
    {
      if obj is ScopesArguments then
        SingleFieldHashInjective(frameId, (obj as ScopesArguments).frameId);
        (obj as ScopesArguments).frameId == frameId
      else
        false
    }

    /** `hashCode`: `31 * 1 + frameId` in `int` arithmetic, so it wraps for large ids. */
    function HashCode(): (r: int32)
      reads this
      ensures r == Polynomial(1, [frameId])
      ensures -31 <= frameId < 0x8000_0000 - 31 ==> r == 31 + frameId
    {
      FoldHashIsPolynomial(1, [frameId]);
      FoldHash(1, [frameId])
    }

    /** `equals` is reflexive and symmetric, and equal objects have equal hash codes. */
    lemma EqualsContract(other: ScopesArguments)
      ensures Equals(this)
      ensures Equals(other) ==> other.Equals(this)
      ensures Equals(other) ==> HashCode() == other.HashCode()
    {
    }

    /** The largest `frameId` wraps: `31 + 2147483647` is `-2147483618` as a Java `int`. */
    lemma HashWrapsAtMaximum()
      requires frameId == 0x7fff_ffff
      ensures HashCode() == -2147483618
    {
      assert [frameId][..0] == [];
      assert FoldHash(1, [frameId]) == Mix(FoldHash(1, []), frameId);
      assert HashCode() == Mix(1, frameId);
      WrapPeriodic(-2147483618, 1);
      assert Wrap(2147483678) == -2147483618;
    }
  }

  /** `PauseArguments`: the arguments of the `pause` request, a thread id. The `int` field is a primitive: never absent, 0 until set. */
  class PauseArguments {
    var threadId: int32

    /** The class declares no constructor: the implicit one leaves `threadId` at 0. */
    constructor ()
      ensures threadId == 0
    {
      threadId := 0;
    }

    /** `setThreadId`: the getter returns what was last set. */
    method SetThreadId(threadId: int32)
      modifies this`threadId
      ensures this.threadId == threadId
    {
      this.threadId := threadId;
    }

    /** `equals`: the same class and the same `threadId`. Since `31 + threadId` never collides,
        two objects of this class are equal exactly when their hash codes are. */
    function Equals(obj: object?): (r: bool)
      reads this, obj
      ensures r ==> obj is PauseArguments
      ensures obj is PauseArguments ==> (r <==> HashCode() == (obj as PauseArguments).HashCode())
    {
      if obj is PauseArguments then
        SingleFieldHashInjective(threadId, (obj as PauseArguments).threadId);
        (obj as PauseArguments).threadId == threadId
      else
        false
    }

    /** `hashCode`: `31 * 1 + threadId` in `int` arithmetic, so it wraps for large ids. */
    function HashCode(): (r: int32)
      reads this
      ensures r == Polynomial(1, [threadId])
      ensures -31 <= threadId < 0x8000_0000 - 31 ==> r == 31 + threadId
    {
      FoldHashIsPolynomial(1, [threadId]);
      FoldHash(1, [threadId])
    }

    /** `equals` is reflexive and symmetric, and equal objects have equal hash codes. */
    lemma EqualsContract(other: PauseArguments)
      ensures Equals(this)
      ensures Equals(other) ==> other.Equals(this)
      ensures Equals(other) ==> HashCode() == other.HashCode()
    {
    }

    /** The largest `threadId` wraps: `31 + 2147483647` is `-2147483618` as a Java `int`. */
    lemma HashWrapsAtMaximum()
      requires threadId == 0x7fff_ffff
      ensures HashCode() == -2147483618
    {
      assert [threadId][..0] == [];
      assert FoldHash(1, [threadId]) == Mix(FoldHash(1, []), threadId);
      assert HashCode() == Mix(1, threadId);
      WrapPeriodic(-2147483618, 1);
      assert Wrap(2147483678) == -2147483618;
    }
  }

  /** `RestartFrameArguments`: the arguments of the `restartFrame` request, a stack frame id. The `int` field is a primitive: never absent, 0 until set. */
  class RestartFrameArguments {
    var frameId: int32

    /** The class declares no constructor: the implicit one leaves `frameId` at 0. */
    constructor ()
      ensures frameId == 0
    {
      frameId := 0;
    }

    /** `setFrameId`: the getter returns what was last set. */
    method SetFrameId(frameId: int32)
      modifies this`frameId
      ensures this.frameId == frameId
    {
      this.frameId := frameId;
    }

    /** `equals`: the same class and the same `frameId`. Since `31 + frameId` never collides,
        two objects of this class are equal exactly when their hash codes are. */
    function Equals(obj: object?): (r: bool)
      reads this, obj
      ensures r ==> obj is RestartFrameArguments
      ensures obj is RestartFrameArguments ==> (r <==> HashCode() == (obj as RestartFrameArguments).HashCode())
    {
      if obj is RestartFrameArguments then
        SingleFieldHashInjective(frameId, (obj as RestartFrameArguments).frameId);
        (obj as RestartFrameArguments).frameId == frameId
      else
        false
    }

    /** `hashCode`: `31 * 1 + frameId` in `int` arithmetic, so it wraps for large ids. */
    function HashCode(): (r: int32)
      reads this
      ensures r == Polynomial(1, [frameId])
      ensures -31 <= frameId < 0x8000_0000 - 31 ==> r == 31 + frameId
    {
      FoldHashIsPolynomial(1, [frameId]);
      FoldHash(1, [frameId])
    }

    /** `equals` is reflexive and symmetric, and equal objects have equal hash codes. */
    lemma EqualsContract(other: RestartFrameArguments)
      ensures Equals(this)
      ensures Equals(other) ==> other.Equals(this)
      ensures Equals(other) ==> HashCode() == other.HashCode()
    {
    }

    /** The largest `frameId` wraps: `31 + 2147483647` is `-2147483618` as a Java `int`. */
    lemma HashWrapsAtMaximum()
      requires frameId == 0x7fff_ffff
      ensures HashCode() == -2147483618
    {
      assert [frameId][..0] == [];
      assert FoldHash(1, [frameId]) == Mix(FoldHash(1, []), frameId);
      assert HashCode() == Mix(1, frameId);
      WrapPeriodic(-2147483618, 1);
      assert Wrap(2147483678) == -2147483618;
    }
  }

  /** A pause request is never equal to an exception-info request, even for the same
      thread: the runtime classes differ. */
  lemma PauseIsNotExceptionInfo(p: PauseArguments, e: ExceptionInfoArguments)
    ensures !p.Equals(e) && !e.Equals(p)
  {
  }

  /** A restart-frame request is never equal to a scopes request, even for the same frame. */
  lemma RestartFrameIsNotScopes(r: RestartFrameArguments, s: ScopesArguments)
    ensures !r.Equals(s) && !s.Equals(r)
  {
  }
}
