/** Request parameters: three requests whose parameters extend
    `WorkDoneProgressAndPartialResultParams`, completion and on-type formatting (whose
    superclasses are not part of this model) and `initialize`. */
module Requests {
  import opened Java
  import opened Progress

  /** `SemanticTokensRangeParams`: the parameters of `textDocument/semanticTokens/range`. */
  class SemanticTokensRangeParams {
    /** The state declared in `WorkDoneProgressAndPartialResultParams`. */
    const base: WorkDoneProgressAndPartialResultParams
    var textDocument: Option<Obj>
    var range: Option<Obj>

    /** Allocation once both arguments have passed their checks (see `Create`); the
        class has no constructor without arguments. */
    constructor (textDocument: Obj, range: Obj)
      ensures fresh(base) && base.runtimeClass == "SemanticTokensRangeParams"
      ensures base.workDoneToken.None? && base.partialResultToken.None?
      ensures this.textDocument == Some(textDocument) && this.range == Some(range)
    {
      base := new WorkDoneProgressAndPartialResultParams("SemanticTokensRangeParams");
      this.textDocument := Some(textDocument);
      this.range := Some(range);
    }

    /** `SemanticTokensRangeParams(textDocument, range)`, the only constructor: checks
        `textDocument`, then `range`. */
    static method Create(textDocument: Option<Obj>, range: Option<Obj>) returns (r: Result<SemanticTokensRangeParams>)
      ensures r.Success? <==> textDocument.Some? && range.Some?
      ensures textDocument.None? ==> r == Failure("textDocument")
      ensures textDocument.Some? && range.None? ==> r == Failure("range")
      ensures r.Success? ==> fresh(r.value) && fresh(r.value.base)
      ensures r.Success? ==> r.value.textDocument == textDocument && r.value.range == range
      ensures r.Success? ==> r.value.base.workDoneToken.None? && r.value.base.partialResultToken.None?
    {
      var checkedDocument := CheckNotNull(textDocument, "textDocument");
      if checkedDocument.Failure? {
        return Failure(checkedDocument.field);
      }
      var checkedRange := CheckNotNull(range, "range");
      if checkedRange.Failure? {
        return Failure(checkedRange.field);
      }
      var p := new SemanticTokensRangeParams(checkedDocument.value, checkedRange.value);
      return Success(p);
    }

    method SetTextDocument(textDocument: Option<Obj>) returns (outcome: Outcome)
      modifies this`textDocument
      ensures outcome.Ok? <==> textDocument.Some?
      ensures outcome.Ok? ==> this.textDocument == textDocument
      ensures outcome.NullArgument? ==> outcome.field == "textDocument" && this.textDocument == old(this.textDocument)
    {
      var checked := CheckNotNull(textDocument, "textDocument");
      if checked.Failure? {
        return NullArgument(checked.field);
      }
      this.textDocument := Some(checked.value);
      return Ok;
    }

    method SetRange(range: Option<Obj>) returns (outcome: Outcome)
      modifies this`range
      ensures outcome.Ok? <==> range.Some?
      ensures outcome.Ok? ==> this.range == range
      ensures outcome.NullArgument? ==> outcome.field == "range" && this.range == old(this.range)
    {
      var checked := CheckNotNull(range, "range");
      if checked.Failure? {
        return NullArgument(checked.field);
      }
      this.range := Some(checked.value);
      return Ok;
    }

    /** `equals`: the same class, `super.equals` (both tokens), then `textDocument` and
        `range` null-safe equal. */
    function Equals(env: Env, obj: object?): (r: bool)
      reads this, obj, base
      reads if obj is SemanticTokensRangeParams then {(obj as SemanticTokensRangeParams).base} else {}
      ensures r ==> obj is SemanticTokensRangeParams
      ensures r ==> base.Equals(env, (obj as SemanticTokensRangeParams).base)
    {
      obj is SemanticTokensRangeParams &&
      var other := obj as SemanticTokensRangeParams;
      base.Equals(env, other.base) &&
      NullSafeEquals(env, OfObj(textDocument), OfObj(other.textDocument)) &&
      NullSafeEquals(env, OfObj(range), OfObj(other.range))
    }

    /** The hashes of the fields in declaration order, 0 for an absent field. */
    function FieldHashes(env: Env): (hs: seq<int32>)
      reads this
      ensures |hs| == 2
    {
      [HashOrZero(env, OfObj(textDocument)), HashOrZero(env, OfObj(range))]
    }

    /** `hashCode`: the 31-fold over `textDocument` and `range` in declaration order,
        starting from the token hash of the superclass. */
    function HashCode(env: Env): (r: int32)
      reads this, base
      ensures r == Polynomial(base.HashCode(env), FieldHashes(env))
    {
      FoldHashIsPolynomial(base.HashCode(env), FieldHashes(env));
      FoldHash(base.HashCode(env), FieldHashes(env))
    }

    /** `equals` is reflexive (which covers the `this == obj` shortcut) and symmetric, and
        equal objects have equal hash codes. */
    lemma EqualsContract(env: Env, other: SemanticTokensRangeParams)
      requires Lawful(env)
      ensures Equals(env, this)
      ensures Equals(env, other) ==> other.Equals(env, this)
      ensures Equals(env, other) ==> HashCode(env) == other.HashCode(env)
    {
      FieldComparisonsLawful(env);
      base.EqualsContract(env, other.base);
    }
  }

  /** `DocumentLinkParams`: the parameters of `textDocument/documentLink`. */
  class DocumentLinkParams {
    /** The state declared in `WorkDoneProgressAndPartialResultParams`. */
    const base: WorkDoneProgressAndPartialResultParams
    var textDocument: Option<Obj>

    /** The no-argument constructor leaves the mandatory `textDocument` `null`. */
    constructor ()
      ensures fresh(base) && base.runtimeClass == "DocumentLinkParams"
      ensures base.workDoneToken.None? && base.partialResultToken.None?
      ensures textDocument.None?
    {
      base := new WorkDoneProgressAndPartialResultParams("DocumentLinkParams");
      textDocument := None;
    }

    /** `DocumentLinkParams(textDocument)`: checks `textDocument`. */
    static method Create(textDocument: Option<Obj>) returns (r: Result<DocumentLinkParams>)
      ensures r.Success? <==> textDocument.Some?
      ensures r.Failure? ==> r.field == "textDocument"
      ensures r.Success? ==> fresh(r.value) && fresh(r.value.base) && r.value.textDocument == textDocument
      ensures r.Success? ==> r.value.base.workDoneToken.None? && r.value.base.partialResultToken.None?
    {
      var p := new DocumentLinkParams();
      var checked := CheckNotNull(textDocument, "textDocument");
      if checked.Failure? {
        return Failure(checked.field);
      }
      p.textDocument := Some(checked.value);
      return Success(p);
    }

    method SetTextDocument(textDocument: Option<Obj>) returns (outcome: Outcome)
      modifies this`textDocument
      ensures outcome.Ok? <==> textDocument.Some?
      ensures outcome.Ok? ==> this.textDocument == textDocument
      ensures outcome.NullArgument? ==> outcome.field == "textDocument" && this.textDocument == old(this.textDocument)
    {
      var checked := CheckNotNull(textDocument, "textDocument");
      if checked.Failure? {
        return NullArgument(checked.field);
      }
      this.textDocument := Some(checked.value);
      return Ok;
    }

    /** `equals`: the same class, `super.equals` (both tokens), then `textDocument`
        null-safe equal. */
    function Equals(env: Env, obj: object?): (r: bool)
      reads this, obj, base
      reads if obj is DocumentLinkParams then {(obj as DocumentLinkParams).base} else {}
      ensures r ==> obj is DocumentLinkParams
      ensures r ==> base.Equals(env, (obj as DocumentLinkParams).base)
    {
      obj is DocumentLinkParams &&
      var other := obj as DocumentLinkParams;
      base.Equals(env, other.base) &&
      NullSafeEquals(env, OfObj(textDocument), OfObj(other.textDocument))
    }

    /** The hashes of the fields in declaration order, 0 for an absent field. */
    function FieldHashes(env: Env): (hs: seq<int32>)
      reads this
      ensures |hs| == 1
    {
      [HashOrZero(env, OfObj(textDocument))]
    }

    /** `hashCode`: `31 * super.hashCode() + h(textDocument)`. */
    function HashCode(env: Env): (r: int32)
      reads this, base
      ensures r == Polynomial(base.HashCode(env), FieldHashes(env))
    {
      FoldHashIsPolynomial(base.HashCode(env), FieldHashes(env));
      FoldHash(base.HashCode(env), FieldHashes(env))
    }

    /** `equals` is reflexive (which covers the `this == obj` shortcut) and symmetric, and
        equal objects have equal hash codes. */
    lemma EqualsContract(env: Env, other: DocumentLinkParams)
      requires Lawful(env)
      ensures Equals(env, this)
      ensures Equals(env, other) ==> other.Equals(env, this)
      ensures Equals(env, other) ==> HashCode(env) == other.HashCode(env)
    {
      FieldComparisonsLawful(env);
      base.EqualsContract(env, other.base);
    }
  }

  /** `CallHierarchyIncomingCallsParams`: the parameters of `callHierarchy/incomingCalls`. */
  class CallHierarchyIncomingCallsParams {
    /** The state declared in `WorkDoneProgressAndPartialResultParams`. */
    const base: WorkDoneProgressAndPartialResultParams
    var item: Option<Obj>

    /** The no-argument constructor leaves the mandatory `item` `null`. */
    constructor ()
      ensures fresh(base) && base.runtimeClass == "CallHierarchyIncomingCallsParams"
      ensures base.workDoneToken.None? && base.partialResultToken.None?
      ensures item.None?
    {
      base := new WorkDoneProgressAndPartialResultParams("CallHierarchyIncomingCallsParams");
      item := None;
    }

    /** `CallHierarchyIncomingCallsParams(item)`: checks `item`. */
    static method Create(item: Option<Obj>) returns (r: Result<CallHierarchyIncomingCallsParams>)
      ensures r.Success? <==> item.Some?
      ensures r.Failure? ==> r.field == "item"
      ensures r.Success? ==> fresh(r.value) && fresh(r.value.base) && r.value.item == item
      ensures r.Success? ==> r.value.base.workDoneToken.None? && r.value.base.partialResultToken.None?
    {
      var p := new CallHierarchyIncomingCallsParams();
      var checked := CheckNotNull(item, "item");
      if checked.Failure? {
        return Failure(checked.field);
      }
      p.item := Some(checked.value);
      return Success(p);
    }

    method SetItem(item: Option<Obj>) returns (outcome: Outcome)
      modifies this`item
      ensures outcome.Ok? <==> item.Some?
      ensures outcome.Ok? ==> this.item == item
      ensures outcome.NullArgument? ==> outcome.field == "item" && this.item == old(this.item)
    {
      var checked := CheckNotNull(item, "item");
      if checked.Failure? {
        return NullArgument(checked.field);
      }
      this.item := Some(checked.value);
      return Ok;
    }

    /** `equals`: the same class, `super.equals` (both tokens), then `item` null-safe equal. */
    function Equals(env: Env, obj: object?): (r: bool)
      reads this, obj, base
      reads if obj is CallHierarchyIncomingCallsParams then {(obj as CallHierarchyIncomingCallsParams).base} else {}
      ensures r ==> obj is CallHierarchyIncomingCallsParams
      ensures r ==> base.Equals(env, (obj as CallHierarchyIncomingCallsParams).base)
    {
      obj is CallHierarchyIncomingCallsParams &&
      var other := obj as CallHierarchyIncomingCallsParams;
      base.Equals(env, other.base) &&
      NullSafeEquals(env, OfObj(item), OfObj(other.item))
    }

    /** The hashes of the fields in declaration order, 0 for an absent field. */
    function FieldHashes(env: Env): (hs: seq<int32>)
      reads this
      ensures |hs| == 1
    {
      [HashOrZero(env, OfObj(item))]
    }

    /** `hashCode`: `31 * super.hashCode() + h(item)`. */
    function HashCode(env: Env): (r: int32)
      reads this, base
      ensures r == Polynomial(base.HashCode(env), FieldHashes(env))
    {
      FoldHashIsPolynomial(base.HashCode(env), FieldHashes(env));
      FoldHash(base.HashCode(env), FieldHashes(env))
    }

    /** `equals` is reflexive (which covers the `this == obj` shortcut) and symmetric, and
        equal objects have equal hash codes. */
    lemma EqualsContract(env: Env, other: CallHierarchyIncomingCallsParams)
      requires Lawful(env)
      ensures Equals(env, this)
      ensures Equals(env, other) ==> other.Equals(env, this)
      ensures Equals(env, other) ==> HashCode(env) == other.HashCode(env)
    {
      FieldComparisonsLawful(env);
      base.EqualsContract(env, other.base);
    }
  }

  /** `CompletionParams`: the parameters of `textDocument/completion`. Its superclass
      `TextDocumentPositionAndWorkDoneProgressAndPartialResultParams` is not part of this
      model. */
  class CompletionParams {
    /** The state declared in `TextDocumentPositionAndWorkDoneProgressAndPartialResultParams`, which is not part of this model. */
    var inherited: Value
    var context: Option<Obj>

    /** The no-argument constructor: nothing handed to the superclass, `context` absent. */
    constructor ()
      ensures inherited == Record("TextDocumentPositionAndWorkDoneProgressAndPartialResultParams", [None, None])
      ensures context.None?
    {
      inherited := Record("TextDocumentPositionAndWorkDoneProgressAndPartialResultParams", [None, None]);
      context := None;
    }

    /** `CompletionParams(textDocument, position)`: hands both arguments to the
        superclass. */
    constructor WithPosition(textDocument: Option<Obj>, position: Option<Obj>)
      ensures inherited == Record("TextDocumentPositionAndWorkDoneProgressAndPartialResultParams", [OfObj(textDocument), OfObj(position)])
      ensures context.None?
    {
      inherited := Record("TextDocumentPositionAndWorkDoneProgressAndPartialResultParams", [OfObj(textDocument), OfObj(position)]);
      context := None;
    }

    /** `CompletionParams(textDocument, position, context)`: the two-argument constructor,
        then `context` as given, `null` included. */
    constructor WithContext(textDocument: Option<Obj>, position: Option<Obj>, context: Option<Obj>)
      ensures inherited == Record("TextDocumentPositionAndWorkDoneProgressAndPartialResultParams", [OfObj(textDocument), OfObj(position)])
      ensures this.context == context
    {
      inherited := Record("TextDocumentPositionAndWorkDoneProgressAndPartialResultParams", [OfObj(textDocument), OfObj(position)]);
      this.context := context;
    }

    method SetContext(context: Option<Obj>)
      modifies this`context
      ensures this.context == context
    {
      this.context := context;
    }

    /** `equals`: the same class, `super.equals`, then `context` null-safe equal. */
    function Equals(env: Env, obj: object?): (r: bool)
      reads this, obj
      ensures r ==> obj is CompletionParams
      ensures r ==> env.equals(inherited, (obj as CompletionParams).inherited)
    {
      obj is CompletionParams &&
      var other := obj as CompletionParams;
      env.equals(inherited, other.inherited) &&
      NullSafeEquals(env, OfObj(context), OfObj(other.context))
    }

    /** The hashes of the fields in declaration order, 0 for an absent field. */
    function FieldHashes(env: Env): (hs: seq<int32>)
      reads this
      ensures |hs| == 1
    {
      [HashOrZero(env, OfObj(context))]
    }

    /** `hashCode`: `31 * super.hashCode() + h(context)`. */
    function HashCode(env: Env): (r: int32)
      reads this
      ensures r == Polynomial(env.hashCode(inherited), FieldHashes(env))
    {
      FoldHashIsPolynomial(env.hashCode(inherited), FieldHashes(env));
      FoldHash(env.hashCode(inherited), FieldHashes(env))
    }

    /** `equals` is reflexive (which covers the `this == obj` shortcut) and symmetric, and
        equal objects have equal hash codes. */
    lemma EqualsContract(env: Env, other: CompletionParams)
      requires Lawful(env)
      ensures Equals(env, this)
      ensures Equals(env, other) ==> other.Equals(env, this)
      ensures Equals(env, other) ==> HashCode(env) == other.HashCode(env)
    {
      FieldComparisonsLawful(env);
    }
  }

  /** `DocumentOnTypeFormattingParams`: the parameters of `textDocument/onTypeFormatting`.
      Its superclass `TextDocumentPositionParams` is not part of this model. */
  class DocumentOnTypeFormattingParams {
    /** The state declared in `TextDocumentPositionParams`, which is not part of this model. */
    var inherited: Value
    var options: Option<Obj>
    var ch: Option<string>

    /** The no-argument constructor leaves `options` and `ch` `null`. */
    constructor ()
      ensures inherited == Record("TextDocumentPositionParams", [None, None])
      ensures options.None? && ch.None?
    {
      inherited := Record("TextDocumentPositionParams", [None, None]);
      options := None;
      ch := None;
    }

    /** `DocumentOnTypeFormattingParams(textDocument, options, position, ch)`: hands
        `textDocument` and `position` to the superclass, then checks `options`, then `ch`. */
    static method Create(textDocument: Option<Obj>, options: Option<Obj>, position: Option<Obj>, ch: Option<string>)
      returns (r: Result<DocumentOnTypeFormattingParams>)
      ensures r.Success? <==> options.Some? && ch.Some?
      ensures options.None? ==> r == Failure("options")
      ensures options.Some? && ch.None? ==> r == Failure("ch")
      ensures r.Success? ==> fresh(r.value) && r.value.options == options && r.value.ch == ch
      ensures r.Success? ==> r.value.inherited == Record("TextDocumentPositionParams", [OfObj(textDocument), OfObj(position)])
    {
      var p := new DocumentOnTypeFormattingParams();
      p.inherited := Record("TextDocumentPositionParams", [OfObj(textDocument), OfObj(position)]);
      var checkedOptions := CheckNotNull(options, "options");
      if checkedOptions.Failure? {
        return Failure(checkedOptions.field);
      }
      p.options := Some(checkedOptions.value);
      var checkedCh := CheckNotNull(ch, "ch");
      if checkedCh.Failure? {
        return Failure(checkedCh.field);
      }
      p.ch := Some(checkedCh.value);
      return Success(p);
    }

    /** The deprecated `DocumentOnTypeFormattingParams(position, ch)`: sets the inherited
        position, checks `ch` and leaves the mandatory `options` `null`. */
    static method CreateAtPosition(position: Option<Obj>, ch: Option<string>) returns (r: Result<DocumentOnTypeFormattingParams>)
      ensures r.Success? <==> ch.Some?
      ensures r.Failure? ==> r.field == "ch"
      ensures r.Success? ==> fresh(r.value) && r.value.options.None? && r.value.ch == ch
      ensures r.Success? ==> r.value.inherited == Record("TextDocumentPositionParams", [None, OfObj(position)])
    {
      var p := new DocumentOnTypeFormattingParams();
      p.inherited := Record("TextDocumentPositionParams", [None, OfObj(position)]);
      var checked := CheckNotNull(ch, "ch");
      if checked.Failure? {
        return Failure(checked.field);
      }
      p.ch := Some(checked.value);
      return Success(p);
    }

    method SetOptions(options: Option<Obj>) returns (outcome: Outcome)
      modifies this`options
      ensures outcome.Ok? <==> options.Some?
      ensures outcome.Ok? ==> this.options == options
      ensures outcome.NullArgument? ==> outcome.field == "options" && this.options == old(this.options)
    {
      var checked := CheckNotNull(options, "options");
      if checked.Failure? {
        return NullArgument(checked.field);
      }
      this.options := Some(checked.value);
      return Ok;
    }

    method SetCh(ch: Option<string>) returns (outcome: Outcome)
      modifies this`ch
      ensures outcome.Ok? <==> ch.Some?
      ensures outcome.Ok? ==> this.ch == ch
      ensures outcome.NullArgument? ==> outcome.field == "ch" && this.ch == old(this.ch)
    {
      var checked := CheckNotNull(ch, "ch");
      if checked.Failure? {
        return NullArgument(checked.field);
      }
      this.ch := Some(checked.value);
      return Ok;
    }

    /** `equals`: the same class, `super.equals`, then `options` and `ch` null-safe equal. */
    function Equals(env: Env, obj: object?): (r: bool)
      reads this, obj
      ensures r ==> obj is DocumentOnTypeFormattingParams
      ensures r ==> env.equals(inherited, (obj as DocumentOnTypeFormattingParams).inherited)
    {
      obj is DocumentOnTypeFormattingParams &&
      var other := obj as DocumentOnTypeFormattingParams;
      env.equals(inherited, other.inherited) &&
      NullSafeEquals(env, OfObj(options), OfObj(other.options)) &&
      NullSafeEquals(env, OfStr(ch), OfStr(other.ch))
    }

    /** The hashes of the fields in declaration order, 0 for an absent field. */
    function FieldHashes(env: Env): (hs: seq<int32>)
      reads this
      ensures |hs| == 2
    {
      [HashOrZero(env, OfObj(options)), HashOrZero(env, OfStr(ch))]
    }

    /** `hashCode`: the 31-fold over `options` and `ch` in declaration order, starting from
        `super.hashCode()`. */
    function HashCode(env: Env): (r: int32)
      reads this
      ensures r == Polynomial(env.hashCode(inherited), FieldHashes(env))
    {
      FoldHashIsPolynomial(env.hashCode(inherited), FieldHashes(env));
      FoldHash(env.hashCode(inherited), FieldHashes(env))
    }

    /** `equals` is reflexive (which covers the `this == obj` shortcut) and symmetric, and
        equal objects have equal hash codes. */
    lemma EqualsContract(env: Env, other: DocumentOnTypeFormattingParams)
      requires Lawful(env)
      ensures Equals(env, this)
      ensures Equals(env, other) ==> other.Equals(env, this)
      ensures Equals(env, other) ==> HashCode(env) == other.HashCode(env)
    {
      FieldComparisonsLawful(env);
    }
  }

  /** `InitializeParams`: the parameters of `initialize`. No field is mandatory and no
      setter checks its argument. */
  class InitializeParams {
    var workDoneToken: Option<Token>
    var processId: Option<int32>
    var rootPath: Option<string>
    var rootUri: Option<string>
    var initializationOptions: Option<Obj>
    var capabilities: Option<Obj>
    var clientName: Option<string>
    var clientInfo: Option<Obj>
    var locale: Option<string>
    var trace: Option<string>
    var workspaceFolders: Option<seq<Option<Obj>>>

    /** The implicit constructor: every field `null`. */
    constructor ()
      ensures workDoneToken.None? && processId.None? && rootPath.None? && rootUri.None?
      ensures initializationOptions.None? && capabilities.None? && clientName.None?
      ensures clientInfo.None? && locale.None? && trace.None? && workspaceFolders.None?
    {
      workDoneToken := None;
      processId := None;
      rootPath := None;
      rootUri := None;
      initializationOptions := None;
      capabilities := None;
      clientName := None;
      clientInfo := None;
      locale := None;
      trace := None;
      workspaceFolders := None;
    }

    method SetWorkDoneToken(workDoneToken: Option<Token>)
      modifies this`workDoneToken
      ensures this.workDoneToken == workDoneToken
    {
      this.workDoneToken := workDoneToken;
    }

    /** `setWorkDoneToken(String)`: `null` clears the field, anything else is stored as
        `Either.forLeft`. */
    method SetWorkDoneTokenString(workDoneToken: Option<string>)
      modifies this`workDoneToken
      ensures workDoneToken.None? ==> this.workDoneToken.None?
      ensures workDoneToken.Some? ==> this.workDoneToken == Some(Left(workDoneToken.value))
    {
      if workDoneToken.None? {
        this.workDoneToken := None;
        return;
      }
      this.workDoneToken := Some(Left(workDoneToken.value));
    }

    /** `setWorkDoneToken(Integer)`: `null` clears the field, anything else is stored as
        `Either.forRight`. */
    method SetWorkDoneTokenInteger(workDoneToken: Option<int32>)
      modifies this`workDoneToken
      ensures workDoneToken.None? ==> this.workDoneToken.None?
      ensures workDoneToken.Some? ==> this.workDoneToken == Some(Right(workDoneToken.value))
    {
      if workDoneToken.None? {
        this.workDoneToken := None;
        return;
      }
      this.workDoneToken := Some(Right(workDoneToken.value));
    }

    method SetProcessId(processId: Option<int32>)
      modifies this`processId
      ensures this.processId == processId
    {
      this.processId := processId;
    }

    method SetRootPath(rootPath: Option<string>)
      modifies this`rootPath
      ensures this.rootPath == rootPath
    {
      this.rootPath := rootPath;
    }

    method SetRootUri(rootUri: Option<string>)
      modifies this`rootUri
      ensures this.rootUri == rootUri
    {
      this.rootUri := rootUri;
    }

    method SetInitializationOptions(initializationOptions: Option<Obj>)
      modifies this`initializationOptions
      ensures this.initializationOptions == initializationOptions
    {
      this.initializationOptions := initializationOptions;
    }

    method SetCapabilities(capabilities: Option<Obj>)
      modifies this`capabilities
      ensures this.capabilities == capabilities
    {
      this.capabilities := capabilities;
    }

    method SetClientName(clientName: Option<string>)
      modifies this`clientName
      ensures this.clientName == clientName
    {
      this.clientName := clientName;
    }

    method SetClientInfo(clientInfo: Option<Obj>)
      modifies this`clientInfo
      ensures this.clientInfo == clientInfo
    {
      this.clientInfo := clientInfo;
    }

    method SetLocale(locale: Option<string>)
      modifies this`locale
      ensures this.locale == locale
    {
      this.locale := locale;
    }

    method SetTrace(trace: Option<string>)
      modifies this`trace
      ensures this.trace == trace
    {
      this.trace := trace;
    }

    method SetWorkspaceFolders(workspaceFolders: Option<seq<Option<Obj>>>)
      modifies this`workspaceFolders
      ensures this.workspaceFolders == workspaceFolders
    {
      this.workspaceFolders := workspaceFolders;
    }

    /** `equals`: the same class, then `workDoneToken`, `processId`, `rootPath`, `rootUri`,
        `initializationOptions`, `capabilities`, `clientName`, `clientInfo`, `locale`,
        `trace` and `workspaceFolders` null-safe equal, `workspaceFolders` element by
        element. */
    function Equals(env: Env, obj: object?): (r: bool)
      reads this, obj
      ensures r ==> obj is InitializeParams
    {
      obj is InitializeParams &&
      var other := obj as InitializeParams;
      NullSafeEquals(env, OfToken(workDoneToken), OfToken(other.workDoneToken)) &&
      NullSafeEquals(env, OfInt(processId), OfInt(other.processId)) &&
      NullSafeEquals(env, OfStr(rootPath), OfStr(other.rootPath)) &&
      NullSafeEquals(env, OfStr(rootUri), OfStr(other.rootUri)) &&
      NullSafeEquals(env, OfObj(initializationOptions), OfObj(other.initializationOptions)) &&
      NullSafeEquals(env, OfObj(capabilities), OfObj(other.capabilities)) &&
      NullSafeEquals(env, OfStr(clientName), OfStr(other.clientName)) &&
      NullSafeEquals(env, OfObj(clientInfo), OfObj(other.clientInfo)) &&
      NullSafeEquals(env, OfStr(locale), OfStr(other.locale)) &&
      NullSafeEquals(env, OfStr(trace), OfStr(other.trace)) &&
      ListEquals(env, OfObjs(workspaceFolders), OfObjs(other.workspaceFolders))
    }

    /** The hashes of the fields in declaration order, 0 for an absent field. */
    function FieldHashes(env: Env): (hs: seq<int32>)
      reads this
      ensures |hs| == 11
    {
      [ HashOrZero(env, OfToken(workDoneToken)),
        HashOrZero(env, OfInt(processId)),
        HashOrZero(env, OfStr(rootPath)),
        HashOrZero(env, OfStr(rootUri)),
        HashOrZero(env, OfObj(initializationOptions)),
        HashOrZero(env, OfObj(capabilities)),
        HashOrZero(env, OfStr(clientName)),
        HashOrZero(env, OfObj(clientInfo)),
        HashOrZero(env, OfStr(locale)),
        HashOrZero(env, OfStr(trace)),
        ListHashOrZero(env, OfObjs(workspaceFolders)) ]
    }

    /** `hashCode`: the 31-fold over `workDoneToken`, `processId`, `rootPath`, `rootUri`,
        `initializationOptions`, `capabilities`, `clientName`, `clientInfo`, `locale`,
        `trace` and `workspaceFolders` in declaration order, starting at 1. */
    function HashCode(env: Env): (r: int32)
      reads this
      ensures r == Polynomial(1, FieldHashes(env))
    {
      FoldHashIsPolynomial(1, FieldHashes(env));
      FoldHash(1, FieldHashes(env))
    }

    /** `equals` is reflexive (which covers the `this == obj` shortcut) and symmetric, and
        equal objects have equal hash codes. */
    lemma EqualsContract(env: Env, other: InitializeParams)
      requires Lawful(env)
      ensures Equals(env, this)
      ensures Equals(env, other) ==> other.Equals(env, this)
      ensures Equals(env, other) ==> HashCode(env) == other.HashCode(env)
    {
      FieldComparisonsLawful(env);
    }
  }

  /** Parameters of two different requests never compare equal, whatever their tokens:
      the runtime class is compared first. */
  lemma RequestClassesDistinct(env: Env, a: DocumentLinkParams, b: CallHierarchyIncomingCallsParams)
    ensures !a.Equals(env, b) && !b.Equals(env, a)
  {
  }
}
