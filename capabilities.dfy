/** Client capabilities and server registration options: semantic tokens, code-action
    resolution, completion items, full semantic-token requests, and document change and save
    registration. */
module Capabilities {
  import opened Java

  /** `SemanticTokensCapabilities`: what a client supports of semantic tokens. Its
      superclass `DynamicRegistrationCapabilities` is not part of this model; `inherited`
      holds its `dynamicRegistration` flag. */
  class SemanticTokensCapabilities {
    /** The state declared in `DynamicRegistrationCapabilities`, which is not part of this model. */
    var inherited: Value
    var requests: Option<Obj>
    var tokenTypes: Option<seq<Option<string>>>
    var tokenModifiers: Option<seq<Option<string>>>
    var formats: Option<seq<Option<string>>>
    var overlappingTokenSupport: Option<bool>
    var multilineTokenSupport: Option<bool>

    /** `SemanticTokensCapabilities(dynamicRegistration)`: hands the flag to the superclass
        and leaves the four mandatory fields `null`. */
    constructor (dynamicRegistration: Option<bool>)
      ensures inherited == Record("DynamicRegistrationCapabilities", [OfBool(dynamicRegistration)])
      ensures requests.None? && tokenTypes.None? && tokenModifiers.None? && formats.None?
      ensures overlappingTokenSupport.None? && multilineTokenSupport.None?
    {
      inherited := Record("DynamicRegistrationCapabilities", [OfBool(dynamicRegistration)]);
      requests := None;
      tokenTypes := None;
      tokenModifiers := None;
      formats := None;
      overlappingTokenSupport := None;
      multilineTokenSupport := None;
    }

    /** `SemanticTokensCapabilities(requests, tokenTypes, tokenModifiers, formats)`: the
        superclass keeps its default (no flag), then the four arguments are checked in
        order. */
    static method Create(requests: Option<Obj>, tokenTypes: Option<seq<Option<string>>>,
                         tokenModifiers: Option<seq<Option<string>>>, formats: Option<seq<Option<string>>>)
      returns (r: Result<SemanticTokensCapabilities>)
      ensures r.Success? <==> requests.Some? && tokenTypes.Some? && tokenModifiers.Some? && formats.Some?
      ensures requests.None? ==> r == Failure("requests")
      ensures requests.Some? && tokenTypes.None? ==> r == Failure("tokenTypes")
      ensures requests.Some? && tokenTypes.Some? && tokenModifiers.None? ==> r == Failure("tokenModifiers")
      ensures requests.Some? && tokenTypes.Some? && tokenModifiers.Some? && formats.None? ==> r == Failure("formats")
      ensures r.Success? ==> fresh(r.value) && r.value.inherited == Record("DynamicRegistrationCapabilities", [None])
      ensures r.Success? ==> r.value.requests == requests && r.value.tokenTypes == tokenTypes
      ensures r.Success? ==> r.value.tokenModifiers == tokenModifiers && r.value.formats == formats
      ensures r.Success? ==> r.value.overlappingTokenSupport.None? && r.value.multilineTokenSupport.None?
    {
      var c := new SemanticTokensCapabilities(None);
      var checkedRequests := CheckNotNull(requests, "requests");
      if checkedRequests.Failure? {
        return Failure(checkedRequests.field);
      }
      c.requests := Some(checkedRequests.value);
      var checkedTypes := CheckNotNull(tokenTypes, "tokenTypes");
      if checkedTypes.Failure? {
        return Failure(checkedTypes.field);
      }
      c.tokenTypes := Some(checkedTypes.value);
      var checkedModifiers := CheckNotNull(tokenModifiers, "tokenModifiers");
      if checkedModifiers.Failure? {
        return Failure(checkedModifiers.field);
      }
      c.tokenModifiers := Some(checkedModifiers.value);
      var checkedFormats := CheckNotNull(formats, "formats");
      if checkedFormats.Failure? {
        return Failure(checkedFormats.field);
      }
      c.formats := Some(checkedFormats.value);
      return Success(c);
    }

    /** `SemanticTokensCapabilities(dynamicRegistration, requests, tokenTypes,
        tokenModifiers, formats)`: hands the flag to the superclass, then the same four
        checks in the same order. */
    static method CreateWithRegistration(dynamicRegistration: Option<bool>, requests: Option<Obj>,
                                         tokenTypes: Option<seq<Option<string>>>,
                                         tokenModifiers: Option<seq<Option<string>>>,
                                         formats: Option<seq<Option<string>>>)
      returns (r: Result<SemanticTokensCapabilities>)
      ensures r.Success? <==> requests.Some? && tokenTypes.Some? && tokenModifiers.Some? && formats.Some?
      ensures requests.None? ==> r == Failure("requests")
      ensures requests.Some? && tokenTypes.None? ==> r == Failure("tokenTypes")
      ensures requests.Some? && tokenTypes.Some? && tokenModifiers.None? ==> r == Failure("tokenModifiers")
      ensures requests.Some? && tokenTypes.Some? && tokenModifiers.Some? && formats.None? ==> r == Failure("formats")
      ensures r.Success? ==> fresh(r.value) && r.value.inherited == Record("DynamicRegistrationCapabilities", [OfBool(dynamicRegistration)])
      ensures r.Success? ==> r.value.requests == requests && r.value.tokenTypes == tokenTypes
      ensures r.Success? ==> r.value.tokenModifiers == tokenModifiers && r.value.formats == formats
      ensures r.Success? ==> r.value.overlappingTokenSupport.None? && r.value.multilineTokenSupport.None?
    {
      r := Create(requests, tokenTypes, tokenModifiers, formats);
      if r.Success? {
        r.value.inherited := Record("DynamicRegistrationCapabilities", [OfBool(dynamicRegistration)]);
      }
    }

    method SetRequests(requests: Option<Obj>) returns (outcome: Outcome)
      modifies this`requests
      ensures outcome.Ok? <==> requests.Some?
      ensures outcome.Ok? ==> this.requests == requests
      ensures outcome.NullArgument? ==> outcome.field == "requests" && this.requests == old(this.requests)
    {
      var checked := CheckNotNull(requests, "requests");
      if checked.Failure? {
        return NullArgument(checked.field);
      }
      this.requests := Some(checked.value);
      return Ok;
    }

    method SetTokenTypes(tokenTypes: Option<seq<Option<string>>>) returns (outcome: Outcome)
      modifies this`tokenTypes
      ensures outcome.Ok? <==> tokenTypes.Some?
      ensures outcome.Ok? ==> this.tokenTypes == tokenTypes
      ensures outcome.NullArgument? ==> outcome.field == "tokenTypes" && this.tokenTypes == old(this.tokenTypes)
    {
      var checked := CheckNotNull(tokenTypes, "tokenTypes");
      if checked.Failure? {
        return NullArgument(checked.field);
      }
      this.tokenTypes := Some(checked.value);
      return Ok;
    }

    method SetTokenModifiers(tokenModifiers: Option<seq<Option<string>>>) returns (outcome: Outcome)
      modifies this`tokenModifiers
      ensures outcome.Ok? <==> tokenModifiers.Some?
      ensures outcome.Ok? ==> this.tokenModifiers == tokenModifiers
      ensures outcome.NullArgument? ==> outcome.field == "tokenModifiers" && this.tokenModifiers == old(this.tokenModifiers)
    {
      var checked := CheckNotNull(tokenModifiers, "tokenModifiers");
      if checked.Failure? {
        return NullArgument(checked.field);
      }
      this.tokenModifiers := Some(checked.value);
      return Ok;
    }

    method SetFormats(formats: Option<seq<Option<string>>>) returns (outcome: Outcome)
      modifies this`formats
      ensures outcome.Ok? <==> formats.Some?
      ensures outcome.Ok? ==> this.formats == formats
      ensures outcome.NullArgument? ==> outcome.field == "formats" && this.formats == old(this.formats)
    {
      var checked := CheckNotNull(formats, "formats");
      if checked.Failure? {
        return NullArgument(checked.field);
      }
      this.formats := Some(checked.value);
      return Ok;
    }

    method SetOverlappingTokenSupport(overlappingTokenSupport: Option<bool>)
      modifies this`overlappingTokenSupport
      ensures this.overlappingTokenSupport == overlappingTokenSupport
    {
      this.overlappingTokenSupport := overlappingTokenSupport;
    }

    method SetMultilineTokenSupport(multilineTokenSupport: Option<bool>)
      modifies this`multilineTokenSupport
      ensures this.multilineTokenSupport == multilineTokenSupport
    {
      this.multilineTokenSupport := multilineTokenSupport;
    }

    /** `equals`: the same class, `super.equals`, then `requests`, `tokenTypes`,
        `tokenModifiers`, `formats`, `overlappingTokenSupport` and `multilineTokenSupport`
        null-safe equal, `tokenTypes`, `tokenModifiers` and `formats` element by element. */
    function Equals(env: Env, obj: object?): (r: bool)
      reads this, obj
      ensures r ==> obj is SemanticTokensCapabilities
      ensures r ==> env.equals(inherited, (obj as SemanticTokensCapabilities).inherited)
    {
      obj is SemanticTokensCapabilities &&
      var other := obj as SemanticTokensCapabilities;
      env.equals(inherited, other.inherited) &&
      NullSafeEquals(env, OfObj(requests), OfObj(other.requests)) &&
      ListEquals(env, OfStrs(tokenTypes), OfStrs(other.tokenTypes)) &&
      ListEquals(env, OfStrs(tokenModifiers), OfStrs(other.tokenModifiers)) &&
      ListEquals(env, OfStrs(formats), OfStrs(other.formats)) &&
      NullSafeEquals(env, OfBool(overlappingTokenSupport), OfBool(other.overlappingTokenSupport)) &&
      NullSafeEquals(env, OfBool(multilineTokenSupport), OfBool(other.multilineTokenSupport))
    }

    /** The hashes of the fields in declaration order, 0 for an absent field. */
    function FieldHashes(env: Env): (hs: seq<int32>)
      reads this
      ensures |hs| == 6
    {
      [ HashOrZero(env, OfObj(requests)),
        ListHashOrZero(env, OfStrs(tokenTypes)),
        ListHashOrZero(env, OfStrs(tokenModifiers)),
        ListHashOrZero(env, OfStrs(formats)),
        HashOrZero(env, OfBool(overlappingTokenSupport)),
        HashOrZero(env, OfBool(multilineTokenSupport)) ]
    }

    /** `hashCode`: the 31-fold over `requests`, `tokenTypes`, `tokenModifiers`, `formats`,
        `overlappingTokenSupport` and `multilineTokenSupport` in declaration order, starting
        from `super.hashCode()`. */
    function HashCode(env: Env): (r: int32)
      reads this
      ensures r == Polynomial(env.hashCode(inherited), FieldHashes(env))
    {
      FoldHashIsPolynomial(env.hashCode(inherited), FieldHashes(env));
      FoldHash(env.hashCode(inherited), FieldHashes(env))
    }

    /** `equals` is reflexive (which covers the `this == obj` shortcut) and symmetric, and
        equal objects have equal hash codes. */
    lemma EqualsContract(env: Env, other: SemanticTokensCapabilities)
      requires Lawful(env)
      ensures Equals(env, this)
      ensures Equals(env, other) ==> other.Equals(env, this)
      ensures Equals(env, other) ==> HashCode(env) == other.HashCode(env)
    {
      FieldComparisonsLawful(env);
    }
  }

  /** `CodeActionResolveSupportCapabilities`: the code-action properties a client can
      resolve lazily, a mandatory list. */
  class CodeActionResolveSupportCapabilities {
    var properties: Option<seq<Option<string>>>

    /** The no-argument constructor makes `properties` a fresh empty list. */
    constructor ()
      ensures properties == Some([])
    {
      properties := Some([]);
    }

    /** `CodeActionResolveSupportCapabilities(properties)`: checks `properties`. */
    static method Create(properties: Option<seq<Option<string>>>) returns (r: Result<CodeActionResolveSupportCapabilities>)
      ensures r.Success? <==> properties.Some?
      ensures r.Failure? ==> r.field == "properties"
      ensures r.Success? ==> fresh(r.value) && r.value.properties == properties
    {
      var c := new CodeActionResolveSupportCapabilities();
      var checked := CheckNotNull(properties, "properties");
      if checked.Failure? {
        return Failure(checked.field);
      }
      c.properties := Some(checked.value);
      return Success(c);
    }

    method SetProperties(properties: Option<seq<Option<string>>>) returns (outcome: Outcome)
      modifies this`properties
      ensures outcome.Ok? <==> properties.Some?
      ensures outcome.Ok? ==> this.properties == properties
      ensures outcome.NullArgument? ==> outcome.field == "properties" && this.properties == old(this.properties)
    {
      var checked := CheckNotNull(properties, "properties");
      if checked.Failure? {
        return NullArgument(checked.field);
      }
      this.properties := Some(checked.value);
      return Ok;
    }

    /** `equals`: the same class, then `properties` null-safe equal, `properties` element by
        element. */
    function Equals(env: Env, obj: object?): (r: bool)
      reads this, obj
      ensures r ==> obj is CodeActionResolveSupportCapabilities
    {
      obj is CodeActionResolveSupportCapabilities &&
      var other := obj as CodeActionResolveSupportCapabilities;
      ListEquals(env, OfStrs(properties), OfStrs(other.properties))
    }

    /** The hashes of the fields in declaration order, 0 for an absent field. */
    function FieldHashes(env: Env): (hs: seq<int32>)
      reads this
      ensures |hs| == 1
    {
      [ListHashOrZero(env, OfStrs(properties))]
    }

    /** `hashCode`: `31 * 1 + h(properties)`, where `h` is the list hash. */
    function HashCode(env: Env): (r: int32)
      reads this
      ensures r == Polynomial(1, FieldHashes(env))
      ensures properties.None? ==> r == 31
    {
      FoldHashIsPolynomial(1, FieldHashes(env));
      FoldHash(1, FieldHashes(env))
    }

    /** `equals` is reflexive (which covers the `this == obj` shortcut) and symmetric, and
        equal objects have equal hash codes. */
    lemma EqualsContract(env: Env, other: CodeActionResolveSupportCapabilities)
      requires Lawful(env)
      ensures Equals(env, this)
      ensures Equals(env, other) ==> other.Equals(env, this)
      ensures Equals(env, other) ==> HashCode(env) == other.HashCode(env)
    {
      FieldComparisonsLawful(env);
    }

    /** A list that differs in length is never equal, whatever its elements; so a
        default-constructed object equals only objects whose `properties` is empty. */
    lemma PropertiesLengthMatters(env: Env, other: CodeActionResolveSupportCapabilities)
      requires properties.Some? && other.properties.Some?
      requires |properties.value| != |other.properties.value|
      ensures !Equals(env, other)
    {
      ElementsEqualAt(env, OfStrs(properties).value, OfStrs(other.properties).value);
    }
  }

  /** `CompletionItemCapabilities`: what a client supports of completion items. Every field
      is optional and no setter checks its argument. */
  class CompletionItemCapabilities {
    var snippetSupport: Option<bool>
    var commitCharactersSupport: Option<bool>
    var documentationFormat: Option<seq<Option<string>>>
    var deprecatedSupport: Option<bool>
    var preselectSupport: Option<bool>
    var tagSupport: Option<Obj>
    var insertReplaceSupport: Option<bool>
    var resolveSupport: Option<Obj>
    var insertTextModeSupport: Option<Obj>

    /** The no-argument constructor: every field `null`. */
    constructor ()
      ensures snippetSupport.None? && commitCharactersSupport.None? && documentationFormat.None?
      ensures deprecatedSupport.None? && preselectSupport.None? && tagSupport.None?
      ensures insertReplaceSupport.None? && resolveSupport.None? && insertTextModeSupport.None?
    {
      snippetSupport := None;
      commitCharactersSupport := None;
      documentationFormat := None;
      deprecatedSupport := None;
      preselectSupport := None;
      tagSupport := None;
      insertReplaceSupport := None;
      resolveSupport := None;
      insertTextModeSupport := None;
    }

    /** `CompletionItemCapabilities(snippetSupport)`: stores `snippetSupport`, `null`
        included; every other field stays `null`. */
    constructor WithSnippetSupport(snippetSupport: Option<bool>)
      ensures this.snippetSupport == snippetSupport
      ensures commitCharactersSupport.None? && documentationFormat.None?
      ensures deprecatedSupport.None? && preselectSupport.None? && tagSupport.None?
      ensures insertReplaceSupport.None? && resolveSupport.None? && insertTextModeSupport.None?
    {
      this.snippetSupport := snippetSupport;
      commitCharactersSupport := None;
      documentationFormat := None;
      deprecatedSupport := None;
      preselectSupport := None;
      tagSupport := None;
      insertReplaceSupport := None;
      resolveSupport := None;
      insertTextModeSupport := None;
    }

    method SetSnippetSupport(snippetSupport: Option<bool>)
      modifies this`snippetSupport
      ensures this.snippetSupport == snippetSupport
    {
      this.snippetSupport := snippetSupport;
    }

    method SetCommitCharactersSupport(commitCharactersSupport: Option<bool>)
      modifies this`commitCharactersSupport
      ensures this.commitCharactersSupport == commitCharactersSupport
    {
      this.commitCharactersSupport := commitCharactersSupport;
    }

    method SetDocumentationFormat(documentationFormat: Option<seq<Option<string>>>)
      modifies this`documentationFormat
      ensures this.documentationFormat == documentationFormat
    {
      this.documentationFormat := documentationFormat;
    }

    method SetDeprecatedSupport(deprecatedSupport: Option<bool>)
      modifies this`deprecatedSupport
      ensures this.deprecatedSupport == deprecatedSupport
    {
      this.deprecatedSupport := deprecatedSupport;
    }

    method SetPreselectSupport(preselectSupport: Option<bool>)
      modifies this`preselectSupport
      ensures this.preselectSupport == preselectSupport
    {
      this.preselectSupport := preselectSupport;
    }

    method SetTagSupport(tagSupport: Option<Obj>)
      modifies this`tagSupport
      ensures this.tagSupport == tagSupport
    {
      this.tagSupport := tagSupport;
    }

    method SetInsertReplaceSupport(insertReplaceSupport: Option<bool>)
      modifies this`insertReplaceSupport
      ensures this.insertReplaceSupport == insertReplaceSupport
    {
      this.insertReplaceSupport := insertReplaceSupport;
    }

    method SetResolveSupport(resolveSupport: Option<Obj>)
      modifies this`resolveSupport
      ensures this.resolveSupport == resolveSupport
    {
      this.resolveSupport := resolveSupport;
    }

    method SetInsertTextModeSupport(insertTextModeSupport: Option<Obj>)
      modifies this`insertTextModeSupport
      ensures this.insertTextModeSupport == insertTextModeSupport
    {
      this.insertTextModeSupport := insertTextModeSupport;
    }

    /** `equals`: the same class, then `snippetSupport`, `commitCharactersSupport`,
        `documentationFormat`, `deprecatedSupport`, `preselectSupport`, `tagSupport`,
        `insertReplaceSupport`, `resolveSupport` and `insertTextModeSupport` null-safe
        equal, `documentationFormat` element by element. */
    function Equals(env: Env, obj: object?): (r: bool)
      reads this, obj
      ensures r ==> obj is CompletionItemCapabilities
    {
      obj is CompletionItemCapabilities &&
      var other := obj as CompletionItemCapabilities;
      NullSafeEquals(env, OfBool(snippetSupport), OfBool(other.snippetSupport)) &&
      NullSafeEquals(env, OfBool(commitCharactersSupport), OfBool(other.commitCharactersSupport)) &&
      ListEquals(env, OfStrs(documentationFormat), OfStrs(other.documentationFormat)) &&
      NullSafeEquals(env, OfBool(deprecatedSupport), OfBool(other.deprecatedSupport)) &&
      NullSafeEquals(env, OfBool(preselectSupport), OfBool(other.preselectSupport)) &&
      NullSafeEquals(env, OfObj(tagSupport), OfObj(other.tagSupport)) &&
      NullSafeEquals(env, OfBool(insertReplaceSupport), OfBool(other.insertReplaceSupport)) &&
      NullSafeEquals(env, OfObj(resolveSupport), OfObj(other.resolveSupport)) &&
      NullSafeEquals(env, OfObj(insertTextModeSupport), OfObj(other.insertTextModeSupport))
    }

    /** The hashes of the fields in declaration order, 0 for an absent field. */
    function FieldHashes(env: Env): (hs: seq<int32>)
      reads this
      ensures |hs| == 9
    {
      [ HashOrZero(env, OfBool(snippetSupport)),
        HashOrZero(env, OfBool(commitCharactersSupport)),
        ListHashOrZero(env, OfStrs(documentationFormat)),
        HashOrZero(env, OfBool(deprecatedSupport)),
        HashOrZero(env, OfBool(preselectSupport)),
        HashOrZero(env, OfObj(tagSupport)),
        HashOrZero(env, OfBool(insertReplaceSupport)),
        HashOrZero(env, OfObj(resolveSupport)),
        HashOrZero(env, OfObj(insertTextModeSupport)) ]
    }

    /** `hashCode`: the 31-fold over `snippetSupport`, `commitCharactersSupport`,
        `documentationFormat`, `deprecatedSupport`, `preselectSupport`, `tagSupport`,
        `insertReplaceSupport`, `resolveSupport` and `insertTextModeSupport` in declaration
        order, starting at 1. */
    function HashCode(env: Env): (r: int32)
      reads this
      ensures r == Polynomial(1, FieldHashes(env))
    {
      FoldHashIsPolynomial(1, FieldHashes(env));
      FoldHash(1, FieldHashes(env))
    }

    /** `equals` is reflexive (which covers the `this == obj` shortcut) and symmetric, and
        equal objects have equal hash codes. */
    lemma EqualsContract(env: Env, other: CompletionItemCapabilities)
      requires Lawful(env)
      ensures Equals(env, this)
      ensures Equals(env, other) ==> other.Equals(env, this)
      ensures Equals(env, other) ==> HashCode(env) == other.HashCode(env)
    {
      FieldComparisonsLawful(env);
    }
  }

  /** `SemanticTokensClientCapabilitiesRequestsFull`: whether a client asks for full
      semantic tokens as deltas. */
  class SemanticTokensClientCapabilitiesRequestsFull {
    var delta: Option<bool>

    /** The no-argument constructor leaves `delta` `null`. */
    constructor ()
      ensures delta.None?
    {
      delta := None;
    }

    /** `SemanticTokensClientCapabilitiesRequestsFull(delta)`: stores `delta`, `null`
        included. */
    constructor WithDelta(delta: Option<bool>)
      ensures this.delta == delta
    {
      this.delta := delta;
    }

    method SetDelta(delta: Option<bool>)
      modifies this`delta
      ensures this.delta == delta
    {
      this.delta := delta;
    }

    /** `equals`: the same class, then `delta` null-safe equal. */
    function Equals(env: Env, obj: object?): (r: bool)
      reads this, obj
      ensures r ==> obj is SemanticTokensClientCapabilitiesRequestsFull
    {
      obj is SemanticTokensClientCapabilitiesRequestsFull &&
      var other := obj as SemanticTokensClientCapabilitiesRequestsFull;
      NullSafeEquals(env, OfBool(delta), OfBool(other.delta))
    }

    /** The hashes of the fields in declaration order, 0 for an absent field. */
    function FieldHashes(env: Env): (hs: seq<int32>)
      reads this
      ensures |hs| == 1
    {
      [HashOrZero(env, OfBool(delta))]
    }

    /** `hashCode`: `31 * 1 + h(delta)`, which is 31 while `delta` is absent. */
    function HashCode(env: Env): (r: int32)
      reads this
      ensures r == Polynomial(1, FieldHashes(env))
      ensures delta.None? ==> r == 31
    {
      FoldHashIsPolynomial(1, FieldHashes(env));
      FoldHash(1, FieldHashes(env))
    }

    /** `equals` is reflexive (which covers the `this == obj` shortcut) and symmetric, and
        equal objects have equal hash codes. */
    lemma EqualsContract(env: Env, other: SemanticTokensClientCapabilitiesRequestsFull)
      requires Lawful(env)
      ensures Equals(env, this)
      ensures Equals(env, other) ==> other.Equals(env, this)
      ensures Equals(env, other) ==> HashCode(env) == other.HashCode(env)
    {
      FieldComparisonsLawful(env);
    }
  }

  /** `TextDocumentChangeRegistrationOptions`: how a server wants document changes
      synchronised. Its superclass `TextDocumentRegistrationOptions` is not part of this
      model; no shown constructor hands it anything, so `inherited` starts as its default
      state. */
  class TextDocumentChangeRegistrationOptions {
    /** The state declared in `TextDocumentRegistrationOptions`, which is not part of this model. */
    var inherited: Value
    var syncKind: Option<Obj>

    /** The no-argument constructor leaves the mandatory `syncKind` `null`. */
    constructor ()
      ensures inherited == Record("TextDocumentRegistrationOptions", [])
      ensures syncKind.None?
    {
      inherited := Record("TextDocumentRegistrationOptions", []);
      syncKind := None;
    }

    /** `TextDocumentChangeRegistrationOptions(syncKind)`: checks `syncKind`. */
    static method Create(syncKind: Option<Obj>) returns (r: Result<TextDocumentChangeRegistrationOptions>)
      ensures r.Success? <==> syncKind.Some?
      ensures r.Failure? ==> r.field == "syncKind"
      ensures r.Success? ==> fresh(r.value) && r.value.syncKind == syncKind
      ensures r.Success? ==> r.value.inherited == Record("TextDocumentRegistrationOptions", [])
    {
      var o := new TextDocumentChangeRegistrationOptions();
      var checked := CheckNotNull(syncKind, "syncKind");
      if checked.Failure? {
        return Failure(checked.field);
      }
      o.syncKind := Some(checked.value);
      return Success(o);
    }

    method SetSyncKind(syncKind: Option<Obj>) returns (outcome: Outcome)
      modifies this`syncKind
      ensures outcome.Ok? <==> syncKind.Some?
      ensures outcome.Ok? ==> this.syncKind == syncKind
      ensures outcome.NullArgument? ==> outcome.field == "syncKind" && this.syncKind == old(this.syncKind)
    {
      var checked := CheckNotNull(syncKind, "syncKind");
      if checked.Failure? {
        return NullArgument(checked.field);
      }
      this.syncKind := Some(checked.value);
      return Ok;
    }

    /** `equals`: the same class, `super.equals`, then `syncKind` null-safe equal. */
    function Equals(env: Env, obj: object?): (r: bool)
      reads this, obj
      ensures r ==> obj is TextDocumentChangeRegistrationOptions
      ensures r ==> env.equals(inherited, (obj as TextDocumentChangeRegistrationOptions).inherited)
    {
      obj is TextDocumentChangeRegistrationOptions &&
      var other := obj as TextDocumentChangeRegistrationOptions;
      env.equals(inherited, other.inherited) &&
      NullSafeEquals(env, OfObj(syncKind), OfObj(other.syncKind))
    }

    /** The hashes of the fields in declaration order, 0 for an absent field. */
    function FieldHashes(env: Env): (hs: seq<int32>)
      reads this
      ensures |hs| == 1
    {
      [HashOrZero(env, OfObj(syncKind))]
    }

    /** `hashCode`: `31 * super.hashCode() + h(syncKind)`. */
    function HashCode(env: Env): (r: int32)
      reads this
      ensures r == Polynomial(env.hashCode(inherited), FieldHashes(env))
    {
      FoldHashIsPolynomial(env.hashCode(inherited), FieldHashes(env));
      FoldHash(env.hashCode(inherited), FieldHashes(env))
    }

    /** `equals` is reflexive (which covers the `this == obj` shortcut) and symmetric, and
        equal objects have equal hash codes. */
    lemma EqualsContract(env: Env, other: TextDocumentChangeRegistrationOptions)
      requires Lawful(env)
      ensures Equals(env, this)
      ensures Equals(env, other) ==> other.Equals(env, this)
      ensures Equals(env, other) ==> HashCode(env) == other.HashCode(env)
    {
      FieldComparisonsLawful(env);
    }
  }

  /** `TextDocumentSaveRegistrationOptions`: whether a server wants the text on save. Its
      superclass `TextDocumentRegistrationOptions` is not part of this model; no shown
      constructor hands it anything, so `inherited` starts as its default state. */
  class TextDocumentSaveRegistrationOptions {
    /** The state declared in `TextDocumentRegistrationOptions`, which is not part of this model. */
    var inherited: Value
    var includeText: Option<bool>

    /** The no-argument constructor leaves `includeText` `null`. */
    constructor ()
      ensures inherited == Record("TextDocumentRegistrationOptions", [])
      ensures includeText.None?
    {
      inherited := Record("TextDocumentRegistrationOptions", []);
      includeText := None;
    }

    /** `TextDocumentSaveRegistrationOptions(includeText)`: stores `includeText`, `null`
        included. */
    constructor WithIncludeText(includeText: Option<bool>)
      ensures inherited == Record("TextDocumentRegistrationOptions", [])
      ensures this.includeText == includeText
    {
      inherited := Record("TextDocumentRegistrationOptions", []);
      this.includeText := includeText;
    }

    method SetIncludeText(includeText: Option<bool>)
      modifies this`includeText
      ensures this.includeText == includeText
    {
      this.includeText := includeText;
    }

    /** `equals`: the same class, `super.equals`, then `includeText` null-safe equal. */
    function Equals(env: Env, obj: object?): (r: bool)
      reads this, obj
      ensures r ==> obj is TextDocumentSaveRegistrationOptions
      ensures r ==> env.equals(inherited, (obj as TextDocumentSaveRegistrationOptions).inherited)
    {
      obj is TextDocumentSaveRegistrationOptions &&
      var other := obj as TextDocumentSaveRegistrationOptions;
      env.equals(inherited, other.inherited) &&
      NullSafeEquals(env, OfBool(includeText), OfBool(other.includeText))
    }

    /** The hashes of the fields in declaration order, 0 for an absent field. */
    function FieldHashes(env: Env): (hs: seq<int32>)
      reads this
      ensures |hs| == 1
    {
      [HashOrZero(env, OfBool(includeText))]
    }

    /** `hashCode`: `31 * super.hashCode() + h(includeText)`. */
    function HashCode(env: Env): (r: int32)
      reads this
      ensures r == Polynomial(env.hashCode(inherited), FieldHashes(env))
    {
      FoldHashIsPolynomial(env.hashCode(inherited), FieldHashes(env));
      FoldHash(env.hashCode(inherited), FieldHashes(env))
    }

    /** `equals` is reflexive (which covers the `this == obj` shortcut) and symmetric, and
        equal objects have equal hash codes. */
    lemma EqualsContract(env: Env, other: TextDocumentSaveRegistrationOptions)
      requires Lawful(env)
      ensures Equals(env, this)
      ensures Equals(env, other) ==> other.Equals(env, this)
      ensures Equals(env, other) ==> HashCode(env) == other.HashCode(env)
    {
      FieldComparisonsLawful(env);
    }
  }

  /** Change and save registration options are different classes, so they never compare
      equal, even though they share a superclass and its state. */
  lemma RegistrationOptionsDistinct(env: Env, a: TextDocumentChangeRegistrationOptions, b: TextDocumentSaveRegistrationOptions)
    ensures !a.Equals(env, b) && !b.Equals(env, a)
  {
  }
}
