/** Language features: diagnostics, symbols, links, commands and colors. */
module Language {
  import opened Java

  /** `Diagnostic`: a compiler error or warning attached to a range of a document. */
  class Diagnostic {
    var range: Option<Obj>
    var severity: Option<Obj>
    var code: Option<Token>
    var codeDescription: Option<Obj>
    var source: Option<string>
    var message: Option<string>
    var tags: Option<seq<Option<Obj>>>
    var relatedInformation: Option<seq<Option<Obj>>>
    var data: Option<Obj>

    /** The no-argument constructor: every field `null`, the mandatory `range` and
        `message` included. */
    constructor ()
      ensures range.None? && severity.None? && code.None? && codeDescription.None? && source.None?
      ensures message.None? && tags.None? && relatedInformation.None? && data.None?
    {
      range := None;
      severity := None;
      code := None;
      codeDescription := None;
      source := None;
      message := None;
      tags := None;
      relatedInformation := None;
      data := None;
    }

    /** `Diagnostic(range, message)`: checks `range`, then `message`. */
    static method Create(range: Option<Obj>, message: Option<string>) returns (r: Result<Diagnostic>)
      ensures r.Success? <==> range.Some? && message.Some?
      ensures range.None? ==> r == Failure("range")
      ensures range.Some? && message.None? ==> r == Failure("message")
      ensures r.Success? ==> fresh(r.value) && r.value.range == range && r.value.message == message
      ensures r.Success? ==> r.value.severity.None? && r.value.code.None? && r.value.codeDescription.None?
      ensures r.Success? ==> r.value.source.None? && r.value.tags.None? && r.value.relatedInformation.None?
      ensures r.Success? ==> r.value.data.None?
    {
      var d := new Diagnostic();
      var checkedRange := CheckNotNull(range, "range");
      if checkedRange.Failure? {
        return Failure(checkedRange.field);
      }
      d.range := Some(checkedRange.value);
      var checkedMessage := CheckNotNull(message, "message");
      if checkedMessage.Failure? {
        return Failure(checkedMessage.field);
      }
      d.message := Some(checkedMessage.value);
      return Success(d);
    }

    /** `Diagnostic(range, message, severity, source)`: the two-argument constructor, then
        `severity` and `source` as given, `null` included. */
    static method CreateWithSource(range: Option<Obj>, message: Option<string>, severity: Option<Obj>, source: Option<string>)
      returns (r: Result<Diagnostic>)
      ensures r.Success? <==> range.Some? && message.Some?
      ensures range.None? ==> r == Failure("range")
      ensures range.Some? && message.None? ==> r == Failure("message")
      ensures r.Success? ==> fresh(r.value) && r.value.range == range && r.value.message == message
      ensures r.Success? ==> r.value.severity == severity && r.value.source == source
      ensures r.Success? ==> r.value.code.None? && r.value.codeDescription.None?
      ensures r.Success? ==> r.value.tags.None? && r.value.relatedInformation.None? && r.value.data.None?
    {
      r := Create(range, message);
      if r.Success? {
        r.value.severity := severity;
        r.value.source := source;
      }
    }

    /** `Diagnostic(range, message, severity, source, code)`: the four-argument
        constructor, then `setCode(String)`, so a `null` code stays absent. */
    static method CreateWithCode(range: Option<Obj>, message: Option<string>, severity: Option<Obj>, source: Option<string>,
                                 code: Option<string>)
      returns (r: Result<Diagnostic>)
      ensures r.Success? <==> range.Some? && message.Some?
      ensures range.None? ==> r == Failure("range")
      ensures range.Some? && message.None? ==> r == Failure("message")
      ensures r.Success? ==> fresh(r.value) && r.value.range == range && r.value.message == message
      ensures r.Success? ==> r.value.severity == severity && r.value.source == source
      ensures r.Success? && code.None? ==> r.value.code.None?
      ensures r.Success? && code.Some? ==> r.value.code == Some(Left(code.value))
      ensures r.Success? ==> r.value.codeDescription.None?
      ensures r.Success? ==> r.value.tags.None? && r.value.relatedInformation.None? && r.value.data.None?
    {
      r := CreateWithSource(range, message, severity, source);
      if r.Success? {
        r.value.SetCodeString(code);
      }
    }

    method SetRange(range: Option<Obj>) returns (outcome: Outcome)
      modifies this`range
      ensures outcome.Ok? <==> range.Some?
      ensures outcome.Ok? ==> this.range == range
      ensures outcome.NullArgument? ==> outcome.field == "range" && this.range == old(this.range)
    {
      var checked := CheckNotNull(range, "range");
      if checked.Failure? {
        return NullArgument(checked.field);
      }
      this.range := Some(checked.value);
      return Ok;
    }

    method SetSeverity(severity: Option<Obj>)
      modifies this`severity
      ensures this.severity == severity
    {
      this.severity := severity;
    }

    method SetCode(code: Option<Token>)
      modifies this`code
      ensures this.code == code
    {
      this.code := code;
    }

    /** `setCode(String)`: `null` clears the field, anything else is stored as
        `Either.forLeft`. */
    method SetCodeString(code: Option<string>)
      modifies this`code
      ensures code.None? ==> this.code.None?
      ensures code.Some? ==> this.code == Some(Left(code.value))
    {
      if code.None? {
        this.code := None;
        return;
      }
      this.code := Some(Left(code.value));
    }

    /** `setCode(Integer)`: `null` clears the field, anything else is stored as
        `Either.forRight`. */
    method SetCodeInteger(code: Option<int32>)
      modifies this`code
      ensures code.None? ==> this.code.None?
      ensures code.Some? ==> this.code == Some(Right(code.value))
    {
      if code.None? {
        this.code := None;
        return;
      }
      this.code := Some(Right(code.value));
    }

    method SetCodeDescription(codeDescription: Option<Obj>)
      modifies this`codeDescription
      ensures this.codeDescription == codeDescription
    {
      this.codeDescription := codeDescription;
    }

    method SetSource(source: Option<string>)
      modifies this`source
      ensures this.source == source
    {
      this.source := source;
    }

    method SetMessage(message: Option<string>) returns (outcome: Outcome)
      modifies this`message
      ensures outcome.Ok? <==> message.Some?
      ensures outcome.Ok? ==> this.message == message
      ensures outcome.NullArgument? ==> outcome.field == "message" && this.message == old(this.message)
    {
      var checked := CheckNotNull(message, "message");
      if checked.Failure? {
        return NullArgument(checked.field);
      }
      this.message := Some(checked.value);
      return Ok;
    }

    method SetTags(tags: Option<seq<Option<Obj>>>)
      modifies this`tags
      ensures this.tags == tags
    {
      this.tags := tags;
    }

    method SetRelatedInformation(relatedInformation: Option<seq<Option<Obj>>>)
      modifies this`relatedInformation
      ensures this.relatedInformation == relatedInformation
    {
      this.relatedInformation := relatedInformation;
    }

    method SetData(data: Option<Obj>)
      modifies this`data
      ensures this.data == data
    {
      this.data := data;
    }

    /** `equals`: the same class, then `range`, `severity`, `code`, `codeDescription`,
        `source`, `message`, `tags`, `relatedInformation` and `data` null-safe equal, `tags`
        and `relatedInformation` element by element. */
    function Equals(env: Env, obj: object?): (r: bool)
      reads this, obj
      ensures r ==> obj is Diagnostic
    {
      obj is Diagnostic &&
      var other := obj as Diagnostic;
      NullSafeEquals(env, OfObj(range), OfObj(other.range)) &&
      NullSafeEquals(env, OfObj(severity), OfObj(other.severity)) &&
      NullSafeEquals(env, OfToken(code), OfToken(other.code)) &&
      NullSafeEquals(env, OfObj(codeDescription), OfObj(other.codeDescription)) &&
      NullSafeEquals(env, OfStr(source), OfStr(other.source)) &&
      NullSafeEquals(env, OfStr(message), OfStr(other.message)) &&
      ListEquals(env, OfObjs(tags), OfObjs(other.tags)) &&
      ListEquals(env, OfObjs(relatedInformation), OfObjs(other.relatedInformation)) &&
      NullSafeEquals(env, OfObj(data), OfObj(other.data))
    }

    /** The hashes of the fields in declaration order, 0 for an absent field. */
    function FieldHashes(env: Env): (hs: seq<int32>)
      reads this
      ensures |hs| == 9
    {
      [ HashOrZero(env, OfObj(range)),
        HashOrZero(env, OfObj(severity)),
        HashOrZero(env, OfToken(code)),
        HashOrZero(env, OfObj(codeDescription)),
        HashOrZero(env, OfStr(source)),
        HashOrZero(env, OfStr(message)),
        ListHashOrZero(env, OfObjs(tags)),
        ListHashOrZero(env, OfObjs(relatedInformation)),
        HashOrZero(env, OfObj(data)) ]
    }

    /** `hashCode`: the 31-fold over `range`, `severity`, `code`, `codeDescription`,
        `source`, `message`, `tags`, `relatedInformation` and `data` in declaration order,
        starting at 1. */
    function HashCode(env: Env): (r: int32)
      reads this
      ensures r == Polynomial(1, FieldHashes(env))
    {
      FoldHashIsPolynomial(1, FieldHashes(env));
      FoldHash(1, FieldHashes(env))
    }

    /** `equals` is reflexive (which covers the `this == obj` shortcut) and symmetric, and
        equal objects have equal hash codes. */
    lemma EqualsContract(env: Env, other: Diagnostic)
      requires Lawful(env)
      ensures Equals(env, this)
      ensures Equals(env, other) ==> other.Equals(env, this)
      ensures Equals(env, other) ==> HashCode(env) == other.HashCode(env)
    {
      FieldComparisonsLawful(env);
    }
  }

  /** `SymbolInformation`: a symbol found in a document or workspace, with its location. */
  class SymbolInformation {
    var name: Option<string>
    var kind: Option<Obj>
    var tags: Option<seq<Option<Obj>>>
    var deprecated: Option<bool>
    var location: Option<Obj>
    var containerName: Option<string>

    constructor ()
      ensures name.None? && kind.None? && tags.None? && deprecated.None? && location.None? && containerName.None?
    {
      name := None;
      kind := None;
      tags := None;
      deprecated := None;
      location := None;
      containerName := None;
    }

    /** `SymbolInformation(name, kind, location)`: checks `name`, `kind`, `location` in
        that order. */
    static method Create(name: Option<string>, kind: Option<Obj>, location: Option<Obj>) returns (r: Result<SymbolInformation>)
      ensures r.Success? <==> name.Some? && kind.Some? && location.Some?
      ensures name.None? ==> r == Failure("name")
      ensures name.Some? && kind.None? ==> r == Failure("kind")
      ensures name.Some? && kind.Some? && location.None? ==> r == Failure("location")
      ensures r.Success? ==> fresh(r.value) && r.value.name == name && r.value.kind == kind && r.value.location == location
      ensures r.Success? ==> r.value.tags.None? && r.value.deprecated.None? && r.value.containerName.None?
    {
      var s := new SymbolInformation();
      var checkedName := CheckNotNull(name, "name");
      if checkedName.Failure? {
        return Failure(checkedName.field);
      }
      s.name := Some(checkedName.value);
      var checkedKind := CheckNotNull(kind, "kind");
      if checkedKind.Failure? {
        return Failure(checkedKind.field);
      }
      s.kind := Some(checkedKind.value);
      var checkedLocation := CheckNotNull(location, "location");
      if checkedLocation.Failure? {
        return Failure(checkedLocation.field);
      }
      s.location := Some(checkedLocation.value);
      return Success(s);
    }

    /** `SymbolInformation(name, kind, location, containerName)`: the same checks, then
        `containerName` as given, `null` included. */
    static method CreateInContainer(name: Option<string>, kind: Option<Obj>, location: Option<Obj>, containerName: Option<string>)
      returns (r: Result<SymbolInformation>)
      ensures r.Success? <==> name.Some? && kind.Some? && location.Some?
      ensures name.None? ==> r == Failure("name")
      ensures name.Some? && kind.None? ==> r == Failure("kind")
      ensures name.Some? && kind.Some? && location.None? ==> r == Failure("location")
      ensures r.Success? ==> fresh(r.value) && r.value.name == name && r.value.kind == kind && r.value.location == location
      ensures r.Success? ==> r.value.containerName == containerName
      ensures r.Success? ==> r.value.tags.None? && r.value.deprecated.None?
    {
      r := Create(name, kind, location);
      if r.Success? {
        r.value.containerName := containerName;
      }
    }

    method SetName(name: Option<string>) returns (outcome: Outcome)
      modifies this`name
      ensures outcome.Ok? <==> name.Some?
      ensures outcome.Ok? ==> this.name == name
      ensures outcome.NullArgument? ==> outcome.field == "name" && this.name == old(this.name)
    {
      var checked := CheckNotNull(name, "name");
      if checked.Failure? {
        return NullArgument(checked.field);
      }
      this.name := Some(checked.value);
      return Ok;
    }

    method SetKind(kind: Option<Obj>) returns (outcome: Outcome)
      modifies this`kind
      ensures outcome.Ok? <==> kind.Some?
      ensures outcome.Ok? ==> this.kind == kind
      ensures outcome.NullArgument? ==> outcome.field == "kind" && this.kind == old(this.kind)
    {
      var checked := CheckNotNull(kind, "kind");
      if checked.Failure? {
        return NullArgument(checked.field);
      }
      this.kind := Some(checked.value);
      return Ok;
    }

    method SetTags(tags: Option<seq<Option<Obj>>>)
      modifies this`tags
      ensures this.tags == tags
    {
      this.tags := tags;
    }

    method SetDeprecated(deprecated: Option<bool>)
      modifies this`deprecated
      ensures this.deprecated == deprecated
    {
      this.deprecated := deprecated;
    }

    method SetLocation(location: Option<Obj>) returns (outcome: Outcome)
      modifies this`location
      ensures outcome.Ok? <==> location.Some?
      ensures outcome.Ok? ==> this.location == location
      ensures outcome.NullArgument? ==> outcome.field == "location" && this.location == old(this.location)
    {
      var checked := CheckNotNull(location, "location");
      if checked.Failure? {
        return NullArgument(checked.field);
      }
      this.location := Some(checked.value);
      return Ok;
    }

    method SetContainerName(containerName: Option<string>)
      modifies this`containerName
      ensures this.containerName == containerName
    {
      this.containerName := containerName;
    }

    /** `equals`: the same class, then `name`, `kind`, `tags`, `deprecated`, `location` and
        `containerName` null-safe equal, `tags` element by element. */
    function Equals(env: Env, obj: object?): (r: bool)
      reads this, obj
      ensures r ==> obj is SymbolInformation
    {
      obj is SymbolInformation &&
      var other := obj as SymbolInformation;
      NullSafeEquals(env, OfStr(name), OfStr(other.name)) &&
      NullSafeEquals(env, OfObj(kind), OfObj(other.kind)) &&
      ListEquals(env, OfObjs(tags), OfObjs(other.tags)) &&
      NullSafeEquals(env, OfBool(deprecated), OfBool(other.deprecated)) &&
      NullSafeEquals(env, OfObj(location), OfObj(other.location)) &&
      NullSafeEquals(env, OfStr(containerName), OfStr(other.containerName))
    }

    /** The hashes of the fields in declaration order, 0 for an absent field. */
    function FieldHashes(env: Env): (hs: seq<int32>)
      reads this
      ensures |hs| == 6
    {
      [ HashOrZero(env, OfStr(name)),
        HashOrZero(env, OfObj(kind)),
        ListHashOrZero(env, OfObjs(tags)),
        HashOrZero(env, OfBool(deprecated)),
        HashOrZero(env, OfObj(location)),
        HashOrZero(env, OfStr(containerName)) ]
    }

    /** `hashCode`: the 31-fold over `name`, `kind`, `tags`, `deprecated`, `location` and
        `containerName` in declaration order, starting at 1. */
    function HashCode(env: Env): (r: int32)
      reads this
      ensures r == Polynomial(1, FieldHashes(env))
    {
      FoldHashIsPolynomial(1, FieldHashes(env));
      FoldHash(1, FieldHashes(env))
    }

    /** `equals` is reflexive (which covers the `this == obj` shortcut) and symmetric, and
        equal objects have equal hash codes. */
    lemma EqualsContract(env: Env, other: SymbolInformation)
      requires Lawful(env)
      ensures Equals(env, this)
      ensures Equals(env, other) ==> other.Equals(env, this)
      ensures Equals(env, other) ==> HashCode(env) == other.HashCode(env)
    {
      FieldComparisonsLawful(env);
    }
  }

  /** `LocationLink`: a link from an origin range to a target document and ranges. */
  class LocationLink {
    var originSelectionRange: Option<Obj>
    var targetUri: Option<string>
    var targetRange: Option<Obj>
    var targetSelectionRange: Option<Obj>

    constructor ()
      ensures originSelectionRange.None? && targetUri.None? && targetRange.None? && targetSelectionRange.None?
    {
      originSelectionRange := None;
      targetUri := None;
      targetRange := None;
      targetSelectionRange := None;
    }

    /** `LocationLink(targetUri, targetRange, targetSelectionRange)`: checks the three
        target fields in that order. */
    static method Create(targetUri: Option<string>, targetRange: Option<Obj>, targetSelectionRange: Option<Obj>)
      returns (r: Result<LocationLink>)
      ensures r.Success? <==> targetUri.Some? && targetRange.Some? && targetSelectionRange.Some?
      ensures targetUri.None? ==> r == Failure("targetUri")
      ensures targetUri.Some? && targetRange.None? ==> r == Failure("targetRange")
      ensures targetUri.Some? && targetRange.Some? && targetSelectionRange.None? ==> r == Failure("targetSelectionRange")
      ensures r.Success? ==> fresh(r.value) && r.value.originSelectionRange.None?
      ensures r.Success? ==> r.value.targetUri == targetUri && r.value.targetRange == targetRange
      ensures r.Success? ==> r.value.targetSelectionRange == targetSelectionRange
    {
      var l := new LocationLink();
      var checkedUri := CheckNotNull(targetUri, "targetUri");
      if checkedUri.Failure? {
        return Failure(checkedUri.field);
      }
      l.targetUri := Some(checkedUri.value);
      var checkedRange := CheckNotNull(targetRange, "targetRange");
      if checkedRange.Failure? {
        return Failure(checkedRange.field);
      }
      l.targetRange := Some(checkedRange.value);
      var checkedSelection := CheckNotNull(targetSelectionRange, "targetSelectionRange");
      if checkedSelection.Failure? {
        return Failure(checkedSelection.field);
      }
      l.targetSelectionRange := Some(checkedSelection.value);
      return Success(l);
    }

    /** The four-argument constructor: the same checks, then `originSelectionRange` as
        given, `null` included. */
    static method CreateWithOrigin(targetUri: Option<string>, targetRange: Option<Obj>, targetSelectionRange: Option<Obj>,
                                   originSelectionRange: Option<Obj>)
      returns (r: Result<LocationLink>)
      ensures r.Success? <==> targetUri.Some? && targetRange.Some? && targetSelectionRange.Some?
      ensures targetUri.None? ==> r == Failure("targetUri")
      ensures targetUri.Some? && targetRange.None? ==> r == Failure("targetRange")
      ensures targetUri.Some? && targetRange.Some? && targetSelectionRange.None? ==> r == Failure("targetSelectionRange")
      ensures r.Success? ==> fresh(r.value) && r.value.originSelectionRange == originSelectionRange
      ensures r.Success? ==> r.value.targetUri == targetUri && r.value.targetRange == targetRange
      ensures r.Success? ==> r.value.targetSelectionRange == targetSelectionRange
    {
      r := Create(targetUri, targetRange, targetSelectionRange);
      if r.Success? {
        r.value.originSelectionRange := originSelectionRange;
      }
    }

    method SetOriginSelectionRange(originSelectionRange: Option<Obj>)
      modifies this`originSelectionRange
      ensures this.originSelectionRange == originSelectionRange
    {
      this.originSelectionRange := originSelectionRange;
    }

    method SetTargetUri(targetUri: Option<string>) returns (outcome: Outcome)
      modifies this`targetUri
      ensures outcome.Ok? <==> targetUri.Some?
      ensures outcome.Ok? ==> this.targetUri == targetUri
      ensures outcome.NullArgument? ==> outcome.field == "targetUri" && this.targetUri == old(this.targetUri)
    {
      var checked := CheckNotNull(targetUri, "targetUri");
      if checked.Failure? {
        return NullArgument(checked.field);
      }
      this.targetUri := Some(checked.value);
      return Ok;
    }

    method SetTargetRange(targetRange: Option<Obj>) returns (outcome: Outcome)
      modifies this`targetRange
      ensures outcome.Ok? <==> targetRange.Some?
      ensures outcome.Ok? ==> this.targetRange == targetRange
      ensures outcome.NullArgument? ==> outcome.field == "targetRange" && this.targetRange == old(this.targetRange)
    {
      var checked := CheckNotNull(targetRange, "targetRange");
      if checked.Failure? {
        return NullArgument(checked.field);
      }
      this.targetRange := Some(checked.value);
      return Ok;
    }

    method SetTargetSelectionRange(targetSelectionRange: Option<Obj>) returns (outcome: Outcome)
      modifies this`targetSelectionRange
      ensures outcome.Ok? <==> targetSelectionRange.Some?
      ensures outcome.Ok? ==> this.targetSelectionRange == targetSelectionRange
      ensures outcome.NullArgument? ==> outcome.field == "targetSelectionRange" && this.targetSelectionRange == old(this.targetSelectionRange)
    {
      var checked := CheckNotNull(targetSelectionRange, "targetSelectionRange");
      if checked.Failure? {
        return NullArgument(checked.field);
      }
      this.targetSelectionRange := Some(checked.value);
      return Ok;
    }

    /** `equals`: the same class, then `originSelectionRange`, `targetUri`, `targetRange`
        and `targetSelectionRange` null-safe equal. */
    function Equals(env: Env, obj: object?): (r: bool)
      reads this, obj
      ensures r ==> obj is LocationLink
    {
      obj is LocationLink &&
      var other := obj as LocationLink;
      NullSafeEquals(env, OfObj(originSelectionRange), OfObj(other.originSelectionRange)) &&
      NullSafeEquals(env, OfStr(targetUri), OfStr(other.targetUri)) &&
      NullSafeEquals(env, OfObj(targetRange), OfObj(other.targetRange)) &&
      NullSafeEquals(env, OfObj(targetSelectionRange), OfObj(other.targetSelectionRange))
    }

    /** The hashes of the fields in declaration order, 0 for an absent field. */
    function FieldHashes(env: Env): (hs: seq<int32>)
      reads this
      ensures |hs| == 4
    {
      [ HashOrZero(env, OfObj(originSelectionRange)),
        HashOrZero(env, OfStr(targetUri)),
        HashOrZero(env, OfObj(targetRange)),
        HashOrZero(env, OfObj(targetSelectionRange)) ]
    }

    /** `hashCode`: the 31-fold over `originSelectionRange`, `targetUri`, `targetRange` and
        `targetSelectionRange`, in declaration order (not the order the constructors take
        them), starting at 1. */
    function HashCode(env: Env): (r: int32)
      reads this
      ensures r == Polynomial(1, FieldHashes(env))
    {
      FoldHashIsPolynomial(1, FieldHashes(env));
      FoldHash(1, FieldHashes(env))
    }

    /** `equals` is reflexive (which covers the `this == obj` shortcut) and symmetric, and
        equal objects have equal hash codes. */
    lemma EqualsContract(env: Env, other: LocationLink)
      requires Lawful(env)
      ensures Equals(env, this)
      ensures Equals(env, other) ==> other.Equals(env, this)
      ensures Equals(env, other) ==> HashCode(env) == other.HashCode(env)
    {
      FieldComparisonsLawful(env);
    }
  }

  /** `DocumentLink`: a range of a document that links to a target. */
  class DocumentLink {
    var range: Option<Obj>
    var target: Option<string>
    var tooltip: Option<string>
    var data: Option<Obj>

    constructor ()
      ensures range.None? && target.None? && tooltip.None? && data.None?
    {
      range := None;
      target := None;
      tooltip := None;
      data := None;
    }

    /** `DocumentLink(range)`: checks `range`. Every longer constructor starts here. */
    static method Create(range: Option<Obj>) returns (r: Result<DocumentLink>)
      ensures r.Success? <==> range.Some?
      ensures r.Failure? ==> r.field == "range"
      ensures r.Success? ==> fresh(r.value) && r.value.range == range
      ensures r.Success? ==> r.value.target.None? && r.value.tooltip.None? && r.value.data.None?
    {
      var l := new DocumentLink();
      var checked := CheckNotNull(range, "range");
      if checked.Failure? {
        return Failure(checked.field);
      }
      l.range := Some(checked.value);
      return Success(l);
    }

    /** `DocumentLink(range, target)`. */
    static method CreateWithTarget(range: Option<Obj>, target: Option<string>) returns (r: Result<DocumentLink>)
      ensures r.Success? <==> range.Some?
      ensures r.Failure? ==> r.field == "range"
      ensures r.Success? ==> fresh(r.value) && r.value.range == range && r.value.target == target
      ensures r.Success? ==> r.value.tooltip.None? && r.value.data.None?
    {
      r := Create(range);
      if r.Success? {
        r.value.target := target;
      }
    }

    /** `DocumentLink(range, target, data)`. */
    static method CreateWithData(range: Option<Obj>, target: Option<string>, data: Option<Obj>) returns (r: Result<DocumentLink>)
      ensures r.Success? <==> range.Some?
      ensures r.Failure? ==> r.field == "range"
      ensures r.Success? ==> fresh(r.value) && r.value.range == range && r.value.target == target
      ensures r.Success? ==> r.value.data == data && r.value.tooltip.None?
    {
      r := CreateWithTarget(range, target);
      if r.Success? {
        r.value.data := data;
      }
    }

    /** `DocumentLink(range, target, data, tooltip)`: the three optional fields as given,
        `null` included. */
    static method CreateWithTooltip(range: Option<Obj>, target: Option<string>, data: Option<Obj>, tooltip: Option<string>)
      returns (r: Result<DocumentLink>)
      ensures r.Success? <==> range.Some?
      ensures r.Failure? ==> r.field == "range"
      ensures r.Success? ==> fresh(r.value) && r.value.range == range && r.value.target == target
      ensures r.Success? ==> r.value.data == data && r.value.tooltip == tooltip
    {
      r := CreateWithData(range, target, data);
      if r.Success? {
        r.value.tooltip := tooltip;
      }
    }

    method SetRange(range: Option<Obj>) returns (outcome: Outcome)
      modifies this`range
      ensures outcome.Ok? <==> range.Some?
      ensures outcome.Ok? ==> this.range == range
      ensures outcome.NullArgument? ==> outcome.field == "range" && this.range == old(this.range)
    {
      var checked := CheckNotNull(range, "range");
      if checked.Failure? {
        return NullArgument(checked.field);
      }
      this.range := Some(checked.value);
      return Ok;
    }

    method SetTarget(target: Option<string>)
      modifies this`target
      ensures this.target == target
    {
      this.target := target;
    }

    method SetTooltip(tooltip: Option<string>)
      modifies this`tooltip
      ensures this.tooltip == tooltip
    {
      this.tooltip := tooltip;
    }

    method SetData(data: Option<Obj>)
      modifies this`data
      ensures this.data == data
    {
      this.data := data;
    }

    /** `equals`: the same class, then `range`, `target`, `tooltip` and `data` null-safe
        equal. */
    function Equals(env: Env, obj: object?): (r: bool)
      reads this, obj
      ensures r ==> obj is DocumentLink
    {
      obj is DocumentLink &&
      var other := obj as DocumentLink;
      NullSafeEquals(env, OfObj(range), OfObj(other.range)) &&
      NullSafeEquals(env, OfStr(target), OfStr(other.target)) &&
      NullSafeEquals(env, OfStr(tooltip), OfStr(other.tooltip)) &&
      NullSafeEquals(env, OfObj(data), OfObj(other.data))
    }

    /** The hashes of the fields in declaration order, 0 for an absent field. */
    function FieldHashes(env: Env): (hs: seq<int32>)
      reads this
      ensures |hs| == 4
    {
      [ HashOrZero(env, OfObj(range)),
        HashOrZero(env, OfStr(target)),
        HashOrZero(env, OfStr(tooltip)),
        HashOrZero(env, OfObj(data)) ]
    }

    /** `hashCode`: the 31-fold over `range`, `target`, `tooltip` and `data`, in declaration
        order (not the order the constructors take them), starting at 1. */
    function HashCode(env: Env): (r: int32)
      reads this
      ensures r == Polynomial(1, FieldHashes(env))
    {
      FoldHashIsPolynomial(1, FieldHashes(env));
      FoldHash(1, FieldHashes(env))
    }

    /** `equals` is reflexive (which covers the `this == obj` shortcut) and symmetric, and
        equal objects have equal hash codes. */
    lemma EqualsContract(env: Env, other: DocumentLink)
      requires Lawful(env)
      ensures Equals(env, this)
      ensures Equals(env, other) ==> other.Equals(env, this)
      ensures Equals(env, other) ==> HashCode(env) == other.HashCode(env)
    {
      FieldComparisonsLawful(env);
    }
  }

  /** `Command`: a command with a title, an identifier and optional arguments. */
  class Command {
    var title: Option<string>
    var command: Option<string>
    var arguments: Option<seq<Option<Obj>>>

    constructor ()
      ensures title.None? && command.None? && arguments.None?
    {
      title := None;
      command := None;
      arguments := None;
    }

    /** `Command(title, command)`: checks `title`, then `command`. */
    static method Create(title: Option<string>, command: Option<string>) returns (r: Result<Command>)
      ensures r.Success? <==> title.Some? && command.Some?
      ensures title.None? ==> r == Failure("title")
      ensures title.Some? && command.None? ==> r == Failure("command")
      ensures r.Success? ==> fresh(r.value) && r.value.title == title && r.value.command == command
      ensures r.Success? ==> r.value.arguments.None?
    {
      var c := new Command();
      var checkedTitle := CheckNotNull(title, "title");
      if checkedTitle.Failure? {
        return Failure(checkedTitle.field);
      }
      c.title := Some(checkedTitle.value);
      var checkedCommand := CheckNotNull(command, "command");
      if checkedCommand.Failure? {
        return Failure(checkedCommand.field);
      }
      c.command := Some(checkedCommand.value);
      return Success(c);
    }

    /** `Command(title, command, arguments)`: the same checks, then `arguments` as given,
        `null` included. */
    static method CreateWithArguments(title: Option<string>, command: Option<string>, arguments: Option<seq<Option<Obj>>>)
      returns (r: Result<Command>)
      ensures r.Success? <==> title.Some? && command.Some?
      ensures title.None? ==> r == Failure("title")
      ensures title.Some? && command.None? ==> r == Failure("command")
      ensures r.Success? ==> fresh(r.value) && r.value.title == title && r.value.command == command
      ensures r.Success? ==> r.value.arguments == arguments
    {
      r := Create(title, command);
      if r.Success? {
        r.value.arguments := arguments;
      }
    }

    method SetTitle(title: Option<string>) returns (outcome: Outcome)
      modifies this`title
      ensures outcome.Ok? <==> title.Some?
      ensures outcome.Ok? ==> this.title == title
      ensures outcome.NullArgument? ==> outcome.field == "title" && this.title == old(this.title)
    {
      var checked := CheckNotNull(title, "title");
      if checked.Failure? {
        return NullArgument(checked.field);
      }
      this.title := Some(checked.value);
      return Ok;
    }

    method SetCommand(command: Option<string>) returns (outcome: Outcome)
      modifies this`command
      ensures outcome.Ok? <==> command.Some?
      ensures outcome.Ok? ==> this.command == command
      ensures outcome.NullArgument? ==> outcome.field == "command" && this.command == old(this.command)
    {
      var checked := CheckNotNull(command, "command");
      if checked.Failure? {
        return NullArgument(checked.field);
      }
      this.command := Some(checked.value);
      return Ok;
    }

    method SetArguments(arguments: Option<seq<Option<Obj>>>)
      modifies this`arguments
      ensures this.arguments == arguments
    {
      this.arguments := arguments;
    }

    /** `equals`: the same class, then `title`, `command` and `arguments` null-safe equal,
        `arguments` element by element. */
    function Equals(env: Env, obj: object?): (r: bool)
      reads this, obj
      ensures r ==> obj is Command
    {
      obj is Command &&
      var other := obj as Command;
      NullSafeEquals(env, OfStr(title), OfStr(other.title)) &&
      NullSafeEquals(env, OfStr(command), OfStr(other.command)) &&
      ListEquals(env, OfObjs(arguments), OfObjs(other.arguments))
    }

    /** The hashes of the fields in declaration order, 0 for an absent field. */
    function FieldHashes(env: Env): (hs: seq<int32>)
      reads this
      ensures |hs| == 3
    {
      [ HashOrZero(env, OfStr(title)),
        HashOrZero(env, OfStr(command)),
        ListHashOrZero(env, OfObjs(arguments)) ]
    }

    /** `hashCode`: the 31-fold over `title`, `command` and `arguments` in declaration
        order, starting at 1. */
    function HashCode(env: Env): (r: int32)
      reads this
      ensures r == Polynomial(1, FieldHashes(env))
    {
      FoldHashIsPolynomial(1, FieldHashes(env));
      FoldHash(1, FieldHashes(env))
    }

    /** `equals` is reflexive (which covers the `this == obj` shortcut) and symmetric, and
        equal objects have equal hash codes. */
    lemma EqualsContract(env: Env, other: Command)
      requires Lawful(env)
      ensures Equals(env, this)
      ensures Equals(env, other) ==> other.Equals(env, this)
      ensures Equals(env, other) ==> HashCode(env) == other.HashCode(env)
    {
      FieldComparisonsLawful(env);
    }
  }

  /** `ColorInformation`: a color found at a range of a document. */
  class ColorInformation {
    var range: Option<Obj>
    var color: Option<Obj>

    /** The no-argument constructor leaves both mandatory fields `null`. */
    constructor ()
      ensures range.None? && color.None?
    {
      range := None;
      color := None;
    }

    /** `ColorInformation(range, color)`: checks `range`, then `color`. */
    static method Create(range: Option<Obj>, color: Option<Obj>) returns (r: Result<ColorInformation>)
      ensures r.Success? <==> range.Some? && color.Some?
      ensures range.None? ==> r == Failure("range")
      ensures range.Some? && color.None? ==> r == Failure("color")
      ensures r.Success? ==> fresh(r.value) && r.value.range == range && r.value.color == color
    {
      var c := new ColorInformation();
      var checkedRange := CheckNotNull(range, "range");
      if checkedRange.Failure? {
        return Failure(checkedRange.field);
      }
      c.range := Some(checkedRange.value);
      var checkedColor := CheckNotNull(color, "color");
      if checkedColor.Failure? {
        return Failure(checkedColor.field);
      }
      c.color := Some(checkedColor.value);
      return Success(c);
    }

    method SetRange(range: Option<Obj>) returns (outcome: Outcome)
      modifies this`range
      ensures outcome.Ok? <==> range.Some?
      ensures outcome.Ok? ==> this.range == range
      ensures outcome.NullArgument? ==> outcome.field == "range" && this.range == old(this.range)
    {
      var checked := CheckNotNull(range, "range");
      if checked.Failure? {
        return NullArgument(checked.field);
      }
      this.range := Some(checked.value);
      return Ok;
    }

    method SetColor(color: Option<Obj>) returns (outcome: Outcome)
      modifies this`color
      ensures outcome.Ok? <==> color.Some?
      ensures outcome.Ok? ==> this.color == color
      ensures outcome.NullArgument? ==> outcome.field == "color" && this.color == old(this.color)
    {
      var checked := CheckNotNull(color, "color");
      if checked.Failure? {
        return NullArgument(checked.field);
      }
      this.color := Some(checked.value);
      return Ok;
    }

    /** `equals`: the same class, then `range` and `color` null-safe equal. */
    function Equals(env: Env, obj: object?): (r: bool)
      reads this, obj
      ensures r ==> obj is ColorInformation
    {
      obj is ColorInformation &&
      var other := obj as ColorInformation;
      NullSafeEquals(env, OfObj(range), OfObj(other.range)) &&
      NullSafeEquals(env, OfObj(color), OfObj(other.color))
    }

    /** The hashes of the fields in declaration order, 0 for an absent field. */
    function FieldHashes(env: Env): (hs: seq<int32>)
      reads this
      ensures |hs| == 2
    {
      [HashOrZero(env, OfObj(range)), HashOrZero(env, OfObj(color))]
    }

    /** `hashCode`: the 31-fold over `range` and `color` in declaration order, starting at
        1. */
    function HashCode(env: Env): (r: int32)
      reads this
      ensures r == Polynomial(1, FieldHashes(env))
    {
      FoldHashIsPolynomial(1, FieldHashes(env));
      FoldHash(1, FieldHashes(env))
    }

    /** `equals` is reflexive (which covers the `this == obj` shortcut) and symmetric, and
        equal objects have equal hash codes. */
    lemma EqualsContract(env: Env, other: ColorInformation)
      requires Lawful(env)
      ensures Equals(env, this)
      ensures Equals(env, other) ==> other.Equals(env, this)
      ensures Equals(env, other) ==> HashCode(env) == other.HashCode(env)
    {
      FieldComparisonsLawful(env);
    }
  }
}
