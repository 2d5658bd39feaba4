/** Workspace edits: file deletion, the resource-operation base class and the file-creation
    notification parameters. */
module WorkspaceEdits {
  import opened Java

  /** `FileDelete`: a file the client is about to delete, named by a mandatory `uri`. */
  class FileDelete {
    var uri: Option<string>

    /** The no-argument constructor leaves the mandatory `uri` `null`. */
    constructor ()
      ensures uri.None?
    {
      uri := None;
    }

    /** `FileDelete(uri)`: checks `uri`. */
    static method Create(uri: Option<string>) returns (r: Result<FileDelete>)
      ensures r.Success? <==> uri.Some?
      ensures r.Failure? ==> r.field == "uri"
      ensures r.Success? ==> fresh(r.value) && r.value.uri == uri
    {
      var f := new FileDelete();
      var checked := CheckNotNull(uri, "uri");
      if checked.Failure? {
        return Failure(checked.field);
      }
      f.uri := Some(checked.value);
      return Success(f);
    }

    method SetUri(uri: Option<string>) returns (outcome: Outcome)
      modifies this`uri
      ensures outcome.Ok? <==> uri.Some?
      ensures outcome.Ok? ==> this.uri == uri
      ensures outcome.NullArgument? ==> outcome.field == "uri" && this.uri == old(this.uri)
    {
      var checked := CheckNotNull(uri, "uri");
      if checked.Failure? {
        return NullArgument(checked.field);
      }
      this.uri := Some(checked.value);
      return Ok;
    }

    /** `equals`: the same class, then `uri` null-safe equal. */
    function Equals(env: Env, obj: object?): (r: bool)
      reads this, obj
      ensures r ==> obj is FileDelete
    {
      obj is FileDelete &&
      var other := obj as FileDelete;
      NullSafeEquals(env, OfStr(uri), OfStr(other.uri))
    }

    /** The hashes of the fields in declaration order, 0 for an absent field. */
    function FieldHashes(env: Env): (hs: seq<int32>)
      reads this
      ensures |hs| == 1
    {
      [HashOrZero(env, OfStr(uri))]
    }

    /** `hashCode`: `31 * 1 + h(uri)`, which is 31 while `uri` is absent. */
    function HashCode(env: Env): (r: int32)
      reads this
      ensures r == Polynomial(1, FieldHashes(env))
      ensures uri.None? ==> r == 31
    {
      FoldHashIsPolynomial(1, FieldHashes(env));
      FoldHash(1, FieldHashes(env))
    }

    /** `equals` is reflexive (which covers the `this == obj` shortcut) and symmetric, and
        equal objects have equal hash codes. */
    lemma EqualsContract(env: Env, other: FileDelete)
      requires Lawful(env)
      ensures Equals(env, this)
      ensures Equals(env, other) ==> other.Equals(env, this)
      ensures Equals(env, other) ==> HashCode(env) == other.HashCode(env)
    {
      FieldComparisonsLawful(env);
    }
  }

  /** The abstract `ResourceOperation`: the common part of the create, rename and delete
      operations of a workspace edit. `runtimeClass` names the concrete subclass an instance
      was made as. */
  class ResourceOperation {
    /** What `getClass()` returns: the concrete subclass. */
    const runtimeClass: string
    var kind: Option<string>
    var annotationId: Option<string>

    /** The implicit constructor, run for a concrete subclass: `kind` is left `null`. */
    constructor (runtimeClass: string)
      ensures this.runtimeClass == runtimeClass
      ensures kind.None? && annotationId.None?
    {
      this.runtimeClass := runtimeClass;
      kind := None;
      annotationId := None;
    }

    /** `ResourceOperation(kind)`, run for a concrete subclass: checks `kind`. */
    static method Create(runtimeClass: string, kind: Option<string>) returns (r: Result<ResourceOperation>)
      ensures r.Success? <==> kind.Some?
      ensures r.Failure? ==> r.field == "kind"
      ensures r.Success? ==> fresh(r.value) && r.value.runtimeClass == runtimeClass
      ensures r.Success? ==> r.value.kind == kind && r.value.annotationId.None?
    {
      var op := new ResourceOperation(runtimeClass);
      var checked := CheckNotNull(kind, "kind");
      if checked.Failure? {
        return Failure(checked.field);
      }
      op.kind := Some(checked.value);
      return Success(op);
    }

    method SetKind(kind: Option<string>) returns (outcome: Outcome)
      modifies this`kind
      ensures outcome.Ok? <==> kind.Some?
      ensures outcome.Ok? ==> this.kind == kind
      ensures outcome.NullArgument? ==> outcome.field == "kind" && this.kind == old(this.kind)
    {
      var checked := CheckNotNull(kind, "kind");
      if checked.Failure? {
        return NullArgument(checked.field);
      }
      this.kind := Some(checked.value);
      return Ok;
    }

    method SetAnnotationId(annotationId: Option<string>)
      modifies this`annotationId
      ensures this.annotationId == annotationId
    {
      this.annotationId := annotationId;
    }

    /** `equals`: the same runtime class, then `kind` and `annotationId` null-safe equal. */
    function Equals(env: Env, obj: object?): (r: bool)
      reads this, obj
      ensures r ==> obj is ResourceOperation
      ensures r ==> (obj as ResourceOperation).runtimeClass == runtimeClass
    {
      obj is ResourceOperation &&
      var other := obj as ResourceOperation;
      other.runtimeClass == runtimeClass &&
      NullSafeEquals(env, OfStr(kind), OfStr(other.kind)) &&
      NullSafeEquals(env, OfStr(annotationId), OfStr(other.annotationId))
    }

    /** The hashes of the fields in declaration order, 0 for an absent field. */
    function FieldHashes(env: Env): (hs: seq<int32>)
      reads this
      ensures |hs| == 2
    {
      [HashOrZero(env, OfStr(kind)), HashOrZero(env, OfStr(annotationId))]
    }

    /** `hashCode`: the 31-fold over `kind` and `annotationId` in declaration order,
        starting at 1. */
    function HashCode(env: Env): (r: int32)
      reads this
      ensures r == Polynomial(1, FieldHashes(env))
    {
      FoldHashIsPolynomial(1, FieldHashes(env));
      FoldHash(1, FieldHashes(env))
    }

    /** `equals` is reflexive (which covers the `this == obj` shortcut) and symmetric, and
        equal objects have equal hash codes. */
    lemma EqualsContract(env: Env, other: ResourceOperation)
      requires Lawful(env)
      ensures Equals(env, this)
      ensures Equals(env, other) ==> other.Equals(env, this)
      ensures Equals(env, other) ==> HashCode(env) == other.HashCode(env)
    {
      FieldComparisonsLawful(env);
    }

    /** Operations made as different subclasses are never equal, even when `kind` and
        `annotationId` agree: `getClass()` is compared before any field. */
    lemma SubclassesNeverEqual(env: Env, other: ResourceOperation)
      requires runtimeClass != other.runtimeClass
      ensures !Equals(env, other) && !other.Equals(env, this)
    {
    }
  }

  /** `CreateFilesParams`: the files of a `workspace/willCreateFiles` or
      `workspace/didCreateFiles` notification, a mandatory list. */
  class CreateFilesParams {
    var files: Option<seq<Option<Obj>>>

    /** The no-argument constructor; the field initialiser makes `files` an empty list. */
    constructor ()
      ensures files == Some([])
    {
      files := Some([]);
    }

    /** `CreateFilesParams(files)`: checks `files`. */
    static method Create(files: Option<seq<Option<Obj>>>) returns (r: Result<CreateFilesParams>)
      ensures r.Success? <==> files.Some?
      ensures r.Failure? ==> r.field == "files"
      ensures r.Success? ==> fresh(r.value) && r.value.files == files
    {
      var p := new CreateFilesParams();
      var checked := CheckNotNull(files, "files");
      if checked.Failure? {
        return Failure(checked.field);
      }
      p.files := Some(checked.value);
      return Success(p);
    }

    method SetFiles(files: Option<seq<Option<Obj>>>) returns (outcome: Outcome)
      modifies this`files
      ensures outcome.Ok? <==> files.Some?
      ensures outcome.Ok? ==> this.files == files
      ensures outcome.NullArgument? ==> outcome.field == "files" && this.files == old(this.files)
    {
      var checked := CheckNotNull(files, "files");
      if checked.Failure? {
        return NullArgument(checked.field);
      }
      this.files := Some(checked.value);
      return Ok;
    }

    /** `equals`: the same class, then `files` null-safe equal, `files` element by element. */
    function Equals(env: Env, obj: object?): (r: bool)
      reads this, obj
      ensures r ==> obj is CreateFilesParams
    {
      obj is CreateFilesParams &&
      var other := obj as CreateFilesParams;
      ListEquals(env, OfObjs(files), OfObjs(other.files))
    }

    /** The hashes of the fields in declaration order, 0 for an absent field. */
    function FieldHashes(env: Env): (hs: seq<int32>)
      reads this
      ensures |hs| == 1
    {
      [ListHashOrZero(env, OfObjs(files))]
    }

    /** `hashCode`: `31 * 1 + h(files)`, where `h` is the list hash (itself a 31-fold from 1
        over the elements). */
    function HashCode(env: Env): (r: int32)
      reads this
      ensures r == Polynomial(1, FieldHashes(env))
      ensures files.None? ==> r == 31
    {
      FoldHashIsPolynomial(1, FieldHashes(env));
      FoldHash(1, FieldHashes(env))
    }

    /** `equals` is reflexive (which covers the `this == obj` shortcut) and symmetric, and
        equal objects have equal hash codes. */
    lemma EqualsContract(env: Env, other: CreateFilesParams)
      requires Lawful(env)
      ensures Equals(env, this)
      ensures Equals(env, other) ==> other.Equals(env, this)
      ensures Equals(env, other) ==> HashCode(env) == other.HashCode(env)
    {
      FieldComparisonsLawful(env);
    }

    /** Two objects whose `files` hold equal elements in the same order are equal, whether
        or not they share the list. */
    lemma EqualFilesMakeEqualParams(env: Env, other: CreateFilesParams)
      requires files.Some? && other.files.Some?
      requires |files.value| == |other.files.value|
      requires forall i :: 0 <= i < |files.value| ==> NullSafeEquals(env, OfObj(files.value[i]), OfObj(other.files.value[i]))
      ensures Equals(env, other)
    {
      ElementsEqualAt(env, OfObjs(files).value, OfObjs(other.files).value);
    }

    /** A default-constructed object, whose `files` is the empty list, hashes to
        `31 * 1 + 1`: the empty list hashes to 1. */
    lemma EmptyFilesHash(env: Env)
      requires files == Some([])
      ensures HashCode(env) == 32
    {
      var elements := OfObjs(files).value;
      assert |elements| == 0;
      assert ElementHashes(env, elements) == [];
      assert FieldHashes(env) == [1];
    }
  }
}
