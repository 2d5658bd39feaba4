/** Progress tokens: the work-done and partial-result tokens a request may carry, the
    `$/progress` notification and the `window/workDoneProgress/cancel` notification. */
module Progress {
  import opened Java

  /** The abstract `WorkDoneProgressAndPartialResultParams`: the optional work-done and
      partial-result tokens of a request. Its subclasses hold it as `base`. */
  class WorkDoneProgressAndPartialResultParams {
    /** What `getClass()` returns: the concrete subclass. */
    const runtimeClass: string
    var workDoneToken: Option<Token>
    var partialResultToken: Option<Token>

    /** The implicit constructor, run for a concrete subclass: both tokens absent. */
    constructor (runtimeClass: string)
      ensures this.runtimeClass == runtimeClass
      ensures workDoneToken.None? && partialResultToken.None?
    {
      this.runtimeClass := runtimeClass;
      workDoneToken := None;
      partialResultToken := None;
    }

    /** `setWorkDoneToken(Either)`: stores its argument, `null` included. */
    method SetWorkDoneToken(workDoneToken: Option<Token>)
      modifies this`workDoneToken
      ensures this.workDoneToken == workDoneToken
    {
      this.workDoneToken := workDoneToken;
    }

    /** `setWorkDoneToken(String)`: `null` clears the field, anything else is stored as
        `Either.forLeft`. */
    method SetWorkDoneTokenString(workDoneToken: Option<string>)
      modifies this`workDoneToken
      ensures workDoneToken.None? ==> this.workDoneToken.None?
      ensures workDoneToken.Some? ==> this.workDoneToken == Some(Left(workDoneToken.value))
    {
      if workDoneToken.None? {
        this.workDoneToken := None;
        return;
      }
      this.workDoneToken := Some(Left(workDoneToken.value));
    }

    /** `setWorkDoneToken(Integer)`: `null` clears the field, anything else is stored as
        `Either.forRight`. */
    method SetWorkDoneTokenInteger(workDoneToken: Option<int32>)
      modifies this`workDoneToken
      ensures workDoneToken.None? ==> this.workDoneToken.None?
      ensures workDoneToken.Some? ==> this.workDoneToken == Some(Right(workDoneToken.value))
    {
      if workDoneToken.None? {
        this.workDoneToken := None;
        return;
      }
      this.workDoneToken := Some(Right(workDoneToken.value));
    }

    /** `setPartialResultToken(Either)`: stores its argument, `null` included. */
    method SetPartialResultToken(partialResultToken: Option<Token>)
      modifies this`partialResultToken
      ensures this.partialResultToken == partialResultToken
    {
      this.partialResultToken := partialResultToken;
    }

    /** `setPartialResultToken(String)`: `null` clears the field, anything else is stored as
        `Either.forLeft`. */
    method SetPartialResultTokenString(partialResultToken: Option<string>)
      modifies this`partialResultToken
      ensures partialResultToken.None? ==> this.partialResultToken.None?
      ensures partialResultToken.Some? ==> this.partialResultToken == Some(Left(partialResultToken.value))
    {
      if partialResultToken.None? {
        this.partialResultToken := None;
        return;
      }
      this.partialResultToken := Some(Left(partialResultToken.value));
    }

    /** `setPartialResultToken(Integer)`: `null` clears the field, anything else is stored as
        `Either.forRight`. */
    method SetPartialResultTokenInteger(partialResultToken: Option<int32>)
      modifies this`partialResultToken
      ensures partialResultToken.None? ==> this.partialResultToken.None?
      ensures partialResultToken.Some? ==> this.partialResultToken == Some(Right(partialResultToken.value))
    {
      if partialResultToken.None? {
        this.partialResultToken := None;
        return;
      }
      this.partialResultToken := Some(Right(partialResultToken.value));
    }

    /** `equals`: the same runtime class, then `workDoneToken` and `partialResultToken`
        null-safe equal. */
    function Equals(env: Env, obj: object?): (r: bool)
      reads this, obj
      ensures r ==> obj is WorkDoneProgressAndPartialResultParams
      ensures r ==> (obj as WorkDoneProgressAndPartialResultParams).runtimeClass == runtimeClass
    {
      obj is WorkDoneProgressAndPartialResultParams &&
      var other := obj as WorkDoneProgressAndPartialResultParams;
      other.runtimeClass == runtimeClass &&
      NullSafeEquals(env, OfToken(workDoneToken), OfToken(other.workDoneToken)) &&
      NullSafeEquals(env, OfToken(partialResultToken), OfToken(other.partialResultToken))
    }

    /** The hashes of the fields in declaration order, 0 for an absent field. */
    function FieldHashes(env: Env): (hs: seq<int32>)
      reads this
      ensures |hs| == 2
    {
      [HashOrZero(env, OfToken(workDoneToken)), HashOrZero(env, OfToken(partialResultToken))]
    }

    /** `hashCode`: the 31-fold over `workDoneToken` and `partialResultToken` in declaration
        order, starting at 1. */
    function HashCode(env: Env): (r: int32)
      reads this
      ensures r == Polynomial(1, FieldHashes(env))
    {
      FoldHashIsPolynomial(1, FieldHashes(env));
      FoldHash(1, FieldHashes(env))
    }

    /** `equals` is reflexive (which covers the `this == obj` shortcut) and symmetric, and
        equal objects have equal hash codes. */
    lemma EqualsContract(env: Env, other: WorkDoneProgressAndPartialResultParams)
      requires Lawful(env)
      ensures Equals(env, this)
      ensures Equals(env, other) ==> other.Equals(env, this)
      ensures Equals(env, other) ==> HashCode(env) == other.HashCode(env)
    {
      FieldComparisonsLawful(env);
    }
  }

  /** `ProgressParams`: the `$/progress` notification, with a mandatory token and a
      mandatory payload. */
  class ProgressParams {
    var token: Option<Token>
    var value: Option<Obj>

    /** The no-argument constructor leaves both mandatory fields `null`. */
    constructor ()
      ensures token.None? && value.None?
    {
      token := None;
      value := None;
    }

    /** `ProgressParams(token, value)`: checks `token`, then `value`. */
    static method Create(token: Option<Token>, value: Option<Obj>) returns (r: Result<ProgressParams>)
      ensures r.Success? <==> token.Some? && value.Some?
      ensures token.None? ==> r == Failure("token")
      ensures token.Some? && value.None? ==> r == Failure("value")
      ensures r.Success? ==> fresh(r.value) && r.value.token == token && r.value.value == value
    {
      var p := new ProgressParams();
      var checkedToken := CheckNotNull(token, "token");
      if checkedToken.Failure? {
        return Failure(checkedToken.field);
      }
      p.token := Some(checkedToken.value);
      var checkedValue := CheckNotNull(value, "value");
      if checkedValue.Failure? {
        return Failure(checkedValue.field);
      }
      p.value := Some(checkedValue.value);
      return Success(p);
    }

    /** `setToken(Either)`: rejects `null`, naming the field, and keeps the old token. */
    method SetToken(token: Option<Token>) returns (outcome: Outcome)
      modifies this`token
      ensures outcome.Ok? <==> token.Some?
      ensures outcome.Ok? ==> this.token == token
      ensures outcome.NullArgument? ==> outcome.field == "token" && this.token == old(this.token)
    {
      var checked := CheckNotNull(token, "token");
      if checked.Failure? {
        return NullArgument(checked.field);
      }
      this.token := Some(checked.value);
      return Ok;
    }

    /** `setToken(String)`: `null` fails the not-null check, so the assignment of
        `null` that follows it is never reached; anything else is stored as `Either.forLeft`. */
    method SetTokenString(token: Option<string>) returns (outcome: Outcome)
      modifies this`token
      ensures outcome.Ok? <==> token.Some?
      ensures outcome.Ok? ==> this.token == Some(Left(token.value))
      ensures outcome.NullArgument? ==> outcome.field == "token" && this.token == old(this.token)
    {
      if token.None? {
        var checked := CheckNotNull(token, "token");
        return NullArgument(checked.field);
      }
      this.token := Some(Left(token.value));
      return Ok;
    }

    /** `setToken(Integer)`: `null` fails the not-null check, so the assignment of
        `null` that follows it is never reached; anything else is stored as `Either.forRight`. */
    method SetTokenInteger(token: Option<int32>) returns (outcome: Outcome)
      modifies this`token
      ensures outcome.Ok? <==> token.Some?
      ensures outcome.Ok? ==> this.token == Some(Right(token.value))
      ensures outcome.NullArgument? ==> outcome.field == "token" && this.token == old(this.token)
    {
      if token.None? {
        var checked := CheckNotNull(token, "token");
        return NullArgument(checked.field);
      }
      this.token := Some(Right(token.value));
      return Ok;
    }

    method SetValue(value: Option<Obj>) returns (outcome: Outcome)
      modifies this`value
      ensures outcome.Ok? <==> value.Some?
      ensures outcome.Ok? ==> this.value == value
      ensures outcome.NullArgument? ==> outcome.field == "value" && this.value == old(this.value)
    {
      var checked := CheckNotNull(value, "value");
      if checked.Failure? {
        return NullArgument(checked.field);
      }
      this.value := Some(checked.value);
      return Ok;
    }

    /** `equals`: the same class, then `token` and `value` null-safe equal. */
    function Equals(env: Env, obj: object?): (r: bool)
      reads this, obj
      ensures r ==> obj is ProgressParams
    {
      obj is ProgressParams &&
      var other := obj as ProgressParams;
      NullSafeEquals(env, OfToken(token), OfToken(other.token)) &&
      NullSafeEquals(env, OfObj(value), OfObj(other.value))
    }

    /** The hashes of the fields in declaration order, 0 for an absent field. */
    function FieldHashes(env: Env): (hs: seq<int32>)
      reads this
      ensures |hs| == 2
    {
      [HashOrZero(env, OfToken(token)), HashOrZero(env, OfObj(value))]
    }

    /** `hashCode`: `31 * (31 * 1 + h(token)) + h(value)` in `int` arithmetic. */
    function HashCode(env: Env): (r: int32)
      reads this
      ensures r == Polynomial(1, FieldHashes(env))
    {
      FoldHashIsPolynomial(1, FieldHashes(env));
      FoldHash(1, FieldHashes(env))
    }

    /** `equals` is reflexive (which covers the `this == obj` shortcut) and symmetric, and
        equal objects have equal hash codes. */
    lemma EqualsContract(env: Env, other: ProgressParams)
      requires Lawful(env)
      ensures Equals(env, this)
      ensures Equals(env, other) ==> other.Equals(env, this)
      ensures Equals(env, other) ==> HashCode(env) == other.HashCode(env)
    {
      FieldComparisonsLawful(env);
    }
  }

  /** `WorkDoneProgressCancelParams`: cancels the work-done progress named by a mandatory
      token. */
  class WorkDoneProgressCancelParams {
    var token: Option<Token>

    /** The no-argument constructor leaves the mandatory token `null`. */
    constructor ()
      ensures token.None?
    {
      token := None;
    }

    /** `WorkDoneProgressCancelParams(token)`: checks `token`. */
    static method Create(token: Option<Token>) returns (r: Result<WorkDoneProgressCancelParams>)
      ensures r.Success? <==> token.Some?
      ensures r.Failure? ==> r.field == "token"
      ensures r.Success? ==> fresh(r.value) && r.value.token == token
    {
      var p := new WorkDoneProgressCancelParams();
      var checked := CheckNotNull(token, "token");
      if checked.Failure? {
        return Failure(checked.field);
      }
      p.token := Some(checked.value);
      return Success(p);
    }

    method SetToken(token: Option<Token>) returns (outcome: Outcome)
      modifies this`token
      ensures outcome.Ok? <==> token.Some?
      ensures outcome.Ok? ==> this.token == token
      ensures outcome.NullArgument? ==> outcome.field == "token" && this.token == old(this.token)
    {
      var checked := CheckNotNull(token, "token");
      if checked.Failure? {
        return NullArgument(checked.field);
      }
      this.token := Some(checked.value);
      return Ok;
    }

    /** `setToken(String)`: `null` fails the not-null check, so the assignment of
        `null` that follows it is never reached; anything else is stored as `Either.forLeft`. */
    method SetTokenString(token: Option<string>) returns (outcome: Outcome)
      modifies this`token
      ensures outcome.Ok? <==> token.Some?
      ensures outcome.Ok? ==> this.token == Some(Left(token.value))
      ensures outcome.NullArgument? ==> outcome.field == "token" && this.token == old(this.token)
    {
      if token.None? {
        var checked := CheckNotNull(token, "token");
        return NullArgument(checked.field);
      }
      this.token := Some(Left(token.value));
      return Ok;
    }

    /** `setToken(Integer)`: `null` fails the not-null check, so the assignment of
        `null` that follows it is never reached; anything else is stored as `Either.forRight`. */
    method SetTokenInteger(token: Option<int32>) returns (outcome: Outcome)
      modifies this`token
      ensures outcome.Ok? <==> token.Some?
      ensures outcome.Ok? ==> this.token == Some(Right(token.value))
      ensures outcome.NullArgument? ==> outcome.field == "token" && this.token == old(this.token)
    {
      if token.None? {
        var checked := CheckNotNull(token, "token");
        return NullArgument(checked.field);
      }
      this.token := Some(Right(token.value));
      return Ok;
    }

    /** `equals`: the same class, then `token` null-safe equal. */
    function Equals(env: Env, obj: object?): (r: bool)
      reads this, obj
      ensures r ==> obj is WorkDoneProgressCancelParams
    {
      obj is WorkDoneProgressCancelParams &&
      var other := obj as WorkDoneProgressCancelParams;
      NullSafeEquals(env, OfToken(token), OfToken(other.token))
    }

    /** The hashes of the fields in declaration order, 0 for an absent field. */
    function FieldHashes(env: Env): (hs: seq<int32>)
      reads this
      ensures |hs| == 1
    {
      [HashOrZero(env, OfToken(token))]
    }

    /** `hashCode`: `31 * 1 + h(token)`, which is 31 while the token is absent. */
    function HashCode(env: Env): (r: int32)
      reads this
      ensures r == Polynomial(1, FieldHashes(env))
      ensures token.None? ==> r == 31
    {
      FoldHashIsPolynomial(1, FieldHashes(env));
      FoldHash(1, FieldHashes(env))
    }

    /** `equals` is reflexive (which covers the `this == obj` shortcut) and symmetric, and
        equal objects have equal hash codes. */
    lemma EqualsContract(env: Env, other: WorkDoneProgressCancelParams)
      requires Lawful(env)
      ensures Equals(env, this)
      ensures Equals(env, other) ==> other.Equals(env, this)
      ensures Equals(env, other) ==> HashCode(env) == other.HashCode(env)
    {
      FieldComparisonsLawful(env);
    }
  }
}
