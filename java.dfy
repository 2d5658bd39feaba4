/** The slice of the Java runtime that the generated message classes rely on:
    32-bit `int` arithmetic, `null`, the `Either` token type, `Preconditions.checkNotNull`,
    `equals`/`hashCode` of classes outside this model, and the element-wise
    equality and hashing of `java.util.List` and `java.util.Arrays.deepEquals`/`deepHashCode`. */
module Java {

  /** A Java `int`. */
  type int32 = x: int | -0x8000_0000 <= x < 0x8000_0000

  /** The Java `int` with the same low 32 bits as `x` (two's complement wrap-around). */
  function Wrap(x: int): (r: int32)
    ensures (x - r) % 0x1_0000_0000 == 0
    ensures -0x8000_0000 <= x < 0x8000_0000 ==> r == x
  {
    (x + 0x8000_0000) % 0x1_0000_0000 - 0x8000_0000
  }

  /** The multiplier of every generated `hashCode`. */
  const Prime: int32 := 31

  /** One step of a generated `hashCode`: `prime * result + h` in `int` arithmetic. */
  function Mix(result: int32, h: int32): int32 {
    Wrap(Prime * result + h)
  }

  /** Java wraps after the multiplication and again after the addition; wrapping once at
      the end gives the same `int`. */
  lemma MixWrapsEachOperation(result: int32, h: int32)
    ensures Mix(result, h) == Wrap(Wrap(Prime * result) + h)
  {
    var m := Prime * result;
    var k := (m - Wrap(m)) / 0x1_0000_0000;
    assert m + h == (Wrap(m) + h) + k * 0x1_0000_0000;
    WrapPeriodic(Wrap(m) + h, k);
  }

  lemma WrapPeriodic(x: int, k: int)
    ensures Wrap(x + k * 0x1_0000_0000) == Wrap(x)
  {
    var q := (x + 0x8000_0000) / 0x1_0000_0000;
    var r := (x + 0x8000_0000) % 0x1_0000_0000;
    assert x + k * 0x1_0000_0000 + 0x8000_0000 == (q + k) * 0x1_0000_0000 + r;
  }

  /** Wrapping the running result before the next step does not change the final `int`. */
  lemma WrapBeforeStep(a: int, h: int)
    ensures Wrap(Prime * Wrap(a) + h) == Wrap(Prime * a + h)
  {
    var k := (a - Wrap(a)) / 0x1_0000_0000;
    assert a == Wrap(a) + k * 0x1_0000_0000;
    assert Prime * a + h == (Prime * Wrap(a) + h) + (Prime * k) * 0x1_0000_0000;
    WrapPeriodic(Prime * Wrap(a) + h, Prime * k);
  }

  /** A generated `hashCode`: starting from `seed` (1, or `super.hashCode()` in a subclass),
      `result = 31 * result + h` for each field hash `h` in declaration order. */
  function FoldHash(seed: int32, hs: seq<int32>): int32
    decreases |hs|
  {
    if |hs| == 0 then seed else Mix(FoldHash(seed, hs[..|hs| - 1]), hs[|hs| - 1])
  }

  function Pow31(n: nat): (p: nat)
    ensures p >= 1
  {
    if n == 0 then 1 else 31 * Pow31(n - 1)
  }

  /** `hs[0] * 31^(n-1) + hs[1] * 31^(n-2) + ... + hs[n-1]` for `n == |hs|`. */
  function Weighted(hs: seq<int32>): int
    decreases |hs|
  {
    if |hs| == 0 then 0 else hs[0] * Pow31(|hs| - 1) + Weighted(hs[1..])
  }

  /** The closed form of a generated `hashCode`: `seed * 31^n + Σ hs[i] * 31^(n-1-i)`,
      reduced to a Java `int`. */
  function Polynomial(seed: int32, hs: seq<int32>): int32 {
    Wrap(Pow31(|hs|) * seed + Weighted(hs))
  }

  lemma {:induction false} WeightedSnoc(hs: seq<int32>, h: int32)
    ensures Weighted(hs + [h]) == Prime * Weighted(hs) + h
    decreases |hs|
  {
    if |hs| == 0 {
      assert Weighted([h]) == h * Pow31(0) + Weighted([]);
    } else {
      var x := hs[0];
      assert (hs + [h])[0] == x && (hs + [h])[1..] == hs[1..] + [h];
      WeightedSnoc(hs[1..], h);
      assert x * Pow31(|hs|) == Prime * (x * Pow31(|hs| - 1));
    }
  }

  /** The loop of a generated `hashCode`, wrapping at every step, computes the polynomial
      of its field hashes modulo 2^32. */
  lemma {:induction false} FoldHashIsPolynomial(seed: int32, hs: seq<int32>)
    ensures FoldHash(seed, hs) == Polynomial(seed, hs)
    decreases |hs|
  {
    if |hs| != 0 {
      var init, h := hs[..|hs| - 1], hs[|hs| - 1];
      assert init + [h] == hs;
      FoldHashIsPolynomial(seed, init);
      var ps := Pow31(|init|) * seed;
      var a := ps + Weighted(init);
      assert FoldHash(seed, hs) == Wrap(Prime * Wrap(a) + h);
      assert Pow31(|hs|) * seed == Prime * ps by {
        MulByPrime(Pow31(|init|), seed);
      }
      assert Weighted(hs) == Prime * Weighted(init) + h by {
        WeightedSnoc(init, h);
      }
      WrapBeforeStep(a, h);
    }
  }

  lemma MulByPrime(x: int, y: int)
    ensures (Prime * x) * y == Prime * (x * y)
  {
  }

  /** A one-field hash `31 + h` never collides: `31 + h` ranges over 2^32 consecutive
      integers as `h` ranges over `int`, and wrapping is one-to-one on such a window. */
  lemma SingleFieldHashInjective(a: int32, b: int32)
    ensures Polynomial(1, [a]) == Polynomial(1, [b]) <==> a == b
  {
    assert Weighted([a]) == a by {
      assert Weighted([a]) == a * Pow31(0) + Weighted([]);
    }
    assert Weighted([b]) == b by {
      assert Weighted([b]) == b * Pow31(0) + Weighted([]);
    }
    if Wrap(31 + a) == Wrap(31 + b) {
      var d := (31 + a) - (31 + b);
      assert (d - (Wrap(31 + a) - Wrap(31 + b))) % 0x1_0000_0000 == 0 by {
        var wa, wb := Wrap(31 + a), Wrap(31 + b);
        var ka := ((31 + a) - wa) / 0x1_0000_0000;
        var kb := ((31 + b) - wb) / 0x1_0000_0000;
        assert 31 + a == wa + ka * 0x1_0000_0000;
        assert 31 + b == wb + kb * 0x1_0000_0000;
        assert d - (wa - wb) == (ka - kb) * 0x1_0000_0000;
      }
      assert d % 0x1_0000_0000 == 0;
      assert -0x1_0000_0000 < d < 0x1_0000_0000;
    }
  }

  /** `null` is `None`; a present reference is `Some`. */
  datatype Option<+T> = None | Some(value: T)

  /** `org.eclipse.lsp4j.jsonrpc.messages.Either`: exactly one of two alternatives. */
  datatype Either<+L, +R> = Left(left: L) | Right(right: R)

  /** A progress token: a `String` or an `Integer`. */
  type Token = Either<string, int32>

  /** An object of a class that is not part of this model (`Range`, `Location`, an enum
      constant, a JSON tree carried through as `Object`, ...). */
  type Obj(==, !new)

  /** A non-null field value, as the field's own `equals` and `hashCode` see it. */
  datatype Value =
    | Str(s: string)
    | Int(i: int32)
    | Bool(b: bool)
    | Tok(t: Token)
    | Ref(o: Obj)
      /** The part of an object declared in the superclass `cls`, which is not part of
          this model, holding the values the shown constructors pass to it. */
    | Record(cls: string, fields: seq<Option<Value>>)

  /** The `equals` and `hashCode` of every class that is not part of this model. */
  datatype Env = Env(equals: (Value, Value) -> bool, hashCode: Value -> int32)

  /** The `java.lang.Object` contract those classes keep: `equals` is reflexive and
      symmetric, and equal values have equal hash codes. */
  ghost predicate Lawful(env: Env) {
    && (forall v :: env.equals(v, v))
    && (forall v, w :: env.equals(v, w) ==> env.equals(w, v))
    && (forall v, w :: env.equals(v, w) ==> env.hashCode(v) == env.hashCode(w))
  }

  function OfStr(s: Option<string>): Option<Value> {
    match s
    case None => None
    case Some(x) => Some(Str(x))
  }

  function OfInt(n: Option<int32>): Option<Value> {
    match n
    case None => None
    case Some(x) => Some(Int(x))
  }

  function OfBool(b: Option<bool>): Option<Value> {
    match b
    case None => None
    case Some(x) => Some(Bool(x))
  }

  function OfToken(t: Option<Token>): Option<Value> {
    match t
    case None => None
    case Some(x) => Some(Tok(x))
  }

  function OfObj(o: Option<Obj>): Option<Value> {
    match o
    case None => None
    case Some(x) => Some(Ref(x))
  }

  function OfStrs(l: Option<seq<Option<string>>>): Option<seq<Option<Value>>> {
    match l
    case None => None
    case Some(xs) => Some(seq(|xs|, i requires 0 <= i < |xs| => OfStr(xs[i])))
  }

  function OfObjs(l: Option<seq<Option<Obj>>>): Option<seq<Option<Value>>> {
    match l
    case None => None
    case Some(xs) => Some(seq(|xs|, i requires 0 <= i < |xs| => OfObj(xs[i])))
  }

  /** The current contents of a Java array of objects, `None` for a `null` array. */
  function OfObjArray(a: array?<Option<Obj>>): (r: Option<seq<Option<Value>>>)
    reads a
    ensures r.None? <==> a == null
    ensures a != null ==> |r.value| == a.Length && forall i :: 0 <= i < a.Length ==> r.value[i] == OfObj(a[i])
  {
    if a == null then None else Some(seq(a.Length, i requires 0 <= i < a.Length reads a => OfObj(a[i])))
  }

  /** The comparison every generated `equals` makes of one field:
      `this.f == null ? other.f == null : this.f.equals(other.f)`
      (and `x.equals(null)` is false, as the `Object` contract requires). */
  function NullSafeEquals(env: Env, a: Option<Value>, b: Option<Value>): bool {
    match a
    case None => b.None?
    case Some(x) => b.Some? && env.equals(x, b.value)
  }

  /** What one field adds to a generated `hashCode`: `f == null ? 0 : f.hashCode()`. */
  function HashOrZero(env: Env, a: Option<Value>): int32 {
    match a
    case None => 0
    case Some(x) => env.hashCode(x)
  }

  /** `List.equals`, and `Arrays.deepEquals` on arrays of (non-array) objects: the same
      length and null-safe equal elements, position by position. */
  function ElementsEqual(env: Env, a: seq<Option<Value>>, b: seq<Option<Value>>): bool
    decreases |a|
  {
    if |a| == 0 || |b| == 0 then |a| == |b|
    else NullSafeEquals(env, a[0], b[0]) && ElementsEqual(env, a[1..], b[1..])
  }

  /** The hash of each element of a list or array, 0 for `null`. */
  function ElementHashes(env: Env, a: seq<Option<Value>>): (hs: seq<int32>)
    ensures |hs| == |a|
  {
    seq(|a|, i requires 0 <= i < |a| => HashOrZero(env, a[i]))
  }

  /** `List.hashCode` and `Arrays.deepHashCode`: the loop `result = 31 * result + h(e)`
      over the elements, starting at 1. */
  function ElementsHash(env: Env, a: seq<Option<Value>>): int32 {
    FoldHash(1, ElementHashes(env, a))
  }

  /** A nullable list or array field compared as the generated `equals` compares it. */
  function ListEquals(env: Env, a: Option<seq<Option<Value>>>, b: Option<seq<Option<Value>>>): bool {
    match a
    case None => b.None?
    case Some(xs) => b.Some? && ElementsEqual(env, xs, b.value)
  }

  /** What a nullable list or array field adds to a generated `hashCode`. */
  function ListHashOrZero(env: Env, a: Option<seq<Option<Value>>>): int32 {
    match a
    case None => 0
    case Some(xs) => ElementsHash(env, xs)
  }

  /** Element-wise equality is exactly "same length and equal at every index". */
  lemma {:induction false} ElementsEqualAt(env: Env, a: seq<Option<Value>>, b: seq<Option<Value>>)
    ensures ElementsEqual(env, a, b) <==>
              |a| == |b| && forall i :: 0 <= i < |a| ==> NullSafeEquals(env, a[i], b[i])
    decreases |a|
  {
    if |a| != 0 && |b| != 0 {
      ElementsEqualAt(env, a[1..], b[1..]);
      if |a| == |b| && forall i :: 0 <= i < |a| ==> NullSafeEquals(env, a[i], b[i]) {
        forall i | 0 <= i < |a| - 1 ensures NullSafeEquals(env, a[1..][i], b[1..][i]) {
          assert a[1..][i] == a[i + 1] && b[1..][i] == b[i + 1];
        }
      }
      if ElementsEqual(env, a, b) {
        forall i | 0 <= i < |a| ensures NullSafeEquals(env, a[i], b[i]) {
          if i > 0 {
            assert a[i] == a[1..][i - 1] && b[i] == b[1..][i - 1];
          }
        }
      }
    }
  }

  lemma {:induction false} ElementsEqualReflexive(env: Env, a: seq<Option<Value>>)
    requires Lawful(env)
    ensures ElementsEqual(env, a, a)
    decreases |a|
  {
    if |a| != 0 {
      ElementsEqualReflexive(env, a[1..]);
    }
  }

  lemma {:induction false} ElementsEqualSymmetric(env: Env, a: seq<Option<Value>>, b: seq<Option<Value>>)
    requires Lawful(env)
    requires ElementsEqual(env, a, b)
    ensures ElementsEqual(env, b, a)
    decreases |a|
  {
    if |a| != 0 && |b| != 0 {
      ElementsEqualSymmetric(env, a[1..], b[1..]);
    }
  }

  /** Element-wise equal lists and arrays hash alike. */
  lemma ElementsEqualHash(env: Env, a: seq<Option<Value>>, b: seq<Option<Value>>)
    requires Lawful(env)
    requires ElementsEqual(env, a, b)
    ensures ElementsHash(env, a) == ElementsHash(env, b)
  {
    ElementsEqualAt(env, a, b);
    assert ElementHashes(env, a) == ElementHashes(env, b);
  }

  /** Under a lawful environment the null-safe field comparisons of the generated
      `equals` are reflexive and symmetric and agree with the field hashes of the
      generated `hashCode`. Every message class's own equality contract rests on this. */
  lemma FieldComparisonsLawful(env: Env)
    requires Lawful(env)
    ensures forall a :: NullSafeEquals(env, a, a)
    ensures forall a, b :: NullSafeEquals(env, a, b) ==> NullSafeEquals(env, b, a)
    ensures forall a, b :: NullSafeEquals(env, a, b) ==> HashOrZero(env, a) == HashOrZero(env, b)
    ensures forall l :: ListEquals(env, l, l)
    ensures forall l, m :: ListEquals(env, l, m) ==> ListEquals(env, m, l)
    ensures forall l, m :: ListEquals(env, l, m) ==> ListHashOrZero(env, l) == ListHashOrZero(env, m)
  {
    forall l: Option<seq<Option<Value>>> ensures ListEquals(env, l, l) {
      if l.Some? {
        ElementsEqualReflexive(env, l.value);
      }
    }
    forall l: Option<seq<Option<Value>>>, m | ListEquals(env, l, m)
      ensures ListEquals(env, m, l)
      ensures ListHashOrZero(env, l) == ListHashOrZero(env, m)
    {
      if l.Some? {
        ElementsEqualSymmetric(env, l.value, m.value);
        ElementsEqualHash(env, l.value, m.value);
      }
    }
  }

  /** `Preconditions.checkNotNull(value, name)`: a present value passes through, `null`
      fails with an exception naming the field. */
  datatype Result<+T> = Success(value: T) | Failure(field: string)

  function CheckNotNull<T>(v: Option<T>, name: string): (r: Result<T>)
    ensures r.Success? <==> v.Some?
    ensures r.Success? ==> r.value == v.value
    ensures r.Failure? ==> r.field == name
  {
    match v
    case None => Failure(name)
    case Some(x) => Success(x)
  }

  /** How a setter call ends: normally, or with the exception `checkNotNull` throws. */
  datatype Outcome = Ok | NullArgument(field: string)
}
