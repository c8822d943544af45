/**
 * The asset-tree flattener of lib/common/utils.ts (`flattenObject`).
 *
 * JavaScript values are given an explicit shape. An object's properties are
 * listed in the order the engine enumerates them, which is the order
 * `Object.values` returns them in.
 */
module Utils {
  import opened Wrappers

  /** The `typeof` kinds that the flattener has no branch for. */
  datatype OtherKind = Undefined | Function | Symbol | BigInt

  datatype Value =
    | Str(s: string)
    | Num(n: int)
    | Bool(b: bool)
    | Arr(items: seq<Value>)
    | Obj(props: seq<Prop>)
    | Null
    | Other(kind: OtherKind)

  datatype Prop = Prop(key: string, value: Value)

  /** An element of a flattened list: a string, number or boolean. */
  datatype Scalar = SStr(s: string) | SNum(n: int) | SBool(b: bool)

  datatype FlattenError =
    /** "Unsupported type", thrown after the offending value is logged. */
    | UnsupportedType(logged: Value)
    /** `typeof null` is "object", so `Object.values(null)` throws a TypeError. */
    | NullHasNoValues

  predicate IsScalar(v: Value) {
    v.Str? || v.Num? || v.Bool?
  }

  function AsScalar(v: Value): Scalar
    requires IsScalar(v)
  {
    match v
    case Str(s) => SStr(s)
    case Num(n) => SNum(n)
    case Bool(b) => SBool(b)
  }

  function Lift(x: Scalar): (v: Value)
    ensures IsScalar(v) && AsScalar(v) == x
  {
    match x
    case SStr(s) => Str(s)
    case SNum(n) => Num(n)
    case SBool(b) => Bool(b)
  }

  /** A flat list given back as a JavaScript array. */
  function LiftAll(xs: seq<Scalar>): (vs: seq<Value>)
    ensures |vs| == |xs| && forall i :: 0 <= i < |xs| ==> vs[i] == Lift(xs[i])
  {
    seq(|xs|, i requires 0 <= i < |xs| => Lift(xs[i]))
  }

  /** `Object.values`: the property values in enumeration order. */
  function ValuesOf(props: seq<Prop>): (vs: seq<Value>)
    ensures |vs| == |props| && forall i :: 0 <= i < |props| ==> vs[i] == props[i].value
  {
    seq(|props|, i requires 0 <= i < |props| => props[i].value)
  }

  /** Concatenates two partial results; the first failure wins, as the first throw does. */
  function Join(a: Result<seq<Scalar>, FlattenError>, b: Result<seq<Scalar>, FlattenError>): Result<seq<Scalar>, FlattenError>
  {
    match a
    case Failure(e) => Failure(e)
    case Success(x) =>
      match b
      case Failure(e) => Failure(e)
      case Success(y) => Success(x + y)
  }

  /**
   * `flattenObject`: an array is the concatenation of its flattened elements,
   * an object is flattened through its values, a string, number or boolean is a
   * one-element list, and anything else throws.
   */
  function Flatten(v: Value): Result<seq<Scalar>, FlattenError>
    decreases v, 1
  {
    match v
    case Arr(items) => FlattenAll(items)
    case Obj(props) => FlattenProps(props)
    case Null => Failure(NullHasNoValues)
    case Other(_) => Failure(UnsupportedType(v))
    case Str(s) => Success([SStr(s)])
    case Num(n) => Success([SNum(n)])
    case Bool(b) => Success([SBool(b)])
  }

  /** `subject.map(flattenObject).flat()`, evaluated left to right. */
  function FlattenAll(items: seq<Value>): Result<seq<Scalar>, FlattenError>
    decreases items, 0
  {
    if items == [] then Success([])
    else Join(Flatten(items[0]), FlattenAll(items[1..]))
  }

  /** Flattening an object's properties, one value after the other. */
  function FlattenProps(props: seq<Prop>): Result<seq<Scalar>, FlattenError>
    decreases props, 0
  {
    if props == [] then Success([])
    else Join(Flatten(props[0].value), FlattenProps(props[1..]))
  }

  // ---------------------------------------------------------------------------
  // Reference semantics: the leaves of the tree in depth-first order.
  // ---------------------------------------------------------------------------

  /** Every node that is not an array or object, depth first, keys in enumeration order. */
  function Leaves(v: Value): seq<Value>
    decreases v, 1
  {
    match v
    case Arr(items) => LeavesAll(items)
    case Obj(props) => LeavesProps(props)
    case _ => [v]
  }

  function LeavesAll(items: seq<Value>): seq<Value>
    decreases items, 0
  {
    if items == [] then [] else Leaves(items[0]) + LeavesAll(items[1..])
  }

  function LeavesProps(props: seq<Prop>): seq<Value>
    decreases props, 0
  {
    if props == [] then [] else Leaves(props[0].value) + LeavesProps(props[1..])
  }

  /** The error a non-scalar leaf raises. */
  function LeafError(v: Value): FlattenError
  {
    if v.Null? then NullHasNoValues else UnsupportedType(v)
  }

  /** Reads a list of leaves left to right, stopping at the first one that is not a scalar. */
  function Collect(leaves: seq<Value>): Result<seq<Scalar>, FlattenError>
  {
    if leaves == [] then Success([])
    else if !IsScalar(leaves[0]) then Failure(LeafError(leaves[0]))
    else Join(Success([AsScalar(leaves[0])]), Collect(leaves[1..]))
  }

  lemma JoinIsAssociative(a: Result<seq<Scalar>, FlattenError>, b: Result<seq<Scalar>, FlattenError>, c: Result<seq<Scalar>, FlattenError>)
    ensures Join(a, Join(b, c)) == Join(Join(a, b), c)
  {
    if a.Success? && b.Success? && c.Success? {
      assert a.value + (b.value + c.value) == (a.value + b.value) + c.value;
    }
  }

  lemma JoinEmpty(a: Result<seq<Scalar>, FlattenError>)
    ensures Join(Success([]), a) == a && Join(a, Success([])) == a
  {
    if a.Success? {
      assert [] + a.value == a.value && a.value + [] == a.value;
    }
  }

  lemma {:induction false} CollectAppend(a: seq<Value>, b: seq<Value>)
    ensures Collect(a + b) == Join(Collect(a), Collect(b))
  {
    if a == [] {
      assert a + b == b;
      JoinEmpty(Collect(b));
    } else {
      assert (a + b)[1..] == a[1..] + b;
      CollectAppend(a[1..], b);
      if IsScalar(a[0]) {
        JoinIsAssociative(Success([AsScalar(a[0])]), Collect(a[1..]), Collect(b));
      }
    }
  }

  /** Flattening reads the leaves of the tree, depth first. */
  lemma {:induction false} FlattenReadsLeaves(v: Value)
    ensures Flatten(v) == Collect(Leaves(v))
    decreases v, 1
  {
    match v
    case Arr(items) => FlattenAllReadsLeaves(items);
    case Obj(props) => FlattenPropsReadsLeaves(props);
    case _ =>
      assert [v][1..] == [];
      JoinEmpty(Flatten(v));
  }

  lemma {:induction false} FlattenAllReadsLeaves(items: seq<Value>)
    ensures FlattenAll(items) == Collect(LeavesAll(items))
    decreases items, 0
  {
    if items != [] {
      FlattenReadsLeaves(items[0]);
      FlattenAllReadsLeaves(items[1..]);
      CollectAppend(Leaves(items[0]), LeavesAll(items[1..]));
    }
  }

  lemma {:induction false} FlattenPropsReadsLeaves(props: seq<Prop>)
    ensures FlattenProps(props) == Collect(LeavesProps(props))
    decreases props, 0
  {
    if props != [] {
      FlattenReadsLeaves(props[0].value);
      FlattenPropsReadsLeaves(props[1..]);
      CollectAppend(Leaves(props[0].value), LeavesProps(props[1..]));
    }
  }

  /**
   * What reading a list of leaves produces: every leaf, in order, duplicates
   * included, when all are scalars; otherwise the error of the first one that is not.
   */
  lemma {:induction false} CollectSpec(leaves: seq<Value>)
    ensures Collect(leaves).Success? <==> forall i :: 0 <= i < |leaves| ==> IsScalar(leaves[i])
    ensures Collect(leaves).Success? ==>
      && |Collect(leaves).value| == |leaves|
      && forall i :: 0 <= i < |leaves| ==> Lift(Collect(leaves).value[i]) == leaves[i]
    ensures Collect(leaves).Failure? ==>
      exists k :: 0 <= k < |leaves| && !IsScalar(leaves[k])
        && (forall i :: 0 <= i < k ==> IsScalar(leaves[i]))
        && Collect(leaves).error == LeafError(leaves[k])
  {
    if leaves != [] && IsScalar(leaves[0]) {
      CollectSpec(leaves[1..]);
      var rest := Collect(leaves[1..]);
      if rest.Failure? {
        var k :| 0 <= k < |leaves[1..]| && !IsScalar(leaves[1..][k])
          && (forall i :: 0 <= i < k ==> IsScalar(leaves[1..][i]))
          && rest.error == LeafError(leaves[1..][k]);
        assert !IsScalar(leaves[k + 1]) && forall i :: 0 <= i < k + 1 ==> IsScalar(leaves[i]) by {
          forall i | 0 <= i < k + 1 ensures IsScalar(leaves[i]) {
            if i > 0 { assert leaves[i] == leaves[1..][i - 1]; }
          }
        }
      } else {
        forall i | 0 <= i < |leaves| ensures Lift(Collect(leaves).value[i]) == leaves[i] {
          if i > 0 { assert Collect(leaves).value[i] == rest.value[i - 1]; }
        }
      }
    } else if leaves != [] {
      assert !IsScalar(leaves[0]);
    }
  }

  /**
   * The flattener's contract, stated against the leaves of the tree: it succeeds
   * exactly when every leaf is a string, number or boolean, and then returns every
   * leaf in depth-first, enumeration order, duplicates kept; otherwise it fails with
   * the error of the first other leaf (a logged "Unsupported type", or the TypeError
   * of `Object.values(null)`).
   */
  lemma FlattenSpec(v: Value)
    ensures Flatten(v).Success? <==> forall i :: 0 <= i < |Leaves(v)| ==> IsScalar(Leaves(v)[i])
    ensures Flatten(v).Success? ==>
      && |Flatten(v).value| == |Leaves(v)|
      && forall i :: 0 <= i < |Leaves(v)| ==> Lift(Flatten(v).value[i]) == Leaves(v)[i]
    ensures Flatten(v).Failure? ==>
      exists k :: 0 <= k < |Leaves(v)| && !IsScalar(Leaves(v)[k])
        && (forall i :: 0 <= i < k ==> IsScalar(Leaves(v)[i]))
        && Flatten(v).error == LeafError(Leaves(v)[k])
  {
    FlattenReadsLeaves(v);
    CollectSpec(Leaves(v));
  }

  /** A scalar is the one-element list; an empty array or object is the empty list. */
  lemma FlattenBaseCases(v: Value)
    ensures IsScalar(v) ==> Flatten(v) == Success([AsScalar(v)])
    ensures v == Arr([]) || v == Obj([]) ==> Flatten(v) == Success([])
    ensures v.Other? ==> Flatten(v) == Failure(UnsupportedType(v))
    ensures v.Null? ==> Flatten(v) == Failure(NullHasNoValues)
  {
  }

  /** An array flattens to the concatenation, in order, of its parts' flattenings. */
  lemma {:induction false} FlattenArrayConcat(a: seq<Value>, b: seq<Value>)
    ensures Flatten(Arr(a + b)) == Join(Flatten(Arr(a)), Flatten(Arr(b)))
  {
    if a == [] {
      assert a + b == b;
      JoinEmpty(FlattenAll(b));
    } else {
      assert (a + b)[1..] == a[1..] + b;
      FlattenArrayConcat(a[1..], b);
      JoinIsAssociative(Flatten(a[0]), FlattenAll(a[1..]), FlattenAll(b));
    }
  }

  /** An object flattens exactly as the array of its values (`flattenObject(Object.values(o))`). */
  lemma {:induction false} ObjectFlattensItsValues(props: seq<Prop>)
    ensures Flatten(Obj(props)) == Flatten(Arr(ValuesOf(props)))
  {
    if props != [] {
      ObjectFlattensItsValues(props[1..]);
      assert ValuesOf(props)[1..] == ValuesOf(props[1..]);
    }
  }

  /** The output is flat: flattening it again as an array gives it back unchanged. */
  lemma {:induction false} FlattenIsIdempotent(v: Value)
    requires Flatten(v).Success?
    ensures Flatten(Arr(LiftAll(Flatten(v).value))) == Flatten(v)
  {
    FlattenLiftedList(Flatten(v).value);
  }

  lemma {:induction false} FlattenLiftedList(xs: seq<Scalar>)
    ensures FlattenAll(LiftAll(xs)) == Success(xs)
  {
    if xs != [] {
      assert LiftAll(xs)[1..] == LiftAll(xs[1..]);
      FlattenLiftedList(xs[1..]);
      assert Flatten(Lift(xs[0])) == Success([xs[0]]);
      assert [xs[0]] + xs[1..] == xs;
    }
  }
}
