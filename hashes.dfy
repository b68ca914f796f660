/** Evaluation of a Ruby hash literal such as `{ network: n, asset: a, **options }`:
    elements are taken left to right and a later key replaces an earlier one. */
module HashLiterals {
  import opened Values

  datatype Element =
    | Pair(key: string, value: Value)
    | DoubleSplat(entries: map<string, Value>)

  /** Element e puts key k into the hash. */
  predicate Binds(e: Element, k: string) {
    match e
    case Pair(key, _) => key == k
    case DoubleSplat(entries) => k in entries
  }

  /** The value e stores under k. */
  function Stored(e: Element, k: string): Value
    requires Binds(e, k)
  {
    match e
    case Pair(_, v) => v
    case DoubleSplat(entries) => entries[k]
  }

  function Insert(h: map<string, Value>, e: Element): map<string, Value> {
    match e
    case Pair(k, v) => h[k := v]
    case DoubleSplat(entries) => h + entries
  }

  /** The hash a literal built from `elems` evaluates to. */
  function Eval(elems: seq<Element>): map<string, Value> {
    if elems == [] then map[]
    else Insert(Eval(elems[..|elems| - 1]), elems[|elems| - 1])
  }

  lemma EvalSnoc(elems: seq<Element>, e: Element)
    ensures Eval(elems + [e]) == Insert(Eval(elems), e)
  {
  }

  /** A key is in the hash exactly when some element of the literal binds it. */
  lemma {:induction false} EvalKeys(elems: seq<Element>, k: string)
    ensures k in Eval(elems) <==> exists i :: 0 <= i < |elems| && Binds(elems[i], k)
  {
    if elems != [] {
      var n := |elems| - 1;
      var init := elems[..n];
      EvalKeys(init, k);
      assert forall i :: 0 <= i < n ==> init[i] == elems[i];
      if k in Eval(init) {
        var i :| 0 <= i < |init| && Binds(init[i], k);
        assert Binds(elems[i], k);
      }
    }
  }

  /** Later wins: the value under k is the one stored by the LAST element binding k. */
  lemma {:induction false} EvalLastWins(elems: seq<Element>, j: nat, k: string)
    requires j < |elems| && Binds(elems[j], k)
    requires forall i :: j < i < |elems| ==> !Binds(elems[i], k)
    ensures k in Eval(elems) && Eval(elems)[k] == Stored(elems[j], k)
  {
    var n := |elems| - 1;
    var init := elems[..n];
    if j < n {
      assert forall i :: j < i < |init| ==> init[i] == elems[i];
      EvalLastWins(init, j, k);
      assert !Binds(elems[n], k);
    }
  }
}
