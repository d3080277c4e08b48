/**
 * The fan-out/fan-in pattern shared by the adapter and the manager: a
 * `for…in` loop over the own keys of a table starts one step per key, every
 * step's failure is pushed onto an `errors` array, and after the join the
 * caller's callback gets one aggregate error if the array is non-empty.
 *
 * Here the loop runs the steps one after another over a snapshot `order` of
 * the keys. The final tables do not depend on the order (each step touches its
 * own key only); the error list is the steps' errors in that order.
 */
module FanOut {
  import opened Common

  predicate Distinct(order: seq<string>)
  {
    forall i, j :: 0 <= i < j < |order| ==> order[i] != order[j]
  }

  /** `order` lists every key of `keys` exactly once. */
  ghost predicate IsOrdering(order: seq<string>, keys: set<string>)
  {
    Distinct(order) && forall k :: k in order <==> k in keys
  }

  /**
   * The keys a `for…in` loop guarded by `hasOwnProperty` visits, taken once
   * when the loop starts; the runtime's enumeration order is left open.
   */
  method Snapshot(keys: set<string>) returns (order: seq<string>)
    ensures IsOrdering(order, keys)
    ensures |order| == |keys|
  {
    order := [];
    var rest := keys;
    while rest != {}
      invariant Distinct(order)
      invariant forall k :: k in keys <==> k in rest || k in order
      invariant forall k :: k in rest ==> k !in order
      invariant |order| + |rest| == |keys|
      decreases rest
    {
      var k :| k in rest;
      order := order + [k];
      rest := rest - {k};
    }
  }

  /** The keys a loop over `order` has visited. */
  function Elems(order: seq<string>): set<string>
  {
    set k | k in order
  }

  /** Visiting the next key of a distinct ordering adds a key not seen before. */
  lemma ElemsStep(order: seq<string>, i: nat)
    requires Distinct(order) && i < |order|
    ensures order[i] !in Elems(order[..i])
    ensures Elems(order[..i + 1]) == Elems(order[..i]) + {order[i]}
  {
    assert order[..i + 1] == order[..i] + [order[i]];
  }

  /** A loop over the whole ordering has visited exactly the keys. */
  lemma ElemsOrdering(order: seq<string>, keys: set<string>)
    requires IsOrdering(order, keys)
    ensures Elems(order[..|order|]) == keys
  {
    assert order[..|order|] == order;
  }

  /** The error list a step contributes: its error, or nothing. */
  function Emitted(o: Option<Error>): seq<Error>
  {
    if o.Some? then [o.value] else []
  }

  /** `errors` after the steps for `order` have run: each failure pushed as it is. */
  function Collect(order: seq<string>, step: string -> Option<Error>): seq<Error>
  {
    if order == [] then []
    else Collect(order[..|order| - 1], step) + Emitted(step(order[|order| - 1]))
  }

  /** One more step appends exactly that step's error. */
  lemma CollectSnoc(order: seq<string>, i: nat, step: string -> Option<Error>)
    requires i < |order|
    ensures Collect(order[..i + 1], step) == Collect(order[..i], step) + Emitted(step(order[i]))
  {
    assert order[..i + 1][..i] == order[..i];
  }

  /** The collected list is empty exactly when no step failed. */
  lemma {:induction false} CollectEmpty(order: seq<string>, step: string -> Option<Error>)
    ensures Collect(order, step) == [] <==> forall k :: k in order ==> step(k).None?
  {
    if order != [] {
      var last := order[|order| - 1];
      CollectEmpty(order[..|order| - 1], step);
      assert forall k :: k in order <==> k in order[..|order| - 1] || k == last;
    }
  }

  /** An error is collected exactly when some visited key's step produced it. */
  lemma {:induction false} CollectMember(order: seq<string>, step: string -> Option<Error>, e: Error)
    ensures e in Collect(order, step) <==> exists k :: k in order && step(k) == Some(e)
  {
    if order != [] {
      var last := order[|order| - 1];
      CollectMember(order[..|order| - 1], step, e);
      assert forall k :: k in order <==> k in order[..|order| - 1] || k == last;
    }
  }

  /** The keys of `order` whose step failed. */
  function FailedKeys(order: seq<string>, step: string -> Option<Error>): set<string>
  {
    set k | k in order && step(k).Some?
  }

  /** Over distinct keys, the collected list holds one error per failed key. */
  lemma {:induction false} CollectCount(order: seq<string>, step: string -> Option<Error>)
    requires Distinct(order)
    ensures |Collect(order, step)| == |FailedKeys(order, step)|
  {
    if order != [] {
      var init, last := order[..|order| - 1], order[|order| - 1];
      CollectCount(init, step);
      assert last !in init;
      if step(last).Some? {
        assert FailedKeys(order, step) == FailedKeys(init, step) + {last};
      } else {
        assert FailedKeys(order, step) == FailedKeys(init, step);
      }
    }
  }

  /**
   * What the manager's callbacks add to `errors`: a MultipleError's `list`
   * spliced in, any other error pushed as one element.
   */
  function Spliced(e: Error): seq<Error>
  {
    if e.MultipleError? then e.list else [e]
  }

  /** Whether a step's outcome adds anything to the manager's error list. */
  predicate Contributes(o: Option<Error>)
  {
    o.Some? && Spliced(o.value) != []
  }

  /** The manager's `errors` after the steps for `order` have run. */
  function Flatten(order: seq<string>, step: string -> Option<Error>): seq<Error>
  {
    if order == [] then []
    else
      var o := step(order[|order| - 1]);
      Flatten(order[..|order| - 1], step) + (if o.Some? then Spliced(o.value) else [])
  }

  lemma FlattenSnoc(order: seq<string>, i: nat, step: string -> Option<Error>)
    requires i < |order|
    ensures Flatten(order[..i + 1], step)
         == Flatten(order[..i], step) + (if step(order[i]).Some? then Spliced(step(order[i]).value) else [])
  {
    assert order[..i + 1][..i] == order[..i];
  }

  /**
   * The flattened list is empty exactly when no step contributed; note that a
   * step failing with an empty MultipleError contributes nothing.
   */
  lemma {:induction false} FlattenEmpty(order: seq<string>, step: string -> Option<Error>)
    ensures Flatten(order, step) == [] <==> forall k :: k in order ==> !Contributes(step(k))
  {
    if order != [] {
      var last := order[|order| - 1];
      FlattenEmpty(order[..|order| - 1], step);
      assert forall k :: k in order <==> k in order[..|order| - 1] || k == last;
    }
  }

  /** An error is in the flattened list exactly when some step's spliced errors hold it. */
  lemma {:induction false} FlattenMember(order: seq<string>, step: string -> Option<Error>, e: Error)
    ensures e in Flatten(order, step)
        <==> exists k :: k in order && step(k).Some? && e in Spliced(step(k).value)
  {
    if order != [] {
      var last := order[|order| - 1];
      FlattenMember(order[..|order| - 1], step, e);
      assert forall k :: k in order <==> k in order[..|order| - 1] || k == last;
    }
  }

  /** When no step fails with a MultipleError, flattening is plain collection. */
  lemma {:induction false} FlattenWithoutMultiple(order: seq<string>, step: string -> Option<Error>)
    requires forall k :: k in order && step(k).Some? ==> !step(k).value.MultipleError?
    ensures Flatten(order, step) == Collect(order, step)
  {
    if order != [] {
      FlattenWithoutMultiple(order[..|order| - 1], step);
    }
  }
}
