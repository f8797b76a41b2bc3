/** `serialize`: turns a handler's result into a JSON-compatible tree.

    The cases are tried in the order the source tests them: a date or
    datetime becomes its isoformat string; a list becomes the list of its
    serialized elements; a dict keeps its keys, in order, and serializes each
    value; an object with `__dict__` is serialized as the dict `vars(obj)`;
    anything else (None, a bool, an int, a str) is returned as it is.
 */
module Serializer {
  import opened Dicts
  import opened Json

  function Serialize(x: Value): (r: Value)
    decreases x
    ensures Plain(r)
    ensures x.Time? ==> r == Str(IsoFormat(x.t))
    ensures x.List? ==> r.List? && |r.items| == |x.items|
    ensures x.Dict? || x.Object? ==> r.Dict? && |r.entries| == |x.entries|
    ensures x.IsPrimitive() ==> r == x
  {
    match x
    case Time(t) => Str(IsoFormat(t))
    case List(xs) => List(seq(|xs|, i requires 0 <= i < |xs| => Serialize(xs[i])))
    case Dict(es) => Dict(seq(|es|, i requires 0 <= i < |es| => (es[i].0, Serialize(es[i].1))))
    // `serialize(vars(obj))`: the attribute dict goes through the dict case
    case Object(es) => Dict(seq(|es|, i requires 0 <= i < |es| => (es[i].0, Serialize(es[i].1))))
    case _ => x
  }

  /** The i-th element of a serialized list is the serialized i-th element. */
  lemma SerializeListElement(xs: seq<Value>, i: nat)
    requires i < |xs|
    ensures Serialize(List(xs)).items[i] == Serialize(xs[i])
  {
  }

  /** The i-th item of a serialized dict has the same key and the serialized
      value. */
  lemma SerializeDictItem(es: Items<Value>, i: nat)
    requires i < |es|
    ensures Serialize(Dict(es)).entries[i] == (es[i].0, Serialize(es[i].1))
  {
  }

  /** A serialized dict or object has the keys of the original, in the
      same order. */
  lemma SerializeKeepsKeys(x: Value)
    requires x.Dict? || x.Object?
    ensures Keys(Serialize(x).entries) == Keys(x.entries)
  {
    KeysAgree(Serialize(x).entries, x.entries);
  }

  /** An object serializes exactly as its attribute dict does. */
  lemma SerializeObjectAsDict(es: Items<Value>)
    ensures Serialize(Object(es)) == Serialize(Dict(es))
  {
  }

  /** A tree that is already JSON comes out unchanged. */
  lemma {:induction false} SerializePlainIdentity(x: Value)
    requires Plain(x)
    ensures Serialize(x) == x
    decreases x
  {
    match x
    case List(xs) =>
      forall i | 0 <= i < |xs| ensures Serialize(xs[i]) == xs[i] {
        SerializePlainIdentity(xs[i]);
      }
      assert Serialize(x).items == xs;
    case Dict(es) =>
      forall i | 0 <= i < |es| ensures Serialize(es[i].1) == es[i].1 {
        SerializePlainIdentity(es[i].1);
      }
      assert Serialize(x).entries == es;
    case _ =>
  }

  /** Serializing twice gives what serializing once gives. */
  lemma {:induction false} SerializeIdempotent(x: Value)
    ensures Serialize(Serialize(x)) == Serialize(x)
  {
    SerializePlainIdentity(Serialize(x));
  }

  /** A value equals its own serialization exactly when it is already JSON. */
  lemma {:induction false} SerializeFixedPoints(x: Value)
    ensures Serialize(x) == x <==> Plain(x)
  {
    if Plain(x) {
      SerializePlainIdentity(x);
    }
  }
}
