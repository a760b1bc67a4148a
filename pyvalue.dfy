/** The Python values that flow through the grading pipeline and its HTTP layer:
    JSON-like trees, plus the MongoDB `ObjectId` a stored document may carry.
    A Python `dict` is its sequence of items in insertion order. */
module PyValue {
  import opened Wrappers
  import PyText

  datatype Value =
    | Null                          // None
    | Bool(b: bool)
    | Int(i: int)
    | Float(repr: string)           // a float, carried by its Python text form
    | Str(s: string)
    | List(items: seq<Value>)
    | Dict(entries: Entries)
    | ObjectId(id: seq<bv8>)        // bson.ObjectId, by its raw bytes

  /** The items of a dict, in insertion order. */
  type Entries = seq<(string, Value)>

  /** The keys of a dict, in insertion order (`list(d.keys())`). */
  function Keys(es: Entries): seq<string>
  {
    seq(|es|, i requires 0 <= i < |es| => es[i].0)
  }

  /** `d[k]` when `k in d`: the value stored under the first item with key `k`. */
  function Lookup(es: Entries, k: string): (r: Option<Value>)
    ensures r.None? <==> k !in Keys(es)
    ensures r.Some? ==> exists i :: 0 <= i < |es| && es[i] == (k, r.value) && k !in Keys(es[..i])
  {
    if es == [] then None
    else if es[0].0 == k then
      assert es[0] == (k, es[0].1) && Keys(es[..0]) == [] && Keys(es)[0] == k;
      Some(es[0].1)
    else
      var r := Lookup(es[1..], k);
      assert Keys(es) == [es[0].0] + Keys(es[1..]);
      assert forall i :: 0 <= i < |es| - 1 ==> Keys(es[..i + 1]) == [es[0].0] + Keys(es[1..][..i]);
      r
  }

  /** The first item with a key is the one `d[k]` finds. */
  lemma {:induction false} LookupFirst(es: Entries, i: nat)
    requires i < |es| && es[i].0 !in Keys(es[..i])
    ensures Lookup(es, es[i].0) == Some(es[i].1)
  {
    if i > 0 {
      assert Keys(es[..i])[0] == es[0].0;
      assert Keys(es[1..][..i - 1]) == Keys(es[..i])[1..];
      LookupFirst(es[1..], i - 1);
    }
  }

  /** `d.get(k, default)`. */
  function Get(es: Entries, k: string, default: Value): (r: Value)
    ensures k !in Keys(es) ==> r == default
    ensures k in Keys(es) ==> Lookup(es, k) == Some(r)
  {
    match Lookup(es, k)
    case Some(v) => v
    case None => default
  }

  /** `d[k] = v`: the value of an existing key is replaced where it stands;
      a new key is appended at the end. */
  function Put(es: Entries, k: string, v: Value): (r: Entries)
    ensures |r| == if k in Keys(es) then |es| else |es| + 1
  {
    if es == [] then [(k, v)]
    else if es[0].0 == k then
      assert Keys(es)[0] == k;
      [(k, v)] + es[1..]
    else
      assert Keys(es) == [es[0].0] + Keys(es[1..]);
      [es[0]] + Put(es[1..], k, v)
  }

  /** After `d[k] = v`, `d[k]` is `v` and every other key maps to what it did before. */
  lemma {:induction false} PutLookup(es: Entries, k: string, v: Value, k': string)
    ensures Lookup(Put(es, k, v), k') == if k' == k then Some(v) else Lookup(es, k')
  {
    if es != [] && es[0].0 != k {
      PutLookup(es[1..], k, v, k');
    }
  }

  /** The keys of a dict with a first item in front. */
  lemma KeysCons(e: (string, Value), es: Entries)
    ensures Keys([e] + es) == [e.0] + Keys(es)
  {
    var l, r := Keys([e] + es), [e.0] + Keys(es);
    assert |l| == |r|;
    forall i | 0 <= i < |l| ensures l[i] == r[i] {
      if i > 0 { assert ([e] + es)[i] == es[i - 1]; }
    }
  }

  /** `d[k] = v` keeps the keys and their order, adding `k` at the end when it is new. */
  lemma {:induction false} PutKeys(es: Entries, k: string, v: Value)
    ensures Keys(Put(es, k, v)) == if k in Keys(es) then Keys(es) else Keys(es) + [k]
  {
    if es == [] {
      assert Keys([(k, v)]) == [k];
    } else if es[0].0 == k {
      var r := Put(es, k, v);
      assert Keys(es)[0] == k;
      assert |Keys(r)| == |Keys(es)|;
      forall i | 0 <= i < |r| ensures Keys(r)[i] == Keys(es)[i] {
        if i > 0 { assert r[i] == es[i]; }
      }
    } else {
      var tail := Put(es[1..], k, v);
      assert Put(es, k, v) == [es[0]] + tail;
      PutKeys(es[1..], k, v);
      KeysCons(es[0], tail);
      assert es == [es[0]] + es[1..];
      KeysCons(es[0], es[1..]);
      assert k in Keys(es) <==> k in Keys(es[1..]);
    }
  }

  /** `d[k] = v` leaves every item whose key is not `k` exactly where it was. */
  lemma {:induction false} PutKeepsOthers(es: Entries, k: string, v: Value, i: nat)
    requires i < |es| && es[i].0 != k
    ensures i < |Put(es, k, v)| && Put(es, k, v)[i] == es[i]
  {
    if i > 0 && es[0].0 != k {
      PutKeepsOthers(es[1..], k, v, i - 1);
    }
  }

  /** True when no `ObjectId` occurs anywhere in `v`. */
  predicate NoObjectId(v: Value)
    decreases v
  {
    match v
    case ObjectId(_) => false
    case List(xs) => forall i :: 0 <= i < |xs| ==> NoObjectId(xs[i])
    case Dict(es) => forall i :: 0 <= i < |es| ==> NoObjectId(es[i].1)
    case _ => true
  }

  /** The values of a dict hold no `ObjectId`. */
  predicate NoObjectIdIn(es: Entries)
  {
    forall i :: 0 <= i < |es| ==> NoObjectId(es[i].1)
  }

  /** A value read from a dict without ObjectIds holds none. */
  lemma GetNoObjectId(es: Entries, k: string, default: Value)
    requires NoObjectIdIn(es) && NoObjectId(default)
    ensures NoObjectId(Get(es, k, default))
  {
    if k in Keys(es) {
      var i :| 0 <= i < |es| && es[i] == (k, Get(es, k, default));
      assert NoObjectId(es[i].1);
    }
  }

  /** `d[k] = v` with a new key appends the item. */
  lemma {:induction false} PutNewKey(es: Entries, k: string, v: Value)
    requires k !in Keys(es)
    ensures Put(es, k, v) == es + [(k, v)]
  {
    if es != [] {
      assert Keys(es) == [es[0].0] + Keys(es[1..]);
      PutNewKey(es[1..], k, v);
      assert es == [es[0]] + es[1..];
    }
  }

  /** Storing a value without ObjectIds into a dict without ObjectIds leaves none. */
  lemma {:induction false} PutNoObjectId(es: Entries, k: string, v: Value)
    requires NoObjectIdIn(es) && NoObjectId(v)
    ensures NoObjectIdIn(Put(es, k, v))
  {
    if es != [] && es[0].0 != k {
      PutNoObjectId(es[1..], k, v);
      assert NoObjectIdIn(es[1..]);
    }
  }

  /** A value that is neither a container nor an `ObjectId`. */
  predicate IsPlainScalar(v: Value)
  {
    !v.List? && !v.Dict? && !v.ObjectId?
  }

  /** Python's `str(v)`. The scalars are rendered as Python does; the text of a
      list, a dict or an `ObjectId` comes from `composite`, which is not modelled. */
  function PyStr(v: Value, composite: Value -> string): (r: string)
    ensures v.Int? ==> r == PyText.IntToDecimal(v.i)
    ensures v.Str? ==> r == v.s
  {
    match v
    case Null => "None"
    case Bool(b) => if b then "True" else "False"
    case Int(i) => PyText.IntToDecimal(i)
    case Float(text) => text
    case Str(s) => s
    case _ => composite(v)
  }
}
