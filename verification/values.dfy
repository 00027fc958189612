/** The document tree the converter works on: the parsed form of a YAML
    entity, as JavaScript sees it.  Mappings are ordered association lists,
    because the converter's output is dumped in insertion order; assigning
    to a key that is already present keeps its position, as it does for a
    JavaScript object.  `None` plays the part of `undefined`. */
module Values {

  datatype Option<+T> = None | Some(value: T)

  datatype Value =
    | Null
    | Bool(b: bool)
    | Num(n: int)
    | Str(s: string)
    | Arr(items: seq<Value>)
    | Obj(entries: seq<Entry>)

  datatype Entry = Entry(key: string, value: Value)

  /** The keys of an association list. */
  function Keys(fs: seq<Entry>): set<string>
  {
    if |fs| == 0 then {} else {fs[0].key} + Keys(fs[1..])
  }

  /** No key occurs twice: what every mapping js-yaml produces satisfies
      (it rejects duplicated mapping keys). */
  predicate UniqueKeys(fs: seq<Entry>)
  {
    |fs| == 0 || (fs[0].key !in Keys(fs[1..]) && UniqueKeys(fs[1..]))
  }

  /** Every mapping anywhere in the tree has unique keys. */
  predicate WellFormed(v: Value)
  {
    match v
    case Arr(items) => forall i | 0 <= i < |items| :: WellFormed(items[i])
    case Obj(fs) => UniqueKeys(fs) && forall i | 0 <= i < |fs| :: WellFormed(fs[i].value)
    case _ => true
  }

  /** `obj[k]`: the value stored under `k`, or `undefined`. */
  function Get(fs: seq<Entry>, k: string): (r: Option<Value>)
    ensures r.Some? <==> k in Keys(fs)
  {
    if |fs| == 0 then None
    else if fs[0].key == k then Some(fs[0].value)
    else Get(fs[1..], k)
  }

  /** `obj[k] = v`: an existing key is updated in place, a new key goes
      last (`SetPlacement`). */
  function Set(fs: seq<Entry>, k: string, v: Value): (r: seq<Entry>)
    ensures Get(r, k) == Some(v)
    ensures forall k' | k' != k :: Get(r, k') == Get(fs, k')
    ensures Keys(r) == Keys(fs) + {k}
  {
    if |fs| == 0 then [Entry(k, v)]
    else if fs[0].key == k then [Entry(k, v)] + fs[1..]
    else
      var rest := Set(fs[1..], k, v);
      Cons(fs[0], rest);
      Cons(fs[0], fs[1..]);
      assert fs == [fs[0]] + fs[1..];
      [fs[0]] + rest
  }

  /** Where `Set` puts the key: in place when present, last otherwise; so
      it never duplicates a key. */
  lemma {:induction false} SetPlacement(fs: seq<Entry>, k: string, v: Value)
    ensures k in Keys(fs) ==> |Set(fs, k, v)| == |fs| && forall i | 0 <= i < |fs| :: Set(fs, k, v)[i].key == fs[i].key
    ensures k !in Keys(fs) ==> Set(fs, k, v) == fs + [Entry(k, v)]
    ensures UniqueKeys(fs) ==> UniqueKeys(Set(fs, k, v))
  {
    if |fs| > 0 && fs[0].key != k {
      SetPlacement(fs[1..], k, v);
      var rest := Set(fs[1..], k, v);
      Cons(fs[0], rest);
      Cons(fs[0], fs[1..]);
      assert fs == [fs[0]] + fs[1..];
      if k !in Keys(fs) {
        assert [fs[0]] + (fs[1..] + [Entry(k, v)]) == fs + [Entry(k, v)];
      }
    } else if |fs| > 0 {
      Cons(Entry(k, v), fs[1..]);
      Cons(fs[0], fs[1..]);
      assert fs == [fs[0]] + fs[1..];
    }
  }

  /** `delete obj[k]`: every other key keeps its value and its order. */
  function Delete(fs: seq<Entry>, k: string): (r: seq<Entry>)
    ensures Get(r, k) == None
    ensures forall k' | k' != k :: Get(r, k') == Get(fs, k')
    ensures Keys(r) == Keys(fs) - {k}
    ensures UniqueKeys(fs) ==> UniqueKeys(r)
  {
    if |fs| == 0 then []
    else if fs[0].key == k then Delete(fs[1..], k)
    else
      var rest := Delete(fs[1..], k);
      Cons(fs[0], rest);
      [fs[0]] + rest
  }

  /** JavaScript truthiness: `undefined`, `null`, `false`, `0` and `""` are
      falsy; every array and every object, even an empty one, is truthy. */
  predicate Truthy(v: Option<Value>)
  {
    match v
    case None => false
    case Some(Null) => false
    case Some(Bool(b)) => b
    case Some(Num(n)) => n != 0
    case Some(Str(s)) => s != ""
    case Some(Arr(_)) => true
    case Some(Obj(_)) => true
  }

  /** `a || b`. */
  function Or(a: Option<Value>, b: Value): (r: Value)
    ensures Truthy(a) ==> r == a.value
    ensures !Truthy(a) ==> r == b
  {
    if Truthy(a) then a.value else b
  }

  /** `v?.k` (and `v.k` on a value known to be present): only mappings carry
      the properties the converter reads; on any other value, and on
      `undefined`, the read yields `undefined`. */
  function Prop(v: Option<Value>, k: string): (r: Option<Value>)
    ensures r.Some? ==> v.Some? && v.value.Obj? && k in Keys(v.value.entries)
  {
    match v
    case Some(Obj(fs)) => Get(fs, k)
    case _ => None
  }

  /** `entity.kind`, `entity.metadata` and `entity.spec`. */
  function Kind(e: Value): Option<Value>
  {
    Prop(Some(e), "kind")
  }

  function Metadata(e: Value): Option<Value>
  {
    Prop(Some(e), "metadata")
  }

  function Spec(e: Value): Option<Value>
  {
    Prop(Some(e), "spec")
  }

  /** `entity.kind === kind`. */
  predicate HasKind(e: Value, kind: string)
  {
    Kind(e) == Some(Str(kind))
  }

  /** `Object.entries(v)` for the mappings the converter iterates over. */
  function Entries(v: Option<Value>): seq<Entry>
  {
    match v
    case Some(Obj(fs)) => fs
    case _ => []
  }

  /** `Object.keys(v).length` for a value that is present: arrays and
      strings enumerate their indices, numbers and booleans nothing. */
  function KeyCount(v: Value): nat
  {
    match v
    case Obj(fs) => |fs|
    case Arr(items) => |items|
    case Str(s) => |s|
    case _ => 0
  }

  /** How the association-list functions see a list built by prepending. */
  lemma Cons(e: Entry, rest: seq<Entry>)
    ensures ([e] + rest)[0] == e && ([e] + rest)[1..] == rest
    ensures Keys([e] + rest) == {e.key} + Keys(rest)
    ensures UniqueKeys([e] + rest) <==> e.key !in Keys(rest) && UniqueKeys(rest)
    ensures forall k :: Get([e] + rest, k) == if e.key == k then Some(e.value) else Get(rest, k)
  {
    assert ([e] + rest)[1..] == rest;
  }

  /** The first entry with a key is the one `Get` finds. */
  lemma {:induction false} GetFirst(fs: seq<Entry>, i: nat)
    requires i < |fs|
    requires forall j | 0 <= j < i :: fs[j].key != fs[i].key
    ensures Get(fs, fs[i].key) == Some(fs[i].value)
  {
    if i > 0 {
      GetFirst(fs[1..], i - 1);
    }
  }

  /** A key no entry carries is absent. */
  lemma {:induction false} GetAbsent(fs: seq<Entry>, k: string)
    requires forall j | 0 <= j < |fs| :: fs[j].key != k
    ensures Get(fs, k) == None
  {
    if |fs| > 0 {
      GetAbsent(fs[1..], k);
    }
  }

  lemma {:induction false} GetUnique(fs: seq<Entry>, i: nat)
    requires UniqueKeys(fs)
    requires i < |fs|
    ensures Get(fs, fs[i].key) == Some(fs[i].value)
  {
    if i > 0 {
      GetUnique(fs[1..], i - 1);
      assert fs[1..][i - 1] == fs[i];
      assert fs[0].key != fs[i].key by {
        KeyIn(fs[1..], i - 1);
      }
    }
  }

  lemma {:induction false} KeyIn(fs: seq<Entry>, i: nat)
    requires i < |fs|
    ensures fs[i].key in Keys(fs)
  {
    if i > 0 {
      KeyIn(fs[1..], i - 1);
    }
  }

  /** A value read out of a well-formed mapping is well-formed. */
  lemma PropWellFormed(v: Option<Value>, k: string)
    requires v.Some? ==> WellFormed(v.value)
    ensures Prop(v, k).Some? ==> WellFormed(Prop(v, k).value)
  {
    if v.Some? && v.value.Obj? {
      GetWellFormed(v.value.entries, k);
    }
  }

  lemma {:induction false} GetWellFormed(fs: seq<Entry>, k: string)
    requires forall i | 0 <= i < |fs| :: WellFormed(fs[i].value)
    ensures Get(fs, k).Some? ==> WellFormed(Get(fs, k).value)
  {
    if |fs| > 0 && fs[0].key != k {
      GetWellFormed(fs[1..], k);
    }
  }

  /** The entries of a well-formed value have unique keys. */
  lemma EntriesUnique(v: Option<Value>)
    requires v.Some? ==> WellFormed(v.value)
    ensures UniqueKeys(Entries(v))
  {
  }

  /** The entity's `metadata` and `spec` mappings have unique keys. */
  predicate UniqueParts(e: Value)
  {
    UniqueKeys(Entries(Metadata(e))) && UniqueKeys(Entries(Spec(e)))
  }

  /** The mappings the converter iterates over in a well-formed entity
      have unique keys. */
  lemma PartsUnique(e: Value)
    requires WellFormed(e)
    ensures UniqueParts(e)
    ensures UniqueKeys(Entries(Prop(Metadata(e), "annotations")))
  {
    PropWellFormed(Some(e), "metadata");
    PropWellFormed(Some(e), "spec");
    PropWellFormed(Metadata(e), "annotations");
    EntriesUnique(Metadata(e));
    EntriesUnique(Spec(e));
    EntriesUnique(Prop(Metadata(e), "annotations"));
  }
}
