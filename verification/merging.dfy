/** The loops that copy entries from one mapping into another.  Each of
    the converter's `for (const [key, value] of Object.entries(src))` loops
    assigns `acc[key] = value` for the entries its guard admits; the guards
    differ only in the test they apply, which `Policy` names. */
module Merging {
  import opened Values

  datatype Policy =
    | Always                             // no guard
    | Only(key: string)                  // key === k
    | Except(keys: seq<string>)          // !keys.includes(key)
    | AbsentExcept(keys: seq<string>)    // !keys.includes(key) && acc[key] === undefined
    | WhenFalsy                          // !acc[key]

  /** Whether the guard lets `key` through, given the mapping built so far. */
  predicate Admits(p: Policy, acc: seq<Entry>, key: string)
  {
    match p
    case Always => true
    case Only(k) => key == k
    case Except(ks) => key !in ks
    case AbsentExcept(ks) => key !in ks && Get(acc, key) == None
    case WhenFalsy => !Truthy(Get(acc, key))
  }

  /** The loop itself: entries are visited in order, admitted ones assigned. */
  function Merge(acc: seq<Entry>, src: seq<Entry>, p: Policy): (r: seq<Entry>)
    ensures UniqueKeys(acc) ==> UniqueKeys(r)
    ensures Keys(acc) <= Keys(r) <= Keys(acc) + Keys(src)
    decreases |src|
  {
    if |src| == 0 then acc
    else
      var acc' := if Admits(p, acc, src[0].key) then Set(acc, src[0].key, src[0].value) else acc;
      SetPlacement(acc, src[0].key, src[0].value);
      assert Keys(src) == {src[0].key} + Keys(src[1..]);
      Merge(acc', src[1..], p)
  }

  /** The value a key ends up with, from the value it had before the loop
      (`before`) and the value the source holds for it (`incoming`): the
      pointwise meaning of each guard when the source has unique keys. */
  function Merged(p: Policy, key: string, before: Option<Value>, incoming: Option<Value>): Option<Value>
  {
    if incoming == None then before
    else match p
      case Always => incoming
      case Only(k) => if key == k then incoming else before
      case Except(ks) => if key in ks then before else incoming
      case AbsentExcept(ks) => if key in ks || before != None then before else incoming
      case WhenFalsy => if Truthy(before) then before else incoming
  }

  /** Merge computes Merged for every key. */
  lemma {:induction false} MergeGet(acc: seq<Entry>, src: seq<Entry>, p: Policy, key: string)
    requires UniqueKeys(src)
    ensures Get(Merge(acc, src, p), key) == Merged(p, key, Get(acc, key), Get(src, key))
    decreases |src|
  {
    if |src| > 0 {
      var acc' := if Admits(p, acc, src[0].key) then Set(acc, src[0].key, src[0].value) else acc;
      MergeGet(acc', src[1..], p, key);
      if src[0].key == key {
        assert Get(src[1..], key) == None;
      }
    }
  }

  /** Assignment never moves a key: the keys the accumulator held before
      the loop keep their positions, and new keys come after them. */
  lemma {:induction false} MergeKeepsOrder(acc: seq<Entry>, src: seq<Entry>, p: Policy)
    ensures |Merge(acc, src, p)| >= |acc|
    ensures forall i | 0 <= i < |acc| :: Merge(acc, src, p)[i].key == acc[i].key
    decreases |src|
  {
    if |src| > 0 {
      var acc' := if Admits(p, acc, src[0].key) then Set(acc, src[0].key, src[0].value) else acc;
      SetPlacement(acc, src[0].key, src[0].value);
      MergeKeepsOrder(acc', src[1..], p);
    }
  }

  /** Every value Merge stores comes from the accumulator or the source. */
  lemma {:induction false} MergeWellFormed(acc: seq<Entry>, src: seq<Entry>, p: Policy)
    requires WellFormed(Obj(acc)) && WellFormed(Obj(src))
    ensures WellFormed(Obj(Merge(acc, src, p)))
    decreases |src|
  {
    if |src| > 0 {
      var acc' := if Admits(p, acc, src[0].key) then Set(acc, src[0].key, src[0].value) else acc;
      SetWellFormed(acc, src[0].key, src[0].value);
      assert WellFormed(Obj(src[1..])) by {
        assert forall i | 0 <= i < |src[1..]| :: src[1..][i] == src[i + 1];
      }
      MergeWellFormed(acc', src[1..], p);
    }
  }

  lemma {:induction false} SetWellFormed(fs: seq<Entry>, k: string, v: Value)
    requires WellFormed(Obj(fs)) && WellFormed(v)
    ensures WellFormed(Obj(Set(fs, k, v)))
  {
    if |fs| > 0 && fs[0].key != k {
      assert WellFormed(Obj(fs[1..])) by {
        assert forall i | 0 <= i < |fs[1..]| :: fs[1..][i] == fs[i + 1];
      }
      SetWellFormed(fs[1..], k, v);
      var rest := Set(fs[1..], k, v);
      assert Set(fs, k, v) == [fs[0]] + rest;
      assert forall i | 1 <= i < |[fs[0]] + rest| :: ([fs[0]] + rest)[i] == rest[i - 1];
    } else if |fs| > 0 {
      assert forall i | 1 <= i < |fs| :: Set(fs, k, v)[i] == fs[i];
    }
  }

  /** `for (const field of fields) if (src[field] !== undefined) acc[field] = src[field]`:
      the converter's loops over a fixed list of field names.  What it
      computes is stated by `PickGet` (kept out of the contract, where it
      would be unfolded along every literal field list). */
  function Pick(acc: seq<Entry>, src: Option<Value>, fields: seq<string>): seq<Entry>
    decreases |fields|
  {
    if |fields| == 0 then acc
    else
      var f := fields[0];
      var acc' := if Prop(src, f).Some? then Set(acc, f, Prop(src, f).value) else acc;
      Pick(acc', src, fields[1..])
  }

  /** A picked field takes the source's value when the source has it;
      every other key keeps the value it had. */
  lemma {:induction false} PickGet(acc: seq<Entry>, src: Option<Value>, fields: seq<string>, k: string)
    ensures Get(Pick(acc, src, fields), k) == if k in fields && Prop(src, k).Some? then Prop(src, k) else Get(acc, k)
    decreases |fields|
  {
    if |fields| > 0 {
      var f := fields[0];
      var acc' := if Prop(src, f).Some? then Set(acc, f, Prop(src, f).value) else acc;
      PickGet(acc', src, fields[1..], k);
      assert k in fields <==> k == f || k in fields[1..];
    }
  }

  /** Picking never duplicates a key. */
  lemma {:induction false} PickUnique(acc: seq<Entry>, src: Option<Value>, fields: seq<string>)
    requires UniqueKeys(acc)
    ensures UniqueKeys(Pick(acc, src, fields))
    decreases |fields|
  {
    if |fields| > 0 {
      var f := fields[0];
      var acc' := if Prop(src, f).Some? then Set(acc, f, Prop(src, f).value) else acc;
      if Prop(src, f).Some? {
        SetPlacement(acc, f, Prop(src, f).value);
      }
      PickUnique(acc', src, fields[1..]);
    }
  }
}
