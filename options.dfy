/** Construction-time translation of deprecated option names. The caller's
    options object is updated in place: first a `length` given without
    `maxSize` is dropped, then each deprecated name is moved to its new
    name unless the new name is already present. */
module Options {
  import opened JsValues

  /** The deprecated -> new option names, in the order they are applied. */
  const Deprecations: seq<(string, string)> :=
    [("stale", "allowStale"), ("maxAge", "ttl"), ("length", "sizeCalculation")]

  /** The first step: `length` without `maxSize` is removed. */
  function DropOrphanLength(p: map<string, JsValue>): (r: map<string, JsValue>)
    ensures "length" in r <==> "length" in p && "maxSize" in p
    ensures "length" in r ==> r["length"] == p["length"]
    ensures forall k :: k != "length" ==> Agrees(p, r, k)
  {
    if "length" in p && "maxSize" !in p then p - {"length"} else p
  }

  /** One renaming: the new name takes the old name's value and the old name
      is deleted, but only when the old name is present and the new one is not. */
  function Rename(p: map<string, JsValue>, oldName: string, newName: string): (r: map<string, JsValue>)
    ensures RenamedPair(p, r, oldName, newName)
    ensures forall k :: k != oldName && k != newName ==> Agrees(p, r, k)
  {
    if oldName in p && newName !in p then p[newName := p[oldName]] - {oldName} else p
  }

  function RenameAll(p: map<string, JsValue>, table: seq<(string, string)>): map<string, JsValue>
    decreases |table|
  {
    if table == [] then p else RenameAll(Rename(p, table[0].0, table[0].1), table[1..])
  }

  /** The options the underlying store is built from. */
  function Translated(p: map<string, JsValue>): map<string, JsValue> {
    RenameAll(DropOrphanLength(p), Deprecations)
  }

  /** `r` has exactly what `p` has under name `k`. */
  predicate Agrees(p: map<string, JsValue>, r: map<string, JsValue>, k: string) {
    (k in r <==> k in p) && (k in p ==> r[k] == p[k])
  }

  /** The outcome of renaming `oldName` to `newName`, relating input `p` to result `r`. */
  predicate RenamedPair(p: map<string, JsValue>, r: map<string, JsValue>, oldName: string, newName: string) {
    if oldName in p && newName !in p then
      oldName !in r && newName in r && r[newName] == p[oldName]
    else
      Agrees(p, r, oldName) && Agrees(p, r, newName)
  }

  /** No name occurs twice in a renaming table. */
  ghost predicate DistinctNames(table: seq<(string, string)>) {
    && (forall i :: 0 <= i < |table| ==> table[i].0 != table[i].1)
    && (forall i, j :: 0 <= i < j < |table| ==>
          table[i].0 != table[j].0 && table[i].0 != table[j].1 &&
          table[i].1 != table[j].0 && table[i].1 != table[j].1)
  }

  predicate Untouched(table: seq<(string, string)>, k: string) {
    forall i :: 0 <= i < |table| ==> k != table[i].0 && k != table[i].1
  }

  /** A name no pair of the table mentions comes through unchanged. */
  lemma {:induction false} RenameAllOthers(p: map<string, JsValue>, table: seq<(string, string)>, k: string)
    requires Untouched(table, k)
    ensures Agrees(p, RenameAll(p, table), k)
    decreases |table|
  {
    if table != [] {
      var q := Rename(p, table[0].0, table[0].1);
      assert Agrees(p, q, k);
      assert Untouched(table[1..], k) by {
        forall i | 0 <= i < |table[1..]| ensures k != table[1..][i].0 && k != table[1..][i].1 {
          assert table[1..][i] == table[i + 1];
        }
      }
      RenameAllOthers(q, table[1..], k);
    }
  }

  /** With distinct names, each pair of a table is renamed as if alone. */
  lemma {:induction false} RenameAllPair(p: map<string, JsValue>, table: seq<(string, string)>, i: nat)
    requires DistinctNames(table)
    requires i < |table|
    ensures RenamedPair(p, RenameAll(p, table), table[i].0, table[i].1)
    decreases |table|
  {
    var q := Rename(p, table[0].0, table[0].1);
    var rest := table[1..];
    assert DistinctNames(rest) by {
      forall a | 0 <= a < |rest| ensures rest[a] == table[a + 1] { }
    }
    if i == 0 {
      assert Untouched(rest, table[0].0) && Untouched(rest, table[0].1) by {
        forall a | 0 <= a < |rest| ensures rest[a] == table[a + 1] { }
      }
      RenameAllOthers(q, rest, table[0].0);
      RenameAllOthers(q, rest, table[0].1);
    } else {
      assert rest[i - 1] == table[i];
      RenameAllPair(q, rest, i - 1);
      assert Agrees(p, q, table[i].0) && Agrees(p, q, table[i].1);
    }
  }

  lemma DeprecationsDistinct()
    ensures DistinctNames(Deprecations)
  {
  }

  /** A name outside the six that translation mentions comes through unchanged. */
  lemma TranslatedKeeps(p: map<string, JsValue>, k: string)
    requires k !in {"stale", "allowStale", "maxAge", "ttl", "length", "sizeCalculation"}
    ensures Agrees(p, Translated(p), k)
  {
    RenameAllOthers(DropOrphanLength(p), Deprecations, k);
  }

  /** What translation does to the six names it mentions and to every other name. */
  lemma TranslatedSpec(p: map<string, JsValue>)
    ensures RenamedPair(p, Translated(p), "stale", "allowStale")
    ensures RenamedPair(p, Translated(p), "maxAge", "ttl")
    ensures "length" in p && "maxSize" !in p ==>
              "length" !in Translated(p) && Agrees(p, Translated(p), "sizeCalculation")
    ensures "length" !in p || "maxSize" in p ==>
              RenamedPair(p, Translated(p), "length", "sizeCalculation")
    ensures forall k :: k !in {"stale", "allowStale", "maxAge", "ttl", "length", "sizeCalculation"} ==>
              Agrees(p, Translated(p), k)
  {
    var d := DropOrphanLength(p);
    DeprecationsDistinct();
    RenameAllPair(d, Deprecations, 0);
    RenameAllPair(d, Deprecations, 1);
    RenameAllPair(d, Deprecations, 2);
    forall k | k !in {"stale", "allowStale", "maxAge", "ttl", "length", "sizeCalculation"}
      ensures Agrees(p, Translated(p), k)
    {
      TranslatedKeeps(p, k);
    }
  }

  /** The caller's options object. */
  class Options {
    var props: map<string, JsValue>

    constructor (props: map<string, JsValue>)
      ensures this.props == props
    {
      this.props := props;
    }

    method Translate()
      modifies this
      ensures props == Translated(old(props))
    {
      if "length" in props && "maxSize" !in props {
        props := props - {"length"};
      }
      var i := 0;
      while i < |Deprecations|
        invariant 0 <= i <= |Deprecations|
        invariant RenameAll(props, Deprecations[i..]) == Translated(old(props))
      {
        var (oldName, newName) := Deprecations[i];
        assert Deprecations[i..][1..] == Deprecations[i + 1..];
        if oldName in props && newName !in props {
          props := props[newName := props[oldName]];
          props := props - {oldName};
        }
        i := i + 1;
      }
    }
  }
}
