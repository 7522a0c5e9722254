/**
 * Ordered name lists without duplicates: how the indexer accumulates provider
 * names (`if name not in providers: providers.append(name)`).
 */
module NameLists {

  ghost predicate NoDup(xs: seq<string>)
  {
    forall i, j :: 0 <= i < j < |xs| ==> xs[i] != xs[j]
  }

  /** `existing` after appending each of `names`, in order, unless it is already present. */
  function MergeNames(existing: seq<string>, names: seq<string>): seq<string>
    decreases |names|
  {
    if names == [] then existing
    else
      var merged := MergeNames(existing, names[..|names| - 1]);
      var name := names[|names| - 1];
      if name in merged then merged else merged + [name]
  }

  /**
   * Reference definition: the names of `names` that are not in `seen`, each once,
   * in the order of their first occurrence.
   */
  function Fresh(seen: seq<string>, names: seq<string>): seq<string>
    decreases |names|
  {
    if names == [] then []
    else if names[0] in seen then Fresh(seen, names[1..])
    else [names[0]] + Fresh(seen + [names[0]], names[1..])
  }

  /** The concatenation of the blocks, in order. */
  function Flatten(blocks: seq<seq<string>>): (r: seq<string>)
    decreases |blocks|
  {
    if blocks == [] then [] else Flatten(blocks[..|blocks| - 1]) + blocks[|blocks| - 1]
  }

  lemma {:induction false} FlattenMembers(blocks: seq<seq<string>>, x: string)
    ensures x in Flatten(blocks) <==> exists i :: 0 <= i < |blocks| && x in blocks[i]
    decreases |blocks|
  {
    if blocks != [] {
      var pre := blocks[..|blocks| - 1];
      FlattenMembers(pre, x);
      if x in Flatten(pre) {
        var i :| 0 <= i < |pre| && x in pre[i];
        assert blocks[i] == pre[i];
      }
      if exists i :: 0 <= i < |blocks| && x in blocks[i] {
        var i :| 0 <= i < |blocks| && x in blocks[i];
        if i < |pre| {
          assert x in pre[i];
        }
      }
    }
  }

  /** Merging a concatenation is merging one part after the other. */
  lemma {:induction false} MergeNamesConcat(existing: seq<string>, a: seq<string>, b: seq<string>)
    ensures MergeNames(existing, a + b) == MergeNames(MergeNames(existing, a), b)
    decreases |b|
  {
    if b != [] {
      var b' := b[..|b| - 1];
      assert (a + b)[..|a + b| - 1] == a + b';
      assert (a + b)[|a + b| - 1] == b[|b| - 1];
      MergeNamesConcat(existing, a, b');
    } else {
      assert a + b == a;
    }
  }

  /** Merging keeps the list free of duplicates. */
  lemma {:induction false} MergeNamesNoDup(existing: seq<string>, names: seq<string>)
    requires NoDup(existing)
    ensures NoDup(MergeNames(existing, names))
    decreases |names|
  {
    if names != [] {
      MergeNamesNoDup(existing, names[..|names| - 1]);
    }
  }

  lemma {:induction false} FreshMembers(seen: seq<string>, names: seq<string>)
    ensures forall x :: x in Fresh(seen, names) <==> x in names && x !in seen
    decreases |names|
  {
    if names != [] {
      FreshMembers(seen, names[1..]);
      FreshMembers(seen + [names[0]], names[1..]);
      assert names == [names[0]] + names[1..];
    }
  }

  /** Appending one name at the end of the input appends it to `Fresh` exactly when it is new. */
  lemma {:induction false} FreshSnoc(seen: seq<string>, names: seq<string>, x: string)
    ensures Fresh(seen, names + [x]) == Fresh(seen, names) + (if x in seen || x in names then [] else [x])
    decreases |names|
  {
    if names == [] {
      assert [] + [x] == [x];
    } else {
      var y := names[0];
      assert (names + [x])[0] == y;
      assert (names + [x])[1..] == names[1..] + [x];
      assert names == [y] + names[1..];
      if y in seen {
        FreshSnoc(seen, names[1..], x);
      } else {
        FreshSnoc(seen + [y], names[1..], x);
      }
    }
  }

  /**
   * Merging leaves `existing` untouched as a prefix and appends exactly the names
   * that are new, each once, in first-seen order.
   */
  lemma {:induction false} MergeNamesAppendsFresh(existing: seq<string>, names: seq<string>)
    ensures MergeNames(existing, names) == existing + Fresh(existing, names)
    decreases |names|
  {
    if names != [] {
      var pre := names[..|names| - 1];
      var x := names[|names| - 1];
      assert names == pre + [x];
      MergeNamesAppendsFresh(existing, pre);
      FreshMembers(existing, pre);
      FreshSnoc(existing, pre, x);
    }
  }

  /** Merging only adds names from `names`, and adds all of them. */
  lemma MergeNamesMembers(existing: seq<string>, names: seq<string>)
    ensures forall x :: x in MergeNames(existing, names) <==> x in existing || x in names
  {
    MergeNamesAppendsFresh(existing, names);
    FreshMembers(existing, names);
  }
}
