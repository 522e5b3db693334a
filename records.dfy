/**
 * A JavaScript object as the sequence of its members in insertion order. A lookup sees the last
 * member with that name (a later assignment overwrites an earlier one); the key list keeps each
 * name once, at its first position, as `new Set(...)` does and as `Object.keys` does for names
 * that are not integer-like (JavaScript lists those first, in ascending order).
 */
module Records {
  import opened Wrappers

  /** `obj[key]`: the value of the last member named `key`, or `None` (`undefined`). */
  function Lookup<V>(members: seq<(string, V)>, key: string): Option<V> {
    if |members| == 0 then None
    else
      var later := Lookup(members[1..], key);
      if later.Some? then later
      else if members[0].0 == key then Some(members[0].1)
      else None
  }

  lemma {:induction false} LookupFound<V>(members: seq<(string, V)>, key: string)
    ensures Lookup(members, key).Some? <==> exists i :: 0 <= i < |members| && members[i].0 == key
    ensures Lookup(members, key).Some? ==> exists i :: 0 <= i < |members| && members[i] == (key, Lookup(members, key).value)
  {
    if |members| > 0 {
      LookupFound(members[1..], key);
      if Lookup(members[1..], key).Some? {
        var i :| 0 <= i < |members| - 1 && members[1..][i] == (key, Lookup(members[1..], key).value);
        assert members[i + 1] == members[1..][i];
      }
      forall i | 0 < i < |members| && members[i].0 == key ensures Lookup(members[1..], key).Some? {
        assert members[1..][i - 1] == members[i];
      }
    }
  }

  /** A member that no later member shadows is what a lookup of its name finds. */
  lemma {:induction false} LookupAt<V>(members: seq<(string, V)>, i: nat)
    requires i < |members|
    requires forall j :: i < j < |members| ==> members[j].0 != members[i].0
    ensures Lookup(members, members[i].0) == Some(members[i].1)
  {
    if i == 0 {
      forall j | 0 <= j < |members| - 1 ensures members[1..][j].0 != members[0].0 {
        assert members[1..][j] == members[j + 1];
      }
      LookupFound(members[1..], members[0].0);
    } else {
      LookupAt(members[1..], i - 1);
    }
  }

  /** `[...new Set(names)]`: each name once, at its first position. */
  function Dedup(names: seq<string>): (r: seq<string>)
    ensures forall k :: k in r <==> k in names
    ensures forall i, j :: 0 <= i < j < |r| ==> r[i] != r[j]
  {
    if |names| == 0 then []
    else
      var prefix := Dedup(names[..|names| - 1]);
      var k := names[|names| - 1];
      assert forall k' :: k' in names <==> k' in names[..|names| - 1] || k' == k by {
        assert names == names[..|names| - 1] + [k];
      }
      if k in prefix then prefix else prefix + [k]
  }

  /** A sequence without repetitions is its own deduplication. */
  lemma {:induction false} DedupDistinct(names: seq<string>)
    requires forall i, j :: 0 <= i < j < |names| ==> names[i] != names[j]
    ensures Dedup(names) == names
  {
    if |names| > 0 {
      var init := names[..|names| - 1];
      DedupDistinct(init);
      assert names[|names| - 1] !in init;
      assert init + [names[|names| - 1]] == names;
    }
  }

  /** The member names in insertion order, repetitions included. */
  function Names<V>(members: seq<(string, V)>): (r: seq<string>)
    ensures |r| == |members| && forall i :: 0 <= i < |members| ==> r[i] == members[i].0
  {
    seq(|members|, i requires 0 <= i < |members| => members[i].0)
  }

  /** `Object.keys(obj)`. */
  function Keys<V>(members: seq<(string, V)>): seq<string> {
    Dedup(Names(members))
  }

  lemma {:induction false} KeysAreLookups<V>(members: seq<(string, V)>, key: string)
    ensures key in Keys(members) <==> Lookup(members, key).Some?
  {
    LookupFound(members, key);
    assert key in Names(members) <==> exists i :: 0 <= i < |members| && members[i].0 == key;
  }

  /** `{...obj}`: one member per key, in key order, holding the value a lookup finds. */
  function Spread<V>(members: seq<(string, V)>): (r: seq<(string, V)>)
    ensures Names(r) == Keys(members)
  {
    var keys := Keys(members);
    KeysLookup(members);
    seq(|keys|, i requires 0 <= i < |keys| => (keys[i], Lookup(members, keys[i]).value))
  }

  lemma {:induction false} KeysLookup<V>(members: seq<(string, V)>)
    ensures forall k :: k in Keys(members) ==> Lookup(members, k).Some?
  {
    forall k | k in Keys(members) ensures Lookup(members, k).Some? {
      KeysAreLookups(members, k);
    }
  }

  /** A spread copy has distinct names and answers every lookup as the original does. */
  lemma {:induction false} SpreadLookup<V>(members: seq<(string, V)>, key: string)
    ensures forall i, j :: 0 <= i < j < |Spread(members)| ==> Spread(members)[i].0 != Spread(members)[j].0
    ensures Lookup(Spread(members), key) == Lookup(members, key)
  {
    var r := Spread(members);
    var keys := Keys(members);
    assert forall i :: 0 <= i < |r| ==> r[i].0 == keys[i];
    KeysAreLookups(members, key);
    if key in keys {
      var i :| 0 <= i < |keys| && keys[i] == key;
      LookupAt(r, i);
    } else {
      LookupFound(r, key);
    }
  }

  /** `{...obj, key: value}` on a spread copy: the member keeps its position, or is appended. */
  function Assign<V>(members: seq<(string, V)>, key: string, value: V): (r: seq<(string, V)>)
  {
    if key in Names(members) then
      seq(|members|, i requires 0 <= i < |members| => if members[i].0 == key then (key, value) else members[i])
    else members + [(key, value)]
  }

  /** After the assignment the key holds the new value and every other key is untouched. */
  lemma {:induction false} AssignLookup<V>(members: seq<(string, V)>, key: string, value: V, other: string)
    ensures Lookup(Assign(members, key, value), key) == Some(value)
    ensures other != key ==> Lookup(Assign(members, key, value), other) == Lookup(members, other)
    ensures Names(Assign(members, key, value)) ==
      (if key in Names(members) then Names(members) else Names(members) + [key])
  {
    var r := Assign(members, key, value);
    if key in Names(members) {
      LookupFound(r, key);
      var i :| 0 <= i < |members| && members[i].0 == key;
      assert r[i].0 == key;
      ReplacedLookup(members, key, value, other);
    } else {
      LookupAt(r, |r| - 1);
      if other != key {
        AppendedLookup(members, key, value, other);
      }
    }
  }

  lemma {:induction false} ReplacedLookup<V>(members: seq<(string, V)>, key: string, value: V, other: string)
    ensures var r := seq(|members|, i requires 0 <= i < |members| => if members[i].0 == key then (key, value) else members[i]);
      && (key in Names(members) ==> Lookup(r, key) == Some(value))
      && (other != key ==> Lookup(r, other) == Lookup(members, other))
  {
    var r := seq(|members|, i requires 0 <= i < |members| => if members[i].0 == key then (key, value) else members[i]);
    if |members| > 0 {
      ReplacedLookup(members[1..], key, value, other);
      assert r[1..] == seq(|members[1..]|, i requires 0 <= i < |members[1..]| =>
        if members[1..][i].0 == key then (key, value) else members[1..][i]);
      if key in Names(members) && key !in Names(members[1..]) {
        assert members[0].0 == key;
        LookupFound(r[1..], key);
        LookupFound(members[1..], key);
      }
    }
  }

  lemma {:induction false} AppendedLookup<V>(members: seq<(string, V)>, key: string, value: V, other: string)
    requires other != key
    ensures Lookup(members + [(key, value)], other) == Lookup(members, other)
  {
    if |members| > 0 {
      assert (members + [(key, value)])[1..] == members[1..] + [(key, value)];
      AppendedLookup(members[1..], key, value, other);
    }
  }

  /** A lookup in two runs of members: the later run wins when it has the name. */
  lemma {:induction false} LookupConcat<V>(a: seq<(string, V)>, b: seq<(string, V)>, key: string)
    ensures Lookup(a + b, key) == if Lookup(b, key).Some? then Lookup(b, key) else Lookup(a, key)
    decreases |a|
  {
    if |a| == 0 {
      assert a + b == b;
    } else {
      assert (a + b)[1..] == a[1..] + b;
      LookupConcat(a[1..], b, key);
    }
  }

  /** A lookup in four runs of members: the last run that has the name wins. */
  lemma {:induction false} LookupConcat4<V>(a: seq<(string, V)>, b: seq<(string, V)>, c: seq<(string, V)>,
                                            d: seq<(string, V)>, key: string)
    ensures Lookup(a + b + c + d, key) ==
      if Lookup(d, key).Some? then Lookup(d, key)
      else if Lookup(c, key).Some? then Lookup(c, key)
      else if Lookup(b, key).Some? then Lookup(b, key)
      else Lookup(a, key)
  {
    LookupConcat(a + b + c, d, key);
    LookupConcat(a + b, c, key);
    LookupConcat(a, b, key);
  }

  /** Spreading an object whose names are distinct copies it member for member. */
  lemma {:induction false} SpreadDistinct<V>(members: seq<(string, V)>)
    requires forall i, j :: 0 <= i < j < |members| ==> members[i].0 != members[j].0
    ensures Spread(members) == members
  {
    DedupDistinct(Names(members));
    var r := Spread(members);
    forall i | 0 <= i < |members| ensures r[i] == members[i] {
      LookupAt(members, i);
    }
  }

  /** Assigning to a name held by exactly one member replaces that member in place. */
  lemma {:induction false} AssignExisting<V>(members: seq<(string, V)>, i: nat, value: V)
    requires i < |members|
    requires forall j :: 0 <= j < |members| && j != i ==> members[j].0 != members[i].0
    ensures Assign(members, members[i].0, value) == members[i := (members[i].0, value)]
  {
    assert Names(members)[i] == members[i].0;
  }
}
