/** The request's header map. The source keeps it in a `LinkedHashMap`, so its
    entries iterate in insertion order; the model keeps the entries as a
    sequence in that order, with no name twice. */
module Headers {
  import opened Wrappers

  /** One header entry: its name (case-sensitive) and its value as text. */
  type Header = (string, string)

  /** The map invariant: a name appears at most once. */
  predicate UniqueNames(h: seq<Header>) {
    forall i, j :: 0 <= i < j < |h| ==> h[i].0 != h[j].0
  }

  predicate HasName(h: seq<Header>, name: string) {
    exists i :: 0 <= i < |h| && h[i].0 == name
  }

  /** The key set of the map. */
  function Names(h: seq<Header>): set<string> {
    set i | 0 <= i < |h| :: h[i].0
  }

  /** With unique names, the map has as many entries as names. */
  lemma {:induction false} UniqueNamesCount(h: seq<Header>)
    requires UniqueNames(h)
    ensures |Names(h)| == |h|
  {
    if h != [] {
      var init := h[..|h| - 1];
      UniqueNamesCount(init);
      assert Names(h) == Names(init) + {h[|h| - 1].0} by {
        forall n | n in Names(h) ensures n in Names(init) + {h[|h| - 1].0} {
          var i :| 0 <= i < |h| && h[i].0 == n;
          if i < |h| - 1 { assert init[i].0 == n; }
        }
      }
      assert h[|h| - 1].0 !in Names(init);
    }
  }

  /** `get(name)`: the value stored under `name`, if any. */
  function Get(h: seq<Header>, name: string): (r: Option<string>)
    ensures r.Some? <==> HasName(h, name)
    ensures r.Some? ==> exists i :: 0 <= i < |h| && h[i] == (name, r.value)
    ensures UniqueNames(h) ==> forall i :: 0 <= i < |h| && h[i].0 == name ==> r == Some(h[i].1)
  {
    if h == [] then None
    else if h[0].0 == name then Some(h[0].1)
    else
      var r := Get(h[1..], name);
      assert r.Some? ==> exists i :: 0 <= i < |h| && h[i] == (name, r.value) by {
        if r.Some? {
          var i :| 0 <= i < |h[1..]| && h[1..][i] == (name, r.value);
          assert h[i + 1] == (name, r.value);
        }
      }
      assert HasName(h, name) ==> HasName(h[1..], name) by {
        if HasName(h, name) {
          var i :| 0 <= i < |h| && h[i].0 == name;
          assert h[1..][i - 1].0 == name;
        }
      }
      r
  }

  /** `put(name, value)` on a `LinkedHashMap`: an existing name keeps its place
      and takes the new value; a new name is appended at the end. */
  function Put(h: seq<Header>, name: string, value: string): (r: seq<Header>)
    ensures |r| == if HasName(h, name) then |h| else |h| + 1
    ensures forall i :: 0 <= i < |h| ==> r[i].0 == h[i].0
    ensures forall i :: 0 <= i < |h| && h[i].0 != name ==> r[i] == h[i]
    ensures !HasName(h, name) ==> r[|h|] == (name, value)
  {
    if h == [] then [(name, value)]
    else if h[0].0 == name then [(name, value)] + h[1..]
    else
      HasNameTail(h, name);
      [h[0]] + Put(h[1..], name, value)
  }

  lemma HasNameTail(h: seq<Header>, name: string)
    requires h != [] && h[0].0 != name
    ensures HasName(h, name) <==> HasName(h[1..], name)
  {
    if HasName(h, name) {
      var i :| 0 <= i < |h| && h[i].0 == name;
      assert h[1..][i - 1].0 == name;
    }
    if HasName(h[1..], name) {
      var i :| 0 <= i < |h[1..]| && h[1..][i].0 == name;
      assert h[i + 1].0 == name;
    }
  }

  /** After `put(name, value)`, `get(name)` answers `value` and every other
      name answers what it did before. */
  lemma {:induction false} PutGet(h: seq<Header>, name: string, value: string)
    ensures Get(Put(h, name, value), name) == Some(value)
    ensures forall other :: other != name ==> Get(Put(h, name, value), other) == Get(h, other)
  {
    if h != [] && h[0].0 != name {
      PutGet(h[1..], name, value);
      assert Put(h, name, value)[1..] == Put(h[1..], name, value);
    } else if h != [] {
      assert Put(h, name, value)[1..] == h[1..];
    }
  }

  /** `put` keeps the map invariant. */
  lemma PutUnique(h: seq<Header>, name: string, value: string)
    ensures UniqueNames(h) ==> UniqueNames(Put(h, name, value))
  {
    var r := Put(h, name, value);
    if UniqueNames(h) {
      forall i, j | 0 <= i < j < |r| ensures r[i].0 != r[j].0 {
        if j == |h| {
          assert !HasName(h, name) && r[j].0 == name;
          assert h[i].0 != name;
        }
      }
    }
  }

  /** `put` adds exactly the name put to the key set. */
  lemma PutNames(h: seq<Header>, name: string, value: string)
    ensures Names(Put(h, name, value)) == Names(h) + {name}
  {
    var r := Put(h, name, value);
    forall n | n in Names(r) ensures n in Names(h) + {name} {
      var i :| 0 <= i < |r| && r[i].0 == n;
      if i < |h| { assert h[i].0 == n; }
    }
    forall n | n in Names(h) ensures n in Names(r) {
      var i :| 0 <= i < |h| && h[i].0 == n;
      assert r[i].0 == n;
    }
    if HasName(h, name) {
      var i :| 0 <= i < |h| && h[i].0 == name;
      assert r[i].0 == name;
    } else {
      assert r[|h|].0 == name;
    }
  }

  /** `putAll(m)`: the entries of `m`, in `m`'s iteration order, each put in turn. */
  function PutAll(h: seq<Header>, m: seq<Header>): (r: seq<Header>)
    requires UniqueNames(m)
    ensures forall name :: Get(r, name) == if HasName(m, name) then Get(m, name) else Get(h, name)
    ensures |r| >= |h|
    ensures forall i :: 0 <= i < |h| ==> r[i].0 == h[i].0
    ensures UniqueNames(h) ==> UniqueNames(r)
    decreases |m|
  {
    if m == [] then h
    else
      PutGet(h, m[0].0, m[0].1);
      PutUnique(h, m[0].0, m[0].1);
      PutAll(Put(h, m[0].0, m[0].1), m[1..])
  }

  lemma NamesCons(m: seq<Header>)
    requires m != []
    ensures Names(m) == {m[0].0} + Names(m[1..])
  {
    forall n | n in Names(m) ensures n in {m[0].0} + Names(m[1..]) {
      var i :| 0 <= i < |m| && m[i].0 == n;
      if i > 0 { assert m[1..][i - 1].0 == n; }
    }
    forall n | n in Names(m[1..]) ensures n in Names(m) {
      var i :| 0 <= i < |m[1..]| && m[1..][i].0 == n;
      assert m[i + 1].0 == n;
    }
  }

  /** `putAll(m)` yields the union of the two key sets. */
  lemma {:induction false} PutAllNames(h: seq<Header>, m: seq<Header>)
    requires UniqueNames(m)
    ensures Names(PutAll(h, m)) == Names(h) + Names(m)
    decreases |m|
  {
    if m == [] {
      assert Names(m) == {};
    } else {
      var next := Put(h, m[0].0, m[0].1);
      assert PutAll(h, m) == PutAll(next, m[1..]);
      PutNames(h, m[0].0, m[0].1);
      NamesCons(m);
      PutAllNames(next, m[1..]);
    }
  }

  /** A map with unique names grows under `putAll(m)` by exactly the names of
      `m` it did not have; with none new, its size is unchanged. */
  lemma PutAllSize(h: seq<Header>, m: seq<Header>)
    requires UniqueNames(h) && UniqueNames(m)
    ensures |PutAll(h, m)| == |h| + |Names(m) - Names(h)|
  {
    var r := PutAll(h, m);
    PutAllNames(h, m);
    UniqueNamesCount(h);
    UniqueNamesCount(r);
    assert Names(r) == Names(h) + (Names(m) - Names(h));
    assert Names(h) !! (Names(m) - Names(h));
  }
}
