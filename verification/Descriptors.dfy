/** The import closures of the reflection service (internal/protocol/reflection.go). */
module Descriptors {
  import opened Domain

  /** A file descriptor: its name, its imports, and its encoding when it can be marshalled. */
  datatype File = File(name: string, dependency: seq<string>, encoded: Option<string>)

  type Files = map<string, File>

  // ----- reachability ----------------------------------------------------------

  predicate Imports(files: Files, importer: string, name: string) {
    importer in files && name in files && name in files[importer].dependency
  }

  /** A chain of imports between indexed files. */
  predicate Chain(files: Files, p: seq<string>) {
    && |p| > 0 && (forall i :: 0 <= i < |p| ==> p[i] in files)
    && forall i :: 0 <= i < |p| - 1 ==> Imports(files, p[i], p[i + 1])
  }

  ghost predicate Reaches(files: Files, from: string, to: string) {
    exists p: seq<string> :: Chain(files, p) && p[0] == from && p[|p| - 1] == to
  }

  /** Every import of a file in s that is indexed is in s. */
  ghost predicate Closed(files: Files, s: set<string>) {
    forall f, d :: f in s && Imports(files, f, d) ==> d in s
  }

  lemma {:induction false} ClosedContains(files: Files, s: set<string>, p: seq<string>)
    requires Closed(files, s) && Chain(files, p) && p[0] in s
    ensures p[|p| - 1] in s
    decreases |p|
  {
    if |p| > 1 {
      assert Imports(files, p[0], p[1]);
      ClosedContains(files, s, p[1..]);
    }
  }

  lemma ReachesSelf(files: Files, name: string)
    requires name in files
    ensures Reaches(files, name, name)
  {
    assert Chain(files, [name]);
  }

  lemma ReachesOn(files: Files, importer: string, name: string, to: string)
    requires Imports(files, importer, name) && Reaches(files, name, to)
    ensures Reaches(files, importer, to)
  {
    var p :| Chain(files, p) && p[0] == name && p[|p| - 1] == to;
    var q := [importer] + p;
    assert forall i :: 0 <= i < |q| - 1 ==> Imports(files, q[i], q[i + 1]) by {
      forall i | 0 <= i < |q| - 1 ensures Imports(files, q[i], q[i + 1]) {
        assert i > 0 ==> q[i] == p[i - 1] && q[i + 1] == p[i];
      }
    }
    assert Chain(files, q);
  }

  lemma ReachesIn(files: Files, from: string, to: string)
    ensures Reaches(files, from, to) ==> from in files && to in files
  {
  }

  // ----- the traversal ---------------------------------------------------------

  /** The depth-first visit both closures make: what has been seen, and the files it finished
      with, each after its imports. */
  function Visit(files: Files, seen: set<string>, name: string): (r: (set<string>, seq<string>))
    ensures seen <= r.0 && r.0 <= seen + files.Keys
    decreases files.Keys - seen, 0
  {
    if name in seen || name !in files then (seen, [])
    else
      var (s, order) := VisitAll(files, seen + {name}, files[name].dependency);
      (s, order + [name])
  }

  function VisitAll(files: Files, seen: set<string>, names: seq<string>): (r: (set<string>, seq<string>))
    ensures seen <= r.0 && r.0 <= seen + files.Keys
    decreases files.Keys - seen, 1 + |names|
  {
    if names == [] then (seen, [])
    else
      var (s, first) := Visit(files, seen, names[0]);
      var (t, rest) := VisitAll(files, s, names[1..]);
      (t, first + rest)
  }

  // ----- what it visits --------------------------------------------------------

  /** Newly seen files are reachable, and their imports are seen. */
  lemma {:induction false} VisitSound(files: Files, seen: set<string>, name: string)
    ensures var (s, _) := Visit(files, seen, name);
      && (name in files ==> name in s)
      && (forall f :: f in s - seen ==> Reaches(files, name, f))
      && (forall f, d :: f in s - seen && Imports(files, f, d) ==> d in s)
    decreases files.Keys - seen, 0
  {
    if name !in seen && name in files {
      var deps := files[name].dependency;
      VisitAllSound(files, seen + {name}, deps);
      var (s, _) := VisitAll(files, seen + {name}, deps);
      forall f | f in s - seen ensures Reaches(files, name, f) {
        if f == name {
          ReachesSelf(files, name);
        } else {
          assert ReachedFrom(files, deps, f);
          var k :| 0 <= k < |deps| && Reaches(files, deps[k], f);
          ReachesIn(files, deps[k], f);
          ReachesOn(files, name, deps[k], f);
        }
      }
    }
  }

  ghost predicate ReachedFrom(files: Files, names: seq<string>, f: string) {
    exists k :: 0 <= k < |names| && Reaches(files, names[k], f)
  }

  lemma {:induction false} VisitAllSound(files: Files, seen: set<string>, names: seq<string>)
    ensures var (s, _) := VisitAll(files, seen, names);
      && (forall k :: 0 <= k < |names| && names[k] in files ==> names[k] in s)
      && (forall f :: f in s - seen ==> ReachedFrom(files, names, f))
      && (forall f, d :: f in s - seen && Imports(files, f, d) ==> d in s)
    decreases files.Keys - seen, 1 + |names|
  {
    if names != [] {
      VisitSound(files, seen, names[0]);
      var (s, _) := Visit(files, seen, names[0]);
      VisitAllSound(files, s, names[1..]);
      var (t, _) := VisitAll(files, s, names[1..]);
      forall f | f in t - seen ensures ReachedFrom(files, names, f) {
        if f in s {
          assert Reaches(files, names[0], f);
        } else {
          assert ReachedFrom(files, names[1..], f);
          var k :| 0 <= k < |names[1..]| && Reaches(files, names[1..][k], f);
          assert Reaches(files, names[k + 1], f);
        }
      }
      forall k | 0 <= k < |names| && names[k] in files ensures names[k] in t {
        assert k > 0 ==> names[k] == names[1..][k - 1];
      }
    }
  }

  /** From a closed set, a visit adds exactly what its root reaches, and the set stays closed. */
  lemma VisitAddsReachable(files: Files, seen: set<string>, name: string)
    requires Closed(files, seen)
    ensures var s := Visit(files, seen, name).0;
      Closed(files, s) && forall f :: f in s <==> f in seen || Reaches(files, name, f)
  {
    VisitSound(files, seen, name);
    var s := Visit(files, seen, name).0;
    assert Closed(files, s);
    forall f | Reaches(files, name, f) ensures f in s {
      ReachesIn(files, name, f);
      var p :| Chain(files, p) && p[0] == name && p[|p| - 1] == f;
      ClosedContains(files, s, p);
    }
  }

  predicate NoRepeats(names: seq<string>) {
    forall i, j :: 0 <= i < j < |names| ==> names[i] != names[j]
  }

  /** A visit finishes with each newly seen file once. */
  lemma {:induction false} VisitOnce(files: Files, seen: set<string>, name: string)
    ensures var (s, order) := Visit(files, seen, name);
      NoRepeats(order) && forall f :: f in order <==> f in s && f !in seen
    decreases files.Keys - seen, 0
  {
    if name !in seen && name in files {
      VisitAllOnce(files, seen + {name}, files[name].dependency);
    }
  }

  lemma {:induction false} VisitAllOnce(files: Files, seen: set<string>, names: seq<string>)
    ensures var (s, order) := VisitAll(files, seen, names);
      NoRepeats(order) && forall f :: f in order <==> f in s && f !in seen
    decreases files.Keys - seen, 1 + |names|
  {
    if names != [] {
      VisitOnce(files, seen, names[0]);
      var (s, first) := Visit(files, seen, names[0]);
      VisitAllOnce(files, s, names[1..]);
      var (t, rest) := VisitAll(files, s, names[1..]);
      forall i, j | 0 <= i < j < |first + rest| ensures (first + rest)[i] != (first + rest)[j] {
        if i < |first| && j >= |first| {
          assert first[i] in first && rest[j - |first|] in rest;
        }
      }
    }
  }

  // ----- the order -------------------------------------------------------------

  /** Every import that is in the list at all comes before its importer. */
  ghost predicate ImportsFirst(files: Files, order: seq<string>) {
    forall i, d :: 0 <= i < |order| && Imports(files, order[i], d) ==> d in order[..i]
  }

  /** A rank that falls along every import from a reachable file: the reachable part is acyclic. */
  ghost predicate Ranked(files: Files, root: string, rank: string -> nat) {
    forall f, d :: Reaches(files, root, f) && Imports(files, f, d) ==> rank(d) < rank(f)
  }

  /** Every file begun and not finished outranks name. */
  predicate Below(open: set<string>, name: string, rank: string -> nat) {
    forall g :: g in open ==> rank(name) < rank(g)
  }

  /**
   * With a rank, a visit finishes imports first. done is what was finished before; what is
   * seen and not in done is still open.
   */
  lemma {:induction false} VisitOrdered(files: Files, root: string, seen: set<string>, done: seq<string>, name: string, rank: string -> nat)
    requires Ranked(files, root, rank) && (name in files ==> Reaches(files, root, name))
    requires (forall f :: f in done ==> f in seen) && ImportsFirst(files, done)
    requires name in files ==> Below(seen - (set f | f in done), name, rank)
    ensures ImportsFirst(files, done + Visit(files, seen, name).1)
    decreases files.Keys - seen, 0
  {
    if name !in seen && name in files {
      var deps := files[name].dependency;
      var order := VisitAll(files, seen + {name}, deps).1;
      VisitAllOrdered(files, root, seen + {name}, done, name, deps, rank);
      VisitAllSound(files, seen + {name}, deps);
      VisitAllOnce(files, seen + {name}, deps);
      var before := done + order;
      forall d | Imports(files, name, d) ensures d in before {
        ImportedIsReached(files, root, name, d);
        assert rank(d) < rank(name);
      }
      assert done + Visit(files, seen, name).1 == before + [name];
      Extends(files, before, name);
    } else {
      assert done + [] == done;
    }
  }

  lemma Extends(files: Files, order: seq<string>, name: string)
    requires ImportsFirst(files, order) && forall d :: Imports(files, name, d) ==> d in order
    ensures ImportsFirst(files, order + [name])
  {
    var t := order + [name];
    forall i, d | 0 <= i < |t| && Imports(files, t[i], d) ensures d in t[..i] {
      assert t[..i] == order[..i];
      assert i == |order| ==> order[..i] == order;
    }
  }

  lemma ImportedIsReached(files: Files, root: string, f: string, d: string)
    requires Reaches(files, root, f) && Imports(files, f, d)
    ensures Reaches(files, root, d)
  {
    var p :| Chain(files, p) && p[0] == root && p[|p| - 1] == f;
    assert Chain(files, p + [d]);
  }

  lemma RankFalls(files: Files, root: string, importer: string, d: string, rank: string -> nat)
    requires Ranked(files, root, rank) && Reaches(files, root, importer) && importer in files
    requires d in files[importer].dependency
    ensures d in files ==> Reaches(files, root, d) && rank(d) < rank(importer)
  {
    if d in files {
      assert Imports(files, importer, d);
      ImportedIsReached(files, root, importer, d);
    }
  }

  lemma {:induction false} VisitAllOrdered(files: Files, root: string, seen: set<string>, done: seq<string>, importer: string,
                                           names: seq<string>, rank: string -> nat)
    requires Ranked(files, root, rank) && importer in files && Reaches(files, root, importer)
    requires forall k :: 0 <= k < |names| ==> names[k] in files[importer].dependency
    requires (forall f :: f in done ==> f in seen) && ImportsFirst(files, done)
    requires forall g :: g in seen && g !in done ==> g == importer || rank(importer) < rank(g)
    ensures ImportsFirst(files, done + VisitAll(files, seen, names).1)
    decreases files.Keys - seen, 1 + |names|
  {
    if names == [] {
      assert done + [] == done;
    } else {
      var (s, first) := Visit(files, seen, names[0]);
      var rest := VisitAll(files, s, names[1..]).1;
      RankFalls(files, root, importer, names[0], rank);
      hide Reaches, Ranked, ImportsFirst, NoRepeats, Imports;
      VisitOrdered(files, root, seen, done, names[0], rank);
      VisitOnce(files, seen, names[0]);
      VisitAllOrdered(files, root, s, done + first, importer, names[1..], rank);
      assert done + first + rest == done + (first + rest);
    }
  }

  /**
   * The closure of a file: exactly what it reaches, each once, and imports come first exactly
   * when the imports it reaches form no cycle.
   */
  lemma ClosureOrder(files: Files, file: string)
    ensures var order := Visit(files, {}, file).1;
      && NoRepeats(order)
      && (forall f :: f in order <==> Reaches(files, file, f))
      && (ImportsFirst(files, order) <==> exists rank :: Ranked(files, file, rank))
  {
    var order := Visit(files, {}, file).1;
    VisitOnce(files, {}, file);
    VisitAddsReachable(files, {}, file);
    if rank :| Ranked(files, file, rank) {
      if file in files {
        ReachesSelf(files, file);
      }
      VisitOrdered(files, file, {}, [], file, rank);
      assert [] + order == order;
    }
    if ImportsFirst(files, order) {
      RankByPosition(files, file, order);
    }
  }

  function Position(order: seq<string>, name: string): nat {
    if order == [] || order[0] == name then 0 else 1 + Position(order[1..], name)
  }

  lemma {:induction false} PositionFinds(order: seq<string>, name: string)
    requires name in order
    ensures Position(order, name) < |order| && order[Position(order, name)] == name
    ensures forall i :: 0 <= i < |order| && order[i] == name ==> Position(order, name) <= i
  {
    if order[0] != name {
      PositionFinds(order[1..], name);
      forall i | 0 <= i < |order| && order[i] == name ensures Position(order, name) <= i {
        assert order[1..][i - 1] == name;
      }
    }
  }

  lemma RankByPosition(files: Files, file: string, order: seq<string>)
    requires ImportsFirst(files, order) && forall f :: f in order <==> Reaches(files, file, f)
    ensures exists rank :: Ranked(files, file, rank)
  {
    var rank := name => Position(order, name);
    forall f, d | Reaches(files, file, f) && Imports(files, f, d) ensures rank(d) < rank(f) {
      PositionFinds(order, f);
      assert d in order[..Position(order, f)];
      var j :| 0 <= j < Position(order, f) && order[..Position(order, f)][j] == d;
      PositionFinds(order, d);
      assert order[j] == d;
    }
    assert Ranked(files, file, rank);
  }

  // ----- the two traversals of the source --------------------------------------

  /** The last file of a name wins. */
  function ByName(descriptors: seq<File>): Files {
    if descriptors == [] then map[]
    else
      var last := descriptors[|descriptors| - 1];
      ByName(descriptors[..|descriptors| - 1])[last.name := last]
  }

  function Encoded(files: Files, order: seq<string>): seq<string> {
    if order == [] then []
    else
      var rest := Encoded(files, order[..|order| - 1]);
      var last := order[|order| - 1];
      if last in files && files[last].encoded.Some? then rest + [files[last].encoded.value] else rest
  }

  /** The index holds, under each name, the last file of that name. */
  lemma {:induction false} ByNameReads(descriptors: seq<File>, name: string)
    ensures name in ByName(descriptors) <==> exists i :: 0 <= i < |descriptors| && descriptors[i].name == name
    ensures name in ByName(descriptors) ==>
      exists i :: 0 <= i < |descriptors| && ByName(descriptors)[name] == descriptors[i] && descriptors[i].name == name
                  && forall j :: i < j < |descriptors| ==> descriptors[j].name != name
    decreases |descriptors|
  {
    if descriptors != [] {
      var n := |descriptors| - 1;
      ByNameReads(descriptors[..n], name);
      if descriptors[n].name == name {
        assert ByName(descriptors)[name] == descriptors[n];
      } else if name in ByName(descriptors[..n]) {
        var i :| 0 <= i < n && ByName(descriptors[..n])[name] == descriptors[..n][i] && descriptors[..n][i].name == name
                 && forall j :: i < j < n ==> descriptors[..n][j].name != name;
        assert ByName(descriptors)[name] == descriptors[i];
        forall j | i < j < |descriptors| ensures descriptors[j].name != name {
          assert j < n ==> descriptors[..n][j] == descriptors[j];
        }
      }
    }
  }

  /** When every file can be encoded, the answer has one encoding per file, in order. */
  lemma {:induction false} EncodedReads(files: Files, order: seq<string>)
    requires forall f :: f in order ==> f in files && files[f].encoded.Some?
    ensures |Encoded(files, order)| == |order|
    ensures forall i :: 0 <= i < |order| ==> Encoded(files, order)[i] == files[order[i]].encoded.value
    decreases |order|
  {
    if order != [] {
      EncodedReads(files, order[..|order| - 1]);
    }
  }

  lemma EncodedAppends(files: Files, order: seq<string>, name: string)
    ensures Encoded(files, order + [name]) ==
            Encoded(files, order) + if name in files && files[name].encoded.Some? then [files[name].encoded.value] else []
  {
    assert (order + [name])[..|order|] == order;
  }

  /** The `out` map that the roots of a capset share. */
  class FileClosure {
    var out: set<string>

    constructor ()
      ensures out == {}
    {
      out := {};
    }

    method Collect(descriptors: seq<File>, name: string)
      modifies this
      ensures out == Visit(ByName(descriptors), old(out), name).0
    {
      var files := IndexByName(descriptors);
      VisitFile(files, name);
    }

    method VisitFile(files: Files, name: string)
      modifies this
      ensures out == Visit(files, old(out), name).0
      decreases files.Keys - out, 0
    {
      if name in out || name !in files {
        return;
      }
      out := out + {name};
      var deps := files[name].dependency;
      for i := 0 to |deps|
        invariant out >= old(out) + {name}
        invariant VisitAll(files, out, deps[i..]).0 == VisitAll(files, old(out) + {name}, deps).0
      {
        assert deps[i..][0] == deps[i] && deps[i..][1..] == deps[i + 1..];
        VisitFile(files, deps[i]);
      }
    }

    /** All roots with one shared out: what any of them reaches, and nothing else. */
    method CollectAll(descriptors: seq<File>, roots: seq<string>)
      requires out == {}
      modifies this
      ensures forall f :: f in out <==> exists r :: r in roots && Reaches(ByName(descriptors), r, f)
    {
      ghost var files := ByName(descriptors);
      for i := 0 to |roots|
        invariant Closed(files, out)
        invariant forall f :: f in out <==> exists r :: r in roots[..i] && Reaches(files, r, f)
      {
        VisitAddsReachable(files, out, roots[i]);
        assert roots[..i + 1] == roots[..i] + [roots[i]];
        Collect(descriptors, roots[i]);
      }
      assert roots[..|roots|] == roots;
    }
  }

  method IndexByName(descriptors: seq<File>) returns (files: Files)
    ensures files == ByName(descriptors)
  {
    files := map[];
    for i := 0 to |descriptors|
      invariant files == ByName(descriptors[..i])
    {
      assert descriptors[..i + 1][..i] == descriptors[..i];
      files := files[descriptors[i].name := descriptors[i]];
    }
    assert descriptors[..|descriptors|] == descriptors;
  }

  class ReflectionIndex {
    const files: Files
    var closures: map<string, seq<string>>

    /** A cached closure is the closure. */
    ghost predicate Valid() reads this {
      forall f :: f in closures ==> closures[f] == Encoded(files, Visit(files, {}, f).1)
    }

    constructor (files: Files)
      ensures Valid() && this.files == files && closures == map[]
    {
      this.files, closures := files, map[];
    }

    method Closure(file: string) returns (out: seq<string>)
      requires Valid()
      modifies this
      ensures Valid() && out == Encoded(files, Visit(files, {}, file).1)
      ensures closures == old(closures)[file := out]
    {
      if file in closures {
        assert closures == closures[file := closures[file]];
        return closures[file];
      }
      var _, order, bytes := VisitFile({}, [], [], file);
      out := bytes;
      assert [] + Visit(files, {}, file).1 == Visit(files, {}, file).1;
      closures := closures[file := out];
    }

    /** seen, out and the files behind out, from before the visit to after it. */
    method VisitFile(seen: set<string>, ghost order: seq<string>, out: seq<string>, name: string)
      returns (seen': set<string>, ghost order': seq<string>, out': seq<string>)
      requires out == Encoded(files, order)
      ensures (seen', order') == (Visit(files, seen, name).0, order + Visit(files, seen, name).1)
      ensures out' == Encoded(files, order')
      decreases files.Keys - seen, 0
    {
      hide Encoded;
      seen', order', out' := seen, order, out;
      assert order + [] == order;
      if name in seen || name !in files {
        return;
      }
      seen' := seen + {name};
      var deps := files[name].dependency;
      ghost var all := VisitAll(files, seen', deps);
      for i := 0 to |deps|
        invariant seen' >= seen + {name} && out' == Encoded(files, order')
        invariant VisitAll(files, seen', deps[i..]).0 == all.0
        invariant order' + VisitAll(files, seen', deps[i..]).1 == order + all.1
      {
        assert deps[i..][0] == deps[i] && deps[i..][1..] == deps[i + 1..];
        seen', order', out' := VisitFile(seen', order', out', deps[i]);
      }
      assert deps[|deps|..] == [] && order' + [] == order';
      EncodedAppends(files, order', name);
      assert order' + [name] == order + (all.1 + [name]);
      order' := order' + [name];
      if files[name].encoded.Some? {
        out' := out' + [files[name].encoded.value];
      }
    }
  }
}
