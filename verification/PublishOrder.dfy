/** The order in which workspace crates are published: a depth-first topological sort. */
module PublishOrder {
  import opened Types

  type Name = string

  /** `path` says the dependency is a workspace crate, `starred` that it names no version. */
  datatype Dependency = Dependency(name: Name, dev: bool, path: bool, starred: bool)
  type Workspace = map<Name, seq<Dependency>>

  predicate Counts(d: Dependency) { !d.dev && d.path }

  predicate Needs(w: Workspace, a: Name, b: Name)
    requires a in w
  {
    exists i :: 0 <= i < |w[a]| && !w[a][i].dev && w[a][i].path && w[a][i].name == b
  }

  /** A dependency that cannot be published: not selected, or without a version. */
  predicate Faulty(w: Workspace, a: Name)
    requires a in w
  {
    exists i :: 0 <= i < |w[a]| && !w[a][i].dev && w[a][i].path && (w[a][i].name !in w || w[a][i].starred)
  }

  ghost predicate Path(w: Workspace, p: seq<Name>) {
    forall i :: 0 <= i < |p| - 1 ==> p[i] in w && Needs(w, p[i], p[i + 1])
  }

  ghost predicate Cyclic(w: Workspace) { exists p :: |p| >= 2 && Path(w, p) && p[0] == p[|p| - 1] }

  ghost predicate Broken(w: Workspace) { Cyclic(w) || exists a :: a in w && Faulty(w, a) }

  /** A publishing order: every crate once, after everything it needs. */
  ghost predicate Order(w: Workspace, o: seq<Name>) {
    && (forall i, j :: 0 <= i < j < |o| ==> o[i] != o[j])
    && (forall i :: 0 <= i < |o| ==> o[i] in w && !Faulty(w, o[i]))
    && (forall i, b :: 0 <= i < |o| && Needs(w, o[i], b) ==> b in o[..i])
  }

  /** The crates on the stack lead to `name`, so meeting one of them again closes a cycle. */
  lemma Loop(w: Workspace, stack: seq<Name>, name: Name)
    requires Path(w, stack + [name]) && name in stack
    ensures Broken(w)
  {
    var i :| 0 <= i < |stack| && stack[i] == name;
    var p := (stack + [name])[i..];
    assert p[0] == name && p[|p| - 1] == name && |p| >= 2;
    forall j | 0 <= j < |p| - 1 ensures p[j] in w && Needs(w, p[j], p[j + 1]) {
      assert p[j] == (stack + [name])[i + j] && p[j + 1] == (stack + [name])[i + j + 1];
    }
    assert Path(w, p);
    assert Cyclic(w);
  }

  lemma PathMore(w: Workspace, stack: seq<Name>, name: Name)
    requires Path(w, stack) && (stack != [] ==> stack[|stack| - 1] in w && Needs(w, stack[|stack| - 1], name))
    ensures Path(w, stack + [name])
  {
    var p := stack + [name];
    forall j | 0 <= j < |p| - 1 ensures p[j] in w && Needs(w, p[j], p[j + 1]) {
      if j < |stack| - 1 { assert p[j] == stack[j] && p[j + 1] == stack[j + 1]; }
    }
  }

  lemma FaultAt(w: Workspace, name: Name, i: nat)
    requires name in w && i < |w[name]| && Counts(w[name][i]) && (w[name][i].name !in w || w[name][i].starred)
    ensures Broken(w)
  {
    assert Faulty(w, name);
  }

  /** These dependencies are publishable and already placed. */
  ghost predicate Served(w: Workspace, deps: seq<Dependency>, done: set<Name>) {
    forall i :: 0 <= i < |deps| && Counts(deps[i]) ==> deps[i].name in done && deps[i].name in w && !deps[i].starred
  }

  lemma ServedNone(w: Workspace, deps: seq<Dependency>, done: set<Name>)
    ensures Served(w, deps[..0], done)
  {}

  lemma ServedMore(w: Workspace, deps: seq<Dependency>, i: nat, done: set<Name>)
    requires i < |deps| && Served(w, deps[..i], done) && !Counts(deps[i])
    ensures Served(w, deps[..i + 1], done)
  {}

  lemma ServedStill(w: Workspace, deps: seq<Dependency>, i: nat, before: set<Name>, done: set<Name>)
    requires i < |deps| && Served(w, deps[..i], before) && before <= done
    requires deps[i].name in done && deps[i].name in w && !deps[i].starred
    ensures Served(w, deps[..i + 1], done)
  {
    forall j | 0 <= j < i ensures deps[..i + 1][j] == deps[..i][j] {}
  }

  /** A crate whose dependencies are all done can come next. */
  lemma OrderMore(w: Workspace, o: seq<Name>, done: set<Name>, name: Name)
    requires Order(w, o) && name in w && name !in o && (forall x :: x in done <==> x in o)
    requires Served(w, w[name][..|w[name]|], done)
    ensures Order(w, o + [name])
  {
    var o' := o + [name];
    assert w[name][..|w[name]|] == w[name];
    forall i, b | 0 <= i < |o'| && o'[i] in w && Needs(w, o'[i], b) ensures b in o'[..i] {
      if i < |o| {
        assert Needs(w, o[i], b);
        assert o'[..i] == o[..i];
      } else {
        assert o'[..i] == o;
      }
    }
  }

  class Sorter {
    const w: Workspace
    var ordered: seq<Name>
    var visiting: set<Name>
    var done: set<Name>
    /** The crates being visited, outermost first. */
    ghost var stack: seq<Name>

    ghost predicate Valid()
      reads this
    {
      && Order(w, ordered) && (forall x :: x in done <==> x in ordered)
      && Path(w, stack) && (forall x :: x in visiting <==> x in stack) && visiting <= w.Keys && visiting !! done
    }

    constructor (workspace: Workspace)
      ensures Valid() && w == workspace && ordered == [] && stack == []
    {
      w := workspace;
      ordered, visiting, done, stack := [], {}, {}, [];
    }

    method Enter(name: Name)
      requires Valid() && name in w && name !in visiting && name !in done && Path(w, stack + [name])
      modifies this`visiting, this`stack
      ensures Valid() && stack == old(stack) + [name] && visiting == old(visiting) + {name}
      ensures |w.Keys - visiting| < |w.Keys - old(visiting)|
    {
      hide Order, Path;
      visiting := visiting + {name};
      stack := stack + [name];
      assert w.Keys - old(visiting) == (w.Keys - visiting) + {name};
    }

    method Leave(name: Name, ghost outer: seq<Name>)
      requires Valid() && stack == outer + [name] && name in w && name !in outer && Path(w, outer) && Order(w, ordered + [name])
      modifies this
      ensures Valid() && stack == outer && visiting == old(visiting) - {name} && done == old(done) + {name}
    {
      hide Order, Path;
      visiting := visiting - {name};
      done := done + {name};
      ordered := ordered + [name];
      stack := outer;
    }

    /** Place a crate after everything it needs; failure means the workspace is broken. */
    method Visit(name: Name) returns (ok: bool)
      requires Valid() && name in w && (stack != [] ==> stack[|stack| - 1] in w && Needs(w, stack[|stack| - 1], name))
      modifies this
      ensures !ok ==> Broken(w)
      ensures ok ==> Valid() && stack == old(stack) && visiting == old(visiting) && name in done && old(done) <= done
      decreases |w.Keys - visiting|
    {
      hide Order, Path, Broken, Needs, Served;
      PathMore(w, stack, name);
      if name in visiting {
        Loop(w, stack, name);
        return false;
      }
      if name in done {
        return true;
      }
      Enter(name);
      ServedNone(w, w[name], done);
      for i := 0 to |w[name]|
        invariant Valid() && stack == old(stack) + [name] && visiting == old(visiting) + {name} && old(done) <= done
        invariant Served(w, w[name][..i], done)
      {
        var dep := w[name][i];
        if dep.dev || !dep.path {
          ServedMore(w, w[name], i, done);
          continue;
        }
        if dep.name !in w || dep.starred {
          FaultAt(w, name, i);
          return false;
        }
        NeedsAt(w, name, i);
        ghost var before := done;
        ok := Visit(dep.name);
        if !ok {
          return false;
        }
        ServedStill(w, w[name], i, before, done);
      }
      OrderMore(w, ordered, done, name);
      Leave(name, old(stack));
      return true;
    }
  }

  lemma NeedsAt(w: Workspace, name: Name, i: nat)
    requires name in w && i < |w[name]| && Counts(w[name][i])
    ensures Needs(w, name, w[name][i].name)
  {}

  /** An order leaves no room for a cycle: every step of a path goes back in it. */
  lemma {:induction false} Backwards(w: Workspace, o: seq<Name>, p: seq<Name>, i: nat)
    requires Order(w, o) && Path(w, p) && |p| >= 2 && i < |o| && o[i] == p[0]
    ensures exists j :: 0 <= j < i && o[j] == p[|p| - 1]
    decreases |p|
  {
    assert Needs(w, p[0], p[1]);
    var j :| 0 <= j < |o[..i]| && o[..i][j] == p[1];
    if |p| > 2 {
      var rest := p[1..];
      assert Path(w, rest) by {
        forall k | 0 <= k < |rest| - 1 ensures rest[k] in w && Needs(w, rest[k], rest[k + 1]) {
          assert rest[k] == p[k + 1] && rest[k + 1] == p[k + 2];
        }
      }
      Backwards(w, o, rest, j);
    }
  }

  lemma OrderedIsSound(w: Workspace, o: seq<Name>)
    requires Order(w, o) && forall x :: x in w ==> x in o
    ensures !Broken(w)
  {
    if Cyclic(w) {
      var p :| |p| >= 2 && Path(w, p) && p[0] == p[|p| - 1];
      assert p[0] in w;
      var i :| 0 <= i < |o| && o[i] == p[0];
      Backwards(w, o, p, i);
    }
    forall a | a in w ensures !Faulty(w, a) { var i :| 0 <= i < |o| && o[i] == a; }
  }

  /** The order exists exactly when something is selected, every path dependency of it can
      be published and no crate needs itself. `names` lists the selection, sorted. */
  method Publish(w: Workspace, names: seq<Name>) returns (r: Option<seq<Name>>)
    requires forall x :: x in names <==> x in w
    ensures r.Some? <==> w != map[] && !Broken(w)
    ensures r.Some? ==> Order(w, r.value) && forall x :: x in w <==> x in r.value
  {
    hide Order, Path, Broken;
    var s := new Sorter(w);
    for i := 0 to |names|
      invariant s.w == w && s.Valid() && s.stack == [] && forall j :: 0 <= j < i ==> names[j] in s.done
    {
      var ok := s.Visit(names[i]);
      if !ok {
        return None;
      }
    }
    assert forall x :: x in w ==> x in s.ordered;
    OrderedIsSound(w, s.ordered);
    if s.ordered == [] {
      assert w == map[] by { assert forall x :: x !in w; }
      return None;
    }
    InOrder(w, s.ordered);
    assert s.ordered[0] in w;
    return Some(s.ordered);
  }

  lemma InOrder(w: Workspace, o: seq<Name>)
    requires Order(w, o)
    ensures forall x :: x in o ==> x in w
  {}
}
