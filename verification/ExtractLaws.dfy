/** The definition extractor: a depth-first walk over the driver's definitions
    that prints each after the definitions it uses, or reports a circular one. */
module ExtractLaws {
  import opened Arith

  type Name = string

  // A definition's name and the identifiers of its text, in their order.  What
  // is not a definition, and the name itself, is no dependency.
  type Definitions = map<Name, seq<Name>>

  predicate Uses(defs: Definitions, a: Name, b: Name) {
    a in defs && b in defs && b in defs[a] && b != a
  }

  // ------------------------------------------------------ what is reachable

  predicate Path(defs: Definitions, p: seq<Name>) {
    && |p| > 0
    && (forall i :: 0 <= i < |p| ==> p[i] in defs)
    && (forall i :: 0 < i < |p| ==> Uses(defs, p[i - 1], p[i]))
  }

  ghost predicate Reaches(defs: Definitions, a: Name, b: Name) {
    exists p :: Path(defs, p) && p[0] == a && p[|p| - 1] == b
  }

  // A path that comes back to one of its names: since no definition is its
  // own dependency, the cycle it ends with has two definitions or more.
  predicate Loops(p: seq<Name>) {
    |p| > 0 && p[|p| - 1] in p[..|p| - 1]
  }

  ghost predicate ReachesCycle(defs: Definitions, wanted: seq<Name>) {
    exists p :: Path(defs, p) && p[0] in wanted && Loops(p)
  }

  lemma CyclesHaveTwoDefinitions(defs: Definitions, p: seq<Name>)
    requires Path(defs, p) && Loops(p)
    ensures exists m :: 0 <= m < |p| - 2 && p[m] == p[|p| - 1] && p[m + 1] != p[m]
  {
    var last := |p| - 1;
    var m :| 0 <= m < last && p[m] == p[last];
    assert Uses(defs, p[m], p[m + 1]);
  }

  lemma ReachesItself(defs: Definitions, a: Name)
    requires a in defs
    ensures Reaches(defs, a, a)
  {
    assert Path(defs, [a]);
  }

  lemma ReachesThrough(defs: Definitions, a: Name, b: Name, c: Name)
    requires Uses(defs, a, b) && Reaches(defs, b, c)
    ensures Reaches(defs, a, c)
  {
    var p :| Path(defs, p) && p[0] == b && p[|p| - 1] == c;
    var q := [a] + p;
    assert Path(defs, q);
    assert q[|q| - 1] == c;
  }

  lemma ReachesThroughAll(defs: Definitions, a: Name, b: Name, names: set<Name>)
    requires Uses(defs, a, b) && forall n :: n in names ==> Reaches(defs, b, n)
    ensures forall n :: n in names ==> Reaches(defs, a, n)
  {
    forall n | n in names ensures Reaches(defs, a, n) {
      ReachesThrough(defs, a, b, n);
    }
  }

  // ------------------------------------------------------ what is printed

  predicate Distinct(order: seq<Name>) {
    forall i, j :: 0 <= i < j < |order| ==> order[i] != order[j]
  }

  // Everything a definition uses stands before it.
  ghost predicate UsesBefore(defs: Definitions, order: seq<Name>) {
    forall i :: 0 <= i < |order| ==>
      order[i] in defs && forall b :: Uses(defs, order[i], b) ==> b in order[..i]
  }

  // Where there is such an order, a path is found backwards in it ...
  lemma {:induction false} PathsGoBack(defs: Definitions, order: seq<Name>, p: seq<Name>, i: nat) returns (j: nat)
    requires UsesBefore(defs, order) && Path(defs, p)
    requires i < |order| && order[i] == p[0]
    ensures j <= i && order[j] == p[|p| - 1]
    ensures |p| > 1 ==> j < i
    decreases |p|
  {
    if |p| == 1 {
      j := i;
    } else {
      assert Uses(defs, p[0], p[1]);
      var k :| 0 <= k < i && order[k] == p[1];
      var rest := p[1..];
      assert Path(defs, rest) by {
        forall m | 0 < m < |rest| ensures Uses(defs, rest[m - 1], rest[m]) {
          assert Uses(defs, p[m], p[m + 1]);
        }
      }
      j := PathsGoBack(defs, order, rest, k);
    }
  }

  // ... so no path from it loops.
  lemma OrderedHasNoCycle(defs: Definitions, order: seq<Name>, p: seq<Name>)
    requires UsesBefore(defs, order) && Distinct(order) && Path(defs, p) && p[0] in order
    ensures !Loops(p)
  {
    if Loops(p) {
      var last := |p| - 1;
      var m :| 0 <= m < last && p[m] == p[last];
      var i :| 0 <= i < |order| && order[i] == p[0];
      assert Path(defs, p[..m + 1]);
      var j := PathsGoBack(defs, order, p[..m + 1], i);
      var loop := p[m..];
      assert Path(defs, loop) by {
        forall n | 0 < n < |loop| ensures Uses(defs, loop[n - 1], loop[n]) {
          assert Uses(defs, p[m + n - 1], p[m + n]);
        }
      }
      var k := PathsGoBack(defs, order, loop, j);
    }
  }

  // An order that holds a name holds everything it reaches.
  lemma OrderedIsClosed(defs: Definitions, order: seq<Name>, a: Name, b: Name)
    requires UsesBefore(defs, order) && a in order && Reaches(defs, a, b)
    ensures b in order
  {
    var p :| Path(defs, p) && p[0] == a && p[|p| - 1] == b;
    var i :| 0 <= i < |order| && order[i] == a;
    var j := PathsGoBack(defs, order, p, i);
  }

  // ----------------------------------------------------------- the walk

  // Circular: the names of the message.
  datatype Outcome = Finished | Circular(names: seq<Name>) | Undefined(name: Name)

  // The names above the one being visited: a path down to it, with no repeats.
  predicate ChainTo(defs: Definitions, chain: seq<Name>, name: Name) {
    Distinct(chain) && Path(defs, chain + [name])
  }

  lemma CycleClosed(chain: seq<Name>, name: Name)
    requires name in chain
    ensures Loops(chain + [name])
  {
    var path := chain + [name];
    assert path[..|path| - 1] == chain;
  }

  lemma Deeper(defs: Definitions, chain: seq<Name>, name: Name)
    requires ChainTo(defs, chain, name) && name !in chain
    ensures name in defs && Reaches(defs, name, name)
    ensures Distinct(chain + [name]) && |chain + [name]| <= |defs.Keys|
  {
    var path := chain + [name];
    assert path[|chain|] == name;
    ReachesItself(defs, name);
    ChainIsShort(defs, path);
  }

  lemma Extend(defs: Definitions, path: seq<Name>, dep: Name)
    requires |path| > 0 && Distinct(path) && Path(defs, path) && Uses(defs, path[|path| - 1], dep)
    ensures ChainTo(defs, path, dep)
  {
  }

  lemma Appended(defs: Definitions, order: seq<Name>, name: Name)
    requires Distinct(order) && UsesBefore(defs, order) && name !in order && name in defs
    requires forall b :: Uses(defs, name, b) ==> b in order
    ensures Distinct(order + [name]) && UsesBefore(defs, order + [name])
  {
    var longer := order + [name];
    forall i | 0 <= i < |longer|
      ensures longer[i] in defs && forall b :: Uses(defs, longer[i], b) ==> b in longer[..i]
    {
      if i < |order| {
        assert longer[..i] == order[..i];
      } else {
        assert longer[..i] == order;
      }
    }
  }

  lemma ChainIsShort(defs: Definitions, chain: seq<Name>)
    requires Distinct(chain) && forall i :: 0 <= i < |chain| ==> chain[i] in defs
    ensures |chain| <= |defs.Keys|
  {
    DistinctCount(chain);
    var names := set n | n in chain;
    assert names <= defs.Keys;
    SubsetSize(names, defs.Keys);
  }

  lemma {:induction false} DistinctCount(s: seq<Name>)
    requires Distinct(s)
    ensures |set n | n in s| == |s|
  {
    if s != [] {
      var init := s[..|s| - 1];
      DistinctCount(init);
      assert (set n | n in s) == (set n | n in init) + {s[|s| - 1]};
    }
  }

  class Extractor {
    const defs: Definitions
    var done: set<Name>
    var order: seq<Name>

    constructor (defs: Definitions)
      ensures Valid() && this.defs == defs && order == []
    {
      this.defs := defs;
      done, order := {}, [];
    }

    ghost predicate Valid()
      reads this
    {
      && done == (set n | n in order)
      && Distinct(order)
      && UsesBefore(defs, order)
    }

    // Appends what is reachable from name and not there yet.
    method Visit(name: Name, chain: seq<Name>) returns (r: Outcome)
      requires Valid() && ChainTo(defs, chain, name)
      modifies this
      ensures r.Finished? ==>
                && Valid() && name in done && old(order) <= order && old(done) <= done
                && (forall n :: n in done && n !in old(done) ==> Reaches(defs, name, n) && n !in chain)
      ensures r.Circular? ==>
                && Path(defs, r.names) && Loops(r.names)
                && chain + [name] <= r.names
      ensures !r.Undefined?
      decreases |defs.Keys| - |chain|
    {
      hide Reaches, Path, Distinct, UsesBefore, Loops;
      if name in done {
        return Finished;
      }
      var path := chain + [name];
      if name in chain {
        CycleClosed(chain, name);
        return Circular(path);
      }
      Deeper(defs, chain, name);
      var refs := defs[name];
      var i := 0;
      while i < |refs|
        invariant 0 <= i <= |refs|
        invariant Valid() && old(order) <= order && old(done) <= done && name !in done
        invariant forall n :: n in done && n !in old(done) ==> Reaches(defs, name, n) && n !in chain
        invariant forall k :: 0 <= k < i && Uses(defs, name, refs[k]) ==> refs[k] in done
      {
        if refs[i] != name && refs[i] in defs {
          ghost var before := done;
          Extend(defs, path, refs[i]);
          r := Visit(refs[i], path);
          if !r.Finished? {
            return;
          }
          ReachesThroughAll(defs, name, refs[i], done - before);
        }
        i := i + 1;
      }
      Appended(defs, order, name);
      done := done + {name};
      order := order + [name];
      r := Finished;
    }

    // The main loop over the names of a marker comment.
    method Extract(wanted: seq<Name>) returns (r: Outcome)
      requires Valid() && order == []
      modifies this
      ensures r.Finished? <==>
                (forall w :: w in wanted ==> w in defs) && !ReachesCycle(defs, wanted)
      ensures r.Finished? ==>
                && Distinct(order) && UsesBefore(defs, order)
                && (forall n :: n in order <==> Wanted(defs, wanted, n))
      ensures r.Circular? <==> exists i :: 0 <= i < |wanted| && CircularAt(defs, wanted, i)
      ensures r.Circular? ==>
                && Path(defs, r.names) && Loops(r.names)
                && exists i :: 0 <= i < |wanted| && CircularAt(defs, wanted, i) && r.names[0] == wanted[i]
      ensures r.Undefined? <==> exists i :: 0 <= i < |wanted| && UndefinedAt(defs, wanted, i)
      ensures r.Undefined? ==> exists i :: 0 <= i < |wanted| && UndefinedAt(defs, wanted, i) && r.name == wanted[i]
    {
      hide Reaches, UsesBefore, Distinct, ReachesCycle, Wanted, Loops, CircularAt, UndefinedAt;
      var i := 0;
      while i < |wanted|
        invariant 0 <= i <= |wanted| && Valid()
        invariant forall w :: w in wanted[..i] ==> w in done && w in defs
        invariant forall n :: n in done ==> Wanted(defs, wanted[..i], n)
      {
        var name := wanted[i];
        NoCycleSoFar(defs, order, wanted[..i]);
        if name !in defs {
          StopsUndefined(defs, wanted, i);
          return Undefined(name);
        }
        ghost var before := done;
        Root(defs, name);
        r := Visit(name, []);
        if !r.Finished? {
          CycleFound(defs, wanted, i, r.names);
          return;
        }
        WantedGrows(defs, wanted, i, before, done);
        i := i + 1;
      }
      assert wanted[..i] == wanted;
      NoCycleSoFar(defs, order, wanted);
      Closed(defs, order, wanted);
      NeverStops(defs, wanted);
      r := Finished;
    }
  }

  // What has to be printed for the wanted names.
  ghost predicate Wanted(defs: Definitions, wanted: seq<Name>, n: Name) {
    exists w :: w in wanted && Reaches(defs, w, n)
  }

  lemma Root(defs: Definitions, name: Name)
    requires name in defs
    ensures ChainTo(defs, [], name)
  {
    assert [] + [name] == [name];
  }

  // The names before the i-th are defined and reach no cycle, ...
  ghost predicate GoodBefore(defs: Definitions, wanted: seq<Name>, i: nat)
    requires i < |wanted|
  {
    (forall w :: w in wanted[..i] ==> w in defs) && !ReachesCycle(defs, wanted[..i])
  }

  // ... and it is not defined,
  ghost predicate UndefinedAt(defs: Definitions, wanted: seq<Name>, i: nat)
    requires i < |wanted|
  {
    GoodBefore(defs, wanted, i) && wanted[i] !in defs
  }

  // or it is and reaches a cycle.
  ghost predicate CircularAt(defs: Definitions, wanted: seq<Name>, i: nat)
    requires i < |wanted|
  {
    GoodBefore(defs, wanted, i) && wanted[i] in defs && ReachesCycle(defs, [wanted[i]])
  }

  lemma ReachesFromOne(defs: Definitions, wanted: seq<Name>, i: nat)
    requires i < |wanted| && ReachesCycle(defs, [wanted[i]])
    ensures ReachesCycle(defs, wanted)
  {
    var p :| Path(defs, p) && p[0] in [wanted[i]] && Loops(p);
    assert p[0] in wanted;
  }

  // There is one place at most where the loop can stop.
  lemma OneStop(defs: Definitions, wanted: seq<Name>, i: nat, j: nat)
    requires i < |wanted| && j < |wanted|
    requires UndefinedAt(defs, wanted, i) || CircularAt(defs, wanted, i)
    requires UndefinedAt(defs, wanted, j) || CircularAt(defs, wanted, j)
    ensures i == j
  {
    hide ReachesCycle;
    if i < j {
      StopsBefore(defs, wanted, i, j);
    } else if j < i {
      StopsBefore(defs, wanted, j, i);
    }
  }

  lemma StopsBefore(defs: Definitions, wanted: seq<Name>, i: nat, j: nat)
    requires i < j < |wanted| && (UndefinedAt(defs, wanted, i) || CircularAt(defs, wanted, i))
    ensures !GoodBefore(defs, wanted, j)
  {
    hide ReachesCycle;
    assert wanted[..j][i] == wanted[i];
    if wanted[i] in defs {
      ReachesFromOne(defs, wanted[..j], i);
    }
  }

  lemma StopsUndefined(defs: Definitions, wanted: seq<Name>, i: nat)
    requires i < |wanted| && GoodBefore(defs, wanted, i) && wanted[i] !in defs
    ensures UndefinedAt(defs, wanted, i) && wanted[i] in wanted
    ensures forall j :: 0 <= j < |wanted| ==> !CircularAt(defs, wanted, j)
  {
    hide GoodBefore;
    forall j | 0 <= j < |wanted| ensures !CircularAt(defs, wanted, j) {
      if CircularAt(defs, wanted, j) {
        OneStop(defs, wanted, i, j);
      }
    }
  }

  lemma CycleFound(defs: Definitions, wanted: seq<Name>, i: nat, names: seq<Name>)
    requires i < |wanted| && Path(defs, names) && Loops(names) && [] + [wanted[i]] <= names
    requires GoodBefore(defs, wanted, i) && wanted[i] in defs
    ensures ReachesCycle(defs, wanted) && names[0] == wanted[i] && CircularAt(defs, wanted, i)
    ensures forall j :: 0 <= j < |wanted| ==> !UndefinedAt(defs, wanted, j)
  {
    hide GoodBefore;
    assert names[0] == wanted[i];
    assert ReachesCycle(defs, [wanted[i]]);
    forall j | 0 <= j < |wanted| ensures !UndefinedAt(defs, wanted, j) {
      if UndefinedAt(defs, wanted, j) {
        OneStop(defs, wanted, i, j);
      }
    }
  }

  lemma NeverStops(defs: Definitions, wanted: seq<Name>)
    requires (forall w :: w in wanted ==> w in defs) && !ReachesCycle(defs, wanted)
    ensures forall i :: 0 <= i < |wanted| ==> !UndefinedAt(defs, wanted, i) && !CircularAt(defs, wanted, i)
  {
    hide ReachesCycle;
    forall i | 0 <= i < |wanted| ensures !UndefinedAt(defs, wanted, i) && !CircularAt(defs, wanted, i) {
      if CircularAt(defs, wanted, i) {
        ReachesFromOne(defs, wanted, i);
      }
    }
  }

  lemma WantedGrows(defs: Definitions, wanted: seq<Name>, i: nat, before: set<Name>, done: set<Name>)
    requires i < |wanted| && wanted[i] in defs && wanted[i] in done
    requires forall n :: n in before ==> Wanted(defs, wanted[..i], n)
    requires forall n :: n in done && n !in before ==> Reaches(defs, wanted[i], n)
    ensures forall n :: n in done ==> Wanted(defs, wanted[..i + 1], n)
    ensures forall w :: w in wanted[..i + 1] ==> w in wanted[..i] || w == wanted[i]
  {
    hide Reaches;
    assert wanted[..i + 1] == wanted[..i] + [wanted[i]];
    forall n | n in done ensures Wanted(defs, wanted[..i + 1], n) {
      if n in before {
        var w :| w in wanted[..i] && Reaches(defs, w, n);
        assert w in wanted[..i + 1];
      } else {
        assert wanted[i] in wanted[..i + 1];
      }
    }
  }

  lemma NoCycleSoFar(defs: Definitions, order: seq<Name>, wanted: seq<Name>)
    requires UsesBefore(defs, order) && Distinct(order) && forall w :: w in wanted ==> w in order
    ensures !ReachesCycle(defs, wanted)
  {
    forall p | Path(defs, p) && p[0] in wanted ensures !Loops(p) {
      OrderedHasNoCycle(defs, order, p);
    }
  }

  lemma Closed(defs: Definitions, order: seq<Name>, wanted: seq<Name>)
    requires UsesBefore(defs, order) && forall w :: w in wanted ==> w in order
    ensures forall n :: Wanted(defs, wanted, n) ==> n in order
  {
    forall n | Wanted(defs, wanted, n) ensures n in order {
      var w :| w in wanted && Reaches(defs, w, n);
      OrderedIsClosed(defs, order, w, n);
    }
  }
}
