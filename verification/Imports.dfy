/**
 The loading of imported files, depth first, over any finite graph of imports.

 Which file a path names, and what it parses to, is given; both may fail.
 */
module Imports {
  datatype Item = Import(path: string) | Declaration(id: nat)

  /** `found` gives the canonical file for a path in a file, `parsed` the items of a file without syntax errors. */
  datatype World = World(found: map<(nat, string), nat>, parsed: map<nat, seq<Item>>)

  /** The file that an import leads to, if it can be loaded. */
  predicate LeadsTo(w: World, file: nat, path: string, target: nat) {
    (file, path) in w.found && w.found[(file, path)] == target && target in w.parsed
  }

  predicate Resolves(w: World, file: nat, path: string) {
    (file, path) in w.found && w.found[(file, path)] in w.parsed
  }

  /** The imports among the items are loaded as far as they can be. */
  predicate Followed(w: World, loaded: set<nat>, file: nat, items: seq<Item>) {
    forall i | 0 <= i < |items| && items[i].Import? && Resolves(w, file, items[i].path) ::
      w.found[(file, items[i].path)] in loaded
  }

  /** A chain of imports. */
  ghost predicate ImportPath(w: World, path: seq<nat>) {
    && path != []
    && (forall i | 0 <= i < |path| - 1 :: Imports(w, path[i], path[i + 1]))
  }

  ghost predicate Imports(w: World, file: nat, target: nat) {
    file in w.parsed && exists i | 0 <= i < |w.parsed[file]| ::
        w.parsed[file][i].Import?
        && LeadsTo(w, file, w.parsed[file][i].path, target)
  }

  ghost predicate Reaches(w: World, from: nat, to: nat) {
    exists path :: ImportPath(w, path) && path[0] == from && path[|path| - 1] == to
  }

  lemma ReachesItself(w: World, file: nat)
    ensures Reaches(w, file, file)
  {
    assert ImportPath(w, [file]);
  }

  lemma ReachesThrough(w: World, from: nat, via: nat, to: nat)
    requires Imports(w, from, via) && Reaches(w, via, to)
    ensures Reaches(w, from, to)
  {
    var path :| ImportPath(w, path) && path[0] == via && path[|path| - 1] == to;
    var longer := [from] + path;
    forall i | 0 <= i < |longer| - 1 ensures Imports(w, longer[i], longer[i + 1]) {
      if i > 0 { assert Imports(w, path[i - 1], path[(i - 1) + 1]); }
    }
    assert ImportPath(w, longer);
  }

  /** The file imports something that leads back to it. */
  ghost predicate ImportsItself(w: World, file: nat) {
    exists target: nat :: Imports(w, file, target) && Reaches(w, target, file)
  }

  /** Two names of one file: it parses to the same items, and paths in it lead to the same files. */
  ghost predicate SameFile(w: World, a: nat, b: nat) {
    && a in w.parsed && b in w.parsed && w.parsed[a] == w.parsed[b]
    && (forall path: string :: (a, path) in w.found <==> (b, path) in w.found)
    && (forall path: string | (a, path) in w.found :: w.found[(a, path)] == w.found[(b, path)])
  }

  lemma SameImports(w: World, a: nat, b: nat, target: nat)
    requires SameFile(w, a, b) && Imports(w, a, target)
    ensures Imports(w, b, target)
  {
    var i :| 0 <= i < |w.parsed[a]| && w.parsed[a][i].Import? && LeadsTo(w, a, w.parsed[a][i].path, target);
    assert w.parsed[b][i].Import? && LeadsTo(w, b, w.parsed[b][i].path, target);
  }

  /** The second name of a file is reached from the first exactly if the file imports itself by way of others. */
  lemma SecondNameReached(w: World, a: nat, b: nat)
    requires SameFile(w, a, b) && a != b
    ensures Reaches(w, a, b) <==> ImportsItself(w, b)
  {
    if Reaches(w, a, b) {
      var path :| ImportPath(w, path) && path[0] == a && path[|path| - 1] == b;
      assert Imports(w, path[0], path[0 + 1]);
      SameImports(w, a, b, path[1]);
      var rest := path[1..];
      forall i | 0 <= i < |rest| - 1 ensures Imports(w, rest[i], rest[i + 1]) {
        assert Imports(w, path[i + 1], path[(i + 1) + 1]);
      }
      assert ImportPath(w, rest);
    }
    if ImportsItself(w, b) {
      var target: nat :| Imports(w, b, target) && Reaches(w, target, b);
      SameImports(w, b, a, target);
      ReachesThrough(w, a, target, b);
    }
  }

  /** What a set of files that is closed under imports holds of what can be reached. */
  lemma {:induction false} ClosedHoldsReachable(w: World, loaded: set<nat>, path: seq<nat>)
    requires ImportPath(w, path) && path[0] in loaded
    requires forall f <- loaded :: f in w.parsed && Followed(w, loaded, f, w.parsed[f])
    ensures path[|path| - 1] in loaded
    decreases |path|
  {
    if |path| > 1 {
      assert Imports(w, path[0], path[0 + 1]);
      var i :| 0 <= i < |w.parsed[path[0]]| && w.parsed[path[0]][i].Import?
        && LeadsTo(w, path[0], w.parsed[path[0]][i].path, path[1]);
      assert Resolves(w, path[0], w.parsed[path[0]][i].path);
      var rest := path[1..];
      forall j | 0 <= j < |rest| - 1 ensures Imports(w, rest[j], rest[j + 1]) {
        assert Imports(w, path[j + 1], path[(j + 1) + 1]);
      }
      ClosedHoldsReachable(w, loaded, rest);
    }
  }

  lemma ReachesOn(w: World, from: nat, via: nat, to: nat)
    requires Reaches(w, from, via) && Imports(w, via, to)
    ensures Reaches(w, from, to)
  {
    var path :| ImportPath(w, path) && path[0] == from && path[|path| - 1] == via;
    var longer := path + [to];
    forall i | 0 <= i < |longer| - 1 ensures Imports(w, longer[i], longer[i + 1]) {
      if i < |path| - 1 { assert Imports(w, path[i], path[i + 1]); }
    }
    assert ImportPath(w, longer);
  }

  // ---------------------------------------------------------------- what happens for the files

  /** The declarations among the items. */
  function Declarations(items: seq<Item>): seq<nat> {
    if items == [] then []
    else Declarations(items[..|items| - 1]) + (if items[|items| - 1].Declaration? then [items[|items| - 1].id] else [])
  }

  /** The imports among the items of the file that cannot be loaded: no such file is there, or it does not parse. */
  function Unresolved(w: World, file: nat, items: seq<Item>): seq<string> {
    if items == [] then []
    else
      var last := items[|items| - 1];
      Unresolved(w, file, items[..|items| - 1])
      + (if last.Import? && !Resolves(w, file, last.path) then [last.path] else [])
  }

  lemma {:induction false} UnresolvedExactly(w: World, file: nat, items: seq<Item>)
    ensures Unresolved(w, file, items) == []
      <==> forall i | 0 <= i < |items| && items[i].Import? :: Resolves(w, file, items[i].path)
  {
    if items != [] { UnresolvedExactly(w, file, items[..|items| - 1]); }
  }

  /** What happens to a file while it is the current one: a declaration is visited, or an import is reported. */
  datatype Entry<T> = Entry(file: nat, what: T)

  /** What happened to the file. */
  function Of<T>(log: seq<Entry<T>>, file: nat): seq<T> {
    if log == [] then []
    else Of(log[..|log| - 1], file) + (if log[|log| - 1].file == file then [log[|log| - 1].what] else [])
  }

  lemma OfOneMore<T>(log: seq<Entry<T>>, e: Entry<T>, file: nat)
    ensures Of(log + [e], file) == Of(log, file) + (if e.file == file then [e.what] else [])
  {
    assert (log + [e])[..|log|] == log;
  }

  lemma NothingOf<T>(log: seq<Entry<T>>)
    ensures log == [] <==> forall file: nat :: Of(log, file) == []
  {
    assert log != [] ==> Of(log, log[|log| - 1].file) != [];
  }

  datatype State = State(filesStack: seq<nat>, allFiles: set<nat>, visits: seq<Entry<nat>>, errors: seq<Entry<string>>)

  /** What happens to a file that is loaded. */
  function Visits(w: World, file: nat): seq<nat> {
    if file in w.parsed then Declarations(w.parsed[file]) else []
  }

  function Reports(w: World, file: nat): seq<string> {
    if file in w.parsed then Unresolved(w, file, w.parsed[file]) else []
  }

  function Fresh<T>(before: set<nat>, after: set<nat>, file: nat, whats: seq<T>): seq<T> {
    if file in after && file !in before then whats else []
  }

  /**
   Between two times: the file stack is as it was; the files loaded in between can be reached, are
   followed to the end, and were visited and reported exactly once; to other files, but for `current`,
   nothing happened.
   */
  ghost predicate Loaded(w: World, s: State, t: State, current: nat) {
    && t.filesStack == s.filesStack && s.allFiles <= t.allFiles
    && (forall f <- t.allFiles - s.allFiles :: f in w.parsed && Reaches(w, current, f))
    && (forall f <- t.allFiles - s.allFiles :: Followed(w, t.allFiles, f, w.parsed[f]))
    && (forall f: nat | f != current ::
          && Of(t.visits, f) == Of(s.visits, f) + Fresh(s.allFiles, t.allFiles, f, Visits(w, f))
          && Of(t.errors, f) == Of(s.errors, f) + Fresh(s.allFiles, t.allFiles, f, Reports(w, f)))
  }

  lemma FollowedStill(w: World, loaded: set<nat>, more: set<nat>, file: nat, items: seq<Item>)
    requires Followed(w, loaded, file, items) && loaded <= more
    ensures Followed(w, more, file, items)
  {
  }

  lemma NothingLoaded(w: World, s: State, current: nat, items: seq<Item>)
    ensures Loaded(w, s, s, current) && Followed(w, s.allFiles, current, items[..0])
    ensures Declarations(items[..0]) == [] && Unresolved(w, current, items[..0]) == []
  {
  }

  lemma LoadedGrows(w: World, s: State, t: State, current: nat)
    requires Loaded(w, s, t, current) && s.allFiles <= w.parsed.Keys
    ensures t.filesStack == s.filesStack && s.allFiles <= t.allFiles
    ensures t.allFiles <= w.parsed.Keys
  {
  }

  /** A visit of a declaration of the current file. */
  lemma OneVisit(w: World, s: State, t: State, u: State, v: Entry<nat>)
    requires Loaded(w, s, t, v.file) && u == t.(visits := t.visits + [v])
    ensures Loaded(w, s, u, v.file) && Of(u.visits, v.file) == Of(t.visits, v.file) + [v.what]
  {
    forall f: nat { OfOneMore(t.visits, v, f); }
  }

  /** An import of the current file is reported. */
  lemma OneError(w: World, s: State, t: State, e: Entry<string>)
    requires t == s.(errors := s.errors + [e])
    ensures Loaded(w, s, t, e.file) && Of(t.errors, e.file) == Of(s.errors, e.file) + [e.what]
  {
    forall f: nat { OfOneMore(s.errors, e, f); }
  }

  lemma LoadedTwice(w: World, s: State, t: State, u: State, current: nat)
    requires Loaded(w, s, t, current) && Loaded(w, t, u, current)
    ensures Loaded(w, s, u, current)
  {
    hide Visits, Reports, Of;
    forall f | f in u.allFiles - s.allFiles
      ensures f in w.parsed && Reaches(w, current, f) && Followed(w, u.allFiles, f, w.parsed[f])
    {
      if f in t.allFiles { FollowedStill(w, t.allFiles, u.allFiles, f, w.parsed[f]); }
    }
    forall f: nat | f != current
      ensures Of(u.visits, f) == Of(s.visits, f) + Fresh(s.allFiles, u.allFiles, f, Visits(w, f))
      ensures Of(u.errors, f) == Of(s.errors, f) + Fresh(s.allFiles, u.allFiles, f, Reports(w, f))
    {
      FreshTwice(s.allFiles, t.allFiles, u.allFiles, f, Of(s.visits, f), Visits(w, f));
      FreshTwice(s.allFiles, t.allFiles, u.allFiles, f, Of(s.errors, f), Reports(w, f));
    }
  }

  lemma FreshTwice<T>(before: set<nat>, between: set<nat>, after: set<nat>, file: nat, was: seq<T>, whats: seq<T>)
    requires before <= between <= after
    ensures was + Fresh(before, between, file, whats) + Fresh(between, after, file, whats)
         == was + Fresh(before, after, file, whats)
  {
  }

  /** What was loaded from an imported file was loaded from the file that imports it. */
  lemma LoadedThrough(w: World, s: State, t: State, u: State, current: nat, file: nat)
    requires t == s.(filesStack := t.filesStack, allFiles := s.allFiles + {file}) && s.filesStack == u.filesStack
    requires file !in s.allFiles && file in w.parsed && current in s.allFiles && Imports(w, current, file)
    requires Loaded(w, t, u.(filesStack := t.filesStack), file) && Followed(w, u.allFiles, file, w.parsed[file])
    requires Of(u.visits, file) == Of(t.visits, file) + Visits(w, file)
    requires Of(u.errors, file) == Of(t.errors, file) + Reports(w, file)
    ensures Loaded(w, s, u, current)
    ensures Of(u.visits, current) == Of(s.visits, current) && Of(u.errors, current) == Of(s.errors, current)
  {
    hide Visits, Reports, Of;
    forall f | f in u.allFiles - s.allFiles ensures f in w.parsed && Reaches(w, current, f) {
      if f == file { ReachesItself(w, file); }
      ReachesThrough(w, current, file, f);
    }
  }

  // ---------------------------------------------------------------- what is imported comes first

  /**
   When the visit at position `k` takes place, what the same file imports above that declaration has been
   visited to the end, unless it leads back to that file.
   */
  ghost predicate ImportsFirst(w: World, visits: seq<Entry<nat>>, k: nat)
    requires k < |visits|
  {
    var file, before := visits[k].file, visits[..k];
    file in w.parsed ==>
      var items := w.parsed[file];
      forall i | 0 <= i < |items| && items[i].Import? && Resolves(w, file, items[i].path)
        && |Declarations(items[..i])| <= |Of(before, file)| ::
        var target := w.found[(file, items[i].path)];
        !Reaches(w, target, file) ==> Of(before, target) == Declarations(w.parsed[target])
  }

  ghost predicate InOrder(w: World, visits: seq<Entry<nat>>) {
    forall k | 0 <= k < |visits| :: ImportsFirst(w, visits, k)
  }

  /** The files on the stack lead to the current one; those that have left it were visited to the end. */
  ghost predicate Going(w: World, s: State) {
    && InOrder(w, s.visits)
    && s.filesStack != [] && s.allFiles <= w.parsed.Keys
    && (forall f <- s.filesStack :: f in s.allFiles && Reaches(w, f, s.filesStack[|s.filesStack| - 1]))
    && (forall f <- s.allFiles :: f in s.filesStack || Of(s.visits, f) == Declarations(w.parsed[f]))
    && (forall f: nat | f !in s.allFiles :: Of(s.visits, f) == [])
  }

  lemma GoingOn(w: World, s: State, t: State, current: nat)
    requires Going(w, s) && current == s.filesStack[|s.filesStack| - 1]
    requires Loaded(w, s, t, current) && InOrder(w, t.visits)
    ensures Going(w, t)
  {
    hide InOrder, Reaches, Followed, Declarations;
    assert current in s.filesStack;
  }

  lemma GoingInto(w: World, s: State, t: State, file: nat)
    requires Going(w, s) && file !in s.allFiles && file in w.parsed
    requires Imports(w, s.filesStack[|s.filesStack| - 1], file)
    requires t == s.(filesStack := s.filesStack + [file], allFiles := s.allFiles + {file})
    ensures Going(w, t) && Of(t.visits, file) == []
  {
    hide InOrder, Reaches, Imports;
    forall f | f in s.filesStack ensures Reaches(w, f, file) {
      ReachesOn(w, f, s.filesStack[|s.filesStack| - 1], file);
    }
    ReachesItself(w, file);
  }

  /** The visit of the declaration at position `i` of the current file. */
  lemma VisitInOrder(w: World, t: State, i: nat, id: nat)
    requires Going(w, t)
    requires
      var file := t.filesStack[|t.filesStack| - 1];
      file in w.parsed && i < |w.parsed[file]| && w.parsed[file][i] == Declaration(id)
      && Followed(w, t.allFiles, file, w.parsed[file][..i]) && Of(t.visits, file) == Declarations(w.parsed[file][..i])
    ensures InOrder(w, t.visits + [Entry(t.filesStack[|t.filesStack| - 1], id)])
  {
    hide Reaches, Of;
    var file := t.filesStack[|t.filesStack| - 1];
    var items, log := w.parsed[file], t.visits + [Entry(file, id)];
    forall k | 0 <= k < |log| ensures ImportsFirst(w, log, k) {
      if k < |t.visits| {
        assert log[..k] == t.visits[..k] && ImportsFirst(w, t.visits, k);
      } else {
        assert log[..k] == t.visits;
        forall j | 0 <= j < |items| && items[j].Import? && Resolves(w, file, items[j].path)
          && |Declarations(items[..j])| <= |Of(log[..k], file)| && !Reaches(w, w.found[(file, items[j].path)], file)
          ensures Of(log[..k], w.found[(file, items[j].path)]) == Declarations(w.parsed[w.found[(file, items[j].path)]])
        {
          MoreDeclarations(items, i, j);
          assert items[..i][j].Import?;
        }
      }
    }
  }

  lemma {:induction false} MoreDeclarations(items: seq<Item>, i: nat, j: nat)
    requires i < |items| && i != j && j <= |items| && items[i].Declaration?
    ensures |Declarations(items[..i])| < |Declarations(items[..j])| || j < i
    decreases j
  {
    if j > i {
      assert items[..j][..j - 1] == items[..j - 1];
      if j > i + 1 { MoreDeclarations(items, i, j - 1); }
    }
  }

  lemma {:induction false} FewerOrEqual(a: set<nat>, b: set<nat>)
    requires a <= b
    ensures |a| <= |b| && (a != b ==> |a| < |b|)
    decreases |a|
  {
    if a == {} {
      if b != {} { var x :| x in b; }
    } else {
      var x :| x in a;
      FewerOrEqual(a - {x}, b - {x});
      assert a == (a - {x}) + {x} && b == (b - {x}) + {x};
    }
  }

  class Context {
    const world: World
    var filesStack: seq<nat>
    var allFiles: set<nat>
    var visits: seq<Entry<nat>>
    var errors: seq<Entry<string>>

    constructor (world: World)
      ensures this.world == world && filesStack == [] && allFiles == {} && visits == [] && errors == []
    {
      this.world := world;
      filesStack, allFiles, visits, errors := [], {}, [], [];
    }

    method PushFile(file: nat)
      modifies this`filesStack, this`allFiles
      ensures filesStack == old(filesStack) + [file] && allFiles == old(allFiles) + {file}
    {
      filesStack := filesStack + [file];
      allFiles := allFiles + {file};
    }

    method PopFile()
      requires filesStack != []
      modifies this`filesStack
      ensures filesStack == old(filesStack)[..|old(filesStack)| - 1]
    {
      filesStack := filesStack[..|filesStack| - 1];
    }

    function CurrFile(): nat
      requires filesStack != []
      reads this
    {
      filesStack[|filesStack| - 1]
    }

    ghost function Unloaded(): nat
      reads this
    {
      |world.parsed.Keys - allFiles|
    }

    ghost function Now(): State
      reads this
    {
      State(filesStack, allFiles, visits, errors)
    }

    /** Loads what an item of the current file imports; an import that cannot be loaded is reported, and no other. */
    method LoadImport(path: string, ghost current: nat)
      requires Going(world, Now()) && CurrFile() == current && current in allFiles
      requires Import(path) in world.parsed[current]
      modifies this
      ensures Loaded(world, old(Now()), Now(), current) && Of(visits, current) == old(Of(visits, current))
      ensures InOrder(world, visits)
      ensures Followed(world, allFiles, current, [Import(path)])
      ensures Of(errors, current) == old(Of(errors, current)) + Unresolved(world, current, [Import(path)])
      decreases Unloaded(), 0
    {
      hide Of, Unresolved, Loaded, InOrder, Reaches;
      ghost var before := Now();
      ReportedIf(world, current, path);
      NothingLoaded(world, before, current, []);
      var key := (CurrFile(), path);
      if key !in world.found {
        errors := errors + [Entry(CurrFile(), path)];
        OneError(world, before, Now(), Entry(current, path));
        return;
      }
      var file := world.found[key];
      if file in allFiles { return; }
      if file !in world.parsed {
        errors := errors + [Entry(CurrFile(), path)];
        OneError(world, before, Now(), Entry(current, path));
        return;
      }
      assert Imports(world, current, file) by {
        var i :| 0 <= i < |world.parsed[current]| && world.parsed[current][i] == Import(path);
        assert world.parsed[current][i].Import? && LeadsTo(world, current, world.parsed[current][i].path, file);
      }
      PushFile(file);
      FewerOrEqual(world.parsed.Keys - allFiles, world.parsed.Keys - before.allFiles);
      assert file in world.parsed.Keys - before.allFiles;
      ghost var pushed := Now();
      GoingInto(world, before, pushed, file);
      VisitList(file);
      ghost var visited := Now();
      LoadedGrows(world, pushed, visited, file);
      PopFile();
      assert Now().(filesStack := pushed.filesStack) == visited;
      LoadedThrough(world, before, pushed, Now(), current, file);
    }

    /** Visits the items of the current file, one after the other. */
    method VisitList(file: nat)
      requires Going(world, Now()) && CurrFile() == file && file in allFiles && Of(visits, file) == []
      modifies this
      ensures InOrder(world, visits)
      ensures Loaded(world, old(Now()), Now(), file) && Followed(world, allFiles, file, world.parsed[file])
      ensures Of(visits, file) == old(Of(visits, file)) + Declarations(world.parsed[file])
      ensures Of(errors, file) == old(Of(errors, file)) + Unresolved(world, file, world.parsed[file])
      decreases Unloaded(), 1
    {
      hide Loaded, Followed, Of, Unresolved, InOrder, Reaches, Going;
      assert allFiles <= world.parsed.Keys && filesStack != [] by { GoingMeans(world, Now()); }
      var items := world.parsed[file];
      ghost var start := Now();
      NothingLoaded(world, start, file, items);
      for i := 0 to |items|
        invariant Loaded(world, start, Now(), file) && file in allFiles && allFiles <= world.parsed.Keys
        invariant filesStack == start.filesStack && start.allFiles <= allFiles && Going(world, Now())
        invariant Of(visits, file) == Of(start.visits, file) + Declarations(items[..i])
        invariant Of(errors, file) == Of(start.errors, file) + Unresolved(world, file, items[..i])
        invariant Followed(world, allFiles, file, items[..i])
      {
        assert items[..i + 1][..i] == items[..i];
        ghost var before := Now();
        FewerOrEqual(world.parsed.Keys - allFiles, world.parsed.Keys - start.allFiles);
        match items[i] {
        case Import(path) =>
          LoadImport(path, file);
          GoingOn(world, before, Now(), file);
          LoadedGrows(world, before, Now(), file);
          LoadedTwice(world, start, before, Now(), file);
          FollowedStill(world, before.allFiles, allFiles, file, items[..i]);
        case Declaration(id) =>
          VisitInOrder(world, before, i, id);
          visits := visits + [Entry(CurrFile(), id)];
          OneVisit(world, start, before, Now(), Entry(file, id));
          GoingOn(world, start, Now(), file);
        }
        OneItemMore(world, allFiles, file, items, i);
      }
      assert items[..|items|] == items;
      GoingMeans(world, Now());
    }
  }

  lemma GoingMeans(w: World, s: State)
    requires Going(w, s)
    ensures s.filesStack != [] && s.allFiles <= w.parsed.Keys && InOrder(w, s.visits)
  {
  }

  lemma ReportedIf(w: World, file: nat, path: string)
    ensures Unresolved(w, file, [Import(path)]) == if Resolves(w, file, path) then [] else [path]
  {
    assert Unresolved(w, file, [Import(path)][..0]) == [];
  }

  lemma OneItemMore(w: World, loaded: set<nat>, file: nat, items: seq<Item>, i: nat)
    requires i < |items| && Followed(w, loaded, file, items[..i])
    requires items[i].Import? ==> Followed(w, loaded, file, [items[i]])
    ensures Followed(w, loaded, file, items[..i + 1])
    ensures Unresolved(w, file, items[..i + 1])
         == Unresolved(w, file, items[..i]) + (if items[i].Import? then Unresolved(w, file, [items[i]]) else [])
  {
    assert items[..i + 1][..i] == items[..i];
    if items[i].Import? {
      assert [items[i]][0].Import?;
      ReportedIf(w, file, items[i].path);
    }
  }

  /**
   Loads a program: exactly the files that can be reached, each visited once and in order.  The errors are
   the imports of these files that cannot be loaded, each reported once; no other import is.  The main file
   goes by the name it was given, while imports go by canonical names: the main file is visited a second
   time, by its canonical name, exactly if it imports itself.
   */
  method LoadProgram(world: World, main: nat, ghost canonical: nat)
    returns (loaded: set<nat>, visits: seq<Entry<nat>>, errors: seq<Entry<string>>)
    requires main in world.parsed
    ensures loaded <= world.parsed.Keys && forall f: nat :: f in loaded <==> Reaches(world, main, f)
    ensures forall f: nat :: Of(visits, f) == if f in loaded then Declarations(world.parsed[f]) else []
    ensures forall f: nat :: Of(errors, f) == if f in loaded then Unresolved(world, f, world.parsed[f]) else []
    ensures errors == [] <==> forall f, path | f in loaded && Import(path) in world.parsed[f] ::
      (f, path) in world.found && world.found[(f, path)] in world.parsed
    ensures InOrder(world, visits)
    ensures SameFile(world, main, canonical) && main != canonical ==>
      Of(visits, canonical) == if ImportsItself(world, canonical) then Declarations(world.parsed[main]) else []
  {
    hide Unresolved, Loaded, Followed, Of, SameFile, Reaches, ImportsItself, InOrder, Going, Declarations;
    var context := new Context(world);
    context.PushFile(main);
    ghost var start := context.Now();
    assert start == State([main], {main}, [], []);
    GoingStarts(world, main);
    context.VisitList(main);
    LoadedFromMain(world, start, context.Now(), main);
    context.PopFile();
    loaded, visits, errors := context.allFiles, context.visits, context.errors;
    CleanExactly(world, loaded, errors);
    if SameFile(world, main, canonical) && main != canonical {
      SecondNameReached(world, main, canonical);
      SameItems(world, main, canonical);
    }
  }

  lemma GoingStarts(w: World, main: nat)
    requires main in w.parsed
    ensures Going(w, State([main], {main}, [], [])) && Of<nat>([], main) == []
  {
    ReachesItself(w, main);
  }

  lemma SameItems(w: World, a: nat, b: nat)
    requires SameFile(w, a, b)
    ensures a in w.parsed && b in w.parsed && w.parsed[a] == w.parsed[b]
  {
  }

  lemma LoadedFromMain(w: World, s: State, t: State, main: nat)
    requires main in w.parsed && s == State([main], {main}, [], []) && Loaded(w, s, t, main)
    requires Followed(w, t.allFiles, main, w.parsed[main])
    requires Of(t.visits, main) == Of(s.visits, main) + Declarations(w.parsed[main])
    requires Of(t.errors, main) == Of(s.errors, main) + Unresolved(w, main, w.parsed[main])
    ensures t.filesStack == [main] && t.allFiles <= w.parsed.Keys
    ensures forall f: nat :: f in t.allFiles <==> Reaches(w, main, f)
    ensures forall f: nat :: Of(t.visits, f) == if f in t.allFiles then Declarations(w.parsed[f]) else []
    ensures forall f: nat :: Of(t.errors, f) == if f in t.allFiles then Unresolved(w, f, w.parsed[f]) else []
  {
    hide Unresolved, Declarations, Reaches, Followed;
    ReachesItself(w, main);
    forall f: nat | Reaches(w, main, f) ensures f in t.allFiles {
      AllReached(w, t.allFiles, main, f);
    }
  }

  lemma AllReached(w: World, loaded: set<nat>, main: nat, f: nat)
    requires main in loaded && Reaches(w, main, f)
    requires forall f <- loaded :: f in w.parsed && Followed(w, loaded, f, w.parsed[f])
    ensures f in loaded
  {
    var path :| ImportPath(w, path) && path[0] == main && path[|path| - 1] == f;
    ClosedHoldsReachable(w, loaded, path);
  }

  lemma CleanExactly(w: World, loaded: set<nat>, errors: seq<Entry<string>>)
    requires loaded <= w.parsed.Keys
    requires forall f: nat :: Of(errors, f) == if f in loaded then Unresolved(w, f, w.parsed[f]) else []
    ensures errors == [] <==> forall f, path | f in loaded && Import(path) in w.parsed[f] :: Resolves(w, f, path)
  {
    hide Unresolved;
    forall f | f in loaded { UnresolvedExactly(w, f, w.parsed[f]); }
    if forall f, path | f in loaded && Import(path) in w.parsed[f] :: Resolves(w, f, path) {
      forall f: nat ensures Of(errors, f) == [] {
        if f in loaded {
          forall i | 0 <= i < |w.parsed[f]| && w.parsed[f][i].Import? ensures Resolves(w, f, w.parsed[f][i].path) {
            assert w.parsed[f][i] in w.parsed[f];
          }
        }
      }
      NothingOf(errors);
    }
    if errors == [] {
      forall f, path | f in loaded && Import(path) in w.parsed[f] ensures Resolves(w, f, path) {
        assert Of(errors, f) == [];
      }
    }
  }
}
