/**
 The periodic cache cleanup: a two-level walk over .canister_cache that examines
 at most max_files_per_run regular files, deletes the stale ones, and drops
 their metadata. Every run starts again at the front of the walk.
 */
module Cleanup {
  import opened Arithmetic
  import opened Wrappers
  import opened Metadata
  import opened Upload

  /** A directory entry; age is what the host clock says at the time of the run. */
  datatype Item = Item(path: Name, regular: bool, age: int)

  /** An entry of .canister_cache: only a directory with a sessions folder is walked into. */
  datatype Principal = Principal(isDir: bool, hasSessions: bool, items: seq<Item>) {
    predicate Walked() { isDir && hasSessions }
  }

  type Tree = seq<Principal>

  predicate Stale(x: Item, ttl: nat) {
    x.age >= 0 && x.age >= ttl
  }

  function Min(a: nat, b: nat): nat { if a < b then a else b }

  // ------------------------------------------------------------ the walk as a list

  function Regulars(items: seq<Item>): (r: seq<Item>)
    ensures forall x :: x in r <==> x in items && x.regular
  {
    if items == [] then []
    else (if items[0].regular then [items[0]] else []) + Regulars(items[1..])
  }

  function Others(items: seq<Item>): (r: seq<Item>)
    ensures forall x :: x in r <==> x in items && !x.regular
    ensures |r| + |Regulars(items)| == |items|
  {
    if items == [] then []
    else (if items[0].regular then [] else [items[0]]) + Others(items[1..])
  }

  /** All regular files directly under a sessions folder, in walk order. */
  function Files(tree: Tree): seq<Item> {
    if tree == [] then []
    else (if tree[0].Walked() then Regulars(tree[0].items) else []) + Files(tree[1..])
  }

  /** The files that are not stale. */
  function Fresh(files: seq<Item>, ttl: nat): seq<Item> {
    if files == [] then []
    else (if Stale(files[0], ttl) then [] else [files[0]]) + Fresh(files[1..], ttl)
  }

  function Paths(files: seq<Item>): set<Name> {
    set x | x in files :: x.path
  }

  /** The stale files among those examined. */
  function StaleOf(files: seq<Item>, ttl: nat): seq<Item> {
    if files == [] then []
    else (if Stale(files[0], ttl) then [files[0]] else []) + StaleOf(files[1..], ttl)
  }

  // ------------------------------------------------------------ one run, as a function

  function CleanItems(items: seq<Item>, budget: nat, ttl: nat): seq<Item>
    decreases |items|
  {
    if items == [] || budget == 0 then items
    else if !items[0].regular then [items[0]] + CleanItems(items[1..], budget, ttl)
    else if Stale(items[0], ttl) then CleanItems(items[1..], budget - 1, ttl)
    else [items[0]] + CleanItems(items[1..], budget - 1, ttl)
  }

  function Used(items: seq<Item>, budget: nat): nat {
    Min(budget, |Regulars(items)|)
  }

  function CleanTree(tree: Tree, budget: nat, ttl: nat): (r: Tree)
    ensures |r| == |tree|
    decreases |tree|
  {
    if tree == [] || budget == 0 then tree
    else if !tree[0].Walked() then [tree[0]] + CleanTree(tree[1..], budget, ttl)
    else
      [tree[0].(items := CleanItems(tree[0].items, budget, ttl))]
      + CleanTree(tree[1..], budget - Used(tree[0].items, budget), ttl)
  }

  /** On the list of files: the first budget of them lose their stale ones, the rest stay. */
  function CleanList(files: seq<Item>, budget: nat, ttl: nat): seq<Item> {
    var k := Min(budget, |files|);
    Fresh(files[..k], ttl) + files[k..]
  }

  lemma FreshCons(x: Item, rest: seq<Item>, ttl: nat)
    ensures Fresh([x] + rest, ttl) == if Stale(x, ttl) then Fresh(rest, ttl) else [x] + Fresh(rest, ttl)
  {
    assert ([x] + rest)[1..] == rest;
    assert [] + Fresh(rest, ttl) == Fresh(rest, ttl);
  }

  lemma FreshNone(ttl: nat)
    ensures Fresh([], ttl) == []
  {
  }

  lemma ConsConcat(x: Item, f: seq<Item>, g: seq<Item>)
    ensures [x] + (f + g) == ([x] + f) + g
  {
  }

  lemma {:induction false} FreshConcat(a: seq<Item>, b: seq<Item>, ttl: nat)
    ensures Fresh(a + b, ttl) == Fresh(a, ttl) + Fresh(b, ttl)
    decreases |a|
  {
    hide Fresh, Stale;
    if a == [] {
      FreshNone(ttl);
      assert a + b == b;
    } else {
      var x, rest := a[0], a[1..];
      FreshConcat(rest, b, ttl);
      FreshCons(x, rest, ttl);
      FreshCons(x, rest + b, ttl);
      assert a == [x] + rest;
      assert a + b == [x] + (rest + b);
      ConsConcat(x, Fresh(rest, ttl), Fresh(b, ttl));
    }
  }

  lemma CleanListConcat(a: seq<Item>, b: seq<Item>, budget: nat, ttl: nat)
    ensures CleanList(a + b, budget, ttl)
         == CleanList(a, budget, ttl) + CleanList(b, budget - Min(budget, |a|), ttl)
  {
    var k := Min(budget, |a + b|);
    if budget <= |a| {
      assert (a + b)[..k] == a[..k] && (a + b)[k..] == a[k..] + b;
      assert b[..0] == [] && b[0..] == b;
    } else {
      assert (a + b)[..k] == a + b[..k - |a|] && (a + b)[k..] == b[k - |a|..];
      FreshConcat(a, b[..k - |a|], ttl);
      assert a[..|a|] == a && a[|a|..] == [];
    }
  }

  lemma CleanNothing(files: seq<Item>, ttl: nat)
    ensures CleanList(files, 0, ttl) == files && CleanList([], 0, ttl) == []
  {
    assert files[..0] == [] && files[0..] == files;
  }

  lemma CleanOne(x: Item, budget: nat, ttl: nat)
    ensures CleanList([x], budget, ttl) == if budget == 0 || !Stale(x, ttl) then [x] else []
  {
    hide Fresh, Stale;
    if budget == 0 {
      CleanNothing([x], ttl);
    } else {
      assert [x][..1] == [x] + [] && [x][1..] == [];
      FreshCons(x, [], ttl);
      FreshNone(ttl);
      assert [x] + [] == [x];
    }
  }

  lemma CleanListCons(x: Item, rest: seq<Item>, budget: nat, ttl: nat)
    ensures CleanList([x] + rest, budget, ttl)
         == if budget == 0 then [x] + rest
            else if Stale(x, ttl) then CleanList(rest, budget - 1, ttl)
            else [x] + CleanList(rest, budget - 1, ttl)
  {
    hide CleanList, Fresh, Stale;
    CleanListConcat([x], rest, budget, ttl);
    CleanOne(x, budget, ttl);
    if budget == 0 {
      CleanNothing(rest, ttl);
    } else {
      assert [] + CleanList(rest, budget - 1, ttl) == CleanList(rest, budget - 1, ttl);
    }
  }

  lemma RegularsCons(x: Item, rest: seq<Item>)
    ensures Regulars([x] + rest) == if x.regular then [x] + Regulars(rest) else Regulars(rest)
    ensures Others([x] + rest) == if x.regular then Others(rest) else [x] + Others(rest)
  {
    assert ([x] + rest)[1..] == rest;
    assert [] + Regulars(rest) == Regulars(rest);
    assert [] + Others(rest) == Others(rest);
  }

  lemma CleanEmpty(budget: nat, ttl: nat)
    ensures CleanList([], budget, ttl) == []
  {
  }

  lemma {:induction false} CleanItemsRegulars(items: seq<Item>, budget: nat, ttl: nat)
    ensures Regulars(CleanItems(items, budget, ttl)) == CleanList(Regulars(items), budget, ttl)
    decreases |items|
  {
    if items == [] || budget == 0 {
      CleanNothing(Regulars(items), ttl);
      CleanEmpty(budget, ttl);
    } else {
      hide Regulars, CleanList, Stale, Others;
      var x, rest := items[0], items[1..];
      assert items == [x] + rest;
      RegularsCons(x, rest);
      var left := if x.regular then budget - 1 else budget;
      CleanItemsRegulars(rest, left, ttl);
      RegularsCons(x, CleanItems(rest, left, ttl));
      if x.regular {
        CleanListCons(x, Regulars(rest), budget, ttl);
      }
    }
  }

  lemma {:induction false} CleanItemsOthers(items: seq<Item>, budget: nat, ttl: nat)
    ensures Others(CleanItems(items, budget, ttl)) == Others(items)
    decreases |items|
  {
    if items != [] && budget != 0 {
      hide Others, Stale, Regulars;
      var x, rest := items[0], items[1..];
      assert items == [x] + rest;
      RegularsCons(x, rest);
      var left := if x.regular then budget - 1 else budget;
      CleanItemsOthers(rest, left, ttl);
      RegularsCons(x, CleanItems(rest, left, ttl));
    }
  }

  lemma FilesCons(d: Principal, rest: Tree)
    ensures Files([d] + rest) == if d.Walked() then Regulars(d.items) + Files(rest) else Files(rest)
  {
    assert ([d] + rest)[1..] == rest;
    assert [] + Files(rest) == Files(rest);
  }

  /** The files of the walk are the regular entries of the sessions folders, and nothing else. */
  lemma {:induction false} FilesAre(tree: Tree, x: Item)
    ensures x in Files(tree) <==>
      exists i :: 0 <= i < |tree| && tree[i].isDir && tree[i].hasSessions && x in tree[i].items && x.regular
    decreases |tree|
  {
    if tree != [] {
      var rest := tree[1..];
      FilesAre(rest, x);
      if i :| 0 <= i < |rest| && rest[i].isDir && rest[i].hasSessions && x in rest[i].items && x.regular {
        assert tree[i + 1] == rest[i];
      }
      if i :| 0 <= i < |tree| && tree[i].isDir && tree[i].hasSessions && x in tree[i].items && x.regular {
        assert i > 0 ==> tree[i] == rest[i - 1];
      }
    }
  }

  /** A run examines the first budget files of the walk, and removes exactly the stale ones among them. */
  lemma {:induction false} CleanTreeFiles(tree: Tree, budget: nat, ttl: nat)
    ensures Files(CleanTree(tree, budget, ttl)) == CleanList(Files(tree), budget, ttl)
    decreases |tree|
  {
    if tree == [] || budget == 0 {
      CleanNothing(Files(tree), ttl);
      CleanEmpty(budget, ttl);
    } else {
      hide Files, CleanList, CleanItems, Regulars;
      var d, rest := tree[0], tree[1..];
      assert tree == [d] + rest;
      FilesCons(d, rest);
      if !d.Walked() {
        CleanTreeFiles(rest, budget, ttl);
        FilesCons(d, CleanTree(rest, budget, ttl));
      } else {
        var d' := d.(items := CleanItems(d.items, budget, ttl));
        var left := budget - Used(d.items, budget);
        CleanItemsRegulars(d.items, budget, ttl);
        CleanTreeFiles(rest, left, ttl);
        CleanListConcat(Regulars(d.items), Files(rest), budget, ttl);
        FilesCons(d', CleanTree(rest, left, ttl));
      }
    }
  }

  lemma UsedFits(items: seq<Item>, budget: nat)
    ensures Used(items, budget) <= budget
  {
  }

  /** Folders, and entries that are not regular files, are left as they were. */
  lemma {:induction false} CleanTreeKeepsOthers(tree: Tree, budget: nat, ttl: nat, i: nat)
    requires i < |tree|
    ensures var d, d' := tree[i], CleanTree(tree, budget, ttl)[i];
      && d'.isDir == d.isDir && d'.hasSessions == d.hasSessions
      && Others(d'.items) == Others(d.items) && (!d.Walked() ==> d' == d)
    decreases |tree|
  {
    hide Others, CleanItems, Used, Stale;
    if budget != 0 {
      if i == 0 {
        CleanItemsOthers(tree[0].items, budget, ttl);
      } else {
        var rest := tree[1..];
        var left := if tree[0].Walked() then budget - Used(tree[0].items, budget) else budget;
        UsedFits(tree[0].items, budget);
        CleanTreeKeepsOthers(rest, left, ttl, i - 1);
        assert rest[i - 1] == tree[i];
      }
    }
  }

  // ------------------------------------------------------------ many runs

  /** The files left after n runs with the same ages. */
  function AfterRuns(files: seq<Item>, cap: nat, ttl: nat, n: nat): seq<Item>
    decreases n
  {
    if n == 0 then files else CleanList(AfterRuns(files, cap, ttl, n - 1), cap, ttl)
  }

  ghost predicate AllStale(files: seq<Item>, ttl: nat) {
    forall x :: x in files ==> x.age >= ttl
  }

  lemma {:induction false} FreshOfStale(files: seq<Item>, ttl: nat)
    requires AllStale(files, ttl)
    ensures Fresh(files, ttl) == []
  {
    if files != [] {
      FreshOfStale(files[1..], ttl);
    }
  }

  lemma CleanStale(files: seq<Item>, cap: nat, ttl: nat)
    requires AllStale(files, ttl)
    ensures CleanList(files, cap, ttl) == files[Min(cap, |files|)..]
  {
    FreshOfStale(files[..Min(cap, |files|)], ttl);
  }

  lemma StaleFrom(files: seq<Item>, k: nat, ttl: nat)
    requires AllStale(files, ttl) && k <= |files|
    ensures AllStale(files[k..], ttl)
  {
  }

  lemma DropTwice(files: seq<Item>, a: nat, b: nat)
    ensures var k := Min(a, |files|);
      files[k..][Min(b, |files[k..]|)..] == files[Min(a + b, |files|)..]
  {
  }

  /** A pile of stale files shrinks by the cap with every run. */
  lemma {:induction false} StalePileShrinks(files: seq<Item>, cap: nat, ttl: nat, n: nat)
    requires AllStale(files, ttl)
    ensures AfterRuns(files, cap, ttl, n) == files[Min(n * cap, |files|)..]
    decreases n
  {
    hide CleanList, AllStale, Stale;
    if n > 0 {
      StalePileShrinks(files, cap, ttl, n - 1);
      var before := (n - 1) * cap;
      OneMoreTimes(n - 1, cap);
      var k := Min(before, |files|);
      StaleFrom(files, k, ttl);
      CleanStale(files[k..], cap, ttl);
      DropTwice(files, before, cap);
    }
  }

  /** N stale files are gone after the rounded-up N / cap runs, and not before. */
  lemma StalePileDrains(files: seq<Item>, cap: nat, ttl: nat, n: nat)
    requires AllStale(files, ttl) && cap > 0
    ensures AfterRuns(files, cap, ttl, n) == [] <==> n >= CeilDiv(|files|, cap)
  {
    hide AfterRuns, AllStale, CeilDiv;
    StalePileShrinks(files, cap, ttl, n);
    CeilDivCovers(|files|, cap, n);
  }

  /** What no number of runs removes: fresh files, and stale files behind cap fresh ones. */
  function Remaining(files: seq<Item>, cap: nat, ttl: nat): seq<Item>
    decreases |files|
  {
    if files == [] || cap == 0 then files
    else if Stale(files[0], ttl) then Remaining(files[1..], cap, ttl)
    else [files[0]] + Remaining(files[1..], cap - 1, ttl)
  }

  lemma {:induction false} RunKeepsRemaining(files: seq<Item>, budget: nat, cap: nat, ttl: nat)
    requires budget <= cap
    ensures Remaining(CleanList(files, budget, ttl), cap, ttl) == Remaining(files, cap, ttl)
    decreases |files|
  {
    if files == [] || budget == 0 {
      CleanNothing(files, ttl);
      CleanEmpty(budget, ttl);
    } else {
      var x, rest := files[0], files[1..];
      assert files == [x] + rest;
      CleanListCons(x, rest, budget, ttl);
      if Stale(x, ttl) {
        RunKeepsRemaining(rest, budget - 1, cap, ttl);
      } else {
        RunKeepsRemaining(rest, budget - 1, cap - 1, ttl);
        assert ([x] + CleanList(rest, budget - 1, ttl))[1..] == CleanList(rest, budget - 1, ttl);
      }
    }
  }

  /** A run either removes a file or has nothing left to remove. */
  lemma {:induction false} RunShrinksOrIsDone(files: seq<Item>, cap: nat, ttl: nat)
    ensures |CleanList(files, cap, ttl)| <= |files|
    ensures |CleanList(files, cap, ttl)| == |files| ==>
      CleanList(files, cap, ttl) == files && Remaining(files, cap, ttl) == files
    decreases |files|
  {
    if files == [] || cap == 0 {
      CleanNothing(files, ttl);
      CleanEmpty(cap, ttl);
    } else {
      assert files == [files[0]] + files[1..];
      CleanListCons(files[0], files[1..], cap, ttl);
      RunShrinksOrIsDone(files[1..], cap - 1, ttl);
    }
  }

  lemma {:induction false} RemainingShorter(files: seq<Item>, cap: nat, ttl: nat)
    ensures |Remaining(files, cap, ttl)| <= |files|
    decreases |files|
  {
    if files != [] && cap != 0 {
      if Stale(files[0], ttl) {
        RemainingShorter(files[1..], cap, ttl);
      } else {
        RemainingShorter(files[1..], cap - 1, ttl);
      }
    }
  }

  lemma {:induction false} RemainingIsDone(files: seq<Item>, cap: nat, ttl: nat)
    requires Remaining(files, cap, ttl) == files
    ensures CleanList(files, cap, ttl) == files
    decreases |files|
  {
    if files == [] || cap == 0 {
      CleanNothing(files, ttl);
      CleanEmpty(cap, ttl);
    } else {
      RemainingShorter(files[1..], cap, ttl);
      assert files == [files[0]] + files[1..];
      CleanListCons(files[0], files[1..], cap, ttl);
      RemainingIsDone(files[1..], cap - 1, ttl);
    }
  }

  lemma {:induction false} RunsKeepRemaining(files: seq<Item>, cap: nat, ttl: nat, n: nat)
    ensures Remaining(AfterRuns(files, cap, ttl, n), cap, ttl) == Remaining(files, cap, ttl)
    ensures |AfterRuns(files, cap, ttl, n)| + n <= |files|
         || Remaining(AfterRuns(files, cap, ttl, n), cap, ttl) == AfterRuns(files, cap, ttl, n)
    decreases n
  {
    if n > 0 {
      RunsKeepRemaining(files, cap, ttl, n - 1);
      var before := AfterRuns(files, cap, ttl, n - 1);
      RunKeepsRemaining(before, cap, cap, ttl);
      RunShrinksOrIsDone(before, cap, ttl);
      if Remaining(before, cap, ttl) == before {
        RemainingIsDone(before, cap, ttl);
      }
    }
  }

  /** Repeated runs settle: what is left is exactly what sits behind cap fresh files, or is fresh. */
  lemma RunsSettle(files: seq<Item>, cap: nat, ttl: nat, n: nat)
    requires n >= |files|
    ensures AfterRuns(files, cap, ttl, n) == Remaining(files, cap, ttl)
  {
    RunsKeepRemaining(files, cap, ttl, n);
    var left := AfterRuns(files, cap, ttl, n);
    if |left| + n <= |files| {
      assert left == [];
    }
  }

  lemma {:induction false} RemainingWithin(files: seq<Item>, cap: nat, ttl: nat)
    ensures forall x :: x in Remaining(files, cap, ttl) ==> x in files
    decreases |files|
  {
    if files != [] && cap != 0 {
      RemainingWithin(files[1..], if Stale(files[0], ttl) then cap else cap - 1, ttl);
    }
  }

  lemma {:induction false} OutlivesFresh(files: seq<Item>, cap: nat, ttl: nat, i: nat)
    requires i < |files| && forall j, k :: 0 <= j < k < |files| ==> files[j] != files[k]
    ensures files[i] in Remaining(files, cap, ttl)
       <==> !Stale(files[i], ttl) || |Fresh(files[..i], ttl)| >= cap
    decreases |files|
  {
    if cap > 0 {
      var x, rest := files[0], files[1..];
      var cap' := if Stale(x, ttl) then cap else cap - 1;
      if i > 0 {
        OutlivesFresh(rest, cap', ttl, i - 1);
        assert files[..i][1..] == rest[..i - 1];
        assert files[i] == rest[i - 1] && files[i] != x;
      } else {
        assert files[..0] == [];
        RemainingWithin(rest, cap', ttl);
        if x in rest { assert false; }
      }
    }
  }

  /** How many of the files are younger than ttl. */
  function Young(files: seq<Item>, ttl: nat): set<nat> {
    set j: nat | j < |files| && files[j].age < ttl
  }

  lemma {:induction false} FreshAreYoung(files: seq<Item>, ttl: nat)
    ensures |Fresh(files, ttl)| == |Young(files, ttl)|
  {
    if files != [] {
      var init, last := files[..|files| - 1], files[|files| - 1];
      assert files == init + [last];
      FreshAreYoung(init, ttl);
      FreshConcat(init, [last], ttl);
      assert Fresh([last], ttl) == if last.age < ttl then [last] else [] by { assert [last][1..] == []; }
      assert Young(files, ttl) == Young(init, ttl) + if last.age < ttl then {|files| - 1} else {};
    }
  }

  /** The file at position i outlives every run exactly when it is younger than ttl, or cap files before it are. */
  lemma OutlivesIff(files: seq<Item>, cap: nat, ttl: nat, i: nat)
    requires i < |files| && forall j, k :: 0 <= j < k < |files| ==> files[j] != files[k]
    ensures files[i] in Remaining(files, cap, ttl)
       <==> files[i].age < ttl || |set j: nat | j < i && files[j].age < ttl| >= cap
  {
    OutlivesFresh(files, cap, ttl, i);
    FreshAreYoung(files[..i], ttl);
    assert Young(files[..i], ttl) == set j: nat | j < i && files[j].age < ttl;
  }

  // ------------------------------------------------------------ the run itself

  function First(files: seq<Item>, k: nat): seq<Item> {
    files[..Min(k, |files|)]
  }

  lemma FirstConcat(a: seq<Item>, b: seq<Item>, k: nat)
    ensures First(a + b, k) == First(a, k) + First(b, k - Min(k, |a|))
  {
  }

  lemma {:induction false} StaleConcat(a: seq<Item>, b: seq<Item>, ttl: nat)
    ensures StaleOf(a + b, ttl) == StaleOf(a, ttl) + StaleOf(b, ttl)
    decreases |a|
  {
    if a == [] {
      assert a + b == b;
      assert StaleOf(a, ttl) == [];
    } else {
      StaleConcat(a[1..], b, ttl);
      assert (a + b)[1..] == a[1..] + b;
      var f, g := StaleOf(a[1..], ttl), StaleOf(b, ttl);
      assert [a[0]] + (f + g) == ([a[0]] + f) + g;
    }
  }

  /** The files at these paths are deleted, and so are their records. */
  function Drop(st: State, gone: set<Name>): State {
    st.(files := st.files - gone, index := st.index - gone)
  }

  lemma DropMore(st: State, a: seq<Item>, b: seq<Item>)
    ensures Drop(Drop(st, Paths(a)), Paths(b)) == Drop(st, Paths(a + b))
  {
    assert Paths(a + b) == Paths(a) + Paths(b);
  }

  lemma DropNone(st: State)
    ensures Drop(st, Paths([])) == st
  {
  }

  lemma PathsOfOne(x: Item)
    ensures Paths([x]) == {x.path}
  {
  }

  lemma WalkOver(items: seq<Item>, budget: nat, ttl: nat)
    requires items == [] || budget == 0
    ensures CleanItems(items, budget, ttl) == items && Used(items, budget) == 0
    ensures StaleOf(First(Regulars(items), budget), ttl) == []
  {
  }

  lemma TreeOver(tree: Tree, budget: nat, ttl: nat)
    requires tree == [] || budget == 0
    ensures CleanTree(tree, budget, ttl) == tree && Min(budget, |Files(tree)|) == 0
    ensures StaleOf(First(Files(tree), budget), ttl) == []
  {
  }

  /** One principal off the front of the tree. */
  lemma CleanTreeCons(tree: Tree, budget: nat, ttl: nat, out: Tree)
    requires tree != [] && budget > 0
    ensures var d, rest := tree[0], tree[1..];
      var used := if d.Walked() then Used(d.items, budget) else 0;
      var d' := if d.Walked() then d.(items := CleanItems(d.items, budget, ttl)) else d;
      used <= budget && out + CleanTree(tree, budget, ttl) == (out + [d']) + CleanTree(rest, budget - used, ttl)
  {
    hide CleanItems, Regulars;
    var d, rest := tree[0], tree[1..];
    var used := if d.Walked() then Used(d.items, budget) else 0;
    var d' := if d.Walked() then d.(items := CleanItems(d.items, budget, ttl)) else d;
    var cleaned := CleanTree(rest, budget - used, ttl);
    assert out + ([d'] + cleaned) == (out + [d']) + cleaned;
  }

  /** The files of one folder off the front of all files. */
  lemma GoneCons(here: seq<Item>, later: seq<Item>, budget: nat, ttl: nat, gone: seq<Item>)
    ensures gone + StaleOf(First(here + later, budget), ttl)
         == (gone + StaleOf(First(here, budget), ttl)) + StaleOf(First(later, budget - Min(budget, |here|)), ttl)
  {
    hide StaleOf, First;
    var left := budget - Min(budget, |here|);
    FirstConcat(here, later, budget);
    StaleConcat(First(here, budget), First(later, left), ttl);
    var f, g := StaleOf(First(here, budget), ttl), StaleOf(First(later, left), ttl);
    assert gone + (f + g) == (gone + f) + g;
  }

  /** One principal off the front, as the outer loop sees it. */
  lemma StepPrincipal(tree: Tree, budget: nat, ttl: nat, out: Tree, gone: seq<Item>)
    requires tree != [] && budget > 0
    ensures var d, rest := tree[0], tree[1..];
      var used := if d.Walked() then Used(d.items, budget) else 0;
      var d' := if d.Walked() then d.(items := CleanItems(d.items, budget, ttl)) else d;
      var g := if d.Walked() then gone + StaleOf(First(Regulars(d.items), budget), ttl) else gone;
      && used <= budget
      && out + CleanTree(tree, budget, ttl) == (out + [d']) + CleanTree(rest, budget - used, ttl)
      && Min(budget, |Files(tree)|) == used + Min(budget - used, |Files(rest)|)
      && gone + StaleOf(First(Files(tree), budget), ttl) == g + StaleOf(First(Files(rest), budget - used), ttl)
  {
    hide StaleOf, Files, Regulars, CleanItems, CleanTree, First;
    var d, rest := tree[0], tree[1..];
    assert tree == [d] + rest;
    FilesCons(d, rest);
    CleanTreeCons(tree, budget, ttl, out);
    if d.Walked() { GoneCons(Regulars(d.items), Files(rest), budget, ttl, gone); }
  }

  /** One examined file off the front of the files to look at. */
  lemma StepGone(x: Item, rest: seq<Item>, budget: nat, ttl: nat, gone: seq<Item>)
    requires budget > 0
    ensures var g := if Stale(x, ttl) then gone + [x] else gone;
      gone + StaleOf(First([x] + rest, budget), ttl) == g + StaleOf(First(rest, budget - 1), ttl)
  {
    hide Stale;
    var f := First(rest, budget - 1);
    FirstConcat([x], rest, budget);
    assert First([x], budget) == [x];
    assert ([x] + f)[1..] == f;
    var s := StaleOf(f, ttl);
    assert StaleOf([x] + f, ttl) == (if Stale(x, ttl) then [x] else []) + s;
    assert gone + ([x] + s) == (gone + [x]) + s;
    assert [] + s == s;
  }

  /** One entry off the front, as the inner loop sees it. */
  lemma StepItem(items: seq<Item>, budget: nat, ttl: nat, left: seq<Item>, gone: seq<Item>)
    requires items != [] && budget > 0
    ensures var x, rest := items[0], items[1..];
      var b := if x.regular then budget - 1 else budget;
      var l := if x.regular && Stale(x, ttl) then left else left + [x];
      var g := if x.regular && Stale(x, ttl) then gone + [x] else gone;
      && left + CleanItems(items, budget, ttl) == l + CleanItems(rest, b, ttl)
      && Used(items, budget) == Used(rest, b) + (if x.regular then 1 else 0)
      && gone + StaleOf(First(Regulars(items), budget), ttl) == g + StaleOf(First(Regulars(rest), b), ttl)
  {
    hide StaleOf, First, Stale, Regulars;
    var x, rest := items[0], items[1..];
    var b := if x.regular then budget - 1 else budget;
    assert items == [x] + rest;
    RegularsCons(x, rest);
    var c := CleanItems(rest, b, ttl);
    assert left + ([x] + c) == (left + [x]) + c;
    StepGone(x, Regulars(rest), budget, ttl, gone);
  }

  ghost predicate DistinctPaths(files: seq<Item>) {
    forall a, b :: 0 <= a < b < |files| ==> files[a].path != files[b].path
  }

  /** A path of a file older than ttl among the first k. */
  ghost predicate Expired(files: seq<Item>, k: nat, ttl: nat, path: Name) {
    exists a :: 0 <= a < |files| && a < k && files[a].age >= ttl && files[a].path == path
  }

  /**
   What a run does, said of ages: of the first k files exactly those younger than ttl
   are left, all later ones are, files and records of the others are gone, and no
   other file or record is touched.
   */
  ghost predicate Swept(files: seq<Item>, k: nat, ttl: nat, before: State, after: State, left: seq<Item>) {
    && (forall a :: 0 <= a < |files| ==> (files[a] in left <==> a >= k || files[a].age < ttl))
    && (forall x :: x in left ==> x in files)
    && after.sessions == before.sessions
    && forall q :: if Expired(files, k, ttl, q) then q !in after.files && q !in after.index
                   else
                     && (q in after.files <==> q in before.files)
                     && (q in after.files ==> after.files[q] == before.files[q])
                     && (q in after.index <==> q in before.index)
                     && (q in after.index ==> after.index[q] == before.index[q])
  }

  lemma {:induction false} FreshIn(files: seq<Item>, ttl: nat, x: Item)
    ensures x in Fresh(files, ttl) <==> x in files && x.age < ttl
    ensures x in StaleOf(files, ttl) <==> x in files && x.age >= ttl
    decreases |files|
  {
    if files != [] {
      FreshIn(files[1..], ttl, x);
    }
  }

  lemma CleanListIn(files: seq<Item>, cap: nat, ttl: nat, a: nat)
    requires DistinctPaths(files) && a < |files|
    ensures files[a] in CleanList(files, cap, ttl) <==> a >= cap || files[a].age < ttl
  {
    hide Fresh, Stale;
    var k := Min(cap, |files|);
    FreshIn(files[..k], ttl, files[a]);
    if a < k {
      assert files[..k][a] == files[a];
      forall b | 0 <= b < |files[k..]| ensures files[k..][b] != files[a] {
        assert files[k..][b] == files[k + b];
      }
    } else {
      assert files[k..][a - k] == files[a];
    }
  }

  lemma ExpiredIs(files: seq<Item>, k: nat, ttl: nat, q: Name)
    ensures q in Paths(StaleOf(First(files, k), ttl)) <==> Expired(files, k, ttl, q)
  {
    hide StaleOf;
    var first := First(files, k);
    if x :| x in StaleOf(first, ttl) && x.path == q {
      FreshIn(first, ttl, x);
      var a :| 0 <= a < |first| && first[a] == x;
      assert files[a] == x;
    }
    if a :| 0 <= a < |files| && a < k && files[a].age >= ttl && files[a].path == q {
      assert first[a] == files[a];
      FreshIn(first, ttl, files[a]);
    }
  }

  lemma CleanListWithin(files: seq<Item>, cap: nat, ttl: nat, x: Item)
    ensures x in CleanList(files, cap, ttl) ==> x in files
  {
    FreshIn(files[..Min(cap, |files|)], ttl, x);
  }

  lemma RunSweeps(tree: Tree, cap: nat, ttl: nat, st: State)
    requires DistinctPaths(Files(tree))
    ensures Swept(Files(tree), cap, ttl, st, Drop(st, Paths(StaleOf(First(Files(tree), cap), ttl))),
                  Files(CleanTree(tree, cap, ttl)))
  {
    hide CleanTree, Files, CleanList, StaleOf, First, Paths, Expired;
    CleanTreeFiles(tree, cap, ttl);
    var files := Files(tree);
    forall a | 0 <= a < |files|
      ensures files[a] in CleanList(files, cap, ttl) <==> a >= cap || files[a].age < ttl
    {
      CleanListIn(files, cap, ttl, a);
    }
    forall x ensures x in CleanList(files, cap, ttl) ==> x in files {
      CleanListWithin(files, cap, ttl, x);
    }
    forall q ensures q in Paths(StaleOf(First(files, cap), ttl)) <==> Expired(files, cap, ttl, q) {
      ExpiredIs(files, cap, ttl, q);
    }
  }

  class Cleaner {
    var tree: Option<Tree>   // .canister_cache, if it exists
    var ttl: nat
    var maxFilesPerRun: nat

    var runs: nat
    var filesExamined: nat
    var filesDeleted: nat
    var filesFailed: nat

    constructor (tree: Option<Tree>, ttl: nat, maxFilesPerRun: nat)
      ensures this.tree == tree && this.ttl == ttl && this.maxFilesPerRun == maxFilesPerRun && runs == 0
    {
      this.tree, this.ttl, this.maxFilesPerRun := tree, ttl, maxFilesPerRun;
      runs, filesExamined, filesDeleted, filesFailed := 0, 0, 0, 0;
    }

    /** remove, paired with delete_file_metadata. */
    method DeleteFile(st: Store, path: Name)
      requires st.Valid()
      modifies st
      ensures st.Valid() && st.Now() == Drop(old(st.Now()), {path})
      ensures st.files == old(st.files) - {path} && st.Index() == old(st.Index()) - {path}
      ensures st.sessions == old(st.sessions)
    {
      hide ToMap, Good, Save, FitPrefix;
      st.files := st.files - {path};
      var _ := st.DeleteMetadata(path);
    }

    /** The inner loop: one sessions folder, within what is left of the cap. */
    method CleanSessions(st: Store, items: seq<Item>, budget: nat)
      returns (left: seq<Item>, examined: nat, deleted: nat)
      requires st.Valid()
      modifies st
      ensures st.Valid()
      ensures left == CleanItems(items, budget, ttl)
      ensures examined == Used(items, budget)
      ensures var gone := StaleOf(First(Regulars(items), budget), ttl);
        deleted == |gone| && st.Now() == Drop(old(st.Now()), Paths(gone))
    {
      hide CleanItems, StaleOf, First, Regulars, Used, Drop, Paths, Stale, ToMap, Good, Save, FitPrefix;
      left, examined, deleted := [], 0, 0;
      ghost var gone: seq<Item> := [];
      var i := 0;
      assert items[0..] == items;
      DropNone(st.Now());
      while i < |items| && examined < budget
        invariant 0 <= i <= |items| && examined <= budget && st.Valid()
        invariant left + CleanItems(items[i..], budget - examined, ttl) == CleanItems(items, budget, ttl)
        invariant examined + Used(items[i..], budget - examined) == Used(items, budget)
        invariant gone + StaleOf(First(Regulars(items[i..]), budget - examined), ttl)
               == StaleOf(First(Regulars(items), budget), ttl)
        invariant deleted == |gone| && st.Now() == Drop(old(st.Now()), Paths(gone))
      {
        var x := items[i];
        StepItem(items[i..], budget - examined, ttl, left, gone);
        assert items[i..][1..] == items[i + 1..];
        i := i + 1;
        if !x.regular {
          left := left + [x];
          continue;
        }
        examined := examined + 1;
        if Stale(x, ttl) {
          DropMore(old(st.Now()), gone, [x]);
          PathsOfOne(x);
          DeleteFile(st, x.path);
          deleted := deleted + 1;
          gone := gone + [x];
        } else {
          left := left + [x];
        }
      }
      WalkOver(items[i..], budget - examined, ttl);
      assert gone + [] == gone;
      left := left + items[i..];
    }

    /** The outer loop: principal folders, until the cap is reached. */
    method Walk(st: Store, all: Tree, budget: nat) returns (out: Tree, examined: nat, deleted: nat)
      requires st.Valid()
      modifies st
      ensures st.Valid()
      ensures out == CleanTree(all, budget, ttl)
      ensures examined == Min(budget, |Files(all)|)
      ensures var gone := StaleOf(First(Files(all), budget), ttl);
        deleted == |gone| && st.Now() == Drop(old(st.Now()), Paths(gone))
    {
      hide CleanItems, StaleOf, First, Regulars, Used, Min, Drop, Paths, Stale, ToMap, CleanTree, Files, Good, Save,
        FitPrefix;
      out, examined, deleted := [], 0, 0;
      ghost var gone: seq<Item> := [];
      var o := 0;
      assert all[0..] == all;
      DropNone(st.Now());
      while o < |all| && examined < budget
        invariant 0 <= o <= |all| && examined <= budget && st.Valid()
        invariant out + CleanTree(all[o..], budget - examined, ttl) == CleanTree(all, budget, ttl)
        invariant examined + Min(budget - examined, |Files(all[o..])|) == Min(budget, |Files(all)|)
        invariant gone + StaleOf(First(Files(all[o..]), budget - examined), ttl)
               == StaleOf(First(Files(all), budget), ttl)
        invariant deleted == |gone| && st.Now() == Drop(old(st.Now()), Paths(gone))
      {
        var d := all[o];
        StepPrincipal(all[o..], budget - examined, ttl, out, gone);
        assert all[o..][1..] == all[o + 1..];
        o := o + 1;
        if !d.isDir || !d.hasSessions {
          out := out + [d];
          continue;
        }
        ghost var here := StaleOf(First(Regulars(d.items), budget - examined), ttl);
        DropMore(old(st.Now()), gone, here);
        var left, seen, removed := CleanSessions(st, d.items, budget - examined);
        out := out + [d.(items := left)];
        examined, deleted := examined + seen, deleted + removed;
        gone := gone + here;
      }
      TreeOver(all[o..], budget - examined, ttl);
      assert gone + [] == gone;
      out := out + all[o..];
    }

    /** run_cache_cleanup_body: the walk, then the statistics. */
    method Run(st: Store)
      requires st.Valid()
      modifies this, st
      ensures st.Valid() && ttl == old(ttl) && maxFilesPerRun == old(maxFilesPerRun)
      ensures runs == old(runs) + 1 && filesFailed == 0
      ensures old(tree) == None ==>
        tree == None && filesExamined == filesDeleted == 0 && st.Now() == old(st.Now())
      ensures old(tree).Some? ==>
        var files := Files(old(tree).value);
        var gone := StaleOf(First(files, maxFilesPerRun), ttl);
        && tree == Some(CleanTree(old(tree).value, maxFilesPerRun, ttl))
        && filesExamined == Min(maxFilesPerRun, |files|)
        && filesDeleted == |gone|
        && st.Now() == Drop(old(st.Now()), Paths(gone))
        && (DistinctPaths(files) ==>
            Swept(files, maxFilesPerRun, ttl, old(st.Now()), st.Now(), Files(tree.value)))
    {
      hide StaleOf, First, Drop, Paths, ToMap, CleanTree, Files, Min, Good, Save, FitPrefix, DistinctPaths, Swept;
      if tree == None {
        runs, filesExamined, filesDeleted, filesFailed := runs + 1, 0, 0, 0;
        return;
      }
      if DistinctPaths(Files(tree.value)) { RunSweeps(tree.value, maxFilesPerRun, ttl, st.Now()); }
      var out, examined, deleted := Walk(st, tree.value, maxFilesPerRun);
      tree := Some(out);
      runs, filesExamined, filesDeleted, filesFailed := runs + 1, examined, deleted, 0;
    }
  }
}
