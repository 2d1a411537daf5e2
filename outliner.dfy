/**
 * The outliner's tasks (ppygui/demo/app/outliner/task.py): a tree of tasks,
 * each with its subtasks, a parent pointer, a `done` flag and an optional
 * end date.  Marking a task done or not done spreads the flag down to every
 * descendant and recomputes every task above it as "all its subtasks are
 * done"; attaching and detaching recompute the tasks above the changed
 * list.  The task objects are the entries of four maps indexed by identity.
 */
module Outliner {
  import opened Wrappers
  import opened TaskTree

  /** The exceptions the task methods let escape. */
  datatype TaskError =
    | ValueError   // `list.remove` of a task that is not in the list
    | NameError    // the undefined name in `attach` with an index

  /** Every task of `cs` is done. */
  predicate AllDone(cs: seq<Id>, done: map<Id, bool>)
  {
    forall c :: c in cs ==> c in done && done[c]
  }

  /** Task `a` is done exactly when all its subtasks are. */
  predicate Settled(subs: map<Id, seq<Id>>, done: map<Id, bool>, a: Id)
  {
    a in subs && a in done && done[a] == AllDone(subs[a], done)
  }

  /** `Task.is_late` with the day of `datetime.date.today()` as a parameter. */
  function IsLate(enddate: Option<int>, today: int): (r: bool)
    ensures enddate.None? ==> !r
  {
    match enddate
    case None => false
    case Some(e) => today > e
  }

  /** A late task stays late on every later day, and is not late on its end date or before. */
  lemma LateStaysLate(enddate: Option<int>, today: int, later: int)
    requires IsLate(enddate, today) && today <= later
    ensures IsLate(enddate, later) && enddate.Some? && enddate.value < today
  {
  }

  /** Task maps that fit together: a shape and a `done` flag for every task. */
  ghost predicate Fits(subs: map<Id, seq<Id>>, par: map<Id, Id>, b: nat, done: map<Id, bool>)
  {
    subs.Keys == done.Keys && Shaped(subs, par, b)
  }

  /** The loop `parent_done = all(task.done for task in p.subtasks)`. */
  method ChildrenDone(subs: map<Id, seq<Id>>, par: map<Id, Id>, ghost b: nat, done: map<Id, bool>, p: Id) returns (r: bool)
    requires Fits(subs, par, b, done) && p in subs
    ensures r == AllDone(subs[p], done)
  {
    var cs := subs[p];
    r := true;
    for i := 0 to |cs|
      invariant r == AllDone(cs[..i], done)
    {
      assert cs[..i + 1] == cs[..i] + [cs[i]];
      if !done[cs[i]] {
        r := false;
      }
    }
    assert cs[..|cs|] == cs;
  }

  /**
   * `_set_parent_done(d)` on the `done` flags: `x` takes the value `d`, then
   * each task above it, nearest first, takes "all my subtasks are done".
   * Nothing else changes.
   */
  method ParentDone(subs: map<Id, seq<Id>>, par: map<Id, Id>, ghost b: nat, done: map<Id, bool>, x: Id, d: bool)
    returns (r: map<Id, bool>)
    requires Fits(subs, par, b, done) && x in subs
    ensures r.Keys == done.Keys && r[x] == d
    ensures forall a :: a in Ancestors(par, x, b) ==> Settled(subs, r, a)
    ensures forall y :: y in r && y != x && y !in Ancestors(par, x, b) ==> r[y] == done[y]
    decreases Level(par, x, b), 1
  {
    r := done[x := d];
    if x in par {
      AncestorsStep(par, x, b);
      AncestorsAbove(par, par[x], b);
      r := Recompute(subs, par, b, r, par[x]);
    }
  }

  /**
   * The block that closes `attach`, `detach`, `remove` and the two
   * `_set_..._done` methods: compute whether all subtasks of `p` are done and
   * pass that to `p._set_parent_done`.  Afterwards `p` and every task above
   * it is done exactly when all its subtasks are; nothing else changes.
   */
  method Recompute(subs: map<Id, seq<Id>>, par: map<Id, Id>, ghost b: nat, done: map<Id, bool>, p: Id)
    returns (r: map<Id, bool>)
    requires Fits(subs, par, b, done) && p in subs
    ensures r.Keys == done.Keys
    ensures Settled(subs, r, p) && forall a :: a in Ancestors(par, p, b) ==> Settled(subs, r, a)
    ensures forall y :: y in r && y != p && y !in Ancestors(par, p, b) ==> r[y] == done[y]
    decreases Level(par, p, b), 2
  {
    var all := ChildrenDone(subs, par, b, done, p);
    r := ParentDone(subs, par, b, done, p, all);
    ChildOffChain(subs, par, b, p);
    assert AllDone(subs[p], r) == AllDone(subs[p], done);
  }

  /** `_set_sub_done(d)` on the `done` flags: `x` and every task below it take the value `d`; nothing else changes. */
  method SubDone(subs: map<Id, seq<Id>>, par: map<Id, Id>, ghost b: nat, done: map<Id, bool>, x: Id, d: bool)
    returns (r: map<Id, bool>)
    requires Fits(subs, par, b, done) && x in subs
    ensures r.Keys == done.Keys
    ensures forall y :: y in r ==> r[y] == if y in Descendants(subs, par, b, x) then d else done[y]
    decreases Room(par, x, b), 1
  {
    r := SubtasksSubDone(subs, par, b, done[x := d], x, d);
    DescendantsStep(subs, par, b, x);
  }

  /** The loop `for subtask in self.subtasks: subtask._set_sub_done(d)`. */
  method SubtasksSubDone(subs: map<Id, seq<Id>>, par: map<Id, Id>, ghost b: nat, done: map<Id, bool>, x: Id, d: bool)
    returns (r: map<Id, bool>)
    requires Fits(subs, par, b, done) && x in subs
    ensures r.Keys == done.Keys
    ensures forall y :: y in r ==> r[y] == if y in Forest(subs, subs[x], Room(par, x, b) - 1) then d else done[y]
    decreases Room(par, x, b), 0
  {
    var cs := subs[x];
    var f := Room(par, x, b) - 1;
    DescendantsStep(subs, par, b, x);
    r := done;
    for i := 0 to |cs|
      invariant r.Keys == done.Keys
      invariant forall y :: y in r ==> r[y] == if y in Forest(subs, cs[..i], f) then d else done[y]
    {
      r := SubDone(subs, par, b, r, cs[i], d);
      assert cs[..i + 1][..i] == cs[..i];
    }
    assert cs[..|cs|] == cs;
  }

  /**
   * `set_done(d)` on the `done` flags: `x` and everything below it take the
   * value `d`, every task above `x` is then done exactly when all its
   * subtasks are, and no other task changes.
   */
  method MarkDone(subs: map<Id, seq<Id>>, par: map<Id, Id>, ghost b: nat, done: map<Id, bool>, x: Id, d: bool)
    returns (r: map<Id, bool>)
    requires Fits(subs, par, b, done) && x in subs
    ensures r.Keys == done.Keys
    ensures forall y :: y in Descendants(subs, par, b, x) ==> y in r && r[y] == d
    ensures forall a :: a in Ancestors(par, x, b) ==> Settled(subs, r, a)
    ensures forall y :: y in r && y !in Descendants(subs, par, b, x) && y !in Ancestors(par, x, b) ==> r[y] == done[y]
  {
    var mid := ParentDone(subs, par, b, done, x, d);
    r := SubtasksSubDone(subs, par, b, mid, x, d);
    DescendantsStep(subs, par, b, x);
    DescendantsBelow(subs, par, b, x);
    AncestorsAbove(par, x, b);
    forall a | a in Ancestors(par, x, b)
      ensures Settled(subs, r, a)
    {
      assert Settled(subs, mid, a);
      forall c | c in subs[a]
        ensures c in r && r[c] == mid[c]
      {
        ChildLevel(subs, par, b, a, c);
      }
    }
  }

  /**
   * `detach` on the maps: a task with a parent leaves that parent's list,
   * which raises ValueError, changing nothing, when the task is no longer in
   * it; the parent and every task above it is then recomputed.  The task
   * keeps its parent pointer.
   */
  method Unlink(subs: map<Id, seq<Id>>, par: map<Id, Id>, ghost b: nat, done: map<Id, bool>, x: Id)
    returns (r: Result<(), TaskError>, subs': map<Id, seq<Id>>, done': map<Id, bool>)
    requires Fits(subs, par, b, done) && x in subs
    ensures Fits(subs', par, b, done') && done'.Keys == done.Keys
    ensures r.Err? <==> x in par && x !in subs[par[x]]
    ensures r.Err? ==> r.error == ValueError
    ensures x !in par || r.Err? ==> subs' == subs && done' == done
    ensures x in par && r.Ok? ==> subs' == subs[par[x] := RemoveFirst(subs[par[x]], x)]
    ensures r.Ok? ==> Detached(subs', x)
    ensures r.Ok? ==> forall a :: a in Ancestors(par, x, b) ==> Settled(subs', done', a)
    ensures forall y :: y in done' && y !in Ancestors(par, x, b) ==> done'[y] == done[y]
    ensures x in par && subs[par[x]] == [x] ==> done'[par[x]]
  {
    subs', done' := subs, done;
    if x in par {
      var p := par[x];
      if x !in subs[p] {
        return Err(ValueError), subs', done';
      }
      UnlinkShaped(subs, par, b, p, x);
      subs' := subs[p := RemoveFirst(subs[p], x)];
      done' := Recompute(subs', par, b, done, p);
      AncestorsStep(par, x, b);
    } else {
      assert Linked(subs, par);
    }
    r := Ok(());
  }

  /** The tasks at odd positions of `xs`, in order. */
  function Odds(xs: seq<Id>): (r: seq<Id>)
    ensures |r| == |xs| / 2 && forall k :: 0 <= k < |r| ==> r[k] == xs[2 * k + 1]
  {
    if |xs| < 2 then [] else [xs[1]] + Odds(xs[2..])
  }

  /** A task with at least two subtasks keeps its second one under `remove` as written. */
  lemma SecondSubtaskKept(xs: seq<Id>)
    requires |xs| >= 2
    ensures Odds(xs) != [] && xs[1] in Odds(xs)
  {
    assert Odds(xs)[0] == xs[1];
  }

  /**
   * The list of a task whose `remove` has run its loop `i` times over the
   * live list `xs`: each pass removes the element at the pass's index, so
   * the odd positions of the part already passed remain.
   */
  function AfterPasses(xs: seq<Id>, i: nat): seq<Id>
  {
    if 2 * i <= |xs| then Odds(xs[..2 * i]) + xs[2 * i..] else Odds(xs)
  }

  /** One more pass, while the loop's index is still inside the list, removes `xs[2 * i]`. */
  lemma PassStep(xs: seq<Id>, i: nat)
    requires 2 * i + 1 <= |xs|
    ensures |AfterPasses(xs, i)| == |xs| - i && AfterPasses(xs, i)[i] == xs[2 * i]
    ensures AfterPasses(xs, i)[..i] + AfterPasses(xs, i)[i + 1..] == AfterPasses(xs, i + 1)
  {
    var l := AfterPasses(xs, i);
    assert |Odds(xs[..2 * i])| == i;
    assert l[..i] == Odds(xs[..2 * i]) && l[i + 1..] == xs[2 * i + 1..];
    PassNext(xs, i);
  }

  /** Passing `xs[2 * i + 1]` adds it to the odd positions already passed. */
  lemma PassNext(xs: seq<Id>, i: nat)
    requires 2 * i + 1 <= |xs|
    ensures Odds(xs[..2 * i]) + xs[2 * i + 1..] == AfterPasses(xs, i + 1)
  {
    if 2 * i + 2 <= |xs| {
      assert |Odds(xs[..2 * i + 2])| == i + 1;
      assert Odds(xs[..2 * i + 2]) == Odds(xs[..2 * i]) + [xs[2 * i + 1]];
      assert xs[2 * i + 1..] == [xs[2 * i + 1]] + xs[2 * i + 2..];
    } else {
      assert Odds(xs) == Odds(xs[..2 * i]);
    }
  }

  /** The loop stops once its index reaches the list's end, and then the odd positions are left. */
  lemma PassesEnd(xs: seq<Id>, i: nat)
    requires 2 * i <= |xs| + 1 && |AfterPasses(xs, i)| <= i
    ensures AfterPasses(xs, i) == Odds(xs)
  {
    if 2 * i <= |xs| {
      assert |Odds(xs[..2 * i])| == i;
      assert xs[..2 * i] == xs;
    }
  }

  /**
   * What `remove` loops keep between passes: the tree is well formed, no
   * list outside the subtree of `x` changes, `x` and the tasks above it are
   * done exactly when all their subtasks are, and no flag outside the
   * subtree of `x` and the tasks above it changes.
   */
  ghost predicate Progress(subs: map<Id, seq<Id>>, par: map<Id, Id>, b: nat, done: map<Id, bool>, x: Id,
                           subs': map<Id, seq<Id>>, done': map<Id, bool>)
    requires Fits(subs, par, b, done) && x in subs
  {
    && Fits(subs', par, b, done') && done'.Keys == done.Keys && Shrunk(subs', subs)
    && (forall y :: y in subs' && y !in Descendants(subs, par, b, x) ==> subs'[y] == subs[y])
    && (forall a :: a in Ancestors(par, x, b) ==> Settled(subs', done', a))
    && (forall y :: y in done' && y !in Descendants(subs, par, b, x) && y !in Ancestors(par, x, b) ==> done'[y] == done[y])
  }

  /** What `remove` promises, given the list `rest` it leaves in `x`. */
  ghost predicate Removed(subs: map<Id, seq<Id>>, par: map<Id, Id>, b: nat, done: map<Id, bool>, x: Id,
                          subs': map<Id, seq<Id>>, done': map<Id, bool>, rest: seq<Id>)
    requires Fits(subs, par, b, done) && x in subs
  {
    && Fits(subs', par, b, done') && done'.Keys == done.Keys && Shrunk(subs', subs)
    && Detached(subs', x) && subs'[x] == rest
    && (x in par && x in subs[par[x]] ==> subs'[par[x]] == RemoveFirst(subs[par[x]], x))
    && (forall y :: y in subs' && y !in Descendants(subs, par, b, x) && !(x in par && y == par[x]) ==> subs'[y] == subs[y])
    && (forall a :: a in Ancestors(par, x, b) ==> Settled(subs', done', a))
    && (forall y :: y in done' && y !in Descendants(subs, par, b, x) && y !in Ancestors(par, x, b) ==> done'[y] == done[y])
  }

  /** A pass of a `remove` loop: removing the subtask `c` of `x` keeps the loop's progress and takes `c` out of the list of `x`. */
  lemma RemovePass(subs: map<Id, seq<Id>>, par: map<Id, Id>, b: nat, done: map<Id, bool>, x: Id,
                   before: map<Id, seq<Id>>, dbefore: map<Id, bool>, c: Id,
                   after: map<Id, seq<Id>>, dafter: map<Id, bool>, rest: seq<Id>)
    requires Fits(subs, par, b, done) && x in subs && Progress(subs, par, b, done, x, before, dbefore)
    requires c in subs[x] && c in before[x]
    requires Removed(before, par, b, dbefore, c, after, dafter, rest)
    ensures Progress(subs, par, b, done, x, after, dafter)
    ensures after[x] == RemoveFirst(before[x], c)
  {
    assert c in par && par[c] == x;
    ChildLevel(before, par, b, x, c);
    DescendantsStep(subs, par, b, x);
    var f := Room(par, x, b) - 1;
    assert Room(par, c, b) == f;
    SubtreeShrink(before, subs, c, f);
    ForestContains(subs, subs[x], f, c);
    ghost var inner, middle, outer := Subtree(before, c, f), Subtree(subs, c, f), Forest(subs, subs[x], f);
    assert inner <= middle <= outer;
    assert Descendants(before, par, b, c) == inner;
    assert Descendants(before, par, b, c) <= Descendants(subs, par, b, x);
  }

  /** Unlinking `x` from its parent only shrinks lists, and leaves the parent outside the subtree of `x`. */
  lemma UnlinkShrinks(subs: map<Id, seq<Id>>, par: map<Id, Id>, b: nat, x: Id, mid: map<Id, seq<Id>>)
    requires Shaped(subs, par, b) && x in subs
    requires x in par ==> x in subs[par[x]] && mid == subs[par[x] := RemoveFirst(subs[par[x]], x)]
    requires x !in par ==> mid == subs
    requires Shaped(mid, par, b)
    ensures Shrunk(mid, subs) && Descendants(mid, par, b, x) <= Descendants(subs, par, b, x)
    ensures x in par ==> par[x] !in Descendants(mid, par, b, x)
  {
    if x in par {
      RemoveFirstNoDup(subs[par[x]], x);
      AncestorsStep(par, x, b);
    }
    SubtreeShrink(mid, subs, x, Room(par, x, b));
    DescendantsBelow(mid, par, b, x);
  }

  /** After the unlink and the loop, every list has only shrunk and `x` is in none. */
  lemma RemovedShrunk(subs: map<Id, seq<Id>>, par: map<Id, Id>, b: nat, done: map<Id, bool>, x: Id,
                   mid: map<Id, seq<Id>>, dmid: map<Id, bool>, subs': map<Id, seq<Id>>, done': map<Id, bool>)
    requires Fits(subs, par, b, done) && x in subs
    requires x in par ==> x in subs[par[x]] && mid == subs[par[x] := RemoveFirst(subs[par[x]], x)]
    requires x !in par ==> mid == subs
    requires Fits(mid, par, b, dmid) && dmid.Keys == done.Keys && Detached(mid, x)
    requires forall y :: y in dmid && y !in Ancestors(par, x, b) ==> dmid[y] == done[y]
    requires Progress(mid, par, b, dmid, x, subs', done')
    ensures Shrunk(subs', subs) && Detached(subs', x)
  {
    UnlinkShrinks(subs, par, b, x, mid);
  }

  /** After the unlink and the loop, the lists seen from before the unlink. */
  lemma RemovedLists(subs: map<Id, seq<Id>>, par: map<Id, Id>, b: nat, x: Id, mid: map<Id, seq<Id>>, subs': map<Id, seq<Id>>)
    requires Shaped(subs, par, b) && x in subs && Shaped(mid, par, b)
    requires x in par ==> x in subs[par[x]] && mid == subs[par[x] := RemoveFirst(subs[par[x]], x)]
    requires x !in par ==> mid == subs
    requires subs'.Keys == mid.Keys
    requires forall y :: y in subs' && y !in Descendants(mid, par, b, x) ==> subs'[y] == mid[y]
    ensures x in par ==> subs'[par[x]] == RemoveFirst(subs[par[x]], x)
    ensures forall y :: y in subs' && y !in Descendants(subs, par, b, x) && !(x in par && y == par[x]) ==> subs'[y] == subs[y]
  {
    UnlinkShrinks(subs, par, b, x, mid);
  }

  /** After the unlink and the loop, the flags seen from before the unlink. */
  lemma RemovedFlags(subs: map<Id, seq<Id>>, par: map<Id, Id>, b: nat, done: map<Id, bool>, x: Id,
                   mid: map<Id, seq<Id>>, dmid: map<Id, bool>, subs': map<Id, seq<Id>>, done': map<Id, bool>)
    requires Fits(subs, par, b, done) && x in subs
    requires x in par ==> x in subs[par[x]] && mid == subs[par[x] := RemoveFirst(subs[par[x]], x)]
    requires x !in par ==> mid == subs
    requires Fits(mid, par, b, dmid) && dmid.Keys == done.Keys && Detached(mid, x)
    requires forall y :: y in dmid && y !in Ancestors(par, x, b) ==> dmid[y] == done[y]
    requires Progress(mid, par, b, dmid, x, subs', done')
    ensures forall y :: y in done' && y !in Descendants(subs, par, b, x) && y !in Ancestors(par, x, b) ==> done'[y] == done[y]
  {
    UnlinkShrinks(subs, par, b, x, mid);
  }

  /** After the unlink and the loop, the state seen from before the unlink. */
  lemma RemoveWrap(subs: map<Id, seq<Id>>, par: map<Id, Id>, b: nat, done: map<Id, bool>, x: Id,
                   mid: map<Id, seq<Id>>, dmid: map<Id, bool>, subs': map<Id, seq<Id>>, done': map<Id, bool>)
    requires Fits(subs, par, b, done) && x in subs
    requires x in par ==> x in subs[par[x]] && mid == subs[par[x] := RemoveFirst(subs[par[x]], x)]
    requires x !in par ==> mid == subs
    requires Fits(mid, par, b, dmid) && dmid.Keys == done.Keys && Detached(mid, x)
    requires forall y :: y in dmid && y !in Ancestors(par, x, b) ==> dmid[y] == done[y]
    requires Progress(mid, par, b, dmid, x, subs', done')
    ensures Removed(subs, par, b, done, x, subs', done', subs'[x])
  {
    RemovedShrunk(subs, par, b, done, x, mid, dmid, subs', done');
    RemovedLists(subs, par, b, x, mid, subs');
    RemovedFlags(subs, par, b, done, x, mid, dmid, subs', done');
  }

  /**
   * `remove` as written: `detach`, then `subtask.remove()` for each subtask
   * while iterating over the very list those calls shrink, so every second
   * subtask is skipped and stays in the list.
   */
  method RemoveAsWritten(subs: map<Id, seq<Id>>, par: map<Id, Id>, ghost b: nat, done: map<Id, bool>, x: Id)
    returns (r: Result<(), TaskError>, subs': map<Id, seq<Id>>, done': map<Id, bool>)
    requires Fits(subs, par, b, done) && x in subs
    ensures r.Err? <==> x in par && x !in subs[par[x]]
    ensures r.Err? ==> r.error == ValueError && subs' == subs && done' == done
    ensures r.Ok? ==> Removed(subs, par, b, done, x, subs', done', Odds(subs[x]))
    decreases Room(par, x, b), 1
  {
    r, subs', done' := Unlink(subs, par, b, done, x);
    if r.Ok? {
      ghost var mid, dmid := subs', done';
      subs', done' := SkipRemoveSubtasks(subs', par, b, done', x);
      RemoveWrap(subs, par, b, done, x, mid, dmid, subs', done');
    }
  }

  /** The loop `for subtask in self.subtasks: subtask.remove()` of `remove`, as written. */
  method SkipRemoveSubtasks(subs: map<Id, seq<Id>>, par: map<Id, Id>, ghost b: nat, done: map<Id, bool>, x: Id)
    returns (subs': map<Id, seq<Id>>, done': map<Id, bool>)
    requires Fits(subs, par, b, done) && x in subs
    requires forall a :: a in Ancestors(par, x, b) ==> Settled(subs, done, a)
    ensures Progress(subs, par, b, done, x, subs', done') && subs'[x] == Odds(subs[x])
    decreases Room(par, x, b), 0
  {
    var cs := subs[x];
    subs', done' := subs, done;
    var i := 0;
    while i < |subs'[x]|
      invariant Progress(subs, par, b, done, x, subs', done')
      invariant 2 * i <= |cs| + 1 && subs'[x] == AfterPasses(cs, i)
      decreases |cs| - i
    {
      PassStep(cs, i);
      var c := subs'[x][i];
      ChildLevel(subs, par, b, x, c);
      IndexOfNoDup(subs'[x], i);
      ghost var before, dbefore := subs', done';
      var rc;
      rc, subs', done' := RemoveAsWritten(subs', par, b, done', c);
      RemovePass(subs, par, b, done, x, before, dbefore, c, subs', done', Odds(before[c]));
      i := i + 1;
    }
    PassesEnd(cs, i);
  }

  /**
   * `remove` as evidently intended: `detach`, then `subtask.remove()` for
   * each subtask of a copy of the list, so every subtask is removed.
   */
  method RemoveTask(subs: map<Id, seq<Id>>, par: map<Id, Id>, ghost b: nat, done: map<Id, bool>, x: Id)
    returns (r: Result<(), TaskError>, subs': map<Id, seq<Id>>, done': map<Id, bool>)
    requires Fits(subs, par, b, done) && x in subs
    ensures r.Err? <==> x in par && x !in subs[par[x]]
    ensures r.Err? ==> r.error == ValueError && subs' == subs && done' == done
    ensures r.Ok? ==> Removed(subs, par, b, done, x, subs', done', [])
    decreases Room(par, x, b), 1
  {
    r, subs', done' := Unlink(subs, par, b, done, x);
    if r.Ok? {
      ghost var mid, dmid := subs', done';
      subs', done' := RemoveSubtasks(subs', par, b, done', x);
      RemoveWrap(subs, par, b, done, x, mid, dmid, subs', done');
    }
  }

  /** The loop `for subtask in list(self.subtasks): subtask.remove()`. */
  method RemoveSubtasks(subs: map<Id, seq<Id>>, par: map<Id, Id>, ghost b: nat, done: map<Id, bool>, x: Id)
    returns (subs': map<Id, seq<Id>>, done': map<Id, bool>)
    requires Fits(subs, par, b, done) && x in subs
    requires forall a :: a in Ancestors(par, x, b) ==> Settled(subs, done, a)
    ensures Progress(subs, par, b, done, x, subs', done') && subs'[x] == []
    decreases Room(par, x, b), 0
  {
    var cs := subs[x];
    subs', done' := subs, done;
    for i := 0 to |cs|
      invariant Progress(subs, par, b, done, x, subs', done') && subs'[x] == cs[i..]
    {
      var c := cs[i];
      ChildLevel(subs, par, b, x, c);
      IndexOfNoDup(subs'[x], 0);
      ghost var before, dbefore := subs', done';
      var rc;
      rc, subs', done' := RemoveTask(subs', par, b, done', c);
      RemovePass(subs, par, b, done, x, before, dbefore, c, subs', done', []);
    }
  }

  /** Attaching `s` to `t` through the list `l` keeps the tree well formed and the tasks above `t`. */
  lemma Grafted(subs: map<Id, seq<Id>>, par: map<Id, Id>, b: nat, done: map<Id, bool>, t: Id, s: Id, l: seq<Id>)
    requires Fits(subs, par, b, done) && t in subs && s in subs
    requires Detached(subs, s) && s != t && s !in Ancestors(par, t, b)
    requires NoDup(l) && forall c :: c in l <==> c in subs[t] || c == s
    ensures Fits(subs[t := l], par[s := t], 2 * b + 1, done)
    ensures Ancestors(par[s := t], t, 2 * b + 1) == Ancestors(par, t, b)
  {
    GraftShaped(subs, par, b, t, s, l);
  }

  /** `add(s)` on the values: `s` appended to the list of `t` keeps the tree well formed and the tasks above `t`. */
  lemma AddGrafted(subs: map<Id, seq<Id>>, par: map<Id, Id>, b: nat, done: map<Id, bool>, t: Id, s: Id)
    requires Fits(subs, par, b, done) && t in subs && s in subs
    requires Detached(subs, s) && s != t && s !in Ancestors(par, t, b)
    ensures Fits(subs[t := subs[t] + [s]], par[s := t], 2 * b + 1, done)
    ensures Ancestors(par[s := t], t, 2 * b + 1) == Ancestors(par, t, b)
  {
    var l := subs[t] + [s];
    assert NoDup(l);
    Grafted(subs, par, b, done, t, s, l);
  }

  /** `insert(index, s)` on the values: `s` inserted in the list of `t` keeps the tree well formed and the tasks above `t`. */
  lemma InsertGrafted(subs: map<Id, seq<Id>>, par: map<Id, Id>, b: nat, done: map<Id, bool>, t: Id, index: int, s: Id)
    requires Fits(subs, par, b, done) && t in subs && s in subs
    requires Detached(subs, s) && s != t && s !in Ancestors(par, t, b)
    ensures Fits(subs[t := InsertAt(subs[t], index, s)], par[s := t], 2 * b + 1, done)
    ensures Ancestors(par[s := t], t, 2 * b + 1) == Ancestors(par, t, b)
  {
    InsertAtNoDup(subs[t], index, s);
    Grafted(subs, par, b, done, t, s, InsertAt(subs[t], index, s));
  }

  class Outline {
    var subtasks: map<Id, seq<Id>>
    var parent: map<Id, Id>
    var done: map<Id, bool>
    var enddate: map<Id, Option<int>>
    /** Fuel within which every parent chain ends. */
    ghost var bound: nat

    ghost predicate Valid()
      reads this
    {
      subtasks.Keys == done.Keys && done.Keys == enddate.Keys && Shaped(subtasks, parent, bound)
    }

    /** The tasks above `x`. */
    ghost function Above(x: Id): seq<Id>
      reads this
    {
      Ancestors(parent, x, bound)
    }

    /** `x` and everything below it. */
    ghost function Below(x: Id): set<Id>
      reads this
    {
      Descendants(subtasks, parent, bound, x)
    }

    /** No task yet. */
    constructor ()
      ensures Valid()
      ensures subtasks == map[] && parent == map[] && done == map[] && enddate == map[]
    {
      subtasks, parent, done, enddate := map[], map[], map[], map[];
      bound := 0;
    }

    /** `Task(name)`: a task that is not done, without parent, subtasks or end date. */
    method NewTask(id: Id)
      requires Valid() && id !in subtasks
      modifies this
      ensures Valid()
      ensures subtasks == old(subtasks)[id := []] && done == old(done)[id := false]
      ensures enddate == old(enddate)[id := None] && parent == old(parent) && bound == old(bound)
    {
      NewTaskShaped(subtasks, parent, bound, id);
      subtasks := subtasks[id := []];
      done := done[id := false];
      enddate := enddate[id := None];
    }

    /** The assignment `task.enddate = end` the application makes; nothing else changes. */
    method SetEndDate(x: Id, end: Option<int>)
      requires Valid() && x in subtasks
      modifies this
      ensures Valid()
      ensures enddate == old(enddate)[x := end]
      ensures subtasks == old(subtasks) && parent == old(parent) && done == old(done) && bound == old(bound)
    {
      enddate := enddate[x := end];
    }

    /** `_set_parent_done(d)`. */
    method SetParentDone(x: Id, d: bool)
      requires Valid() && x in subtasks
      modifies this
      ensures Valid()
      ensures subtasks == old(subtasks) && parent == old(parent) && enddate == old(enddate) && bound == old(bound)
      ensures done.Keys == old(done).Keys && done[x] == d
      ensures forall a :: a in Above(x) ==> Settled(subtasks, done, a)
      ensures forall y :: y in done && y != x && y !in Above(x) ==> done[y] == old(done[y])
    {
      done := ParentDone(subtasks, parent, bound, done, x, d);
    }

    /** `_set_sub_done(d)`. */
    method SetSubDone(x: Id, d: bool)
      requires Valid() && x in subtasks
      modifies this
      ensures Valid()
      ensures subtasks == old(subtasks) && parent == old(parent) && enddate == old(enddate) && bound == old(bound)
      ensures done.Keys == old(done).Keys
      ensures forall y :: y in done ==> done[y] == if y in Below(x) then d else old(done[y])
    {
      done := SubDone(subtasks, parent, bound, done, x, d);
    }

    /** `set_done(d)`. */
    method SetDone(x: Id, d: bool)
      requires Valid() && x in subtasks
      modifies this
      ensures Valid()
      ensures subtasks == old(subtasks) && parent == old(parent) && enddate == old(enddate) && bound == old(bound)
      ensures done.Keys == old(done).Keys
      ensures forall y :: y in Below(x) ==> y in done && done[y] == d
      ensures forall a :: a in Above(x) ==> Settled(subtasks, done, a)
      ensures forall y :: y in done && y !in Below(x) && y !in Above(x) ==> done[y] == old(done[y])
    {
      done := MarkDone(subtasks, parent, bound, done, x, d);
    }

    /** Replaces the tree's lists, parent pointers and fuel, leaving the flags and end dates. */
    method Relink(subs: map<Id, seq<Id>>, par: map<Id, Id>, ghost b: nat)
      modifies this
      ensures subtasks == subs && parent == par && bound == b
      ensures done == old(done) && enddate == old(enddate)
    {
      subtasks, parent, bound := subs, par, b;
    }

    /** `add(s)`: `s` goes at the end of the subtasks of `t` and gets `t` as parent. */
    method Add(t: Id, s: Id)
      requires Valid() && t in subtasks && s in subtasks
      requires Detached(subtasks, s) && s != t && s !in Above(t)
      modifies this
      ensures Valid()
      ensures subtasks == old(subtasks)[t := old(subtasks[t]) + [s]] && parent == old(parent)[s := t]
      ensures done == old(done) && enddate == old(enddate)
      ensures Above(t) == old(Above(t))
    {
      AddGrafted(subtasks, parent, bound, done, t, s);
      Relink(subtasks[t := subtasks[t] + [s]], parent[s := t], 2 * bound + 1);
    }

    /** `insert(index, s)`: `s` goes where `list.insert(index, s)` puts it among the subtasks of `t`, and gets `t` as parent. */
    method Insert(t: Id, index: int, s: Id)
      requires Valid() && t in subtasks && s in subtasks
      requires Detached(subtasks, s) && s != t && s !in Above(t)
      modifies this
      ensures Valid()
      ensures subtasks == old(subtasks)[t := InsertAt(old(subtasks[t]), index, s)] && parent == old(parent)[s := t]
      ensures done == old(done) && enddate == old(enddate)
      ensures Above(t) == old(Above(t))
    {
      InsertGrafted(subtasks, parent, bound, done, t, index, s);
      Relink(subtasks[t := InsertAt(subtasks[t], index, s)], parent[s := t], 2 * bound + 1);
    }

    /**
     * `attach(s)` without an index: `add(s)`, then `t` and every task above
     * it is done exactly when all its subtasks are; no other flag changes.
     */
    method Attach(t: Id, s: Id)
      requires Valid() && t in subtasks && s in subtasks
      requires Detached(subtasks, s) && s != t && s !in Above(t)
      modifies this
      ensures Valid()
      ensures subtasks == old(subtasks)[t := old(subtasks[t]) + [s]] && parent == old(parent)[s := t]
      ensures enddate == old(enddate) && done.Keys == old(done).Keys
      ensures Settled(subtasks, done, t) && forall a :: a in Above(t) ==> Settled(subtasks, done, a)
      ensures forall y :: y in done && y != t && y !in Above(t) ==> done[y] == old(done[y])
    {
      Add(t, s);
      done := Recompute(subtasks, parent, bound, done, t);
    }

    /** `attach(s, index)` as written: it names an undefined `i`, so it raises NameError before changing anything. */
    method AttachAtAsWritten(t: Id, s: Id, index: int) returns (r: Result<(), TaskError>)
      requires Valid() && t in subtasks && s in subtasks
      ensures r == Err(NameError)
    {
      r := Err(NameError);
    }

    /**
     * `attach(s, index)` as evidently intended: `insert(index, s)`, then `t`
     * and every task above it is done exactly when all its subtasks are.
     */
    method AttachAt(t: Id, s: Id, index: int)
      requires Valid() && t in subtasks && s in subtasks
      requires Detached(subtasks, s) && s != t && s !in Above(t)
      modifies this
      ensures Valid()
      ensures subtasks == old(subtasks)[t := InsertAt(old(subtasks[t]), index, s)] && parent == old(parent)[s := t]
      ensures enddate == old(enddate) && done.Keys == old(done).Keys
      ensures Settled(subtasks, done, t) && forall a :: a in Above(t) ==> Settled(subtasks, done, a)
      ensures forall y :: y in done && y != t && y !in Above(t) ==> done[y] == old(done[y])
    {
      Insert(t, index, s);
      done := Recompute(subtasks, parent, bound, done, t);
    }

    /** `detach()`. */
    method Detach(x: Id) returns (r: Result<(), TaskError>)
      requires Valid() && x in subtasks
      modifies this
      ensures Valid()
      ensures parent == old(parent) && enddate == old(enddate) && bound == old(bound) && done.Keys == old(done).Keys
      ensures r.Err? <==> x in parent && x !in old(subtasks[parent[x]])
      ensures r.Err? ==> r.error == ValueError && subtasks == old(subtasks) && done == old(done)
      ensures x !in parent ==> subtasks == old(subtasks) && done == old(done)
      ensures x in parent && r.Ok? ==> subtasks == old(subtasks)[parent[x] := RemoveFirst(old(subtasks[parent[x]]), x)]
      ensures r.Ok? ==> Detached(subtasks, x) && forall a :: a in Above(x) ==> Settled(subtasks, done, a)
      ensures forall y :: y in done && y !in Above(x) ==> done[y] == old(done[y])
      ensures x in parent && old(subtasks[parent[x]]) == [x] ==> done[parent[x]]
    {
      r, subtasks, done := Unlink(subtasks, parent, bound, done, x);
    }

    /** `remove()` as written; see `RemoveAsWritten`. */
    method RemoveSkipping(x: Id) returns (r: Result<(), TaskError>)
      requires Valid() && x in subtasks
      modifies this
      ensures Valid()
      ensures parent == old(parent) && enddate == old(enddate) && bound == old(bound)
      ensures r.Err? <==> x in parent && x !in old(subtasks[parent[x]])
      ensures r.Err? ==> subtasks == old(subtasks) && done == old(done)
      ensures r.Ok? ==> subtasks[x] == Odds(old(subtasks[x])) && Detached(subtasks, x)
      ensures r.Ok? && x in parent ==> subtasks[parent[x]] == RemoveFirst(old(subtasks[parent[x]]), x)
      ensures r.Ok? ==> forall y :: y in subtasks && y !in old(Below(x)) && !(x in parent && y == parent[x]) ==> subtasks[y] == old(subtasks[y])
      ensures r.Ok? ==> forall a :: a in Above(x) ==> Settled(subtasks, done, a)
      ensures forall y :: y in done && y !in old(Below(x)) && y !in Above(x) ==> done[y] == old(done[y])
    {
      r, subtasks, done := RemoveAsWritten(subtasks, parent, bound, done, x);
    }

    /** `remove()` as evidently intended; see `RemoveTask`. */
    method Remove(x: Id) returns (r: Result<(), TaskError>)
      requires Valid() && x in subtasks
      modifies this
      ensures Valid()
      ensures parent == old(parent) && enddate == old(enddate) && bound == old(bound)
      ensures r.Err? <==> x in parent && x !in old(subtasks[parent[x]])
      ensures r.Err? ==> subtasks == old(subtasks) && done == old(done)
      ensures r.Ok? ==> subtasks[x] == [] && Detached(subtasks, x)
      ensures r.Ok? && x in parent ==> subtasks[parent[x]] == RemoveFirst(old(subtasks[parent[x]]), x)
      ensures r.Ok? ==> forall y :: y in subtasks && y !in old(Below(x)) && !(x in parent && y == parent[x]) ==> subtasks[y] == old(subtasks[y])
      ensures r.Ok? ==> forall a :: a in Above(x) ==> Settled(subtasks, done, a)
      ensures forall y :: y in done && y !in old(Below(x)) && y !in Above(x) ==> done[y] == old(done[y])
    {
      r, subtasks, done := RemoveTask(subtasks, parent, bound, done, x);
    }
  }
}
