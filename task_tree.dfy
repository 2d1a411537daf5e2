/**
 * The shape of the outliner's task tree (ppygui/demo/app/outliner/task.py):
 * every task has a list of subtasks and, perhaps, a parent pointer.  The
 * parent pointer of a detached task is left in place, so the tree proper is
 * the subtask lists; the parent pointers only have to agree with them where
 * a task is listed.  Parent chains are followed with a fuel bound, which the
 * tree keeps large enough for every chain to end.
 */
module TaskTree {
  import opened Wrappers

  /** A task's identity: the Python object. */
  type Id = nat

  // ---------------------------------------------------------------- parent chains

  /** The number of parent links from `x` up to a task without parent, when there are at most `fuel` of them. */
  function Depth(par: map<Id, Id>, x: Id, fuel: nat): (r: Option<nat>)
    ensures r.Some? ==> r.value <= fuel
    ensures x !in par ==> r == Some(0)
    decreases fuel
  {
    if x !in par then Some(0)
    else if fuel == 0 then None
    else match Depth(par, par[x], fuel - 1)
      case None => None
      case Some(k) => Some(k + 1)
  }

  /** Fuel beyond the length of the chain changes nothing. */
  lemma {:induction false} DepthFuel(par: map<Id, Id>, x: Id, f: nat, g: nat)
    requires Depth(par, x, f).Some? && Depth(par, x, f).value <= g
    ensures Depth(par, x, g) == Depth(par, x, f)
    decreases f
  {
    if x in par {
      DepthFuel(par, par[x], f - 1, g - 1);
    }
  }

  /** The depth of `x` within fuel `b`, 0 where the chain does not end. */
  function Level(par: map<Id, Id>, x: Id, b: nat): (r: nat)
    ensures r <= b
  {
    match Depth(par, x, b)
    case Some(k) => k
    case None => 0
  }

  /** The first `n` tasks above `x`, nearest first. */
  function Chain(par: map<Id, Id>, x: Id, n: nat): (r: seq<Id>)
    ensures |r| <= n
    decreases n
  {
    if n == 0 || x !in par then [] else [par[x]] + Chain(par, par[x], n - 1)
  }

  /** Every task above `x`: its parent, its parent's parent, and so on. */
  function Ancestors(par: map<Id, Id>, x: Id, b: nat): seq<Id>
  {
    Chain(par, x, Level(par, x, b))
  }

  /** The tasks above `x` are its parent and the tasks above that. */
  lemma AncestorsStep(par: map<Id, Id>, x: Id, b: nat)
    requires Depth(par, x, b).Some? && x in par
    ensures Depth(par, par[x], b).Some? && Level(par, par[x], b) + 1 == Level(par, x, b)
    ensures Ancestors(par, x, b) == [par[x]] + Ancestors(par, par[x], b)
  {
    DepthFuel(par, par[x], b - 1, b);
  }

  /** A task without parent has nothing above it. */
  lemma RootAncestors(par: map<Id, Id>, x: Id, b: nat)
    requires x !in par
    ensures Ancestors(par, x, b) == []
  {
  }

  /** Every task above `x` lies strictly closer to the top, so none of them is `x`. */
  lemma {:induction false} AncestorsAbove(par: map<Id, Id>, x: Id, b: nat)
    requires Depth(par, x, b).Some?
    ensures forall a :: a in Ancestors(par, x, b) ==> Depth(par, a, b).Some? && Level(par, a, b) < Level(par, x, b)
    decreases Level(par, x, b)
  {
    if x in par {
      AncestorsStep(par, x, b);
      AncestorsAbove(par, par[x], b);
    }
  }

  // ---------------------------------------------------------------- the tree

  /** No task occurs twice in a list. */
  predicate NoDup(xs: seq<Id>)
  {
    forall i, j :: 0 <= i < j < |xs| ==> xs[i] != xs[j]
  }

  /** `x` is in no task's subtask list. */
  predicate Detached(subs: map<Id, seq<Id>>, x: Id)
  {
    forall p :: p in subs ==> x !in subs[p]
  }

  /**
   * The tree's shape: parent pointers lead to tasks; a listed subtask's
   * parent is the task listing it; no list repeats a task; and every parent
   * chain ends within `b` links, so there is no cycle.
   */
  ghost predicate Shaped(subs: map<Id, seq<Id>>, par: map<Id, Id>, b: nat)
  {
    ParentsKnown(subs, par) && Linked(subs, par) && ListsNoDup(subs) && Rooted(subs, par, b)
  }

  /** Parent pointers lead from tasks to tasks. */
  predicate ParentsKnown(subs: map<Id, seq<Id>>, par: map<Id, Id>)
  {
    forall x :: x in par ==> x in subs && par[x] in subs
  }

  /** A listed subtask is a task whose parent is the task listing it. */
  predicate Linked(subs: map<Id, seq<Id>>, par: map<Id, Id>)
  {
    forall p, c :: p in subs && c in subs[p] ==> c in subs && c in par && par[c] == p
  }

  /** No subtask list repeats a task. */
  predicate ListsNoDup(subs: map<Id, seq<Id>>)
  {
    forall p :: p in subs ==> NoDup(subs[p])
  }

  /** Every task's parent chain ends within `b` links. */
  predicate Rooted(subs: map<Id, seq<Id>>, par: map<Id, Id>, b: nat)
  {
    forall x {:trigger Depth(par, x, b)} :: x in subs ==> Depth(par, x, b).Some?
  }

  /** A subtask sits one level below the task that lists it, and has that task above it. */
  lemma ChildLevel(subs: map<Id, seq<Id>>, par: map<Id, Id>, b: nat, p: Id, c: Id)
    requires Shaped(subs, par, b) && p in subs && c in subs[p]
    ensures Level(par, c, b) == Level(par, p, b) + 1
    ensures Ancestors(par, c, b) == [p] + Ancestors(par, p, b)
  {
    AncestorsStep(par, c, b);
  }

  /** No subtask of `p` is `p` or above it. */
  lemma ChildOffChain(subs: map<Id, seq<Id>>, par: map<Id, Id>, b: nat, p: Id)
    requires Shaped(subs, par, b) && p in subs
    ensures forall c :: c in subs[p] ==> c != p && c !in Ancestors(par, p, b)
  {
    AncestorsAbove(par, p, b);
    forall c | c in subs[p]
      ensures c != p && c !in Ancestors(par, p, b)
    {
      ChildLevel(subs, par, b, p, c);
    }
  }

  // ---------------------------------------------------------------- subtrees

  /** `x` and every task reached from it through subtask lists, at most `fuel` levels down. */
  function Subtree(subs: map<Id, seq<Id>>, x: Id, fuel: nat): set<Id>
    decreases fuel, 1
  {
    if fuel == 0 || x !in subs then {x} else {x} + Forest(subs, subs[x], fuel - 1)
  }

  /** The subtrees of the tasks of `cs`. */
  function Forest(subs: map<Id, seq<Id>>, cs: seq<Id>, fuel: nat): set<Id>
    decreases fuel, 2, |cs|
  {
    if cs == [] then {} else Forest(subs, cs[..|cs| - 1], fuel) + Subtree(subs, cs[|cs| - 1], fuel)
  }

  /** The fuel that reaches every level below `x`. */
  function Room(par: map<Id, Id>, x: Id, b: nat): (r: nat)
    ensures r >= 1
  {
    b + 1 - Level(par, x, b)
  }

  /** `x` and all its descendants. */
  ghost function Descendants(subs: map<Id, seq<Id>>, par: map<Id, Id>, b: nat, x: Id): set<Id>
  {
    Subtree(subs, x, Room(par, x, b))
  }

  /** The descendants of `x` are `x` and the descendants of its subtasks, one level down. */
  lemma DescendantsStep(subs: map<Id, seq<Id>>, par: map<Id, Id>, b: nat, x: Id)
    requires Shaped(subs, par, b) && x in subs
    ensures Descendants(subs, par, b, x) == {x} + Forest(subs, subs[x], Room(par, x, b) - 1)
    ensures forall c :: c in subs[x] ==> Room(par, c, b) == Room(par, x, b) - 1
  {
    forall c | c in subs[x]
      ensures Room(par, c, b) == Room(par, x, b) - 1
    {
      ChildLevel(subs, par, b, x, c);
    }
  }

  /** Every task of a subtree is a task, and all but its root lie deeper than the root. */
  lemma {:induction false} SubtreeBelow(subs: map<Id, seq<Id>>, par: map<Id, Id>, b: nat, x: Id, f: nat, y: Id)
    requires Shaped(subs, par, b) && x in subs && y in Subtree(subs, x, f)
    ensures y in subs && (y == x || Level(par, y, b) > Level(par, x, b))
    decreases f, 1
  {
    if y != x {
      ForestBelow(subs, par, b, x, subs[x], f - 1, y);
    }
  }

  /** Every task of the subtrees of subtasks of `p` is a task deeper than `p`. */
  lemma {:induction false} ForestBelow(subs: map<Id, seq<Id>>, par: map<Id, Id>, b: nat, p: Id, cs: seq<Id>, f: nat, y: Id)
    requires Shaped(subs, par, b) && p in subs && (forall c :: c in cs ==> c in subs[p])
    requires y in Forest(subs, cs, f)
    ensures y in subs && Level(par, y, b) > Level(par, p, b)
    decreases f, 2, |cs|
  {
    var init := cs[..|cs| - 1];
    var c := cs[|cs| - 1];
    if y in Forest(subs, init, f) {
      assert forall z :: z in init ==> z in cs;
      ForestBelow(subs, par, b, p, init, f, y);
    } else {
      ChildLevel(subs, par, b, p, c);
      SubtreeBelow(subs, par, b, c, f, y);
    }
  }

  /** The descendants of `x` other than itself lie deeper than `x`, hence off its chain. */
  lemma DescendantsBelow(subs: map<Id, seq<Id>>, par: map<Id, Id>, b: nat, x: Id)
    requires Shaped(subs, par, b) && x in subs
    ensures forall y :: y in Descendants(subs, par, b, x) ==> y in subs && (y == x || Level(par, y, b) > Level(par, x, b))
  {
    forall y | y in Descendants(subs, par, b, x)
      ensures y in subs && (y == x || Level(par, y, b) > Level(par, x, b))
    {
      SubtreeBelow(subs, par, b, x, Room(par, x, b), y);
    }
  }

  /** A new task, without parent or subtasks, keeps the shape. */
  lemma NewTaskShaped(subs: map<Id, seq<Id>>, par: map<Id, Id>, b: nat, id: Id)
    requires Shaped(subs, par, b) && id !in subs
    ensures Shaped(subs[id := []], par, b)
  {
    var subs' := subs[id := []];
    assert ParentsKnown(subs', par);
    forall p, c | p in subs' && c in subs'[p]
      ensures c in subs' && c in par && par[c] == p
    {
      assert p != id && c in subs[p];
    }
    assert ListsNoDup(subs');
    assert id !in par;
    assert Rooted(subs', par, b);
  }

  // ---------------------------------------------------------------- grafting

  /** Re-pointing `s` leaves alone the depth of a task whose chain does not pass through `s`. */
  lemma {:induction false} OffChainDepth(par: map<Id, Id>, s: Id, t: Id, y: Id, f: nat)
    requires Depth(par, y, f).Some? && s != y && s !in Chain(par, y, Depth(par, y, f).value)
    ensures Depth(par[s := t], y, f) == Depth(par, y, f)
    decreases f
  {
    if y in par {
      OffChainDepth(par, s, t, par[y], f - 1);
    }
  }

  /** Re-pointing `s` leaves alone the chain above a task whose chain does not pass through `s`. */
  lemma {:induction false} OffChainChain(par: map<Id, Id>, s: Id, t: Id, y: Id, n: nat)
    requires s != y && s !in Chain(par, y, n)
    ensures Chain(par[s := t], y, n) == Chain(par, y, n)
    decreases n
  {
    if n > 0 && y in par {
      OffChainChain(par, s, t, par[y], n - 1);
    }
  }

  /** After `s` is hung below `t`, a chain that ended within `k` links ends within `k` plus the height of `t` plus one. */
  lemma {:induction false} GraftDepth(par: map<Id, Id>, s: Id, t: Id, b: nat, x: Id, f: nat)
    requires Depth(par, t, b).Some? && s != t && s !in Ancestors(par, t, b)
    requires Depth(par, x, f).Some?
    ensures Depth(par[s := t], x, Depth(par, x, f).value + Level(par, t, b) + 1).Some?
    decreases f
  {
    var k := Depth(par, x, f).value;
    var kt := Level(par, t, b);
    if x == s {
      OffChainDepth(par, s, t, t, b);
      DepthFuel(par[s := t], t, b, k + kt);
    } else if x in par {
      GraftDepth(par, s, t, b, par[x], f - 1);
    }
  }

  /** After the graft every chain still ends, within twice the old fuel and one. */
  lemma GraftRooted(subs: map<Id, seq<Id>>, par: map<Id, Id>, b: nat, t: Id, s: Id)
    requires Rooted(subs, par, b) && t in subs && s != t && s !in Ancestors(par, t, b)
    ensures Rooted(subs, par[s := t], 2 * b + 1)
  {
    forall x | x in subs
      ensures Depth(par[s := t], x, 2 * b + 1).Some?
    {
      GraftDepth(par, s, t, b, x, b);
      DepthFuel(par[s := t], x, Depth(par, x, b).value + Level(par, t, b) + 1, 2 * b + 1);
    }
  }

  /** After the graft every listed subtask still points at the task listing it. */
  lemma GraftLinked(subs: map<Id, seq<Id>>, par: map<Id, Id>, t: Id, s: Id, l: seq<Id>)
    requires Linked(subs, par) && t in subs && s in subs && Detached(subs, s)
    requires forall c :: c in l <==> c in subs[t] || c == s
    ensures Linked(subs[t := l], par[s := t])
  {
    var subs', par' := subs[t := l], par[s := t];
    forall p, c | p in subs' && c in subs'[p]
      ensures c in subs' && c in par' && par'[c] == p
    {
      if c != s {
        assert c in subs[p];
      }
    }
  }

  /**
   * Hanging a detached task `s` into the list of a task `t` that is not below
   * it keeps the shape, whatever the new list `l` of `t` is, as long as it
   * holds the old subtasks and `s`, each once.
   */
  lemma GraftShaped(subs: map<Id, seq<Id>>, par: map<Id, Id>, b: nat, t: Id, s: Id, l: seq<Id>)
    requires Shaped(subs, par, b) && t in subs && s in subs
    requires Detached(subs, s) && s != t && s !in Ancestors(par, t, b)
    requires NoDup(l) && forall c :: c in l <==> c in subs[t] || c == s
    ensures Shaped(subs[t := l], par[s := t], 2 * b + 1)
    ensures Ancestors(par[s := t], t, 2 * b + 1) == Ancestors(par, t, b)
  {
    GraftRooted(subs, par, b, t, s);
    GraftLinked(subs, par, t, s, l);
    assert ListsNoDup(subs[t := l]);
    GraftAncestors(par, b, t, s);
  }

  /** The graft leaves alone the tasks above `t`. */
  lemma GraftAncestors(par: map<Id, Id>, b: nat, t: Id, s: Id)
    requires Depth(par, t, b).Some? && s != t && s !in Ancestors(par, t, b)
    ensures Ancestors(par[s := t], t, 2 * b + 1) == Ancestors(par, t, b)
  {
    OffChainDepth(par, s, t, t, b);
    DepthFuel(par[s := t], t, b, 2 * b + 1);
    OffChainChain(par, s, t, t, Level(par, t, b));
  }

  // ---------------------------------------------------------------- lists

  /** The first position of `x` in `xs`. */
  function IndexOf(xs: seq<Id>, x: Id): (i: nat)
    requires x in xs
    ensures i < |xs| && xs[i] == x && x !in xs[..i]
  {
    if xs[0] == x then 0 else 1 + IndexOf(xs[1..], x)
  }

  /** Python's `list.remove(x)`: drop the first occurrence of `x`. */
  function RemoveFirst(xs: seq<Id>, x: Id): (r: seq<Id>)
    requires x in xs
    ensures r == xs[..IndexOf(xs, x)] + xs[IndexOf(xs, x) + 1..]
  {
    if xs[0] == x then xs[1..] else [xs[0]] + RemoveFirst(xs[1..], x)
  }

  /** Element `j` of the list `remove` leaves. */
  lemma RemoveFirstAt(xs: seq<Id>, x: Id, j: nat)
    requires x in xs && j < |xs| - 1
    ensures |RemoveFirst(xs, x)| == |xs| - 1
    ensures RemoveFirst(xs, x)[j] == if j < IndexOf(xs, x) then xs[j] else xs[j + 1]
  {
    var i := IndexOf(xs, x);
    var a, b := xs[..i], xs[i + 1..];
    assert RemoveFirst(xs, x) == a + b;
    if j < i {
      assert (a + b)[j] == a[j];
    } else {
      assert (a + b)[j] == b[j - i];
    }
  }

  /** `remove` keeps every other element of the list. */
  lemma RemoveFirstKeeps(xs: seq<Id>, x: Id, y: Id)
    requires x in xs && y in xs && y != x
    ensures y in RemoveFirst(xs, x)
  {
    var i := IndexOf(xs, x);
    var m := IndexOf(xs, y);
    if m < i {
      RemoveFirstAt(xs, x, m);
      assert RemoveFirst(xs, x)[m] == y;
    } else {
      RemoveFirstAt(xs, x, m - 1);
      assert RemoveFirst(xs, x)[m - 1] == y;
    }
  }

  /** From a list without repetitions, `remove` adds nothing and drops `x`. */
  lemma RemoveFirstDrops(xs: seq<Id>, x: Id, y: Id)
    requires x in xs && NoDup(xs) && y in RemoveFirst(xs, x)
    ensures y in xs && y != x
  {
    var r := RemoveFirst(xs, x);
    var j :| 0 <= j < |r| && r[j] == y;
    RemoveFirstAt(xs, x, j);
  }

  /** `remove` keeps a list free of repetitions. */
  lemma RemoveFirstDistinct(xs: seq<Id>, x: Id)
    requires x in xs && NoDup(xs)
    ensures NoDup(RemoveFirst(xs, x))
  {
    var r := RemoveFirst(xs, x);
    forall j, k | 0 <= j < k < |r|
      ensures r[j] != r[k]
    {
      RemoveFirstAt(xs, x, j);
      RemoveFirstAt(xs, x, k);
    }
  }

  /** From a list without repetitions, `remove` drops exactly `x` and keeps the list free of repetitions. */
  lemma RemoveFirstNoDup(xs: seq<Id>, x: Id)
    requires x in xs && NoDup(xs)
    ensures NoDup(RemoveFirst(xs, x))
    ensures forall y :: y in RemoveFirst(xs, x) <==> y in xs && y != x
  {
    RemoveFirstDistinct(xs, x);
    forall y
      ensures y in RemoveFirst(xs, x) <==> y in xs && y != x
    {
      if y in RemoveFirst(xs, x) {
        RemoveFirstDrops(xs, x, y);
      }
      if y in xs && y != x {
        RemoveFirstKeeps(xs, x, y);
      }
    }
  }

  /** In a list without repetitions, the first position of an element is its only one. */
  lemma IndexOfNoDup(xs: seq<Id>, i: nat)
    requires NoDup(xs) && i < |xs|
    ensures IndexOf(xs, xs[i]) == i
  {
  }

  /** The position Python's `list.insert(index, x)` puts `x` at in a list of length `n`. */
  function InsertPosition(index: int, n: nat): (k: nat)
    ensures k <= n
    ensures 0 <= index <= n ==> k == index
    ensures index > n ==> k == n
    ensures index < 0 ==> k == if n + index < 0 then 0 else n + index
  {
    if index < 0 then (if n + index < 0 then 0 else n + index)
    else if index > n then n
    else index
  }

  /** Python's `list.insert(index, x)`. */
  function InsertAt(xs: seq<Id>, index: int, x: Id): (r: seq<Id>)
    ensures |r| == |xs| + 1 && r[InsertPosition(index, |xs|)] == x
    ensures r[..InsertPosition(index, |xs|)] == xs[..InsertPosition(index, |xs|)]
    ensures r[InsertPosition(index, |xs|) + 1..] == xs[InsertPosition(index, |xs|)..]
  {
    var k := InsertPosition(index, |xs|);
    xs[..k] + [x] + xs[k..]
  }

  /** Element `j` of the list `insert` builds. */
  lemma InsertAtAt(xs: seq<Id>, index: int, x: Id, j: nat)
    requires j <= |xs|
    ensures InsertAt(xs, index, x)[j] ==
              if j < InsertPosition(index, |xs|) then xs[j]
              else if j == InsertPosition(index, |xs|) then x
              else xs[j - 1]
  {
    var k := InsertPosition(index, |xs|);
    var r := InsertAt(xs, index, x);
    if j < k {
      assert r[j] == r[..k][j];
    } else if j > k {
      assert r[j] == r[k + 1..][j - k - 1];
    }
  }

  /** Inserting a task not yet in a list without repetitions gives a list without repetitions holding the old tasks and the new one. */
  lemma InsertAtNoDup(xs: seq<Id>, index: int, x: Id)
    requires NoDup(xs) && x !in xs
    ensures NoDup(InsertAt(xs, index, x))
    ensures forall c :: c in InsertAt(xs, index, x) <==> c in xs || c == x
  {
    var k := InsertPosition(index, |xs|);
    var r := InsertAt(xs, index, x);
    forall c | c in r
      ensures c in xs || c == x
    {
      var j :| 0 <= j < |r| && r[j] == c;
      InsertAtAt(xs, index, x, j);
    }
    forall c | c in xs || c == x
      ensures c in r
    {
      if c == x {
        InsertAtAt(xs, index, x, k);
        assert r[k] == c;
      } else {
        var m :| 0 <= m < |xs| && xs[m] == c;
        if m < k {
          InsertAtAt(xs, index, x, m);
          assert r[m] == c;
        } else {
          InsertAtAt(xs, index, x, m + 1);
          assert r[m + 1] == c;
        }
      }
    }
    forall i, j | 0 <= i < j < |r|
      ensures r[i] != r[j]
    {
      InsertAtAt(xs, index, x, i);
      InsertAtAt(xs, index, x, j);
    }
  }

  // ---------------------------------------------------------------- shrinking lists

  /** Every list of `subs'` keeps only tasks its list in `subs` had. */
  predicate Shrunk(subs': map<Id, seq<Id>>, subs: map<Id, seq<Id>>)
  {
    subs'.Keys == subs.Keys && forall y, c :: y in subs' && c in subs'[y] ==> c in subs[y]
  }

  /** The subtree of a task of `cs` lies within their forest. */
  lemma {:induction false} ForestContains(subs: map<Id, seq<Id>>, cs: seq<Id>, f: nat, c: Id)
    requires c in cs
    ensures Subtree(subs, c, f) <= Forest(subs, cs, f)
    decreases |cs|
  {
    if cs[|cs| - 1] != c {
      assert c in cs[..|cs| - 1];
      ForestContains(subs, cs[..|cs| - 1], f, c);
    }
  }

  /** Shrinking lists shrinks subtrees. */
  lemma {:induction false} SubtreeShrink(subs': map<Id, seq<Id>>, subs: map<Id, seq<Id>>, x: Id, f: nat)
    requires Shrunk(subs', subs)
    ensures Subtree(subs', x, f) <= Subtree(subs, x, f)
    decreases f, 1
  {
    if f > 0 && x in subs {
      ForestShrink(subs', subs, subs'[x], subs[x], f - 1);
    }
  }

  /** Shrinking lists, and taking fewer roots, shrinks forests. */
  lemma {:induction false} ForestShrink(subs': map<Id, seq<Id>>, subs: map<Id, seq<Id>>, cs': seq<Id>, cs: seq<Id>, f: nat)
    requires Shrunk(subs', subs) && forall c :: c in cs' ==> c in cs
    ensures Forest(subs', cs', f) <= Forest(subs, cs, f)
    decreases f, 2, |cs'|
  {
    if cs' != [] {
      var c := cs'[|cs'| - 1];
      assert forall z :: z in cs'[..|cs'| - 1] ==> z in cs';
      ForestShrink(subs', subs, cs'[..|cs'| - 1], cs, f);
      SubtreeShrink(subs', subs, c, f);
      ForestContains(subs, cs, f, c);
    }
  }

  /** Taking a listed subtask out of its parent's list keeps the shape, and leaves it detached. */
  lemma UnlinkShaped(subs: map<Id, seq<Id>>, par: map<Id, Id>, b: nat, p: Id, x: Id)
    requires Shaped(subs, par, b) && p in subs && x in subs[p]
    ensures Shaped(subs[p := RemoveFirst(subs[p], x)], par, b)
    ensures Detached(subs[p := RemoveFirst(subs[p], x)], x)
  {
    RemoveFirstNoDup(subs[p], x);
    UnlinkLinked(subs, par, p, x);
    var subs' := subs[p := RemoveFirst(subs[p], x)];
    assert ListsNoDup(subs');
    assert Rooted(subs', par, b);
  }

  /** Taking `x` out of the list of `p` keeps every other link. */
  lemma UnlinkLinked(subs: map<Id, seq<Id>>, par: map<Id, Id>, p: Id, x: Id)
    requires Linked(subs, par) && ListsNoDup(subs) && p in subs && x in subs[p]
    ensures Linked(subs[p := RemoveFirst(subs[p], x)], par)
    ensures Detached(subs[p := RemoveFirst(subs[p], x)], x)
  {
    var r := RemoveFirst(subs[p], x);
    RemoveFirstNoDup(subs[p], x);
    var subs' := subs[p := r];
    forall q, c | q in subs' && c in subs'[q]
      ensures c in subs' && c in par && par[c] == q
    {
      if q == p {
        assert c in subs[p];
      } else {
        assert subs'[q] == subs[q];
      }
    }
    UnlinkDetached(subs, par, p, x);
  }

  /** `x` was listed by `p` alone, so once out of that list it is in none. */
  lemma UnlinkDetached(subs: map<Id, seq<Id>>, par: map<Id, Id>, p: Id, x: Id)
    requires Linked(subs, par) && ListsNoDup(subs) && p in subs && x in subs[p]
    ensures Detached(subs[p := RemoveFirst(subs[p], x)], x)
  {
    RemoveFirstNoDup(subs[p], x);
    var subs' := subs[p := RemoveFirst(subs[p], x)];
    assert x in par && par[x] == p;
    forall q | q in subs'
      ensures x !in subs'[q]
    {
      if q != p {
        assert subs'[q] == subs[q];
        assert par[x] != q;
      }
    }
  }
}
