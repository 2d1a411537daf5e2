/**
 * The diff engine of the replica synchronisation (libanki/anki/sync.py,
 * `SyncTools.diffSummary`).  Given one entity kind's summary from each side,
 * every id is classified as edited or deleted on the local or the remote side,
 * by last-writer-wins on the modification and deletion times.
 */
module SyncDiff {
  import opened Wrappers

  type Id = int
  /** Timestamps are only ever compared, so whole numbers stand in for the source's floats. */
  type Time = int

  /** A summary row: an id with its modification time, or with its deletion time for a tombstone. */
  type Stamp = (Id, Time)

  /** One side's summary of one entity kind: `(id, modified)` of live entities, `(id, deletedTime)` of tombstones. */
  datatype KindSummary = KindSummary(live: seq<Stamp>, deleted: seq<Stamp>)

  /** The ids a list of rows mentions. */
  function IdsOf<V>(pairs: seq<(Id, V)>): set<Id>
  {
    set i | 0 <= i < |pairs| :: pairs[i].0
  }

  /** Python's `dict(pairs)`: a later pair for the same id overwrites an earlier one. */
  function DictOf<V>(pairs: seq<(Id, V)>): (m: map<Id, V>)
    ensures forall i :: 0 <= i < |pairs| ==> pairs[i].0 in m
    decreases |pairs|
  {
    if pairs == [] then map[]
    else
      var init := pairs[..|pairs| - 1];
      assert pairs == init + [pairs[|pairs| - 1]];
      DictOf(init)[pairs[|pairs| - 1].0 := pairs[|pairs| - 1].1]
  }

  /** `dict(pairs)` has exactly the ids of the list as keys. */
  lemma {:induction false} DictOfKeys<V>(pairs: seq<(Id, V)>)
    ensures DictOf(pairs).Keys == IdsOf(pairs)
    decreases |pairs|
  {
    if pairs != [] {
      var n := |pairs| - 1;
      assert pairs == pairs[..n] + [pairs[n]];
      DictOfKeys(pairs[..n]);
    }
  }

  /** Appending one pair to the list overwrites that one id. */
  lemma DictOfSnoc<V>(pairs: seq<(Id, V)>, p: (Id, V))
    ensures DictOf(pairs + [p]) == DictOf(pairs)[p.0 := p.1]
  {
    assert (pairs + [p])[..|pairs|] == pairs;
  }

  /** Growing a prefix of the list by one element. */
  lemma DictOfPrefix<V>(pairs: seq<(Id, V)>, i: nat)
    requires i < |pairs|
    ensures DictOf(pairs[..i + 1]) == DictOf(pairs[..i])[pairs[i].0 := pairs[i].1]
  {
    assert pairs[..i + 1] == pairs[..i] + [pairs[i]];
    DictOfSnoc(pairs[..i], pairs[i]);
  }

  /** The value `dict(pairs)` keeps for an id is the one of the LAST pair with that id. */
  lemma {:induction false} DictOfLastWins<V>(pairs: seq<(Id, V)>, j: nat)
    requires j < |pairs|
    requires forall k :: j < k < |pairs| ==> pairs[k].0 != pairs[j].0
    ensures pairs[j].0 in DictOf(pairs) && DictOf(pairs)[pairs[j].0] == pairs[j].1
    decreases |pairs|
  {
    var n := |pairs| - 1;
    assert pairs == pairs[..n] + [pairs[n]];
    DictOfSnoc(pairs[..n], pairs[n]);
    if j < n {
      DictOfLastWins(pairs[..n], j);
    }
  }

  /** A summary as the diff engine sees it: the dictionaries of its two lists. */
  datatype View = View(live: map<Id, Time>, dead: map<Id, Time>)

  function ViewOf(s: KindSummary): View
  {
    View(DictOf(s.live), DictOf(s.deleted))
  }

  /** The modification time the engine records for an id on one side: a tombstone hides a live entry. */
  function Slot(v: View, x: Id): Option<Time>
  {
    if x in v.dead then None else if x in v.live then Some(v.live[x]) else None
  }

  /** Python truthiness of a recorded time: `None` and `0` both count as absent. */
  predicate Truthy(m: Option<Time>)
  {
    m.Some? && m.value != 0
  }

  datatype Outcome = LocallyEdited | LocallyDeleted | RemotelyEdited | RemotelyDeleted | InSync

  /** The outcome with the two sides' roles exchanged. */
  function Mirror(o: Outcome): Outcome
  {
    match o
    case LocallyEdited => RemotelyEdited
    case RemotelyEdited => LocallyEdited
    case LocallyDeleted => RemotelyDeleted
    case RemotelyDeleted => LocallyDeleted
    case InSync => InSync
  }

  /**
   * Last-writer-wins classification of one id.  Both sides live: the strictly
   * newer modification wins and a tie is already in sync.  Live on one side
   * only: that side's edit wins unless the other side holds a tombstone at
   * least as new, so a tie goes to the delete.  Live on neither side: a
   * tombstone on exactly one side is propagated.
   */
  function Classify(lv: View, rv: View, x: Id): (r: Outcome)
    ensures r == LocallyEdited ==> Truthy(Slot(lv, x))
    ensures r == RemotelyEdited ==> Truthy(Slot(rv, x))
    ensures r == LocallyDeleted ==> x in lv.dead && !Truthy(Slot(lv, x))
    ensures r == RemotelyDeleted ==> x in rv.dead && !Truthy(Slot(rv, x))
    ensures Truthy(Slot(lv, x)) && Truthy(Slot(rv, x)) ==> (r == InSync <==> Slot(lv, x) == Slot(rv, x))
  {
    var lm := Slot(lv, x);
    var rm := Slot(rv, x);
    if Truthy(lm) && Truthy(rm) then
      if lm.value < rm.value then RemotelyEdited
      else if lm.value > rm.value then LocallyEdited
      else InSync
    else if Truthy(lm) then
      if x !in rv.dead || rv.dead[x] < lm.value then LocallyEdited else RemotelyDeleted
    else if Truthy(rm) then
      if x !in lv.dead || lv.dead[x] < rm.value then RemotelyEdited else LocallyDeleted
    else if x in lv.dead && x !in rv.dead then LocallyDeleted
    else if x in rv.dead && x !in lv.dead then RemotelyDeleted
    else InSync
  }

  /** Every id that one of the four lists mentions. */
  function Mentioned(lv: View, rv: View): set<Id>
  {
    lv.live.Keys + lv.dead.Keys + rv.live.Keys + rv.dead.Keys
  }

  /** The ids that receive a given outcome. */
  function OutcomeIds(lv: View, rv: View, o: Outcome): set<Id>
  {
    set x | x in Mentioned(lv, rv) && Classify(lv, rv, x) == o
  }

  /** An id that none of the four lists mentions needs no action. */
  lemma UnmentionedInSync(lv: View, rv: View, x: Id)
    requires x !in Mentioned(lv, rv)
    ensures Classify(lv, rv, x) == InSync
  {
  }

  /** Exchanging the two sides exchanges the outcomes: the rule favours neither side. */
  lemma ClassifyMirror(lv: View, rv: View, x: Id)
    ensures Classify(rv, lv, x) == Mirror(Classify(lv, rv, x))
  {
  }

  /** A side's own tombstone never makes that side push an edit or receive a delete. */
  lemma LocalTombstoneNeverPushes(lv: View, rv: View, x: Id)
    requires x in lv.dead
    ensures Classify(lv, rv, x) in {LocallyDeleted, RemotelyEdited, InSync}
  {
  }

  predicate Distinct(s: seq<Id>)
  {
    forall i, j :: 0 <= i < j < |s| ==> s[i] != s[j]
  }

  /** The four result lists of `diffSummary`. */
  datatype Diff = Diff(locallyEdited: seq<Id>, locallyDeleted: seq<Id>,
                       remotelyEdited: seq<Id>, remotelyDeleted: seq<Id>)

  /** The pair the table `ids` of `diffSummary` holds for an id. */
  type Slots = (Option<Time>, Option<Time>)

  /** `ids` after the remote live rows: `[None, mod]` for each of them. */
  method AddRemoteLive(rows: seq<Stamp>) returns (ids: map<Id, Slots>)
    ensures ids.Keys == DictOf(rows).Keys
    ensures forall x :: x in ids ==> ids[x] == (None, Some(DictOf(rows)[x]))
  {
    ids := map[];
    for i := 0 to |rows|
      invariant ids.Keys == DictOf(rows[..i]).Keys
      invariant forall x :: x in ids ==> ids[x] == (None, Some(DictOf(rows[..i])[x]))
    {
      DictOfPrefix(rows, i);
      ids := ids[rows[i].0 := (None, Some(rows[i].1))];
    }
    assert rows[..|rows|] == rows;
  }

  /** `ids` after the remote tombstones: `[None, None]` for each of them. */
  method AddRemoteDeleted(ids0: map<Id, Slots>, rows: seq<Stamp>) returns (ids: map<Id, Slots>)
    ensures ids.Keys == ids0.Keys + DictOf(rows).Keys
    ensures forall x :: x in ids ==> ids[x] == if x in DictOf(rows) then (None, None) else ids0[x]
  {
    ids := ids0;
    for i := 0 to |rows|
      invariant ids.Keys == ids0.Keys + DictOf(rows[..i]).Keys
      invariant forall x :: x in ids ==> ids[x] == if x in DictOf(rows[..i]) then (None, None) else ids0[x]
    {
      DictOfPrefix(rows, i);
      ids := ids[rows[i].0 := (None, None)];
    }
    assert rows[..|rows|] == rows;
  }

  /** `ids` after the local live rows: the local slot of each becomes its time. */
  method AddLocalLive(ids0: map<Id, Slots>, rows: seq<Stamp>) returns (ids: map<Id, Slots>)
    requires forall x :: x in ids0 ==> ids0[x].0 == None
    ensures ids.Keys == ids0.Keys + DictOf(rows).Keys
    ensures forall x :: x in ids ==>
              ids[x] == (if x in DictOf(rows) then Some(DictOf(rows)[x]) else None,
                         if x in ids0 then ids0[x].1 else None)
  {
    ids := ids0;
    for i := 0 to |rows|
      invariant ids.Keys == ids0.Keys + DictOf(rows[..i]).Keys
      invariant forall x :: x in ids ==>
                  ids[x] == (if x in DictOf(rows[..i]) then Some(DictOf(rows[..i])[x]) else None,
                             if x in ids0 then ids0[x].1 else None)
    {
      DictOfPrefix(rows, i);
      var (id, mod) := rows[i];
      if id in ids {
        ids := ids[id := (Some(mod), ids[id].1)];
      } else {
        ids := ids[id := (Some(mod), None)];
      }
    }
    assert rows[..|rows|] == rows;
  }

  /** `ids` after the local tombstones: the local slot of each becomes `None`. */
  method AddLocalDeleted(ids0: map<Id, Slots>, rows: seq<Stamp>) returns (ids: map<Id, Slots>)
    ensures ids.Keys == ids0.Keys + DictOf(rows).Keys
    ensures forall x :: x in ids ==>
              ids[x] == if x in DictOf(rows) then (None, if x in ids0 then ids0[x].1 else None) else ids0[x]
  {
    ids := ids0;
    for i := 0 to |rows|
      invariant ids.Keys == ids0.Keys + DictOf(rows[..i]).Keys
      invariant forall x :: x in ids ==>
                  ids[x] == if x in DictOf(rows[..i]) then (None, if x in ids0 then ids0[x].1 else None) else ids0[x]
    {
      DictOfPrefix(rows, i);
      var id := rows[i].0;
      if id in ids {
        ids := ids[id := (None, ids[id].1)];
      } else {
        ids := ids[id := (None, None)];
      }
    }
    assert rows[..|rows|] == rows;
  }

  /** The four filling passes together leave every mentioned id with its (local, remote) slot. */
  lemma FilledTable(lv: View, rv: View, a: map<Id, Slots>, b: map<Id, Slots>, c: map<Id, Slots>, ids: map<Id, Slots>)
    requires a.Keys == rv.live.Keys
    requires forall x :: x in a ==> a[x] == (None, Some(rv.live[x]))
    requires b.Keys == a.Keys + rv.dead.Keys
    requires forall x :: x in b ==> b[x] == if x in rv.dead then (None, None) else a[x]
    requires c.Keys == b.Keys + lv.live.Keys
    requires forall x :: x in c ==>
               c[x] == (if x in lv.live then Some(lv.live[x]) else None, if x in b then b[x].1 else None)
    requires ids.Keys == c.Keys + lv.dead.Keys
    requires forall x :: x in ids ==>
               ids[x] == if x in lv.dead then (None, if x in c then c[x].1 else None) else c[x]
    ensures ids.Keys == Mentioned(lv, rv)
    ensures forall x :: x in ids ==> ids[x] == (Slot(lv, x), Slot(rv, x))
  {
    forall x | x in ids
      ensures ids[x] == (Slot(lv, x), Slot(rv, x))
    {
      var r := if x in b then b[x].1 else None;
      assert r == Slot(rv, x);
      if x !in lv.dead {
        if x in lv.live {
          assert c[x] == (Some(lv.live[x]), r);
        } else {
          assert c[x] == (None, r);
        }
      }
    }
  }

  /** The table `ids` of `diffSummary`: every mentioned id with its (local, remote) slot. */
  method CollectIds(local: KindSummary, remote: KindSummary) returns (ids: map<Id, Slots>)
    ensures ids.Keys == Mentioned(ViewOf(local), ViewOf(remote))
    ensures forall x :: x in ids ==> ids[x] == (Slot(ViewOf(local), x), Slot(ViewOf(remote), x))
  {
    var a := AddRemoteLive(remote.live);
    var b := AddRemoteDeleted(a, remote.deleted);
    var c := AddLocalLive(b, local.live);
    ids := AddLocalDeleted(c, local.deleted);
    FilledTable(ViewOf(local), ViewOf(remote), a, b, c, ids);
  }

  /** The branches `diffSummary` takes for one id of its table, given the two tombstone dictionaries. */
  method Route(ghost lv: View, ghost rv: View, x: Id, slots: Slots, ldeletedIds: map<Id, Time>, rdeletedIds: map<Id, Time>)
    returns (o: Outcome)
    requires slots == (Slot(lv, x), Slot(rv, x))
    requires ldeletedIds == lv.dead && rdeletedIds == rv.dead
    ensures o == Classify(lv, rv, x)
  {
    var (localMod, remoteMod) := slots;
    o := InSync;
    if Truthy(localMod) && Truthy(remoteMod) {
      if localMod.value < remoteMod.value {
        o := RemotelyEdited;
      } else if localMod.value > remoteMod.value {
        o := LocallyEdited;
      }
    } else if Truthy(localMod) && !Truthy(remoteMod) {
      if x !in rdeletedIds || rdeletedIds[x] < localMod.value {
        o := LocallyEdited;
      } else {
        o := RemotelyDeleted;
      }
    } else if Truthy(remoteMod) && !Truthy(localMod) {
      if x !in ldeletedIds || ldeletedIds[x] < remoteMod.value {
        o := RemotelyEdited;
      } else {
        o := LocallyDeleted;
      }
    } else {
      if x in ldeletedIds && x !in rdeletedIds {
        o := LocallyDeleted;
      } else if x in rdeletedIds && x !in ldeletedIds {
        o := RemotelyDeleted;
      }
    }
  }

  /** A result list holds, once each, exactly the ids of `done` with outcome `o`. */
  ghost predicate Filed(part: seq<Id>, done: set<Id>, lv: View, rv: View, o: Outcome)
  {
    Distinct(part) && forall x :: x in part <==> x in done && Classify(lv, rv, x) == o
  }

  /** Classifying one more id keeps a result list filed. */
  lemma FileOne(part: seq<Id>, done: set<Id>, lv: View, rv: View, o: Outcome, x: Id)
    requires Filed(part, done, lv, rv, o) && x !in done
    ensures Filed(if Classify(lv, rv, x) == o then part + [x] else part, done + {x}, lv, rv, o)
  {
  }

  /** Once every mentioned id is classified, a list of actions holds exactly the ids with its outcome. */
  lemma FiledAll(part: seq<Id>, lv: View, rv: View, o: Outcome)
    requires o != InSync && Filed(part, Mentioned(lv, rv), lv, rv, o)
    ensures Distinct(part) && forall x :: x in part <==> Classify(lv, rv, x) == o
  {
    forall x | x !in Mentioned(lv, rv)
      ensures Classify(lv, rv, x) == InSync
    {
      UnmentionedInSync(lv, rv, x);
    }
  }

  /** The loop of `diffSummary` over its table: each id goes to the list of its outcome, if any. */
  method ClassifyAll(ghost lv: View, ghost rv: View, ids: map<Id, Slots>,
                     ldeletedIds: map<Id, Time>, rdeletedIds: map<Id, Time>) returns (d: Diff)
    requires ids.Keys == Mentioned(lv, rv)
    requires forall x :: x in ids ==> ids[x] == (Slot(lv, x), Slot(rv, x))
    requires ldeletedIds == lv.dead && rdeletedIds == rv.dead
    ensures Distinct(d.locallyEdited) && forall x :: x in d.locallyEdited <==> Classify(lv, rv, x) == LocallyEdited
    ensures Distinct(d.locallyDeleted) && forall x :: x in d.locallyDeleted <==> Classify(lv, rv, x) == LocallyDeleted
    ensures Distinct(d.remotelyEdited) && forall x :: x in d.remotelyEdited <==> Classify(lv, rv, x) == RemotelyEdited
    ensures Distinct(d.remotelyDeleted) && forall x :: x in d.remotelyDeleted <==> Classify(lv, rv, x) == RemotelyDeleted
  {
    var le, ld, re, rd := [], [], [], [];
    var rest := ids.Keys;
    ghost var done := {};
    while rest != {}
      invariant rest <= ids.Keys && done == ids.Keys - rest
      invariant Filed(le, done, lv, rv, LocallyEdited) && Filed(ld, done, lv, rv, LocallyDeleted)
      invariant Filed(re, done, lv, rv, RemotelyEdited) && Filed(rd, done, lv, rv, RemotelyDeleted)
      decreases rest
    {
      var x := Pick(rest);
      var o := Route(lv, rv, x, ids[x], ldeletedIds, rdeletedIds);
      FileOne(le, done, lv, rv, LocallyEdited, x);
      FileOne(ld, done, lv, rv, LocallyDeleted, x);
      FileOne(re, done, lv, rv, RemotelyEdited, x);
      FileOne(rd, done, lv, rv, RemotelyDeleted, x);
      match o {
        case LocallyEdited => le := le + [x];
        case LocallyDeleted => ld := ld + [x];
        case RemotelyEdited => re := re + [x];
        case RemotelyDeleted => rd := rd + [x];
        case InSync =>
      }
      rest := rest - {x};
      done := done + {x};
    }
    FiledAll(le, lv, rv, LocallyEdited);
    FiledAll(ld, lv, rv, LocallyDeleted);
    FiledAll(re, lv, rv, RemotelyEdited);
    FiledAll(rd, lv, rv, RemotelyDeleted);
    d := Diff(le, ld, re, rd);
  }

  /**
   * `diffSummary`: builds the table id -> (local time, remote time) from the
   * remote live rows, the remote tombstones, the local live rows and the local
   * tombstones, in that order, then classifies every id of the table.
   */
  method DiffSummary(local: KindSummary, remote: KindSummary) returns (d: Diff)
    ensures forall x :: x in d.locallyEdited <==> Classify(ViewOf(local), ViewOf(remote), x) == LocallyEdited
    ensures forall x :: x in d.locallyDeleted <==> Classify(ViewOf(local), ViewOf(remote), x) == LocallyDeleted
    ensures forall x :: x in d.remotelyEdited <==> Classify(ViewOf(local), ViewOf(remote), x) == RemotelyEdited
    ensures forall x :: x in d.remotelyDeleted <==> Classify(ViewOf(local), ViewOf(remote), x) == RemotelyDeleted
    ensures Distinct(d.locallyEdited) && Distinct(d.locallyDeleted)
    ensures Distinct(d.remotelyEdited) && Distinct(d.remotelyDeleted)
    ensures forall x :: x in d.locallyEdited + d.locallyDeleted + d.remotelyEdited + d.remotelyDeleted ==>
              x in IdsOf(local.live) + IdsOf(local.deleted) + IdsOf(remote.live) + IdsOf(remote.deleted)
  {
    var ldeletedIds := DictOf(local.deleted);
    var rdeletedIds := DictOf(remote.deleted);
    var ids := CollectIds(local, remote);
    d := ClassifyAll(ViewOf(local), ViewOf(remote), ids, ldeletedIds, rdeletedIds);
    DictOfKeys(local.live);
    DictOfKeys(local.deleted);
    DictOfKeys(remote.live);
    DictOfKeys(remote.deleted);
  }
}
