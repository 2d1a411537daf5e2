/**
 * What one `sync` achieves for an entity kind (libanki/anki/sync.py,
 * `SyncTools.sync`): every id touched since the baseline ends up identical on
 * both replicas, the newer edit winning; every other id is left alone.
 */
module SyncConverge {
  import opened SyncDiff
  import opened SyncStore
  import opened Wrappers

  /** Both tables hold the same row for `x`, or neither holds one. */
  predicate Agree(l: Table, r: Table, x: Id)
  {
    (x in l.live <==> x in r.live) && (x in l.live ==> l.live[x] == r.live[x])
  }

  /** Rows with the same id and modification time are the same row (a modification time stamps one edit). */
  predicate SameStampSameRow(l: Table, r: Table, x: Id)
  {
    x in l.live && x in r.live && l.live[x].modified == r.live[x].modified ==> l.live[x] == r.live[x]
  }

  /** A table entry for `x` is untouched. */
  predicate Kept(before: Table, after: Table, x: Id)
  {
    (x in after.live <==> x in before.live) && (x in before.live ==> after.live[x] == before.live[x])
    && (x in after.graves <==> x in before.graves)
  }

  /** Membership in an outcome set is the classification of the id. */
  lemma InOutcome(lv: View, rv: View, x: Id, o: Outcome)
    requires o != InSync
    ensures x in OutcomeIds(lv, rv, o) <==> Classify(lv, rv, x) == o
  {
    if x !in Mentioned(lv, rv) {
      UnmentionedInSync(lv, rv, x);
    }
  }

  /** What a summary taken at `b` says about one id of a table without ids both live and buried. */
  lemma SlotSince(t: Table, b: Time, x: Id)
    requires Consistent(t)
    ensures x in Since(t, b).dead <==> x in t.graves && t.graves[x] > b
    ensures x in Since(t, b).dead ==> Since(t, b).dead[x] == t.graves[x]
    ensures Slot(Since(t, b), x) == if x in t.live && t.live[x].modified > b then Some(t.live[x].modified) else None
  {
  }

  /** One id of both tables after `KindSync`, in terms of the four outcome sets. */
  lemma KindSyncAt(lt: Table, rt: Table, b: Time, nowL: Time, nowR: Time, x: Id)
    ensures var lv, rv := Since(lt, b), Since(rt, b);
            var le, ld := OutcomeIds(lv, rv, LocallyEdited), OutcomeIds(lv, rv, LocallyDeleted);
            var re, rd := OutcomeIds(lv, rv, RemotelyEdited), OutcomeIds(lv, rv, RemotelyDeleted);
            var (l2, r2) := KindSync(lt, rt, b, nowL, nowR);
            (x in l2.live <==> (x in re && x in rt.live) || (x !in rd && x in lt.live))
            && (x in l2.live ==> l2.live[x] == if x in re && x in rt.live then rt.live[x] else lt.live[x])
            && (x in r2.live <==> x !in ld && ((x in le && x in lt.live) || x in rt.live))
            && (x in r2.live ==> r2.live[x] == if x in le && x in lt.live then lt.live[x] else rt.live[x])
            && (x !in re && x !in rd ==> (x in l2.graves <==> x in lt.graves))
            && (x !in le && x !in ld ==> (x in r2.graves <==> x in rt.graves))
  {
  }

  /** The per-id core of `SyncConverges`. */
  lemma {:induction false} SyncConvergesAt(lt: Table, rt: Table, b: Time, nowL: Time, nowR: Time, x: Id)
    requires b >= 0 && Consistent(lt) && Consistent(rt) && SameStampSameRow(lt, rt, x)
    ensures x in Mentioned(Since(lt, b), Since(rt, b)) ==> Agree(KindSync(lt, rt, b, nowL, nowR).0, KindSync(lt, rt, b, nowL, nowR).1, x)
    ensures x !in Mentioned(Since(lt, b), Since(rt, b)) ==>
              Kept(lt, KindSync(lt, rt, b, nowL, nowR).0, x) && Kept(rt, KindSync(lt, rt, b, nowL, nowR).1, x)
  {
    var lv, rv := Since(lt, b), Since(rt, b);
    InOutcome(lv, rv, x, LocallyEdited);
    InOutcome(lv, rv, x, LocallyDeleted);
    InOutcome(lv, rv, x, RemotelyEdited);
    InOutcome(lv, rv, x, RemotelyDeleted);
    SlotSince(lt, b, x);
    SlotSince(rt, b, x);
    KindSyncAt(lt, rt, b, nowL, nowR, x);
    if x !in Mentioned(lv, rv) {
      UnmentionedInSync(lv, rv, x);
    }
  }

  /**
   * After `sync` from baseline `b`, every id either side touched since `b`
   * holds the same row on both sides, and every other id is untouched on both
   * sides; neither table ends up with an id both live and buried.
   */
  lemma SyncConverges(lt: Table, rt: Table, b: Time, nowL: Time, nowR: Time)
    requires b >= 0 && Consistent(lt) && Consistent(rt)
    requires forall x :: SameStampSameRow(lt, rt, x)
    ensures forall x :: x in Mentioned(Since(lt, b), Since(rt, b)) ==>
              Agree(KindSync(lt, rt, b, nowL, nowR).0, KindSync(lt, rt, b, nowL, nowR).1, x)
    ensures forall x :: x !in Mentioned(Since(lt, b), Since(rt, b)) ==>
              Kept(lt, KindSync(lt, rt, b, nowL, nowR).0, x) && Kept(rt, KindSync(lt, rt, b, nowL, nowR).1, x)
    ensures Consistent(KindSync(lt, rt, b, nowL, nowR).0) && Consistent(KindSync(lt, rt, b, nowL, nowR).1)
  {
    forall x {
      SyncConvergesAt(lt, rt, b, nowL, nowR, x);
    }
  }

  /** Last writer wins: when both sides edited an id since the baseline, the newer row survives on both sides. */
  lemma {:induction false} NewerEditWins(lt: Table, rt: Table, b: Time, nowL: Time, nowR: Time, x: Id)
    requires b >= 0 && Consistent(lt) && Consistent(rt)
    requires x in lt.live && x in rt.live && lt.live[x].modified > b && rt.live[x].modified > b
    requires lt.live[x].modified != rt.live[x].modified
    ensures var winner := if lt.live[x].modified > rt.live[x].modified then lt.live[x] else rt.live[x];
            var (l2, r2) := KindSync(lt, rt, b, nowL, nowR);
            x in l2.live && x in r2.live && l2.live[x] == winner && r2.live[x] == winner
  {
    var lv, rv := Since(lt, b), Since(rt, b);
    InOutcome(lv, rv, x, LocallyEdited);
    InOutcome(lv, rv, x, LocallyDeleted);
    InOutcome(lv, rv, x, RemotelyEdited);
    InOutcome(lv, rv, x, RemotelyDeleted);
    SlotSince(lt, b, x);
    SlotSince(rt, b, x);
    KindSyncAt(lt, rt, b, nowL, nowR, x);
  }

  /**
   * As written, a row that a sync brings back keeps its local tombstone, and a
   * tombstone hides the live row in a later summary.  Here the local side
   * deleted id 1 at time 10 while the remote side edited it at 15; the sync
   * copies the remote row back, the local side edits it again at 20, and a
   * later sync from baseline 0 (the decks disagree on lastSync) classifies the
   * id as edited REMOTELY, so the older remote row would overwrite the newer
   * local one.
   */
  lemma StaleTombstoneLosesNewerEdit()
    ensures var lt0 := Table(map[], map[1 := 10]);
            var rt0 := Table(map[1 := Record(15, [])], map[]);
            var l1 := UpsertAsWritten(lt0, Restrict(rt0, {1}));
            var l2 := Table(l1.live[1 := Record(20, [])], l1.graves);
            Classify(Since(lt0, 0), Since(rt0, 0), 1) == RemotelyEdited
            && l2.live[1].modified > rt0.live[1].modified
            && Classify(Since(l2, 0), Since(rt0, 0), 1) == RemotelyEdited
  {
    var lt0 := Table(map[], map[1 := 10]);
    var rt0 := Table(map[1 := Record(15, [])], map[]);
    var l1 := UpsertAsWritten(lt0, Restrict(rt0, {1}));
    var l2 := Table(l1.live[1 := Record(20, [])], l1.graves);
    assert Slot(Since(lt0, 0), 1) == None;
    assert Slot(Since(rt0, 0), 1) == Some(15);
    assert 1 in Since(l2, 0).dead;
    assert Slot(Since(l2, 0), 1) == None;
  }

  /** With the tombstone cleared on upsert, the same sequence classifies the newer local edit as edited LOCALLY. */
  lemma ResurrectedEditWins()
    ensures var lt0 := Table(map[], map[1 := 10]);
            var rt0 := Table(map[1 := Record(15, [])], map[]);
            var l1 := Upsert(lt0, Restrict(rt0, {1}));
            var l2 := Table(l1.live[1 := Record(20, [])], l1.graves);
            Consistent(l2) && Classify(Since(l2, 0), Since(rt0, 0), 1) == LocallyEdited
  {
    var rt0 := Table(map[1 := Record(15, [])], map[]);
    var l1 := Upsert(Table(map[], map[1 := 10]), Restrict(rt0, {1}));
    var l2 := Table(l1.live[1 := Record(20, [])], l1.graves);
    assert l1.graves == map[];
    SlotSince(l2, 0, 1);
    SlotSince(rt0, 0, 1);
  }
}
