/**
 * The store of one replica as the synchronisation of libanki/anki/sync.py
 * sees it, and the effect of every step of a sync on it, as functions.
 *
 * Each entity kind (models, facts, cards) is a table of live rows keyed by id,
 * each row carrying its modification time, plus a table of tombstones
 * (id -> deletion time).  The deck row, the global and daily statistics and
 * the review history complete the store.  The SQL, the ORM and the wire
 * encoding are replaced by these values.
 */
module SyncStore {
  import opened Wrappers
  import opened SyncDiff

  /** The entity kinds a sync walks through, in the order it walks them. */
  datatype Kind = Models | Facts | Cards

  /** A row of any kind: its modification time and, opaquely, its other columns. */
  datatype Record = Record(modified: Time, columns: seq<int>)
  type Row = (Id, Record)

  /** A row of the `fields` table: the fact it belongs to and its content. */
  datatype Field = Field(factId: Id, fieldModelId: Id, ordinal: int, value: string)
  type FieldRow = (Id, Field)

  /** One kind's live rows and tombstones. */
  datatype Table = Table(live: map<Id, Record>, graves: map<Id, Time>)

  /** The deck row: only its two times take part in the protocol; the rest travels opaquely. */
  datatype Deck = Deck(modified: Time, lastSync: Time, settings: seq<int>)

  /** A statistics row: its day (as an ordinal) and its counters. */
  datatype DayStats = DayStats(day: int, counters: seq<int>)

  /** A review history entry. */
  datatype Review = Review(time: Time, cardId: Id, details: seq<int>)

  /** What `getObjsFromKey` sends for one kind: rows, and for facts their fields. */
  datatype Batch = Batch(rows: seq<Row>, fields: seq<FieldRow>)

  /** The `added-`, `deleted-` and `missing-` entries of a payload for one kind. */
  datatype KindPayload = KindPayload(added: Batch, deleted: seq<Id>, missing: seq<Id>)

  /** The `deck`, `stats` and `history` entries, which always travel together. */
  datatype DeckBundle = DeckBundle(deck: Deck, global: DayStats, daily: seq<DayStats>, history: seq<Review>)

  /** What `genPayload` sends: one part per kind and, from the newer deck only, its bundle. */
  datatype Payload = Payload(models: KindPayload, facts: KindPayload, cards: KindPayload, deck: Option<DeckBundle>)
  {
    function For(k: Kind): KindPayload
    {
      match k
      case Models => models
      case Facts => facts
      case Cards => cards
    }
  }

  /** What `applyPayload` answers: the requested objects and, when none came, its own deck bundle. */
  datatype Reply = Reply(models: Batch, facts: Batch, cards: Batch, deck: Option<DeckBundle>)
  {
    function For(k: Kind): Batch
    {
      match k
      case Models => models
      case Facts => facts
      case Cards => cards
    }
  }

  /** What `summary(lastSync)` returns: one summary per kind. */
  datatype DeckSummary = DeckSummary(models: KindSummary, facts: KindSummary, cards: KindSummary)
  {
    function For(k: Kind): KindSummary
    {
      match k
      case Models => models
      case Facts => facts
      case Cards => cards
    }
  }

  /** Everything of one replica that a sync reads or writes. */
  datatype Store = Store(deck: Deck, models: Table, facts: Table, cards: Table, fields: map<Id, Field>,
                         global: DayStats, daily: seq<DayStats>, history: seq<Review>)
  {
    function Of(k: Kind): Table
    {
      match k
      case Models => models
      case Facts => facts
      case Cards => cards
    }

    function With(k: Kind, t: Table): Store
    {
      match k
      case Models => this.(models := t)
      case Facts => this.(facts := t)
      case Cards => this.(cards := t)
    }
  }

  /** The elements of a list of ids. */
  function Elems(ids: seq<Id>): set<Id>
  {
    set x | x in ids
  }

  /** The view of a table that `summary(since)` gives: rows modified, and tombstones made, after `since`. */
  function Since(t: Table, since: Time): View
  {
    View(map x | x in t.live && t.live[x].modified > since :: t.live[x].modified,
         map x | x in t.graves && t.graves[x] > since :: t.graves[x])
  }

  /** The live rows of the given ids: what `getFacts`, `getCards` and `getModels` read. */
  function Restrict(t: Table, ids: set<Id>): map<Id, Record>
  {
    map x | x in ids && x in t.live :: t.live[x]
  }

  /** The field rows that belong to the given facts. */
  function FieldsFor(fields: map<Id, Field>, facts: set<Id>): map<Id, Field>
  {
    map f | f in fields && fields[f].factId in facts :: fields[f]
  }

  /** No id is both live and buried. */
  predicate Consistent(t: Table)
  {
    forall x :: x in t.live ==> x !in t.graves
  }

  /**
   * Insert-or-replace of rows by id, as `updateFacts` and `updateCards` run
   * it: the tombstone table is not touched (see `Upsert` for the corrected form).
   */
  function UpsertAsWritten(t: Table, rows: map<Id, Record>): (r: Table)
    ensures r.graves == t.graves
    ensures forall x :: x in rows ==> x in r.live && r.live[x] == rows[x]
    ensures forall x :: x !in rows ==> (x in r.live <==> x in t.live) && (x in t.live ==> r.live[x] == t.live[x])
  {
    Table(t.live + rows, t.graves)
  }

  /** Insert-or-replace of rows by id; a row that comes back to life loses its tombstone. */
  function Upsert(t: Table, rows: map<Id, Record>): (r: Table)
    ensures Consistent(t) ==> Consistent(r)
  {
    Table(t.live + rows, t.graves - rows.Keys)
  }

  /** Deleting ids: each live one is removed and buried at time `now`; the others are skipped. */
  function Delete(t: Table, ids: set<Id>, now: Time): (r: Table)
    ensures Consistent(t) ==> Consistent(r)
  {
    Table(t.live - ids, t.graves + Buried(t, ids, now))
  }

  /** The tombstones a deletion adds: one per deleted id that was live, stamped `now`. */
  function Buried(t: Table, ids: set<Id>, now: Time): (g: map<Id, Time>)
    ensures forall x :: x in g <==> x in ids && x in t.live
    ensures forall x :: x in g ==> g[x] == now
  {
    map x | x in ids && x in t.live :: now
  }

  /** Applying a batch twice is applying it once. */
  lemma UpsertIdempotent(t: Table, rows: map<Id, Record>)
    ensures Upsert(Upsert(t, rows), rows) == Upsert(t, rows)
  {
    assert (t.live + rows) + rows == t.live + rows;
    assert (t.graves - rows.Keys) - rows.Keys == t.graves - rows.Keys;
  }

  /** Upserting leaves every other row as it was and installs exactly the given rows. */
  lemma UpsertRows(t: Table, rows: map<Id, Record>, x: Id)
    ensures x in rows ==> x in Upsert(t, rows).live && Upsert(t, rows).live[x] == rows[x] && x !in Upsert(t, rows).graves
    ensures x !in rows ==> (x in Upsert(t, rows).live <==> x in t.live)
                           && (x in t.live ==> Upsert(t, rows).live[x] == t.live[x])
                           && (x in Upsert(t, rows).graves <==> x in t.graves)
  {
  }

  /** Upserting row by row is upserting the whole batch, later rows winning. */
  lemma UpsertOne(t: Table, rows: map<Id, Record>, x: Id, r: Record)
    ensures Upsert(Upsert(t, rows), map[x := r]) == Upsert(t, rows[x := r])
  {
    assert (t.live + rows) + map[x := r] == t.live + rows[x := r];
    assert (t.graves - rows.Keys) - {x} == t.graves - rows[x := r].Keys;
  }

  /** Deleting id by id is deleting the whole set. */
  lemma DeleteOne(t: Table, ids: set<Id>, x: Id, now: Time)
    ensures Delete(Delete(t, ids, now), {x}, now) == Delete(t, ids + {x}, now)
  {
    var d := Delete(t, ids, now);
    var g1 := d.graves + Buried(d, {x}, now);
    var g2 := t.graves + Buried(t, ids + {x}, now);
    assert g1.Keys == g2.Keys;
    assert g1 == g2;
    assert d.live - {x} == t.live - (ids + {x});
  }

  /** `updateObjsFromKey`: an empty batch changes nothing, fields included; otherwise rows (and fields) are upserted. */
  function Updated(s: Store, k: Kind, b: Batch): (r: Store)
    ensures r.deck == s.deck && r.global == s.global && r.daily == s.daily && r.history == s.history
    ensures forall j :: r.Of(j) == if j == k then Upsert(s.Of(k), DictOf(b.rows)) else s.Of(j)
    ensures k != Facts ==> r.fields == s.fields
  {
    if b.rows == [] then
      assert Upsert(s.Of(k), DictOf(b.rows)) == s.Of(k);
      s
    else
      var s1 := s.With(k, Upsert(s.Of(k), DictOf(b.rows)));
      if k == Facts then s1.(fields := s.fields + DictOf(b.fields)) else s1
  }

  /** `deleteObjsFromKey`: the ids are deleted from the table of their kind. */
  function Deleted(s: Store, k: Kind, ids: seq<Id>, now: Time): Store
  {
    s.With(k, Delete(s.Of(k), Elems(ids), now))
  }

  /** Whether the daily statistics already hold a row for a day. */
  predicate HasDay(daily: seq<DayStats>, day: int)
  {
    exists s :: s in daily && s.day == day
  }

  /** `updateStats` on the daily rows: each incoming row is added only when its day is not there yet. */
  function MergeDaily(daily: seq<DayStats>, records: seq<DayStats>): (r: seq<DayStats>)
    ensures |daily| <= |r| && r[..|daily|] == daily
    ensures forall s :: s in r ==> s in daily || s in records
    ensures forall s :: s in records ==> HasDay(r, s.day)
    decreases |records|
  {
    if records == [] then daily
    else
      var d := MergeDaily(daily, records[..|records| - 1]);
      var r := records[|records| - 1];
      if HasDay(d, r.day) then d else d + [r]
  }

  /** The daily rows `bundleStats` sends: those of the last sync's day or later, in order. */
  function DailySince(daily: seq<DayStats>, day: int): (r: seq<DayStats>)
    ensures forall s :: s in r <==> s in daily && s.day >= day
    ensures |r| <= |daily|
  {
    if daily == [] then []
    else if daily[0].day >= day then [daily[0]] + DailySince(daily[1..], day)
    else DailySince(daily[1..], day)
  }

  /** The history entries `bundleHistory` sends: those strictly after the last sync, in order. */
  function HistorySince(history: seq<Review>, since: Time): (r: seq<Review>)
    ensures forall h :: h in r <==> h in history && h.time > since
    ensures |r| <= |history|
  {
    if history == [] then []
    else if history[0].time > since then [history[0]] + HistorySince(history[1..], since)
    else HistorySince(history[1..], since)
  }

  /** `bundleDeck`, `bundleStats` and `bundleHistory`; `dayOf` turns a time into its local day. */
  function Bundle(s: Store, dayOf: Time -> int): (b: DeckBundle)
    ensures b.deck == s.deck && b.global == s.global
    ensures forall d :: d in b.daily <==> d in s.daily && d.day >= dayOf(s.deck.lastSync)
    ensures forall h :: h in b.history <==> h in s.history && h.time > s.deck.lastSync
  {
    DeckBundle(s.deck, s.global, DailySince(s.daily, dayOf(s.deck.lastSync)), HistorySince(s.history, s.deck.lastSync))
  }

  /** `updateDeck`, `updateStats` and `updateHistory`: the deck row is taken over and marked as synced. */
  function ApplyBundle(s: Store, b: DeckBundle): (r: Store)
    ensures r.deck.lastSync == r.deck.modified == b.deck.modified && r.global == b.global
    ensures r.models == s.models && r.facts == s.facts && r.cards == s.cards && r.fields == s.fields
    ensures |s.daily| <= |r.daily| && r.daily[..|s.daily|] == s.daily
    ensures forall d :: d in b.daily ==> HasDay(r.daily, d.day)
    ensures |r.history| == |s.history| + |b.history| && r.history[..|s.history|] == s.history && r.history[|s.history|..] == b.history
  {
    s.(deck := b.deck.(lastSync := b.deck.modified),
       global := b.global,
       daily := MergeDaily(s.daily, b.daily),
       history := s.history + b.history)
  }

  /** The time both summaries are taken from: the shared last sync, or 0 when the decks disagree on it. */
  function Baseline(local: Deck, remote: Deck): (r: Time)
    ensures r == 0 || (r == local.lastSync && r == remote.lastSync)
    ensures local.lastSync == remote.lastSync ==> r == local.lastSync
  {
    if local.lastSync != remote.lastSync then 0 else local.lastSync
  }

  /** The ids of one kind that receive outcome `o` for two summaries. */
  function Ids(ls: DeckSummary, rs: DeckSummary, k: Kind, o: Outcome): set<Id>
  {
    OutcomeIds(ViewOf(ls.For(k)), ViewOf(rs.For(k)), o)
  }

  /** The batch `getObjsFromKey(ids, k)` returns on store `s`. */
  predicate BatchOf(b: Batch, s: Store, k: Kind, ids: set<Id>)
  {
    DictOf(b.rows) == Restrict(s.Of(k), ids)
    && if k == Facts then DictOf(b.fields) == FieldsFor(s.fields, ids) else b.fields == []
  }

  /** One kind's part of the payload `genPayload` builds on store `s`. */
  predicate PartOf(part: KindPayload, s: Store, ls: DeckSummary, rs: DeckSummary, k: Kind)
  {
    BatchOf(part.added, s, k, Ids(ls, rs, k, LocallyEdited))
    && Elems(part.deleted) == Ids(ls, rs, k, LocallyDeleted)
    && Elems(part.missing) == Ids(ls, rs, k, RemotelyEdited)
  }

  /** The store `genPayload` leaves behind: remote deletions applied, and lastSync advanced when it sent its deck. */
  function AfterGen(s: Store, ls: DeckSummary, rs: DeckSummary, localTime: Time, remoteTime: Time, now: Time): (r: Store)
    ensures r.fields == s.fields && r.global == s.global && r.daily == s.daily && r.history == s.history
    ensures r.deck.modified == s.deck.modified
    ensures r.deck == if localTime > remoteTime then s.deck.(lastSync := s.deck.modified) else s.deck
    ensures forall k, x :: x in r.Of(k).live ==> x in s.Of(k).live
    ensures forall k :: Consistent(s.Of(k)) ==> Consistent(r.Of(k))
  {
    var r := s.(models := Delete(s.models, Ids(ls, rs, Models, RemotelyDeleted), now),
                facts := Delete(s.facts, Ids(ls, rs, Facts, RemotelyDeleted), now),
                cards := Delete(s.cards, Ids(ls, rs, Cards, RemotelyDeleted), now),
                deck := if localTime > remoteTime then s.deck.(lastSync := s.deck.modified) else s.deck);
    KindsDeleted(s, r, ls, rs, now);
    r
  }

  /** A store whose three tables are those of `s` with the remote deletions applied, kind by kind. */
  lemma KindsDeleted(s: Store, r: Store, ls: DeckSummary, rs: DeckSummary, now: Time)
    requires r.models == Delete(s.models, Ids(ls, rs, Models, RemotelyDeleted), now)
    requires r.facts == Delete(s.facts, Ids(ls, rs, Facts, RemotelyDeleted), now)
    requires r.cards == Delete(s.cards, Ids(ls, rs, Cards, RemotelyDeleted), now)
    ensures forall k :: r.Of(k) == Delete(s.Of(k), Ids(ls, rs, k, RemotelyDeleted), now)
  {
    forall k ensures r.Of(k) == Delete(s.Of(k), Ids(ls, rs, k, RemotelyDeleted), now) {
      match k
      case Models =>
      case Facts =>
      case Cards =>
    }
  }

  /** One kind of `applyPayload`: upsert what was added, then delete what was deleted. */
  function Applied(s: Store, k: Kind, part: KindPayload, now: Time): Store
  {
    Deleted(Updated(s, k, part.added), k, part.deleted, now)
  }

  /** The store `applyPayload` leaves behind. */
  function AfterApply(s: Store, p: Payload, now: Time): Store
  {
    var s1 := Applied(Applied(Applied(s, Models, p.models, now), Facts, p.facts, now), Cards, p.cards, now);
    if p.deck.None? then s1.(deck := s1.deck.(lastSync := s1.deck.modified))
    else ApplyBundle(s1, p.deck.value)
  }

  /** The reply `applyPayload` gives on store `s` (before its own changes) to payload `p`. */
  predicate ReplyOf(r: Reply, s: Store, p: Payload, dayOf: Time -> int)
  {
    BatchOf(r.models, s, Models, Elems(p.models.missing))
    && BatchOf(r.facts, s, Facts, Elems(p.facts.missing))
    && BatchOf(r.cards, s, Cards, Elems(p.cards.missing))
    && r.deck == if p.deck.None? then Some(Bundle(s, dayOf)) else None
  }

  /** The store `applyPayloadReply` leaves behind: upserts only, then the deck bundle if one came. */
  function AfterReply(s: Store, r: Reply): Store
  {
    var s1 := Updated(Updated(Updated(s, Models, r.models), Facts, r.facts), Cards, r.cards);
    if r.deck.Some? then ApplyBundle(s1, r.deck.value) else s1
  }

  /**
   * One kind's two tables after a whole `sync` from baseline `b`: the local
   * side deletes what the remote deleted, the remote side takes the local
   * edits and deletions, and the local side takes the remote edits.
   */
  function KindSync(lt: Table, rt: Table, b: Time, nowL: Time, nowR: Time): (r: (Table, Table))
    ensures Consistent(lt) && Consistent(rt) ==> Consistent(r.0) && Consistent(r.1)
  {
    var lv, rv := Since(lt, b), Since(rt, b);
    var l1 := Delete(lt, OutcomeIds(lv, rv, RemotelyDeleted), nowL);
    var r1 := Delete(Upsert(rt, Restrict(lt, OutcomeIds(lv, rv, LocallyEdited))), OutcomeIds(lv, rv, LocallyDeleted), nowR);
    (Upsert(l1, Restrict(rt, OutcomeIds(lv, rv, RemotelyEdited))), r1)
  }

  /** Each step touches only the table of its own kind, and touches it by `Upsert` or `Delete`. */
  lemma UpdatedOf(s: Store, k: Kind, b: Batch, j: Kind)
    ensures Updated(s, k, b).Of(j) == if j == k then Upsert(s.Of(k), DictOf(b.rows)) else s.Of(j)
  {
    if b.rows == [] {
      assert Upsert(s.Of(k), DictOf(b.rows)) == s.Of(k);
    }
  }

  lemma DeletedOf(s: Store, k: Kind, ids: seq<Id>, now: Time, j: Kind)
    ensures Deleted(s, k, ids, now).Of(j) == if j == k then Delete(s.Of(k), Elems(ids), now) else s.Of(j)
  {
  }

  /** A table after `applyPayload`. */
  lemma AfterApplyOf(s: Store, p: Payload, now: Time, k: Kind)
    ensures AfterApply(s, p, now).Of(k) == Delete(Upsert(s.Of(k), DictOf(p.For(k).added.rows)), Elems(p.For(k).deleted), now)
  {
    var s1 := Applied(s, Models, p.models, now);
    var s2 := Applied(s1, Facts, p.facts, now);
    var s3 := Applied(s2, Cards, p.cards, now);
    UpdatedOf(s, Models, p.models.added, k);
    UpdatedOf(s1, Facts, p.facts.added, k);
    UpdatedOf(s2, Cards, p.cards.added, k);
    DeletedOf(Updated(s, Models, p.models.added), Models, p.models.deleted, now, k);
    DeletedOf(Updated(s1, Facts, p.facts.added), Facts, p.facts.deleted, now, k);
    DeletedOf(Updated(s2, Cards, p.cards.added), Cards, p.cards.deleted, now, k);
    assert AfterApply(s, p, now).Of(k) == s3.Of(k);
  }

  /** A table after `applyPayloadReply`: upserts only. */
  lemma AfterReplyOf(s: Store, r: Reply, k: Kind)
    ensures AfterReply(s, r).Of(k) == Upsert(s.Of(k), DictOf(r.For(k).rows))
  {
    var s1 := Updated(s, Models, r.models);
    var s2 := Updated(s1, Facts, r.facts);
    UpdatedOf(s, Models, r.models, k);
    UpdatedOf(s1, Facts, r.facts, k);
    UpdatedOf(s2, Cards, r.cards, k);
    assert AfterReply(s, r).Of(k) == Updated(s2, Cards, r.cards).Of(k);
  }

  /** Applying, upserting and deleting leave the deck row, the statistics and the history alone. */
  lemma AppliedKeepsDeck(s: Store, k: Kind, part: KindPayload, now: Time)
    ensures Applied(s, k, part, now).deck == s.deck
    ensures Applied(s, k, part, now).global == s.global
    ensures Applied(s, k, part, now).daily == s.daily && Applied(s, k, part, now).history == s.history
  {
  }

  lemma UpdatedKeepsDeck(s: Store, k: Kind, b: Batch)
    ensures Updated(s, k, b).deck == s.deck
    ensures Updated(s, k, b).global == s.global
    ensures Updated(s, k, b).daily == s.daily && Updated(s, k, b).history == s.history
  {
  }

  /** The steps of one sync, composed for one kind, give `KindSync`. */
  lemma SyncKind(L: Store, R: Store, b: Time, ls: DeckSummary, rs: DeckSummary, p: Payload, r: Reply,
                 localTime: Time, remoteTime: Time, nowL: Time, nowR: Time, dayOf: Time -> int, k: Kind)
    requires ViewOf(ls.For(k)) == Since(L.Of(k), b) && ViewOf(rs.For(k)) == Since(R.Of(k), b)
    requires PartOf(p.For(k), L, ls, rs, k)
    requires ReplyOf(r, R, p, dayOf)
    ensures (AfterReply(AfterGen(L, ls, rs, localTime, remoteTime, nowL), r).Of(k), AfterApply(R, p, nowR).Of(k))
            == KindSync(L.Of(k), R.Of(k), b, nowL, nowR)
  {
    var L1 := AfterGen(L, ls, rs, localTime, remoteTime, nowL);
    AfterApplyOf(R, p, nowR, k);
    AfterReplyOf(L1, r, k);
    assert BatchOf(r.For(k), R, k, Elems(p.For(k).missing));
  }

  /** `SyncKind` for every kind at once, from what the summaries, `genPayload` and `applyPayload` promise. */
  lemma SyncKinds(L: Store, R: Store, b: Time, ls: DeckSummary, rs: DeckSummary, p: Payload, r: Reply,
                  localTime: Time, remoteTime: Time, nowL: Time, nowR: Time, dayOf: Time -> int)
    requires forall k :: ViewOf(ls.For(k)) == Since(L.Of(k), b)
    requires forall k :: ViewOf(rs.For(k)) == Since(R.Of(k), b)
    requires PartOf(p.models, L, ls, rs, Models) && PartOf(p.facts, L, ls, rs, Facts) && PartOf(p.cards, L, ls, rs, Cards)
    requires ReplyOf(r, R, p, dayOf)
    ensures forall k :: (AfterReply(AfterGen(L, ls, rs, localTime, remoteTime, nowL), r).Of(k), AfterApply(R, p, nowR).Of(k))
                        == KindSync(L.Of(k), R.Of(k), b, nowL, nowR)
  {
    forall k
      ensures (AfterReply(AfterGen(L, ls, rs, localTime, remoteTime, nowL), r).Of(k), AfterApply(R, p, nowR).Of(k))
              == KindSync(L.Of(k), R.Of(k), b, nowL, nowR)
    {
      SyncKind(L, R, b, ls, rs, p, r, localTime, remoteTime, nowL, nowR, dayOf, k);
    }
  }

  /** Whichever deck is newer ends up on both sides, marked as synced. */
  lemma SyncDeck(L: Store, R: Store, ls: DeckSummary, rs: DeckSummary, p: Payload, r: Reply,
                 nowL: Time, nowR: Time, dayOf: Time -> int)
    requires p.deck == if L.deck.modified > R.deck.modified then Some(Bundle(L, dayOf)) else None
    requires ReplyOf(r, R, p, dayOf)
    ensures var winner := if L.deck.modified > R.deck.modified then L.deck else R.deck;
            AfterReply(AfterGen(L, ls, rs, L.deck.modified, R.deck.modified, nowL), r).deck == winner.(lastSync := winner.modified)
            && AfterApply(R, p, nowR).deck == winner.(lastSync := winner.modified)
  {
    var R1 := Applied(R, Models, p.models, nowR);
    var R2 := Applied(R1, Facts, p.facts, nowR);
    AppliedKeepsDeck(R, Models, p.models, nowR);
    AppliedKeepsDeck(R1, Facts, p.facts, nowR);
    AppliedKeepsDeck(R2, Cards, p.cards, nowR);
    var L1 := AfterGen(L, ls, rs, L.deck.modified, R.deck.modified, nowL);
    var L2 := Updated(L1, Models, r.models);
    var L3 := Updated(L2, Facts, r.facts);
    UpdatedKeepsDeck(L1, Models, r.models);
    UpdatedKeepsDeck(L2, Facts, r.facts);
    UpdatedKeepsDeck(L3, Cards, r.cards);
  }

  /** The fields a side holds after taking the facts `ids` from `from`: unchanged when none of them came. */
  function TakeFields(fields: map<Id, Field>, from: Store, ids: set<Id>): map<Id, Field>
  {
    if Restrict(from.facts, ids) == map[] then fields else fields + FieldsFor(from.fields, ids)
  }

  /**
   * The two `fields` tables after a whole `sync` from baseline `b`: the
   * remote side takes the fields of the locally edited facts, the local side
   * those of the remotely edited facts.
   */
  function FieldSync(L: Store, R: Store, b: Time): (map<Id, Field>, map<Id, Field>)
  {
    var lv, rv := Since(L.facts, b), Since(R.facts, b);
    (TakeFields(L.fields, R, OutcomeIds(lv, rv, RemotelyEdited)),
     TakeFields(R.fields, L, OutcomeIds(lv, rv, LocallyEdited)))
  }

  /** A batch that `getObjsFromKey` gave for facts changes the fields as `TakeFields` says. */
  lemma UpdatedFields(s: Store, k: Kind, b: Batch, from: Store, ids: set<Id>)
    requires BatchOf(b, from, k, ids)
    ensures Updated(s, k, b).fields == if k == Facts then TakeFields(s.fields, from, ids) else s.fields
  {
    if b.rows != [] {
      assert b.rows[0].0 in DictOf(b.rows);
    }
  }

  /** The local fields after `genPayload` and `applyPayloadReply`: those of the facts the reply carried are taken over. */
  lemma LocalFields(L: Store, R: Store, ls: DeckSummary, rs: DeckSummary, p: Payload, r: Reply,
                    localTime: Time, remoteTime: Time, nowL: Time, dayOf: Time -> int)
    requires ReplyOf(r, R, p, dayOf)
    ensures AfterReply(AfterGen(L, ls, rs, localTime, remoteTime, nowL), r).fields
            == TakeFields(L.fields, R, Elems(p.facts.missing))
  {
    var L1 := AfterGen(L, ls, rs, localTime, remoteTime, nowL);
    var L2 := Updated(L1, Models, r.models);
    UpdatedFields(L1, Models, r.models, R, Elems(p.models.missing));
    UpdatedFields(L2, Facts, r.facts, R, Elems(p.facts.missing));
    UpdatedFields(Updated(L2, Facts, r.facts), Cards, r.cards, R, Elems(p.cards.missing));
  }

  /** The remote fields after `applyPayload`: those of the locally edited facts are taken over. */
  lemma RemoteFields(L: Store, R: Store, ls: DeckSummary, rs: DeckSummary, p: Payload, nowR: Time)
    requires PartOf(p.facts, L, ls, rs, Facts)
    ensures AfterApply(R, p, nowR).fields == TakeFields(R.fields, L, Ids(ls, rs, Facts, LocallyEdited))
  {
    var R1 := Applied(R, Models, p.models, nowR);
    var R2 := Applied(R1, Facts, p.facts, nowR);
    AppliedKeepsFields(R, Models, p.models, nowR);
    UpdatedFields(R1, Facts, p.facts.added, L, Ids(ls, rs, Facts, LocallyEdited));
    AppliedKeepsFields(R2, Cards, p.cards, nowR);
  }

  /** Applying models or cards leaves the fields table alone. */
  lemma AppliedKeepsFields(s: Store, k: Kind, part: KindPayload, now: Time)
    requires k != Facts
    ensures Applied(s, k, part, now).fields == s.fields
  {
  }

  /** The fields of both sides after the steps of one sync. */
  lemma SyncFields(L: Store, R: Store, b: Time, ls: DeckSummary, rs: DeckSummary, p: Payload, r: Reply,
                   localTime: Time, remoteTime: Time, nowL: Time, nowR: Time, dayOf: Time -> int)
    requires ViewOf(ls.facts) == Since(L.facts, b) && ViewOf(rs.facts) == Since(R.facts, b)
    requires PartOf(p.facts, L, ls, rs, Facts)
    requires ReplyOf(r, R, p, dayOf)
    ensures (AfterReply(AfterGen(L, ls, rs, localTime, remoteTime, nowL), r).fields, AfterApply(R, p, nowR).fields)
            == FieldSync(L, R, b)
  {
    LocalFields(L, R, ls, rs, p, r, localTime, remoteTime, nowL, dayOf);
    RemoteFields(L, R, ls, rs, p, nowR);
  }

  /**
   * The statistics and history of both sides after the steps of one sync:
   * the side with the newer deck sends its global row, its daily rows since
   * its last sync's day and its history since its last sync; the other side
   * takes them over, and the sender keeps its own unchanged.
   */
  lemma SyncAggregates(L: Store, R: Store, ls: DeckSummary, rs: DeckSummary, p: Payload, r: Reply,
                       nowL: Time, nowR: Time, dayOf: Time -> int)
    requires p.deck == if L.deck.modified > R.deck.modified then Some(Bundle(L, dayOf)) else None
    requires ReplyOf(r, R, p, dayOf)
    ensures var L2 := AfterReply(AfterGen(L, ls, rs, L.deck.modified, R.deck.modified, nowL), r);
            var R2 := AfterApply(R, p, nowR);
            if L.deck.modified > R.deck.modified then
              L2.global == L.global && L2.daily == L.daily && L2.history == L.history
              && R2.global == L.global
              && R2.daily == MergeDaily(R.daily, DailySince(L.daily, dayOf(L.deck.lastSync)))
              && R2.history == R.history + HistorySince(L.history, L.deck.lastSync)
            else
              R2.global == R.global && R2.daily == R.daily && R2.history == R.history
              && L2.global == R.global
              && L2.daily == MergeDaily(L.daily, DailySince(R.daily, dayOf(R.deck.lastSync)))
              && L2.history == L.history + HistorySince(R.history, R.deck.lastSync)
  {
    var R1 := Applied(R, Models, p.models, nowR);
    var R2 := Applied(R1, Facts, p.facts, nowR);
    AppliedKeepsDeck(R, Models, p.models, nowR);
    AppliedKeepsDeck(R1, Facts, p.facts, nowR);
    AppliedKeepsDeck(R2, Cards, p.cards, nowR);
    var L1 := AfterGen(L, ls, rs, L.deck.modified, R.deck.modified, nowL);
    var L2 := Updated(L1, Models, r.models);
    var L3 := Updated(L2, Facts, r.facts);
    UpdatedKeepsDeck(L1, Models, r.models);
    UpdatedKeepsDeck(L2, Facts, r.facts);
    UpdatedKeepsDeck(L3, Cards, r.cards);
  }

  /** `applyPayloadReply` never deletes: every live row stays live. */
  lemma ReplyNeverDeletes(s: Store, r: Reply, k: Kind, x: Id)
    ensures x in s.Of(k).live ==> x in AfterReply(s, r).Of(k).live
  {
    AfterReplyOf(s, r, k);
  }
}
