/**
 * One replica taking part in a sync (libanki/anki/sync.py, `SyncTools`): its
 * deck, tables, statistics and history are fields that the protocol's steps
 * update in place.  Each method is tied to the function of `SyncStore` that
 * gives the new store.
 */
module SyncReplica {
  import opened Wrappers
  import opened SyncDiff
  import opened SyncStore

  /** The rows of `m` whose id is in `keep`, in some order: what a `select ... where` returns. */
  method Collect<V>(m: map<Id, V>, keep: set<Id>) returns (rows: seq<(Id, V)>)
    ensures DictOf(rows) == map x | x in m && x in keep :: m[x]
  {
    rows := [];
    var rest := m.Keys * keep;
    ghost var done: set<Id> := {};
    while rest != {}
      invariant rest !! done && rest + done == m.Keys * keep
      invariant DictOf(rows) == map x | x in done :: m[x]
      decreases rest
    {
      var x := Pick(rest);
      DictOfSnoc(rows, (x, m[x]));
      rows := rows + [(x, m[x])];
      rest := rest - {x};
      done := done + {x};
    }
  }

  /** Every id a diff list names, and no other, receives its outcome. */
  lemma ElemsOfOutcome(part: seq<Id>, lv: View, rv: View, o: Outcome)
    requires o != InSync
    requires forall x :: x in part <==> Classify(lv, rv, x) == o
    ensures Elems(part) == OutcomeIds(lv, rv, o)
  {
    forall x
      ensures x in Elems(part) <==> x in OutcomeIds(lv, rv, o)
    {
      if x !in Mentioned(lv, rv) {
        UnmentionedInSync(lv, rv, x);
      }
    }
  }

  class Replica {
    var deck: Deck
    var models: Table
    var facts: Table
    var cards: Table
    var fields: map<Id, Field>
    var global: DayStats
    var daily: seq<DayStats>
    var history: seq<Review>

    /** The replica's whole state as a value. */
    function State(): Store
      reads this
    {
      Store(deck, models, facts, cards, fields, global, daily, history)
    }

    constructor (s: Store)
      ensures State() == s
    {
      deck, models, facts, cards, fields := s.deck, s.models, s.facts, s.cards, s.fields;
      global, daily, history := s.global, s.daily, s.history;
    }

    /** One kind's summary: rows modified, and tombstones made, strictly after `since`. */
    method KindSummaryOf(t: Table, since: Time) returns (sum: KindSummary)
      ensures ViewOf(sum) == Since(t, since)
    {
      var mods := map x | x in t.live :: t.live[x].modified;
      var live := Collect(mods, set x | x in mods && mods[x] > since);
      var deleted := Collect(t.graves, set x | x in t.graves && t.graves[x] > since);
      sum := KindSummary(live, deleted);
      assert ViewOf(sum).live == Since(t, since).live;
    }

    /** `summary(lastSync)`: for each kind, what changed on this replica after `since`. */
    method Summary(since: Time) returns (sum: DeckSummary)
      ensures forall k :: ViewOf(sum.For(k)) == Since(State().Of(k), since)
    {
      var m := KindSummaryOf(models, since);
      var f := KindSummaryOf(facts, since);
      var c := KindSummaryOf(cards, since);
      sum := DeckSummary(m, f, c);
    }

    /** `getObjsFromKey`: the live rows of the given ids and, for facts, all fields of those facts. */
    method GetObjs(k: Kind, ids: seq<Id>) returns (b: Batch)
      ensures BatchOf(b, State(), k, Elems(ids))
    {
      var rows := Collect(State().Of(k).live, Elems(ids));
      if k == Facts {
        var fs := Collect(fields, set f | f in fields && fields[f].factId in Elems(ids));
        b := Batch(rows, fs);
      } else {
        b := Batch(rows, []);
      }
    }

    /** `updateModels`: each model is found or created by id, then overwritten by the incoming one. */
    method UpdateModels(rows: seq<Row>)
      modifies this
      ensures State() == old(State()).(models := Upsert(old(models), DictOf(rows)))
    {
      var t := models;
      for i := 0 to |rows|
        invariant unchanged(this)
        invariant t == Upsert(old(models), DictOf(rows[..i]))
      {
        DictOfPrefix(rows, i);
        UpsertOne(old(models), DictOf(rows[..i]), rows[i].0, rows[i].1);
        t := Upsert(t, map[rows[i].0 := rows[i].1]);
      }
      assert rows[..|rows|] == rows;
      models := t;
    }

    /** `updateObjsFromKey`: insert-or-replace; an empty fact or card batch returns at once. */
    method UpdateObjs(k: Kind, b: Batch)
      modifies this
      ensures State() == Updated(old(State()), k, b)
    {
      match k {
        case Models =>
          UpdateModels(b.rows);
          if b.rows == [] {
            assert Upsert(old(models), DictOf(b.rows)) == old(models);
          }
        case Facts =>
          if b.rows == [] {
            return;
          }
          facts := Upsert(facts, DictOf(b.rows));
          fields := fields + DictOf(b.fields);
        case Cards =>
          if b.rows == [] {
            return;
          }
          cards := Upsert(cards, DictOf(b.rows));
      }
    }

    /** `deleteModels`: ids without a local model are skipped. */
    method DeleteModels(ids: seq<Id>, now: Time)
      modifies this
      ensures State() == old(State()).(models := Delete(old(models), Elems(ids), now))
    {
      var t := models;
      for i := 0 to |ids|
        invariant unchanged(this)
        invariant t == Delete(old(models), Elems(ids[..i]), now)
      {
        assert Elems(ids[..i + 1]) == Elems(ids[..i]) + {ids[i]};
        DeleteOne(old(models), Elems(ids[..i]), ids[i], now);
        t := Delete(t, {ids[i]}, now);
      }
      assert ids[..|ids|] == ids;
      models := t;
    }

    /** `deleteObjsFromKey` */
    method DeleteObjs(k: Kind, ids: seq<Id>, now: Time)
      modifies this
      ensures State() == Deleted(old(State()), k, ids, now)
    {
      match k {
        case Models => DeleteModels(ids, now);
        case Facts => facts := Delete(facts, Elems(ids), now);
        case Cards => cards := Delete(cards, Elems(ids), now);
      }
    }

    /** `updateDeck`: the incoming deck row is taken over, then marked as synced at its own modification time. */
    method UpdateDeck(d: Deck)
      modifies this
      ensures State() == old(State()).(deck := d.(lastSync := d.modified))
      ensures deck.lastSync == deck.modified
    {
      deck := d;
      deck := deck.(lastSync := deck.modified);
    }

    /** `updateStats`: the global row is overwritten; a daily row is added only for a day not yet recorded. */
    method UpdateStats(g: DayStats, records: seq<DayStats>)
      modifies this
      ensures State() == old(State()).(global := g, daily := MergeDaily(old(daily), records))
    {
      global := g;
      for i := 0 to |records|
        invariant State() == old(State()).(global := g, daily := MergeDaily(old(daily), records[..i]))
      {
        assert records[..i + 1][..i] == records[..i];
        if !HasDay(daily, records[i].day) {
          daily := daily + [records[i]];
        }
      }
      assert records[..|records|] == records;
    }

    /** `updateHistory`: every incoming entry is appended. */
    method UpdateHistory(entries: seq<Review>)
      modifies this
      ensures State() == old(State()).(history := old(history) + entries)
    {
      history := history + entries;
    }

    /** The deck, stats and history bundles of `genPayload` and `applyPayload`. */
    method BundleDeck(dayOf: Time -> int) returns (b: DeckBundle)
      ensures b == Bundle(State(), dayOf)
      ensures b.deck == deck && b.global == global
      ensures forall s :: s in b.daily <==> s in daily && s.day >= dayOf(deck.lastSync)
      ensures forall h :: h in b.history <==> h in history && h.time > deck.lastSync
    {
      b := DeckBundle(deck, global, DailySince(daily, dayOf(deck.lastSync)), HistorySince(history, deck.lastSync));
    }

    /** One kind of `genPayload`: diff the summaries, collect the payload part, apply the remote deletions. */
    method GenPart(k: Kind, lsum: DeckSummary, rsum: DeckSummary, now: Time) returns (part: KindPayload)
      modifies this
      ensures PartOf(part, old(State()), lsum, rsum, k)
      ensures State() == old(State()).With(k, Delete(old(State()).Of(k), Ids(lsum, rsum, k, RemotelyDeleted), now))
    {
      var lv, rv := ViewOf(lsum.For(k)), ViewOf(rsum.For(k));
      var diff := DiffSummary(lsum.For(k), rsum.For(k));
      ElemsOfOutcome(diff.locallyEdited, lv, rv, LocallyEdited);
      ElemsOfOutcome(diff.locallyDeleted, lv, rv, LocallyDeleted);
      ElemsOfOutcome(diff.remotelyEdited, lv, rv, RemotelyEdited);
      ElemsOfOutcome(diff.remotelyDeleted, lv, rv, RemotelyDeleted);
      var added := GetObjs(k, diff.locallyEdited);
      part := KindPayload(added, diff.locallyDeleted, diff.remotelyEdited);
      DeleteObjs(k, diff.remotelyDeleted, now);
    }

    /**
     * `genPayload`: for each kind, send the local edits and deletions and ask
     * for the remote edits, and apply the remote deletions here; send the deck
     * bundle, and mark this deck as synced, only when this deck is strictly newer.
     */
    method GenPayload(lsum: DeckSummary, rsum: DeckSummary, localTime: Time, remoteTime: Time,
                      now: Time, dayOf: Time -> int) returns (p: Payload)
      modifies this
      ensures State() == AfterGen(old(State()), lsum, rsum, localTime, remoteTime, now)
      ensures PartOf(p.models, old(State()), lsum, rsum, Models)
      ensures PartOf(p.facts, old(State()), lsum, rsum, Facts)
      ensures PartOf(p.cards, old(State()), lsum, rsum, Cards)
      ensures p.deck == if localTime > remoteTime then Some(Bundle(old(State()), dayOf)) else None
    {
      var m := GenPart(Models, lsum, rsum, now);
      var f := GenPart(Facts, lsum, rsum, now);
      var c := GenPart(Cards, lsum, rsum, now);
      var bundle := None;
      if localTime > remoteTime {
        var b := BundleDeck(dayOf);
        bundle := Some(b);
        deck := deck.(lastSync := deck.modified);
      }
      p := Payload(m, f, c, bundle);
    }

    /** One kind of `applyPayload`: send back what was asked for, upsert what came, delete what was deleted. */
    method ApplyPart(k: Kind, part: KindPayload, now: Time) returns (b: Batch)
      modifies this
      ensures BatchOf(b, old(State()), k, Elems(part.missing))
      ensures State() == Applied(old(State()), k, part, now)
    {
      b := GetObjs(k, part.missing);
      UpdateObjs(k, part.added);
      DeleteObjs(k, part.deleted, now);
    }

    /**
     * `applyPayload`: apply each kind's part; without an incoming deck bundle,
     * reply with this deck's bundle and mark this deck as synced, otherwise
     * take over the incoming deck, stats and history.
     */
    method ApplyPayload(p: Payload, now: Time, dayOf: Time -> int) returns (r: Reply)
      modifies this
      ensures State() == AfterApply(old(State()), p, now)
      ensures ReplyOf(r, old(State()), p, dayOf)
    {
      var m := ApplyPart(Models, p.models, now);
      ghost var s1 := State();
      var f := ApplyPart(Facts, p.facts, now);
      ghost var s2 := State();
      var c := ApplyPart(Cards, p.cards, now);
      assert BatchOf(f, old(State()), Facts, Elems(p.facts.missing)) by {
        UpdatedOf(old(State()), Models, p.models.added, Facts);
        DeletedOf(Updated(old(State()), Models, p.models.added), Models, p.models.deleted, now, Facts);
      }
      assert BatchOf(c, old(State()), Cards, Elems(p.cards.missing)) by {
        UpdatedOf(old(State()), Models, p.models.added, Cards);
        DeletedOf(Updated(old(State()), Models, p.models.added), Models, p.models.deleted, now, Cards);
        UpdatedOf(s1, Facts, p.facts.added, Cards);
        DeletedOf(Updated(s1, Facts, p.facts.added), Facts, p.facts.deleted, now, Cards);
      }
      var bundle := None;
      if p.deck.None? {
        var b := BundleDeck(dayOf);
        bundle := Some(b);
        deck := deck.(lastSync := deck.modified);
      } else {
        var b := p.deck.value;
        UpdateDeck(b.deck);
        UpdateStats(b.global, b.daily);
        UpdateHistory(b.history);
      }
      r := Reply(m, f, c, bundle);
    }

    /** `applyPayloadReply`: upsert what came back, then take over the deck bundle if one came. */
    method ApplyPayloadReply(r: Reply)
      modifies this
      ensures State() == AfterReply(old(State()), r)
    {
      UpdateObjs(Models, r.models);
      UpdateObjs(Facts, r.facts);
      UpdateObjs(Cards, r.cards);
      if r.deck.Some? {
        var b := r.deck.value;
        UpdateDeck(b.deck);
        UpdateStats(b.global, b.daily);
        UpdateHistory(b.history);
      }
    }

    /**
     * `sync`: summarise both sides from the baseline, send the payload to
     * `server`, and apply its reply.  Each kind's tables end as `KindSync`
     * says, the fields as `FieldSync` says, and both decks end as the newer
     * deck, marked as synced; the side with the older deck takes over the
     * newer side's statistics and its history since its last sync.
     */
    method Sync(server: Replica, nowL: Time, nowR: Time, dayOf: Time -> int)
      requires server != this
      modifies this, server
      ensures forall k :: (State().Of(k), server.State().Of(k)) ==
                KindSync(old(State()).Of(k), old(server.State()).Of(k), Baseline(old(deck), old(server.deck)), nowL, nowR)
      ensures deck == server.deck && deck.lastSync == deck.modified
      ensures deck == if old(deck.modified) > old(server.deck.modified) then old(deck).(lastSync := old(deck.modified))
                      else old(server.deck).(lastSync := old(server.deck.modified))
      ensures (fields, server.fields) == FieldSync(old(State()), old(server.State()), Baseline(old(deck), old(server.deck)))
      ensures old(deck.modified) > old(server.deck.modified) ==>
                global == old(global) && daily == old(daily) && history == old(history)
                && server.global == old(global)
                && server.daily == MergeDaily(old(server.daily), DailySince(old(daily), dayOf(old(deck.lastSync))))
                && server.history == old(server.history) + HistorySince(old(history), old(deck.lastSync))
      ensures old(deck.modified) <= old(server.deck.modified) ==>
                server.global == old(server.global) && server.daily == old(server.daily) && server.history == old(server.history)
                && global == old(server.global)
                && daily == MergeDaily(old(daily), DailySince(old(server.daily), dayOf(old(server.deck.lastSync))))
                && history == old(history) + HistorySince(old(server.history), old(server.deck.lastSync))
    {
      var localTime := deck.modified;
      var remoteTime := server.deck.modified;
      var b := if deck.lastSync != server.deck.lastSync then 0 else deck.lastSync;
      ghost var L, R := State(), server.State();
      var lsum := Summary(b);
      var rsum := server.Summary(b);
      var payload := GenPayload(lsum, rsum, localTime, remoteTime, nowL, dayOf);
      ghost var L1 := State();
      assert L1 == AfterGen(L, lsum, rsum, localTime, remoteTime, nowL);
      var reply := server.ApplyPayload(payload, nowR, dayOf);
      ghost var R1 := server.State();
      assert R1 == AfterApply(R, payload, nowR);
      ApplyPayloadReply(reply);
      assert State() == AfterReply(L1, reply);
      assert server.State() == R1;
      SyncKinds(L, R, b, lsum, rsum, payload, reply, localTime, remoteTime, nowL, nowR, dayOf);
      SyncDeck(L, R, lsum, rsum, payload, reply, nowL, nowR, dayOf);
      SyncFields(L, R, b, lsum, rsum, payload, reply, localTime, remoteTime, nowL, nowR, dayOf);
      SyncAggregates(L, R, lsum, rsum, payload, reply, nowL, nowR, dayOf);
    }
  }
}
