/**
 * Tag strings (libanki/anki/utils.py): a tag string is a comma-separated
 * list; `parseTags` reads it, `findTag` looks a tag up ignoring case,
 * `addTags`, `deleteTags` and `mergeTags` rewrite it as ", "-joined tags.
 */
module Tags {
  import opened Wrappers
  import opened PyStr

  /** A tag as `parseTags` yields it: non-empty, without a comma, no whitespace at either end. */
  predicate Clean(t: string)
  {
    t != [] && ',' !in t && NoEdgeSpace(t)
  }

  predicate AllClean(ts: seq<string>)
  {
    forall i :: 0 <= i < |ts| ==> Clean(ts[i])
  }

  /** One piece, stripped, as a list of at most one tag. */
  function Piece(p: string): (r: seq<string>)
    ensures |r| <= 1
  {
    var s := Strip(p);
    if s != [] then [s] else []
  }

  /** The stripped pieces that are not empty after stripping, in order. */
  function Kept(pieces: seq<string>): (r: seq<string>)
    ensures |r| <= |pieces|
  {
    if pieces == [] then [] else Piece(pieces[0]) + Kept(pieces[1..])
  }

  /** Pieces without commas leave clean tags. */
  lemma {:induction false} KeptClean(pieces: seq<string>)
    requires forall i :: 0 <= i < |pieces| ==> ',' !in pieces[i]
    ensures AllClean(Kept(pieces))
    decreases |pieces|
  {
    if pieces != [] {
      assert ',' !in pieces[0];
      assert AllClean(Piece(pieces[0]));
      KeptClean(pieces[1..]);
    }
  }

  /** `Kept` of a concatenation, one step. */
  lemma KeptStep(a: seq<string>, b: seq<string>)
    requires a != []
    ensures Kept(a + b) == Piece(a[0]) + Kept(a[1..] + b)
  {
    assert (a + b)[0] == a[0];
    assert (a + b)[1..] == a[1..] + b;
  }

  lemma {:induction false} KeptConcat(a: seq<string>, b: seq<string>)
    ensures Kept(a + b) == Kept(a) + Kept(b)
    decreases |a|
  {
    if a != [] {
      KeptStep(a, b);
      KeptConcat(a[1..], b);
      ConcatAssoc(Piece(a[0]), Kept(a[1..]), Kept(b));
    } else {
      assert a + b == b;
    }
  }

  /** `parseTags`: the comma-separated pieces, stripped, empty ones dropped. */
  function ParseTags(tags: string): (r: seq<string>)
    ensures AllClean(r)
  {
    KeptClean(Split(tags, ','));
    Kept(Split(tags, ','))
  }

  /** Parsing keeps input order: the tags before a comma come first. */
  lemma ParseConcat(a: string, b: string)
    ensures ParseTags(a + [','] + b) == ParseTags(a) + ParseTags(b)
  {
    SplitConcat(a, b, ',');
    KeptConcat(Split(a, ','), Split(b, ','));
  }

  /** A clean tag behind whitespace parses as itself. */
  lemma ParseOne(w: string, t: string)
    requires AllSpace(w) && Clean(t)
    ensures ParseTags(w + t) == [t]
  {
    assert forall i :: 0 <= i < |w| ==> w[i] != ',';
    SplitWithout(w + t, ',');
    assert w + t + [] == w + t;
    StripOf(w, t, []);
  }

  /** Whitespace alone parses as no tags. */
  lemma ParseNone(w: string)
    requires AllSpace(w)
    ensures ParseTags(w) == []
  {
    assert forall i :: 0 <= i < |w| ==> w[i] != ',';
    SplitWithout(w, ',');
    StripSpaces(w);
  }

  /** Clean tags behind whitespace, joined with ", ", parse back to themselves. */
  lemma {:induction false} ParseJoinAfter(w: string, ts: seq<string>)
    requires AllSpace(w) && AllClean(ts)
    ensures ParseTags(w + Join(ts, ", ")) == ts
    decreases |ts|
  {
    if ts == [] {
      assert w + Join(ts, ", ") == w;
      ParseNone(w);
    } else if |ts| == 1 {
      ParseOne(w, ts[0]);
    } else {
      var rest := Join(ts[1..], ", ");
      assert w + Join(ts, ", ") == (w + ts[0]) + [','] + (" " + rest);
      ParseConcat(w + ts[0], " " + rest);
      ParseOne(w, ts[0]);
      ParseJoinAfter(" ", ts[1..]);
    }
  }

  /** Round trip: clean tags joined with ", " parse back to the same list. */
  lemma ParseJoin(ts: seq<string>)
    requires AllClean(ts)
    ensures ParseTags(Join(ts, ", ")) == ts
  {
    assert [] + Join(ts, ", ") == Join(ts, ", ");
    ParseJoinAfter([], ts);
  }

  /** `findTag`: some tag equals `tag` ignoring (ASCII) case. */
  function FindTag(tag: string, tags: seq<string>): (r: bool)
    ensures r <==> exists i :: 0 <= i < |tags| && Lower(tags[i]) == Lower(tag)
  {
    var lowered := seq(|tags|, i requires 0 <= i < |tags| => Lower(tags[i]));
    assert forall i :: 0 <= i < |tags| ==> lowered[i] == Lower(tags[i]);
    Lower(tag) in lowered
  }

  /** A tag is found exactly when its lower-case form is. */
  lemma FindTagIgnoresCase(tag: string, tags: seq<string>)
    ensures FindTag(tag, tags) == FindTag(Lower(tag), tags)
  {
    LowerIdempotent(tag);
  }

  /** What is found in a list is found after appending to it. */
  lemma FindTagAppend(tag: string, tags: seq<string>, t: string)
    ensures FindTag(tag, tags + [t]) <==> FindTag(tag, tags) || Lower(t) == Lower(tag)
  {
    if FindTag(tag, tags) {
      var i :| 0 <= i < |tags| && Lower(tags[i]) == Lower(tag);
      assert (tags + [t])[i] == tags[i];
    }
    if Lower(t) == Lower(tag) {
      assert (tags + [t])[|tags|] == t;
    }
    if FindTag(tag, tags + [t]) {
      var i :| 0 <= i < |tags| + 1 && Lower((tags + [t])[i]) == Lower(tag);
      if i < |tags| {
        assert (tags + [t])[i] == tags[i];
      }
    }
  }

  /** The loop of `addTags`: each new tag not already there, ignoring case, is appended. */
  function AddAll(current: seq<string>, incoming: seq<string>): seq<string>
    decreases |incoming|
  {
    if incoming == [] then current
    else AddAll(if FindTag(incoming[0], current) then current else current + [incoming[0]], incoming[1..])
  }

  /** The existing tags stay first and in order; everything after them is a new tag. */
  lemma {:induction false} AddAllExtends(current: seq<string>, incoming: seq<string>)
    ensures |current| <= |AddAll(current, incoming)| && AddAll(current, incoming)[..|current|] == current
    ensures forall i :: |current| <= i < |AddAll(current, incoming)| ==> AddAll(current, incoming)[i] in incoming
    decreases |incoming|
  {
    if incoming != [] {
      var next := if FindTag(incoming[0], current) then current else current + [incoming[0]];
      AddAllExtends(next, incoming[1..]);
      var r := AddAll(current, incoming);
      assert r[..|current|] == r[..|next|][..|current|];
      forall i | |current| <= i < |r|
        ensures r[i] in incoming
      {
        if i >= |next| {
          assert r[i] in incoming[1..];
        } else {
          assert r[i] == next[i] == incoming[0];
        }
      }
    }
  }

  /** Every tag that was found stays found. */
  lemma {:induction false} AddAllKeepsFound(tag: string, current: seq<string>, incoming: seq<string>)
    requires FindTag(tag, current)
    ensures FindTag(tag, AddAll(current, incoming))
    decreases |incoming|
  {
    if incoming != [] {
      if !FindTag(incoming[0], current) {
        FindTagAppend(tag, current, incoming[0]);
      }
      AddAllKeepsFound(tag, if FindTag(incoming[0], current) then current else current + [incoming[0]], incoming[1..]);
    }
  }

  /** After `addTags`, every new tag is present, ignoring case. */
  lemma {:induction false} AddAllFinds(current: seq<string>, incoming: seq<string>)
    ensures forall j :: 0 <= j < |incoming| ==> FindTag(incoming[j], AddAll(current, incoming))
    decreases |incoming|
  {
    if incoming != [] {
      var next := if FindTag(incoming[0], current) then current else current + [incoming[0]];
      if !FindTag(incoming[0], current) {
        FindTagAppend(incoming[0], current, incoming[0]);
      }
      AddAllKeepsFound(incoming[0], next, incoming[1..]);
      AddAllFinds(next, incoming[1..]);
      forall j | 1 <= j < |incoming|
        ensures FindTag(incoming[j], AddAll(current, incoming))
      {
        assert incoming[j] == incoming[1..][j - 1];
      }
    }
  }

  /** Adding tags that are all present already changes nothing. */
  lemma {:induction false} AddAllPresent(current: seq<string>, incoming: seq<string>)
    requires forall j :: 0 <= j < |incoming| ==> FindTag(incoming[j], current)
    ensures AddAll(current, incoming) == current
    decreases |incoming|
  {
    if incoming != [] {
      AddAllPresent(current, incoming[1..]);
    }
  }

  /** Adding clean tags to clean tags gives clean tags. */
  lemma AddAllClean(current: seq<string>, incoming: seq<string>)
    requires AllClean(current) && AllClean(incoming)
    ensures AllClean(AddAll(current, incoming))
  {
    AddAllExtends(current, incoming);
    var r := AddAll(current, incoming);
    forall i | 0 <= i < |r|
      ensures Clean(r[i])
    {
      if i < |current| {
        assert r[i] == r[..|current|][i];
      }
    }
  }

  /** The tag string `addTags(tagstr, tags)` returns. */
  function Added(tagstr: string, tags: string): string
  {
    Join(AddAll(ParseTags(tags), ParseTags(tagstr)), ", ")
  }

  /** The loop of `addTags` over parsed tags: each new tag not found ignoring case is appended. */
  method AddEach(current: seq<string>, incoming: seq<string>) returns (r: seq<string>)
    ensures r == AddAll(current, incoming)
  {
    r := current;
    for i := 0 to |incoming|
      invariant AddAll(r, incoming[i..]) == AddAll(current, incoming)
    {
      assert incoming[i..][1..] == incoming[i + 1..];
      if !FindTag(incoming[i], r) {
        r := r + [incoming[i]];
      }
    }
    assert incoming[|incoming|..] == [];
  }

  /** `addTags`: parse both strings, append each new tag not found ignoring case, join with ", ". */
  method AddTags(tagstr: string, tags: string) returns (r: string)
    ensures r == Added(tagstr, tags)
  {
    var currentTags := AddEach(ParseTags(tags), ParseTags(tagstr));
    r := Join(currentTags, ", ");
  }

  /**
   * Read back, the result of `addTags` starts with the old tags in order,
   * holds every new tag ignoring case, and holds nothing else.
   */
  lemma AddedTags(tagstr: string, tags: string)
    ensures ParseTags(Added(tagstr, tags)) == AddAll(ParseTags(tags), ParseTags(tagstr))
    ensures var before, r := ParseTags(tags), ParseTags(Added(tagstr, tags));
            |before| <= |r| && r[..|before|] == before && (forall i :: |before| <= i < |r| ==> r[i] in ParseTags(tagstr))
    ensures forall t :: t in ParseTags(tagstr) ==> FindTag(t, ParseTags(Added(tagstr, tags)))
  {
    var incoming := ParseTags(tagstr);
    AddAllClean(ParseTags(tags), incoming);
    ParseJoin(AddAll(ParseTags(tags), incoming));
    AddAllExtends(ParseTags(tags), incoming);
    AddAllFinds(ParseTags(tags), incoming);
  }

  /** Adding the same tags twice is adding them once. */
  lemma AddedIdempotent(tagstr: string, tags: string)
    ensures Added(tagstr, Added(tagstr, tags)) == Added(tagstr, tags)
  {
    var incoming := ParseTags(tagstr);
    var once := AddAll(ParseTags(tags), incoming);
    AddAllClean(ParseTags(tags), incoming);
    ParseJoin(once);
    AddAllFinds(ParseTags(tags), incoming);
    AddAllPresent(once, incoming);
  }

  /** Where `t` first occurs in `ts`; `|ts|` when it does not. */
  function IndexOf(ts: seq<string>, t: string): (i: nat)
    ensures i <= |ts| && (i < |ts| <==> t in ts)
    ensures i < |ts| ==> ts[i] == t
    ensures forall j :: 0 <= j < i ==> ts[j] != t
  {
    if ts == [] then 0
    else if ts[0] == t then 0
    else 1 + IndexOf(ts[1..], t)
  }

  /** `list.remove`: the first occurrence of `t` taken out; nothing happens when there is none. */
  function RemoveFirst(ts: seq<string>, t: string): (r: seq<string>)
    ensures t in ts ==> r == ts[..IndexOf(ts, t)] + ts[IndexOf(ts, t) + 1..]
    ensures t !in ts ==> r == ts
  {
    if ts == [] then []
    else if ts[0] == t then ts[1..]
    else
      var rest := RemoveFirst(ts[1..], t);
      if t in ts then
        ConsCut(ts, IndexOf(ts[1..], t));
        [ts[0]] + rest
      else
        [ts[0]] + rest
  }

  /** Removing the first occurrence removes one copy of `t` and no other element. */
  lemma {:induction false} RemoveFirstCounts(ts: seq<string>, t: string)
    ensures multiset(RemoveFirst(ts, t)) == multiset(ts) - multiset{t}
    decreases |ts|
  {
    if ts != [] {
      MultisetCons(ts);
      if ts[0] != t {
        RemoveFirstCounts(ts[1..], t);
        MultisetCons(RemoveFirst(ts, t));
      }
    }
  }

  /** The loop of `deleteTags`: one exact occurrence of each listed tag is removed, in turn. */
  function DeleteAll(current: seq<string>, gone: seq<string>): seq<string>
    decreases |gone|
  {
    if gone == [] then current else DeleteAll(RemoveFirst(current, gone[0]), gone[1..])
  }

  /** Taking away two multisets in turn is taking away their sum. */
  lemma MinusMinus(a: multiset<string>, b: multiset<string>, c: multiset<string>)
    ensures a - b - c == a - (b + c)
  {
    forall x
      ensures (a - b - c)[x] == (a - (b + c))[x]
    {
    }
  }

  /** Exactly as many copies go as are listed, case-sensitively, and absent tags are ignored. */
  lemma {:induction false} DeleteAllCounts(current: seq<string>, gone: seq<string>)
    ensures multiset(DeleteAll(current, gone)) == multiset(current) - multiset(gone)
    decreases |gone|
  {
    if gone != [] {
      var next := RemoveFirst(current, gone[0]);
      DeleteAllCounts(next, gone[1..]);
      RemoveFirstCounts(current, gone[0]);
      MultisetCons(gone);
      MinusMinus(multiset(current), multiset{gone[0]}, multiset(gone[1..]));
    }
  }

  /** The tag string `deleteTags(tagstr, tags)` returns. */
  function Deleted(tagstr: string, tags: string): string
  {
    Join(DeleteAll(ParseTags(tags), ParseTags(tagstr)), ", ")
  }

  /** The loop of `deleteTags` over parsed tags: `list.remove` for each listed tag, absent ones skipped. */
  method RemoveEach(current: seq<string>, gone: seq<string>) returns (r: seq<string>)
    ensures r == DeleteAll(current, gone)
  {
    r := current;
    for i := 0 to |gone|
      invariant DeleteAll(r, gone[i..]) == DeleteAll(current, gone)
    {
      assert gone[i..][1..] == gone[i + 1..];
      r := RemoveFirst(r, gone[i]);
    }
    assert gone[|gone|..] == [];
  }

  /** `deleteTags`: parse both strings, remove one exact occurrence of each listed tag, join with ", ". */
  method DeleteTags(tagstr: string, tags: string) returns (r: string)
    ensures r == Deleted(tagstr, tags)
  {
    var currentTags := RemoveEach(ParseTags(tags), ParseTags(tagstr));
    r := Join(currentTags, ", ");
  }

  /** Read back, the result of `deleteTags` holds the old tags less one copy of each listed tag. */
  lemma DeletedTags(tagstr: string, tags: string)
    ensures ParseTags(Deleted(tagstr, tags)) == DeleteAll(ParseTags(tags), ParseTags(tagstr))
    ensures multiset(ParseTags(Deleted(tagstr, tags))) == multiset(ParseTags(tags)) - multiset(ParseTags(tagstr))
  {
    var rest := DeleteAll(ParseTags(tags), ParseTags(tagstr));
    DeleteAllCounts(ParseTags(tags), ParseTags(tagstr));
    assert AllClean(rest) by {
      forall j | 0 <= j < |rest|
        ensures Clean(rest[j])
      {
        assert rest[j] in multiset(rest);
        assert rest[j] in multiset(ParseTags(tags));
      }
    }
    ParseJoin(rest);
  }

  /** No tag occurs twice. */
  predicate NoDuplicates(ts: seq<string>)
  {
    forall i, j :: 0 <= i < j < |ts| ==> ts[i] != ts[j]
  }

  /** The tags of each argument string, one after another. */
  function TagsOfAll(args: seq<string>): seq<string>
  {
    if args == [] then [] else ParseTags(args[0]) + TagsOfAll(args[1..])
  }

  /** Parsing the comma-joined arguments gives the tags of each argument, in order. */
  lemma {:induction false} ParseJoinedArgs(args: seq<string>)
    ensures ParseTags(Join(args, ",")) == TagsOfAll(args)
    decreases |args|
  {
    if args == [] {
      assert Split([], ',') == [[]];
    } else if |args| == 1 {
      assert TagsOfAll(args[1..]) == [];
    } else {
      ParseConcat(args[0], Join(args[1..], ","));
      ParseJoinedArgs(args[1..]);
    }
  }

  /** `mergeTags`: the distinct tags of all arguments, in whatever order a Python set yields them. */
  method MergeTags(args: seq<string>) returns (r: string)
    ensures NoDuplicates(ParseTags(r))
    ensures forall t :: t in ParseTags(r) <==> t in TagsOfAll(args)
  {
    var all := ParseTags(Join(args, ","));
    ParseJoinedArgs(args);
    var rest := set i | 0 <= i < |all| :: all[i];
    var ts: seq<string> := [];
    while rest != {}
      invariant forall t :: t in ts ==> t in all && t !in rest
      invariant forall t :: t in all ==> t in ts || t in rest
      invariant forall t :: t in rest ==> t in all
      invariant NoDuplicates(ts)
      decreases rest
    {
      var t := Pick(rest);
      ts := ts + [t];
      rest := rest - {t};
    }
    r := Join(ts, ", ");
    assert AllClean(ts) by {
      forall j | 0 <= j < |ts|
        ensures Clean(ts[j])
      {
        assert ts[j] in ts;
      }
    }
    ParseJoin(ts);
  }
}
