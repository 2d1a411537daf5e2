/**
 * Statistics (libanki/anki/stats.py): the answer counters kept over the
 * life of a deck and per day, their summary into totals and percentages,
 * the interval histogram of the deck report and the kanji grade helpers.
 * Thinking times and percentages are exact reals; the database rows are
 * objects of class `Stats`.
 */
module Statistics {
  import opened Wrappers
  import opened Cards

  /** The card types `summarizeStats` walks, in its order. */
  const CardTypes: seq<CardState> := [New, Young, Mature]

  class Stats {
    var reps: int
    var averageTime: real
    var reviewTime: real
    var distractedTime: real
    var distractedReps: int
    /** `newEase0` … `newEase4`. */
    var newEase: seq<int>
    /** `youngEase0` … `youngEase4`. */
    var youngEase: seq<int>
    /** `matureEase0` … `matureEase4`. */
    var matureEase: seq<int>

    /** Five counters per card type; distracted repetitions are repetitions. */
    predicate Valid()
      reads this
    {
      |newEase| == 5 && |youngEase| == 5 && |matureEase| == 5 && 0 <= distractedReps <= reps
    }

    /** The counters named `<type>Ease0` … `<type>Ease4`. */
    function Ease(t: CardState): seq<int>
      reads this
    {
      match t
      case New => newEase
      case Young => youngEase
      case Mature => matureEase
    }

    /** Every answer counted by type and ease. */
    function Answers(): int
      reads this
    {
      Sum(newEase) + Sum(youngEase) + Sum(matureEase)
    }

    /** A fresh row: every column at its default of 0. */
    constructor()
      ensures Valid() && reps == 0 && distractedReps == 0
      ensures forall t :: Ease(t) == [0, 0, 0, 0, 0]
      ensures Answers() == 0
    {
      reps, distractedReps := 0, 0;
      averageTime, reviewTime, distractedTime := 0.0, 0.0, 0.0;
      newEase, youngEase, matureEase := [0, 0, 0, 0, 0], [0, 0, 0, 0, 0], [0, 0, 0, 0, 0];
    }

    /**
     * The time part of `updateStats`: a delay of a minute or more counts as
     * distracted and is replaced by the average; a shorter one is added and
     * the average recomputed over the undistracted repetitions.
     */
    method CountTime(delay: real)
      requires Valid()
      modifies this
      ensures Valid()
      ensures reps == old(reps) + 1
      ensures distractedReps == old(distractedReps) + (if delay >= 60.0 then 1 else 0)
      ensures delay >= 60.0 ==> reviewTime == old(reviewTime) + old(averageTime)
                                && distractedTime == old(distractedTime) + (delay - 60.0)
                                && averageTime == old(averageTime)
      ensures delay < 60.0 ==> reviewTime == old(reviewTime) + delay && distractedTime == old(distractedTime)
                               && reps - distractedReps >= 1
                               && averageTime * (reps - distractedReps) as real == reviewTime
      ensures newEase == old(newEase) && youngEase == old(youngEase) && matureEase == old(matureEase)
    {
      reps := reps + 1;
      if delay >= 60.0 {
        reviewTime := reviewTime + averageTime;
        distractedTime := distractedTime + (delay - 60.0);
        distractedReps := distractedReps + 1;
      } else {
        reviewTime := reviewTime + delay;
        averageTime := reviewTime / (reps - distractedReps) as real;
      }
    }

    /** The counter part of `updateStats`: `<oldState>Ease<ease>` goes up by one. */
    method CountEase(ease: int, oldState: CardState)
      requires Valid() && 0 <= ease <= 4
      modifies this
      ensures Valid()
      ensures forall t :: Ease(t) == if t == oldState then old(Ease(t))[ease := old(Ease(t))[ease] + 1] else old(Ease(t))
      ensures Answers() == old(Answers()) + 1
      ensures reps == old(reps) && distractedReps == old(distractedReps) && averageTime == old(averageTime)
              && reviewTime == old(reviewTime) && distractedTime == old(distractedTime)
    {
      match oldState
      case New =>
        SumBump(newEase, ease);
        newEase := newEase[ease := newEase[ease] + 1];
      case Young =>
        SumBump(youngEase, ease);
        youngEase := youngEase[ease := youngEase[ease] + 1];
      case Mature =>
        SumBump(matureEase, ease);
        matureEase := matureEase[ease := matureEase[ease] + 1];
    }

    /**
     * `updateStats(stats, card, ease, oldState)` with the card's thinking
     * time `delay`.  An ease outside 0..4 names no column: the
     * AttributeError comes after the repetition and the time were counted.
     * Every counted answer is a repetition, and that stays so.
     */
    method UpdateStats(ease: int, oldState: CardState, delay: real) returns (r: Result<(), CardError>)
      requires Valid()
      modifies this
      ensures Valid()
      ensures reps == old(reps) + 1
      ensures distractedReps == old(distractedReps) + (if delay >= 60.0 then 1 else 0)
      ensures delay >= 60.0 ==> reviewTime == old(reviewTime) + old(averageTime)
                                && distractedTime == old(distractedTime) + (delay - 60.0)
                                && averageTime == old(averageTime)
      ensures delay < 60.0 ==> reviewTime == old(reviewTime) + delay && distractedTime == old(distractedTime)
                               && averageTime * (reps - distractedReps) as real == reviewTime
      ensures r.Err? <==> !(0 <= ease <= 4)
      ensures r.Ok? ==> forall t :: Ease(t) == if t == oldState then old(Ease(t))[ease := old(Ease(t))[ease] + 1] else old(Ease(t))
      ensures r.Err? ==> forall t :: Ease(t) == old(Ease(t))
      ensures Answers() == old(Answers()) + (if r.Ok? then 1 else 0)
      ensures old(Answers()) <= old(reps) ==> Answers() <= reps
    {
      CountTime(delay);
      if !(0 <= ease <= 4) {
        return Err(AttributeError);
      }
      CountEase(ease, oldState);
      r := Ok(());
    }
  }

  datatype Answer = Yes | No

  /**
   * The count keys of `summarizeStats`, without the prefix: `<Type>No`,
   * `<Type>Yes`, `<Type>Total`, `YesTotal`, `NoTotal` and `Total`.
   */
  datatype Key = PerType(t: CardState, a: Answer) | TypeTotal(t: CardState) | AnswerTotal(a: Answer) | Total

  /** `setPercentage`: the share of `total` in percent, and 0 where the division by zero is caught. */
  function Percentage(part: int, total: int): (r: real)
    ensures total == 0 ==> r == 0.0
    ensures 0 <= part <= total && total != 0 ==> 0.0 <= r <= 100.0
    ensures total != 0 ==> r * total as real == part as real * 100.0
  {
    if total == 0 then 0.0 else (part as real / total as real) * 100.0
  }

  /** The yes and no shares of a total made of yes and no add up to 100 percent. */
  lemma PercentagesComplement(yes: int, no: int)
    requires yes + no != 0
    ensures Percentage(yes, yes + no) + Percentage(no, yes + no) == 100.0
  {
    var t := (yes + no) as real;
    assert Percentage(yes, yes + no) == (yes as real / t) * 100.0;
    assert Percentage(no, yes + no) == (no as real / t) * 100.0;
    assert yes as real / t + no as real / t == (yes as real + no as real) / t;
  }

  /** The ease counters of answers that failed (0 and 1) and that passed (2 to 4). */
  function EaseCount(e: seq<int>, a: Answer): int
    requires |e| == 5
  {
    if a == No then e[0] + e[1] else e[2] + e[3] + e[4]
  }

  /** A type's no and yes counts together are all its counters. */
  lemma EaseCountsSum(e: seq<int>)
    requires |e| == 5
    ensures EaseCount(e, No) + EaseCount(e, Yes) == Sum(e)
  {
    assert Sum(e[4..]) == e[4] by { assert e[4..][1..] == []; }
    assert Sum(e[3..]) == e[3] + Sum(e[4..]) by { assert e[3..][1..] == e[4..]; }
    assert Sum(e[2..]) == e[2] + Sum(e[3..]) by { assert e[2..][1..] == e[3..]; }
    assert Sum(e[1..]) == e[1] + Sum(e[2..]) by { assert e[1..][1..] == e[2..]; }
  }

  /**
   * What `summarizeStats` means to store under each key: a type's failed or
   * passed answers, all of a type's answers, an answer over every type, and
   * every answer the row counted.
   */
  function Count(s: Stats, k: Key): int
    reads s
    requires s.Valid()
  {
    match k
    case PerType(t, a) => EaseCount(s.Ease(t), a)
    case TypeTotal(t) => Sum(s.Ease(t))
    case AnswerTotal(a) => EaseCount(s.newEase, a) + EaseCount(s.youngEase, a) + EaseCount(s.matureEase, a)
    case Total => s.Answers()
  }

  /** What `summarizeStats` means to store under the key `k + "%"`: a share of the matching total, 0 of an empty one. */
  function Share(s: Stats, k: Key): real
    reads s
    requires s.Valid()
  {
    match k
    case PerType(t, a) => Percentage(Count(s, k), Count(s, TypeTotal(t)))
    case AnswerTotal(a) => Percentage(Count(s, k), Count(s, Total))
    case _ => 0.0
  }

  /** The totals agree with one another: each type's total is its yes and no counts, and the grand total is both the sum of the type totals and `YesTotal + NoTotal`. */
  lemma CountsAgree(s: Stats)
    requires s.Valid()
    ensures forall t :: Count(s, TypeTotal(t)) == Count(s, PerType(t, Yes)) + Count(s, PerType(t, No))
    ensures Count(s, Total) == Count(s, TypeTotal(New)) + Count(s, TypeTotal(Young)) + Count(s, TypeTotal(Mature))
    ensures Count(s, Total) == Count(s, AnswerTotal(Yes)) + Count(s, AnswerTotal(No))
  {
    EaseCountsSum(s.newEase);
    EaseCountsSum(s.youngEase);
    EaseCountsSum(s.matureEase);
  }

  /** The yes and no shares of a non-empty total add up to 100. */
  lemma SharesComplement(s: Stats)
    requires s.Valid()
    ensures forall t :: Count(s, TypeTotal(t)) != 0 ==> Share(s, PerType(t, Yes)) + Share(s, PerType(t, No)) == 100.0
    ensures Count(s, Total) != 0 ==> Share(s, AnswerTotal(Yes)) + Share(s, AnswerTotal(No)) == 100.0
  {
    CountsAgree(s);
    forall t | Count(s, TypeTotal(t)) != 0
      ensures Share(s, PerType(t, Yes)) + Share(s, PerType(t, No)) == 100.0
    {
      PercentagesComplement(Count(s, PerType(t, Yes)), Count(s, PerType(t, No)));
    }
    if Count(s, Total) != 0 {
      PercentagesComplement(Count(s, AnswerTotal(Yes)), Count(s, AnswerTotal(No)));
    }
  }

  /** The answers `summarizeStats` totals, in its order. */
  const AnswerOrder: seq<Answer> := [Yes, No]

  /** The keys the first loop has filled after `n` card types. */
  function TypeKeys(n: nat): set<Key>
    requires n <= |CardTypes|
  {
    if n == 0 then {}
    else
      var t := CardTypes[n - 1];
      TypeKeys(n - 1) + {PerType(t, No), PerType(t, Yes), TypeTotal(t)}
  }

  /** The keys the second loop has filled after `m` answers. */
  function AnswerKeys(m: nat): set<Key>
    requires m <= |AnswerOrder|
  {
    if m == 0 then {} else AnswerKeys(m - 1) + {AnswerTotal(AnswerOrder[m - 1])}
  }

  /** The keys the percentage loops have filled after `n` card types, `m` answers of the next one. */
  function ShareKeys(n: nat, m: nat): set<Key>
    requires n <= |CardTypes| && m <= |AnswerOrder|
  {
    if m > 0 && n < |CardTypes| then ShareKeys(n, m - 1) + {PerType(CardTypes[n], AnswerOrder[m - 1])}
    else if n == 0 then {}
    else ShareKeys(n - 1, |AnswerOrder|)
  }

  /** Every key `summarizeStats` fills with a count. */
  const CountKeys: set<Key> :=
    {PerType(New, Yes), PerType(New, No), PerType(Young, Yes), PerType(Young, No), PerType(Mature, Yes), PerType(Mature, No),
     TypeTotal(New), TypeTotal(Young), TypeTotal(Mature), AnswerTotal(Yes), AnswerTotal(No), Total}

  /** Every key `summarizeStats` fills with a percentage. */
  const PercentKeys: set<Key> :=
    {PerType(New, Yes), PerType(New, No), PerType(Young, Yes), PerType(Young, No), PerType(Mature, Yes), PerType(Mature, No),
     AnswerTotal(Yes), AnswerTotal(No)}

  /** The counts hold every key there is. */
  lemma CountKeysComplete(k: Key)
    ensures k in CountKeys
  {
    match k
    case PerType(t, a) =>
      assert t == New || t == Young || t == Mature;
      assert a == Yes || a == No;
    case TypeTotal(t) =>
      assert t == New || t == Young || t == Mature;
    case AnswerTotal(a) =>
      assert a == Yes || a == No;
    case Total =>
  }

  /** The count of answer `a` over the first `n` card types. */
  function PartialAnswer(s: Stats, a: Answer, n: nat): int
    reads s
    requires s.Valid() && n <= |CardTypes|
  {
    if n == 0 then 0 else PartialAnswer(s, a, n - 1) + Count(s, PerType(CardTypes[n - 1], a))
  }

  /** The type totals of the first `n` card types. */
  function PartialTotal(s: Stats, n: nat): int
    reads s
    requires s.Valid() && n <= |CardTypes|
  {
    if n == 0 then 0 else PartialTotal(s, n - 1) + Count(s, TypeTotal(CardTypes[n - 1]))
  }

  /** Every entry of `h` holds what its key means. */
  predicate Faithful(s: Stats, h: map<Key, int>)
    reads s
    requires s.Valid()
  {
    forall k :: k in h ==> h[k] == Count(s, k)
  }

  /** Every entry of `p` holds what its key means. */
  predicate FaithfulShares(s: Stats, p: map<Key, real>)
    reads s
    requires s.Valid()
  {
    forall k :: k in p ==> p[k] == Share(s, k)
  }

  /** One pass of the first loop of `summarizeStats`: the no, yes and total counts of card type `t`. */
  method CountType(s: Stats, h0: map<Key, int>, t: CardState) returns (h: map<Key, int>)
    requires s.Valid() && Faithful(s, h0)
    ensures h.Keys == h0.Keys + {PerType(t, No), PerType(t, Yes), TypeTotal(t)} && Faithful(s, h)
  {
    var e := s.Ease(t);
    EaseCountsSum(e);
    h := h0[PerType(t, No) := e[0] + e[1]];
    h := h[PerType(t, Yes) := e[2] + e[3] + e[4]];
    h := h[TypeTotal(t) := h[PerType(t, No)] + h[PerType(t, Yes)]];
  }

  /** The first loop of `summarizeStats`: no, yes and total per card type. */
  method CountTypes(s: Stats) returns (h: map<Key, int>)
    requires s.Valid()
    ensures h.Keys == TypeKeys(|CardTypes|) && Faithful(s, h)
  {
    h := map[];
    for i := 0 to |CardTypes|
      invariant h.Keys == TypeKeys(i) && Faithful(s, h)
    {
      h := CountType(s, h, CardTypes[i]);
    }
  }

  /** The inner loop of the second: the entries of answer `a` summed over the types. */
  method SumOverTypes(s: Stats, h: map<Key, int>, a: Answer) returns (num: int)
    requires s.Valid() && TypeKeys(|CardTypes|) <= h.Keys && Faithful(s, h)
    ensures num == Count(s, AnswerTotal(a))
  {
    TypeKeysAll();
    num := 0;
    for n := 0 to |CardTypes|
      invariant num == PartialAnswer(s, a, n)
    {
      num := num + h[PerType(CardTypes[n], a)];
    }
    PartialAnswerAll(s, a);
  }

  /** The second loop: `YesTotal` and `NoTotal`, each summed over the types' entries. */
  method CountAnswers(s: Stats, h0: map<Key, int>) returns (h: map<Key, int>)
    requires s.Valid() && h0.Keys == TypeKeys(|CardTypes|) && Faithful(s, h0)
    ensures h.Keys == TypeKeys(|CardTypes|) + AnswerKeys(|AnswerOrder|) && Faithful(s, h)
  {
    h := h0;
    for m := 0 to |AnswerOrder|
      invariant h.Keys == TypeKeys(|CardTypes|) + AnswerKeys(m) && Faithful(s, h)
    {
      var a := AnswerOrder[m];
      var num := SumOverTypes(s, h, a);
      h := h[AnswerTotal(a) := num];
    }
  }

  /** The third loop: `Total`, summed over the type totals. */
  method CountTotal(s: Stats, h0: map<Key, int>) returns (h: map<Key, int>)
    requires s.Valid() && h0.Keys == TypeKeys(|CardTypes|) + AnswerKeys(|AnswerOrder|) && Faithful(s, h0)
    ensures h.Keys == CountKeys && Faithful(s, h)
  {
    var num := 0;
    TypeKeysAll();
    for n := 0 to |CardTypes|
      invariant num == PartialTotal(s, n)
    {
      num := num + h0[TypeTotal(CardTypes[n])];
    }
    PartialTotalAll(s);
    h := h0[Total := num];
  }

  /** The inner percentage loop for card type `CardTypes[i]`: its yes and no shares of the type's total. */
  method ShareType(s: Stats, h: map<Key, int>, p0: map<Key, real>, i: nat) returns (p: map<Key, real>)
    requires s.Valid() && h.Keys == CountKeys && Faithful(s, h)
    requires i < |CardTypes| && p0.Keys == ShareKeys(i, 0) && FaithfulShares(s, p0)
    ensures p.Keys == ShareKeys(i, |AnswerOrder|) && FaithfulShares(s, p)
  {
    p := p0;
    var t := CardTypes[i];
    for m := 0 to |AnswerOrder|
      invariant p.Keys == ShareKeys(i, m) && FaithfulShares(s, p)
    {
      var k := PerType(t, AnswerOrder[m]);
      p := p[k := Percentage(h[k], h[TypeTotal(t)])];
    }
  }

  /** The last percentage loop: the yes and no shares of the grand total. */
  method ShareAnswers(s: Stats, h: map<Key, int>, p0: map<Key, real>) returns (p: map<Key, real>)
    requires s.Valid() && h.Keys == CountKeys && Faithful(s, h)
    requires p0.Keys == ShareKeys(|CardTypes|, 0) && FaithfulShares(s, p0)
    ensures p.Keys == ShareKeys(|CardTypes|, 0) + AnswerKeys(|AnswerOrder|) && FaithfulShares(s, p)
  {
    p := p0;
    for m := 0 to |AnswerOrder|
      invariant p.Keys == ShareKeys(|CardTypes|, 0) + AnswerKeys(m) && FaithfulShares(s, p)
    {
      var k := AnswerTotal(AnswerOrder[m]);
      p := p[k := Percentage(h[k], h[Total])];
    }
  }

  /** The percentage loops: each type's yes and no shares, then the shares of the grand total. */
  method CountShares(s: Stats, h: map<Key, int>) returns (p: map<Key, real>)
    requires s.Valid() && h.Keys == CountKeys && Faithful(s, h)
    ensures p.Keys == PercentKeys && FaithfulShares(s, p)
  {
    p := map[];
    for i := 0 to |CardTypes|
      invariant p.Keys == ShareKeys(i, 0) && FaithfulShares(s, p)
    {
      p := ShareType(s, h, p, i);
      assert ShareKeys(i + 1, 0) == ShareKeys(i, |AnswerOrder|);
    }
    p := ShareAnswers(s, h, p);
    ShareKeysAll();
  }

  /** Summing an answer's entries over every type gives its total. */
  lemma PartialAnswerAll(s: Stats, a: Answer)
    requires s.Valid()
    ensures PartialAnswer(s, a, |CardTypes|) == Count(s, AnswerTotal(a))
  {
    assert PartialAnswer(s, a, 1) == Count(s, PerType(New, a));
    assert PartialAnswer(s, a, 2) == Count(s, PerType(New, a)) + Count(s, PerType(Young, a));
  }

  /** Summing the type totals gives the grand total. */
  lemma PartialTotalAll(s: Stats)
    requires s.Valid()
    ensures PartialTotal(s, |CardTypes|) == Count(s, Total)
  {
    assert PartialTotal(s, 1) == Count(s, TypeTotal(New));
    assert PartialTotal(s, 2) == Count(s, TypeTotal(New)) + Count(s, TypeTotal(Young));
  }

  /** The first loop fills every per-type key. */
  lemma TypeKeysAll()
    ensures TypeKeys(|CardTypes|) == {PerType(New, No), PerType(New, Yes), TypeTotal(New), PerType(Young, No), PerType(Young, Yes),
                                      TypeTotal(Young), PerType(Mature, No), PerType(Mature, Yes), TypeTotal(Mature)}
  {
    assert TypeKeys(1) == {PerType(New, No), PerType(New, Yes), TypeTotal(New)};
    assert TypeKeys(2) == TypeKeys(1) + {PerType(Young, No), PerType(Young, Yes), TypeTotal(Young)};
    assert TypeKeys(3) == TypeKeys(2) + {PerType(Mature, No), PerType(Mature, Yes), TypeTotal(Mature)};
  }

  /** The percentage loops fill every percentage key. */
  lemma ShareKeysAll()
    ensures ShareKeys(|CardTypes|, 0) + AnswerKeys(|AnswerOrder|) == PercentKeys
  {
    assert ShareKeys(0, 2) == {PerType(New, Yes), PerType(New, No)};
    assert ShareKeys(1, 2) == ShareKeys(0, 2) + {PerType(Young, Yes), PerType(Young, No)};
    assert ShareKeys(2, 2) == ShareKeys(1, 2) + {PerType(Mature, Yes), PerType(Mature, No)};
    assert ShareKeys(3, 0) == ShareKeys(2, 2);
    assert AnswerKeys(2) == {AnswerTotal(Yes), AnswerTotal(No)};
  }

  /**
   * The count and percentage part of `summarizeStats`: its loops fill every
   * count key and every percentage key, each with what it means.
   */
  method SummarizeStats(s: Stats) returns (h: map<Key, int>, p: map<Key, real>)
    requires s.Valid()
    ensures h.Keys == CountKeys && forall k :: k in h ==> h[k] == Count(s, k)
    ensures p.Keys == PercentKeys && forall k :: k in p ==> p[k] == Share(s, k)
  {
    h := CountTypes(s);
    h := CountAnswers(s, h);
    h := CountTotal(s, h);
    p := CountShares(s, h);
  }

  /** The cards whose interval lies in `(low, high]`. */
  function CountIn(intervals: seq<real>, low: real, high: real): (r: nat)
    ensures r <= |intervals|
  {
    if intervals == [] then 0
    else CountIn(intervals[..|intervals| - 1], low, high)
         + (if low < intervals[|intervals| - 1] <= high then 1 else 0)
  }

  /** Two adjacent ranges count the cards of their union. */
  lemma {:induction false} CountInSplit(intervals: seq<real>, a: real, b: real, c: real)
    requires a <= b <= c
    ensures CountIn(intervals, a, b) + CountIn(intervals, b, c) == CountIn(intervals, a, c)
  {
    if intervals != [] {
      CountInSplit(intervals[..|intervals| - 1], a, b, c);
    }
  }

  /** The histogram counts summed over consecutive bounds. */
  function Boxes(cards: seq<real>, bounds: seq<real>): int
    requires |bounds| >= 1
  {
    if |bounds| == 1 then 0
    else Boxes(cards, bounds[..|bounds| - 1]) + CountIn(cards, bounds[|bounds| - 2], bounds[|bounds| - 1])
  }

  predicate Ascending(bounds: seq<real>)
  {
    forall i, j :: 0 <= i < j < |bounds| ==> bounds[i] <= bounds[j]
  }

  /** With ascending bounds the boxes split the cards between the first and the last bound: none is counted twice. */
  lemma {:induction false} BoxesPartition(cards: seq<real>, bounds: seq<real>)
    requires |bounds| >= 1 && Ascending(bounds)
    ensures Boxes(cards, bounds) == CountIn(cards, bounds[0], bounds[|bounds| - 1])
  {
    if |bounds| == 1 {
      ZeroRange(cards, bounds[0]);
    } else {
      var init := bounds[..|bounds| - 1];
      BoxesPartition(cards, init);
      CountInSplit(cards, bounds[0], bounds[|bounds| - 2], bounds[|bounds| - 1]);
    }
  }

  /** An empty range holds no card. */
  lemma {:induction false} ZeroRange(cards: seq<real>, x: real)
    ensures CountIn(cards, x, x) == 0
  {
    if cards != [] {
      ZeroRange(cards[..|cards| - 1], x);
    }
  }

  /**
   * `DeckStats.splitIntoIntervals(intervals)` over the cards' intervals:
   * box `n` counts the cards with `intervals[n] < interval <= intervals[n+1]`,
   * and only boxes that received a card exist.
   */
  method SplitIntoIntervals(cards: seq<real>, intervals: seq<real>) returns (boxes: map<nat, nat>)
    ensures forall n: nat :: n in boxes <==> n + 1 < |intervals| && CountIn(cards, intervals[n], intervals[n + 1]) > 0
    ensures forall n: nat :: n in boxes ==> n + 1 < |intervals| && boxes[n] == CountIn(cards, intervals[n], intervals[n + 1])
  {
    boxes := map[];
    var n := 0;
    for i := 0 to if |intervals| == 0 then 0 else |intervals| - 1
      invariant n == i
      invariant forall m: nat :: m in boxes <==> m < i && CountIn(cards, intervals[m], intervals[m + 1]) > 0
      invariant forall m: nat :: m in boxes ==> m + 1 < |intervals| && boxes[m] == CountIn(cards, intervals[m], intervals[m + 1])
    {
      var low, high := intervals[i], intervals[i + 1];
      var before := boxes;
      for c := 0 to |cards|
        invariant forall m: nat :: m != n ==> (m in boxes <==> m in before) && (m in boxes ==> boxes[m] == before[m])
        invariant n in boxes <==> CountIn(cards[..c], low, high) > 0
        invariant n in boxes ==> boxes[n] == CountIn(cards[..c], low, high)
      {
        assert cards[..c + 1][..c] == cards[..c];
        if low < cards[c] && cards[c] <= high {
          boxes := boxes[n := (if n in boxes then boxes[n] else 0) + 1];
        }
      }
      assert cards[..|cards|] == cards;
      n := n + 1;
    }
  }

  /** The grade of `c`: the last grade list holding it, and 0 when none does. */
  function LastGrade(grades: seq<string>, c: char): (r: nat)
    ensures r < |grades| || r == 0
    ensures r > 0 ==> c in grades[r]
    ensures forall j :: r < j < |grades| ==> c !in grades[j]
  {
    if grades == [] then 0
    else if c in grades[|grades| - 1] then |grades| - 1
    else LastGrade(grades[..|grades| - 1], c)
  }

  /** The characters of `s`, as a set. */
  function CharSet(s: string): (r: set<char>)
    ensures forall c :: c in r <==> c in s
  {
    if s == [] then {} else CharSet(s[..|s| - 1]) + {s[|s| - 1]}
  }

  /** One more character of a string adds that character to the set of those seen. */
  lemma CharSetGrows(s: string, k: nat)
    requires k < |s|
    ensures CharSet(s[..k + 1]) == CharSet(s[..k]) + {s[k]}
  {
    assert s[..k + 1][..k] == s[..k];
  }

  /** The characters of every grade list. */
  function GradeChars(grades: seq<string>): (r: set<char>)
    ensures forall c :: c in r <==> exists g :: 0 <= g < |grades| && c in grades[g]
  {
    if grades == [] then {}
    else
      var init := grades[..|grades| - 1];
      var r := GradeChars(init) + CharSet(grades[|grades| - 1]);
      assert forall g :: 0 <= g < |init| ==> init[g] == grades[g];
      r
  }

  /** The inner loop of `KanjiStats.__init__`: every character of `chars` stored with grade `g`. */
  method StoreGrade(h0: map<char, nat>, chars: string, g: nat) returns (h: map<char, nat>)
    ensures h.Keys == h0.Keys + CharSet(chars)
    ensures forall c :: c in h ==> h[c] == if c in chars then g else h0[c]
  {
    h := h0;
    for k := 0 to |chars|
      invariant h.Keys == h0.Keys + CharSet(chars[..k])
      invariant forall c :: c in h ==> h[c] == if c in CharSet(chars[..k]) then g else h0[c]
    {
      CharSetGrows(chars, k);
      h := h[chars[k] := g];
    }
    assert chars[..|chars|] == chars;
  }

  /**
   * The table `KanjiStats.__init__` builds: every character of grade list
   * `g` is stored with grade `g`, later lists overwriting earlier ones.
   */
  method GradeHash(grades: seq<string>) returns (h: map<char, nat>)
    ensures h.Keys == GradeChars(grades)
    ensures forall c :: c in h ==> h[c] == LastGrade(grades, c)
  {
    h := map[];
    for g := 0 to |grades|
      invariant h.Keys == GradeChars(grades[..g])
      invariant forall c :: c in h ==> h[c] == LastGrade(grades[..g], c)
    {
      h := StoreGrade(h, grades[g], g);
      assert grades[..g + 1][..g] == grades[..g];
    }
    assert grades[..|grades|] == grades;
  }

  /** `KanjiStats.kanjiGrade`: the stored grade, 0 for a character in no list. */
  function KanjiGrade(h: map<char, nat>, c: char): (r: nat)
    ensures c !in h ==> r == 0
    ensures c in h ==> r == h[c]
  {
    if c in h then h[c] else 0
  }

  /** A looked-up grade is the last list holding the character, and 0 for one in no list. */
  lemma KanjiGradeIsLast(grades: seq<string>, h: map<char, nat>, c: char)
    requires forall d :: d in h <==> exists g :: 0 <= g < |grades| && d in grades[g]
    requires forall d :: d in h ==> h[d] == LastGrade(grades, d)
    ensures KanjiGrade(h, c) == LastGrade(grades, c)
    ensures (forall g :: 0 <= g < |grades| ==> c !in grades[g]) ==> KanjiGrade(h, c) == 0
  {
    if c !in h {
      NotInAny(grades, c);
    }
  }

  /** A character in no list has grade 0. */
  lemma {:induction false} NotInAny(grades: seq<string>, c: char)
    requires forall g :: 0 <= g < |grades| ==> c !in grades[g]
    ensures LastGrade(grades, c) == 0
  {
    if grades != [] {
      NotInAny(grades[..|grades| - 1], c);
    }
  }

  /** `missingInGrade`: the grade's characters not seen yet, in the grade's order. */
  function MissingInGrade(totalKanji: string, existingKanji: set<char>): (r: string)
    ensures forall c :: c in r <==> c in totalKanji && c !in existingKanji
    ensures |r| <= |totalKanji|
  {
    if totalKanji == [] then []
    else
      var rest := MissingInGrade(totalKanji[1..], existingKanji);
      if totalKanji[0] in existingKanji then rest else [totalKanji[0]] + rest
  }

  /** The missing characters and the seen ones together are the grade, counted with repeats. */
  lemma {:induction false} MissingSplitsGrade(totalKanji: string, existingKanji: set<char>)
    ensures |MissingInGrade(totalKanji, existingKanji)| + |Seen(totalKanji, existingKanji)| == |totalKanji|
    ensures MissingInGrade(totalKanji, {}) == totalKanji
  {
    if totalKanji != [] {
      MissingSplitsGrade(totalKanji[1..], existingKanji);
    }
  }

  /**
   * The missing characters keep the grade's order: the missing characters of
   * two pieces of a grade list are those of the first piece followed by those
   * of the second, and a single character is missing exactly when unseen.
   */
  lemma {:induction false} MissingInOrder(a: string, b: string, existingKanji: set<char>, c: char)
    ensures MissingInGrade(a + b, existingKanji) == MissingInGrade(a, existingKanji) + MissingInGrade(b, existingKanji)
    ensures MissingInGrade([c], existingKanji) == if c in existingKanji then [] else [c]
  {
    if a != [] {
      assert (a + b)[1..] == a[1..] + b;
      MissingInOrder(a[1..], b, existingKanji, c);
    } else {
      assert a + b == b;
    }
  }

  /** The grade's characters already seen, in order. */
  function Seen(totalKanji: string, existingKanji: set<char>): (r: string)
    ensures forall c :: c in r <==> c in totalKanji && c in existingKanji
  {
    if totalKanji == [] then []
    else
      var rest := Seen(totalKanji[1..], existingKanji);
      if totalKanji[0] in existingKanji then [totalKanji[0]] + rest else rest
  }

  const Nbsp: string := "&nbsp;"

  /** `p` is `k` copies of `s`, read from the front. */
  predicate Copies(p: string, s: string, k: nat)
    decreases k
  {
    if k == 0 then p == [] else |s| <= |p| && p[..|s|] == s && Copies(p[|s|..], s, k - 1)
  }

  /** One more copy at the back is one more copy. */
  lemma {:induction false} CopiesSnoc(p: string, s: string, k: nat)
    requires Copies(p, s, k)
    ensures Copies(p + s, s, k + 1)
    decreases k
  {
    if k == 0 {
      assert p + s == s;
      assert (p + s)[|s|..] == [];
    } else {
      CopiesSnoc(p[|s|..], s, k - 1);
      assert (p + s)[..|s|] == p[..|s|];
      assert (p + s)[|s|..] == p[|s|..] + s;
    }
  }

  /** Python's `s * k`: `k` copies, none when `k` is not positive. */
  function Repeat(s: string, k: int): (r: string)
    ensures |r| == if k > 0 then k * |s| else 0
    ensures Copies(r, s, if k > 0 then k else 0)
    decreases k
  {
    if k <= 0 then []
    else
      var rest := Repeat(s, k - 1);
      CopiesSnoc(rest, s, k - 1);
      rest + s
  }

  /**
   * `rjustfig(n, width)` with `n` already written out: the number followed
   * by `width - len(n)` copies of `&nbsp;`, none when it is wide enough.
   */
  function Rjustfig(n: string, width: int): (r: string)
    ensures |r| >= |n| && r[..|n|] == n
    ensures |n| >= width ==> r == n
    ensures |n| < width ==> |r| == |n| + 6 * (width - |n|)
    ensures Copies(r[|n|..], Nbsp, if |n| < width then width - |n| else 0)
  {
    var pad := Repeat(Nbsp, width - |n|);
    assert (n + pad)[|n|..] == pad;
    n + pad
  }
}
