/**
 * Cards (libanki/anki/cards.py): the answer bookkeeping `updateStats` does
 * on a card, and the tag test `hasTag`.  The thinking time and the clock are
 * parameters; times are exact reals.
 */
module Cards {
  import opened Wrappers
  import opened PyStr
  import opened Tags

  /** The state a card was answered in; a new card is counted as young. */
  datatype CardState = New | Young | Mature

  /** The two groups of ease counters a card keeps. */
  datatype Bucket = YoungBucket | MatureBucket

  function BucketOf(state: CardState): (b: Bucket)
    ensures b == MatureBucket <==> state == Mature
  {
    if state == Mature then MatureBucket else YoungBucket
  }

  /** `setattr` on a counter name that does not exist, such as `youngEase7`. */
  datatype CardError = AttributeError

  function Sum(s: seq<int>): int
  {
    if s == [] then 0 else s[0] + Sum(s[1..])
  }

  /** Raising one counter by one raises the sum by one. */
  lemma {:induction false} SumBump(s: seq<int>, i: nat)
    requires i < |s|
    ensures Sum(s[i := s[i] + 1]) == Sum(s) + 1
  {
    if i > 0 {
      assert s[i := s[i] + 1][1..] == s[1..][i - 1 := s[i] + 1];
      SumBump(s[1..], i - 1);
    }
  }

  class Card {
    var reps: int
    var successive: int
    var reviewTime: real
    var averageTime: real
    /** `youngEase0` … `youngEase4`. */
    var youngEase: seq<int>
    /** `matureEase0` … `matureEase4`. */
    var matureEase: seq<int>
    var yesCount: int
    var noCount: int
    var firstAnswered: real
    var modified: real
    var tags: string

    /** Five counters in each group. */
    predicate Valid()
      reads this
    {
      |youngEase| == 5 && |matureEase| == 5
    }

    /** Every answer counted by ease. */
    function Answers(): int
      reads this
    {
      Sum(youngEase) + Sum(matureEase)
    }

    constructor(tags: string)
      ensures Valid() && this.tags == tags
      ensures reps == 0 && successive == 0 && yesCount == 0 && noCount == 0 && firstAnswered == 0.0
      ensures youngEase == [0, 0, 0, 0, 0] && matureEase == [0, 0, 0, 0, 0]
    {
      this.tags := tags;
      reps, successive := 0, 0;
      reviewTime, averageTime := 0.0, 0.0;
      youngEase, matureEase := [0, 0, 0, 0, 0], [0, 0, 0, 0, 0];
      yesCount, noCount := 0, 0;
      firstAnswered, modified := 0.0, 0.0;
    }

    /** The first half of `updateStats`: repetitions, the success streak and, below 60 seconds, the times. */
    method CountRepetition(ease: int, delay: real)
      modifies this
      ensures reps == old(reps) + 1
      ensures successive == if ease > 1 then old(successive) + 1 else 0
      ensures delay < 60.0 ==> reviewTime == old(reviewTime) + delay
                               && averageTime == if old(averageTime) != 0.0 then (old(averageTime) + delay) / 2.0 else delay
      ensures delay >= 60.0 ==> reviewTime == old(reviewTime) && averageTime == old(averageTime)
      ensures youngEase == old(youngEase) && matureEase == old(matureEase) && yesCount == old(yesCount)
              && noCount == old(noCount) && firstAnswered == old(firstAnswered) && modified == old(modified)
              && tags == old(tags)
    {
      reps := reps + 1;
      if ease > 1 {
        successive := successive + 1;
      } else {
        successive := 0;
      }
      if delay < 60.0 {
        reviewTime := reviewTime + delay;
        if averageTime != 0.0 {
          averageTime := (averageTime + delay) / 2.0;
        } else {
          averageTime := delay;
        }
      }
    }

    /** The second half of `updateStats`: the ease counter, yes or no, the first answer and the modification time. */
    method CountEase(ease: int, state: CardState, now: real)
      requires Valid() && 0 <= ease <= 4
      modifies this
      ensures Valid()
      ensures if BucketOf(state) == YoungBucket
              then youngEase == old(youngEase)[ease := old(youngEase)[ease] + 1] && matureEase == old(matureEase)
              else matureEase == old(matureEase)[ease := old(matureEase)[ease] + 1] && youngEase == old(youngEase)
      ensures Answers() == old(Answers()) + 1
      ensures (noCount, yesCount) == if ease < 2 then (old(noCount) + 1, old(yesCount)) else (old(noCount), old(yesCount) + 1)
      ensures firstAnswered == (if old(firstAnswered) == 0.0 then now else old(firstAnswered)) && modified == now
      ensures reps == old(reps) && successive == old(successive) && reviewTime == old(reviewTime)
              && averageTime == old(averageTime) && tags == old(tags)
    {
      if BucketOf(state) == YoungBucket {
        SumBump(youngEase, ease);
        youngEase := youngEase[ease := youngEase[ease] + 1];
      } else {
        SumBump(matureEase, ease);
        matureEase := matureEase[ease := matureEase[ease] + 1];
      }
      if ease < 2 {
        noCount := noCount + 1;
      } else {
        yesCount := yesCount + 1;
      }
      if firstAnswered == 0.0 {
        firstAnswered := now;
      }
      modified := now;
    }

    /**
     * `updateStats(ease, state)` with thinking time `delay` at time `now`.
     * An ease outside 0..4 names no counter: the AttributeError comes after
     * `reps`, `successive` and the times were already updated.
     */
    method UpdateStats(ease: int, state: CardState, delay: real, now: real) returns (r: Result<(), CardError>)
      requires Valid()
      modifies this
      ensures Valid() && tags == old(tags)
      ensures reps == old(reps) + 1
      ensures successive == if ease > 1 then old(successive) + 1 else 0
      ensures delay < 60.0 ==> reviewTime == old(reviewTime) + delay
                               && averageTime == if old(averageTime) != 0.0 then (old(averageTime) + delay) / 2.0 else delay
      ensures delay >= 60.0 ==> reviewTime == old(reviewTime) && averageTime == old(averageTime)
      ensures r.Err? <==> !(0 <= ease <= 4)
      ensures r.Err? ==> youngEase == old(youngEase) && matureEase == old(matureEase) && yesCount == old(yesCount)
                         && noCount == old(noCount) && firstAnswered == old(firstAnswered) && modified == old(modified)
      ensures r.Ok? ==> if BucketOf(state) == YoungBucket
                        then youngEase == old(youngEase)[ease := old(youngEase)[ease] + 1] && matureEase == old(matureEase)
                        else matureEase == old(matureEase)[ease := old(matureEase)[ease] + 1] && youngEase == old(youngEase)
      ensures r.Ok? ==> Answers() == old(Answers()) + 1
      ensures r.Ok? ==> (noCount, yesCount) == if ease < 2 then (old(noCount) + 1, old(yesCount)) else (old(noCount), old(yesCount) + 1)
      ensures r.Ok? ==> firstAnswered == (if old(firstAnswered) == 0.0 then now else old(firstAnswered)) && modified == now
    {
      CountRepetition(ease, delay);
      if !(0 <= ease <= 4) {
        return Err(AttributeError);
      }
      CountEase(ease, state, now);
      r := Ok(());
    }

    /**
     * `hasTag`: the card's tags, its fact's tags, its card model's name and
     * its model's tags, comma-joined and parsed, hold `tag` ignoring case.
     */
    function HasTag(tag: string, factTags: string, cardModelName: string, modelTags: string): (r: bool)
      reads this
      ensures r <==> FindTag(tag, ParseTags(tags)) || FindTag(tag, ParseTags(factTags))
                     || FindTag(tag, ParseTags(cardModelName)) || FindTag(tag, ParseTags(modelTags))
    {
      var all := tags + [','] + factTags + [','] + cardModelName + [','] + modelTags;
      ParseConcat(tags + [','] + factTags + [','] + cardModelName, modelTags);
      ParseConcat(tags + [','] + factTags, cardModelName);
      ParseConcat(tags, factTags);
      FindTagConcat(tag, ParseTags(tags), ParseTags(factTags));
      FindTagConcat(tag, ParseTags(tags) + ParseTags(factTags), ParseTags(cardModelName));
      FindTagConcat(tag, ParseTags(tags) + ParseTags(factTags) + ParseTags(cardModelName), ParseTags(modelTags));
      FindTag(tag, ParseTags(all))
    }
  }

  /** A tag is in two lists put together exactly when it is in one of them. */
  lemma FindTagConcat(tag: string, a: seq<string>, b: seq<string>)
    ensures FindTag(tag, a + b) <==> FindTag(tag, a) || FindTag(tag, b)
  {
    if FindTag(tag, a + b) {
      var i :| 0 <= i < |a + b| && Lower((a + b)[i]) == Lower(tag);
      if i >= |a| {
        assert (a + b)[i] == b[i - |a|];
      }
    }
    if FindTag(tag, a) {
      var i :| 0 <= i < |a| && Lower(a[i]) == Lower(tag);
      assert (a + b)[i] == a[i];
    }
    if FindTag(tag, b) {
      var i :| 0 <= i < |b| && Lower(b[i]) == Lower(tag);
      assert (a + b)[|a| + i] == b[i];
    }
  }
}
