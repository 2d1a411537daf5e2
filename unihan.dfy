/**
 * The Unihan import script (libanki/anki/features/chinese/save_unihan.py):
 * the loop that reads tab-separated `U+XXXX <field> <value>` lines into a
 * table of readings and grades per codepoint, and the filter that keeps the
 * codepoints with something to store.  The file is given as its lines; the
 * database insert is not part of this model.
 */
module Unihan {
  import opened Wrappers
  import opened PyStr

  /** What the script keeps for one codepoint. */
  datatype Entry = Entry(mandarin: Option<string>, cantonese: Option<string>, grade: Option<int>)

  /** A row handed to the insert: the codepoint and its three columns, `None` where the key was never set. */
  datatype Row = Row(id: int, mandarin: Option<string>, cantonese: Option<string>, grade: Option<int>)

  /** The uncaught ValueError of `int(...)`, at the index of the line that raised it. */
  datatype LoadError = ValueError(line: nat)

  /** The attribute a line sets; `Other` for a field name the script ignores. */
  datatype Attr = Mandarin(reading: string) | Cantonese(reading: string) | Grade(level: int) | Other

  /** What the loop body makes of one line. */
  datatype Outcome =
    | Skipped            // `continue`: not three fields, or no `U+`
    | Raised             // `int(...)` of the codepoint or of the grade raises ValueError
    | Set(n: int, attr: Attr)  // the line speaks about codepoint `n`

  // ---------------------------------------------------------------- integers

  predicate IsHexDigit(c: char)
  {
    '0' <= c <= '9' || 'a' <= c <= 'f' || 'A' <= c <= 'F'
  }

  predicate IsDecDigit(c: char)
  {
    '0' <= c <= '9'
  }

  function DigitValue(c: char): nat
  {
    if '0' <= c <= '9' then c as int - '0' as int
    else if 'a' <= c <= 'f' then c as int - 'a' as int + 10
    else if 'A' <= c <= 'F' then c as int - 'A' as int + 10
    else 0
  }

  /** Every character is a digit of `base` (10 or 16). */
  predicate AllDigits(ds: string, base: nat)
  {
    forall i :: 0 <= i < |ds| ==> if base == 16 then IsHexDigit(ds[i]) else IsDecDigit(ds[i])
  }

  /** The value of a digit string, most significant digit first. */
  function DigitsValue(ds: string, base: nat): nat
  {
    if ds == [] then 0 else DigitsValue(ds[..|ds| - 1], base) * base + DigitValue(ds[|ds| - 1])
  }

  /**
   * Python's `int(s, base)` for base 10 or 16: surrounding whitespace, an
   * optional sign, for base 16 an optional `0x` or `0X`, and at least one
   * digit; anything else raises ValueError (`None` here).
   */
  function ParseInt(s: string, base: nat): (r: Option<int>)
    ensures Strip(s) == [] ==> r.None?
    ensures r.Some? && r.value < 0 ==> Strip(s)[0] == '-'
  {
    var t := Strip(s);
    var signed := |t| > 0 && (t[0] == '-' || t[0] == '+');
    var body := if signed then t[1..] else t;
    var ds := if base == 16 && |body| >= 2 && body[0] == '0' && (body[1] == 'x' || body[1] == 'X') then body[2..] else body;
    var v: int := DigitsValue(ds, base);
    if ds != [] && AllDigits(ds, base) then Some(if signed && t[0] == '-' then -v else v) else None
  }

  /** A digit of base 10 or 16 is neither whitespace, nor a sign, nor the `x` of a `0x` prefix. */
  lemma DigitAt(s: string, base: nat, i: nat)
    requires (base == 10 || base == 16) && AllDigits(s, base) && i < |s|
    ensures !IsSpace(s[i]) && s[i] != '-' && s[i] != '+' && s[i] != 'x' && s[i] != 'X'
  {
    assert IsHexDigit(s[i]);
  }

  /** A plain digit string has no whitespace to strip, no sign and no `0x` prefix. */
  lemma PlainDigits(s: string, base: nat)
    ensures (base == 10 || base == 16) && s != [] && AllDigits(s, base) ==>
              Strip(s) == s && s[0] != '-' && s[0] != '+' && !(|s| >= 2 && (s[1] == 'x' || s[1] == 'X'))
  {
    if (base == 10 || base == 16) && s != [] && AllDigits(s, base) {
      DigitAt(s, base, 0);
      DigitAt(s, base, |s| - 1);
      if |s| >= 2 {
        DigitAt(s, base, 1);
      }
      StripPlain(s);
    }
  }

  /** A plain string of digits reads as its value. */
  lemma ParsePlain(s: string, base: nat)
    requires (base == 10 || base == 16) && s != [] && AllDigits(s, base)
    ensures ParseInt(s, base) == Some(DigitsValue(s, base))
  {
    PlainDigits(s, base);
  }

  /** A string without whitespace at its ends is its own `strip()`. */
  lemma StripPlain(s: string)
    requires s != [] && !IsSpace(s[0]) && !IsSpace(s[|s| - 1])
    ensures Strip(s) == s
  {
    StripOf([], s, []);
    assert [] + s + [] == s;
  }

  /** An upper-case hexadecimal digit. */
  function HexChar(d: nat): (c: char)
    requires d < 16
    ensures IsHexDigit(c) && DigitValue(c) == d && !IsSpace(c) && c != 'U' && c != '+'
  {
    if d < 10 then ('0' as int + d) as char else ('A' as int + d - 10) as char
  }

  /** The upper-case hexadecimal numeral of `n`, as Unihan writes codepoints. */
  function Hex(n: nat): (r: string)
    ensures r != [] && AllDigits(r, 16) && DigitsValue(r, 16) == n
    ensures forall i :: 0 <= i < |r| ==> !IsSpace(r[i]) && r[i] != 'U' && r[i] != '\t'
    ensures n >= 16 ==> r[0] != '0'
    decreases n
  {
    if n < 16 then [HexChar(n)]
    else
      var r := Hex(n / 16) + [HexChar(n % 16)];
      assert r[..|r| - 1] == Hex(n / 16);
      r
  }

  /** A hexadecimal numeral reads back as its number. */
  lemma HexRoundTrip(n: nat)
    ensures ParseInt(Hex(n), 16) == Some(n)
  {
    ParsePlain(Hex(n), 16);
  }

  // ---------------------------------------------------------------- one line

  /** `s.startswith("U+")`. */
  predicate StartsWithU(s: string)
  {
    |s| >= 2 && s[0] == 'U' && s[1] == '+'
  }

  /** `s.replace("U+", "")`: every occurrence, left to right, without overlap. */
  function RemoveU(s: string): (r: string)
    ensures |r| <= |s|
    ensures (forall i :: 0 <= i < |s| ==> s[i] != 'U') ==> r == s
  {
    if s == [] then []
    else if StartsWithU(s) then RemoveU(s[2..])
    else [s[0]] + RemoveU(s[1..])
  }

  /** `line.strip().split("\t")`. */
  function Fields(line: string): seq<string>
  {
    Split(Strip(line), '\t')
  }

  /** The attribute a field sets; `None` when a `kGradeLevel` value is not an integer. */
  function AttrOf(name: string, value: string): (r: Option<Attr>)
    ensures r.None? <==> name == "kGradeLevel" && ParseInt(value, 10).None?
    ensures r == Some(Other) <==> name != "kMandarin" && name != "kCantonese" && name != "kGradeLevel"
    ensures r.Some? && (r.value.Mandarin? || r.value.Cantonese?) ==> r.value.reading == value
    ensures r.Some? && r.value.Grade? ==> ParseInt(value, 10) == Some(r.value.level)
  {
    if name == "kMandarin" then Some(Mandarin(value))
    else if name == "kCantonese" then Some(Cantonese(value))
    else if name == "kGradeLevel" then
      match ParseInt(value, 10)
      case None => None
      case Some(g) => Some(Grade(g))
    else Some(Other)
  }

  /**
   * The loop body of the script: strip, split at tabs into exactly three
   * fields, require the `U+` prefix, read the codepoint in base 16, then the
   * attribute.
   */
  function Classify(line: string): (r: Outcome)
    ensures r == Skipped <==> |Fields(line)| != 3 || !StartsWithU(Fields(line)[0])
    ensures r.Set? ==> ParseInt(RemoveU(Fields(line)[0]), 16) == Some(r.n) && AttrOf(Fields(line)[1], Fields(line)[2]) == Some(r.attr)
  {
    var parts := Fields(line);
    if |parts| != 3 || !StartsWithU(parts[0]) then Skipped
    else
      match ParseInt(RemoveU(parts[0]), 16)
      case None => Raised
      case Some(n) =>
        match AttrOf(parts[1], parts[2])
        case None => Raised
        case Some(a) => Set(n, a)
  }

  /** A line without whitespace at its ends and without tabs inside its three pieces splits into those pieces. */
  lemma FieldsOf(u: string, name: string, value: string)
    requires '\t' !in u && '\t' !in name && '\t' !in value
    requires u != [] && !IsSpace(u[0]) && value != [] && !IsSpace(value[|value| - 1])
    ensures Fields(u + "\t" + name + "\t" + value) == [u, name, value]
  {
    var line := u + "\t" + name + "\t" + value;
    assert line == u + ['\t'] + name + ['\t'] + value;
    assert NoEdgeSpace(line);
    StripOf([], line, []);
    assert [] + line + [] == line;
    SplitConcat(u + ['\t'] + name, value, '\t');
    SplitConcat(u, name, '\t');
    SplitWithout(u, '\t');
    SplitWithout(name, '\t');
    SplitWithout(value, '\t');
  }

  /** `U+` followed by the hexadecimal numeral of `n` reads as `n`. */
  lemma CodepointOf(n: nat)
    ensures StartsWithU("U+" + Hex(n)) && ParseInt(RemoveU("U+" + Hex(n)), 16) == Some(n)
  {
    var u := "U+" + Hex(n);
    assert u[2..] == Hex(n);
    assert RemoveU(u) == Hex(n);
    HexRoundTrip(n);
  }

  /** A line of three fields whose first names codepoint `n` sets the attribute of the other two, or raises. */
  lemma ClassifyFields(line: string, u: string, name: string, value: string, n: nat)
    requires Fields(line) == [u, name, value]
    requires StartsWithU(u) && ParseInt(RemoveU(u), 16) == Some(n)
    ensures AttrOf(name, value).Some? ==> Classify(line) == Set(n, AttrOf(name, value).value)
    ensures AttrOf(name, value).None? ==> Classify(line) == Raised
  {
  }

  /**
   * A Unihan line `U+<hex>\t<field>\t<value>` whose field and value have no
   * tab and whose value does not end in whitespace is read as setting the
   * field's attribute of that codepoint.
   */
  lemma ClassifyWellFormed(n: nat, name: string, value: string)
    requires '\t' !in name && '\t' !in value
    requires value != [] && !IsSpace(value[|value| - 1])
    ensures AttrOf(name, value).Some? ==> Classify("U+" + Hex(n) + "\t" + name + "\t" + value) == Set(n, AttrOf(name, value).value)
    ensures AttrOf(name, value).None? ==> Classify("U+" + Hex(n) + "\t" + name + "\t" + value) == Raised
  {
    var u := "U+" + Hex(n);
    assert '\t' !in u by {
      assert u == ['U', '+'] + Hex(n);
    }
    FieldsOf(u, name, value);
    CodepointOf(n);
    ClassifyFields(u + "\t" + name + "\t" + value, u, name, value, n);
  }

  /** A line with fewer or more than three fields, or without `U+`, is skipped. */
  lemma ClassifySkips(line: string)
    requires |Fields(line)| != 3 || !StartsWithU(Fields(line)[0])
    ensures Classify(line) == Skipped
  {
  }

  // ---------------------------------------------------------------- all lines

  /** The outcome of every line. */
  function Outcomes(lines: seq<string>): (r: seq<Outcome>)
    ensures |r| == |lines|
  {
    if lines == [] then [] else Outcomes(lines[..|lines| - 1]) + [Classify(lines[|lines| - 1])]
  }

  /** The outcome of line `i` is what the loop body makes of it. */
  lemma {:induction false} OutcomeAt(lines: seq<string>, i: nat)
    requires i < |lines|
    ensures Outcomes(lines)[i] == Classify(lines[i])
  {
    if i < |lines| - 1 {
      OutcomeAt(lines[..|lines| - 1], i);
    }
  }

  /** Some line speaks about codepoint `n`: it has an entry, whatever its field name. */
  predicate Mentions(outs: seq<Outcome>, n: int)
  {
    exists i :: 0 <= i < |outs| && outs[i].Set? && outs[i].n == n
  }

  /** An entry after one more attribute. */
  function Apply(e: Entry, a: Attr): Entry
  {
    match a
    case Mandarin(s) => e.(mandarin := Some(s))
    case Cantonese(s) => e.(cantonese := Some(s))
    case Grade(g) => e.(grade := Some(g))
    case Other => e
  }

  /** What the table holds for codepoint `n` once the lines are read: their attributes applied in order. */
  function EntryOf(outs: seq<Outcome>, n: int): Entry
  {
    if outs == [] then Entry(None, None, None)
    else
      var e := EntryOf(outs[..|outs| - 1], n);
      var o := outs[|outs| - 1];
      if o.Set? && o.n == n then Apply(e, o.attr) else e
  }

  /** A later line wins: the attribute it sets is the entry's, whatever came before. */
  lemma LaterLineWins(outs: seq<Outcome>, n: int, a: Attr)
    ensures a.Mandarin? ==> EntryOf(outs + [Set(n, a)], n).mandarin == Some(a.reading)
    ensures a.Cantonese? ==> EntryOf(outs + [Set(n, a)], n).cantonese == Some(a.reading)
    ensures a.Grade? ==> EntryOf(outs + [Set(n, a)], n).grade == Some(a.level)
    ensures a.Other? ==> EntryOf(outs + [Set(n, a)], n) == EntryOf(outs, n)
  {
    assert (outs + [Set(n, a)])[..|outs|] == outs;
  }

  /** A skipped line, or one about another codepoint, leaves an entry as it was. */
  lemma OtherLinesKeep(outs: seq<Outcome>, n: int, o: Outcome)
    requires !(o.Set? && o.n == n)
    ensures EntryOf(outs + [o], n) == EntryOf(outs, n)
  {
    assert (outs + [o])[..|outs|] == outs;
  }

  /** An attribute set once and never again survives every later line. */
  lemma {:induction false} SetOnceSurvives(outs: seq<Outcome>, later: seq<Outcome>, n: int, s: string)
    requires forall i :: 0 <= i < |later| ==> !(later[i].Set? && later[i].n == n && later[i].attr.Mandarin?)
    ensures EntryOf(outs + [Set(n, Mandarin(s))] + later, n).mandarin == Some(s)
    decreases |later|
  {
    if later == [] {
      assert outs + [Set(n, Mandarin(s))] + later == outs + [Set(n, Mandarin(s))];
      LaterLineWins(outs, n, Mandarin(s));
    } else {
      var init := later[..|later| - 1];
      SetOnceSurvives(outs, init, n, s);
      assert (outs + [Set(n, Mandarin(s))] + later)[..|outs| + 1 + |init|] == outs + [Set(n, Mandarin(s))] + init;
    }
  }

  /** One more line: it adds its codepoint, applies its attribute to that entry and leaves every other entry alone. */
  lemma ReadOne(outs: seq<Outcome>, o: Outcome)
    ensures forall m :: Mentions(outs + [o], m) <==> Mentions(outs, m) || (o.Set? && o.n == m)
    ensures forall m :: !(o.Set? && o.n == m) ==> EntryOf(outs + [o], m) == EntryOf(outs, m)
    ensures o.Set? ==> EntryOf(outs + [o], o.n) == Apply(EntryOf(outs, o.n), o.attr)
  {
    var all := outs + [o];
    assert all[..|outs|] == outs;
    forall m ensures Mentions(all, m) <==> Mentions(outs, m) || (o.Set? && o.n == m) {
      if Mentions(all, m) {
        var i :| 0 <= i < |all| && all[i].Set? && all[i].n == m;
        if i < |outs| {
          assert outs[i] == all[i];
        }
      }
      if Mentions(outs, m) {
        var i :| 0 <= i < |outs| && outs[i].Set? && outs[i].n == m;
        assert all[i] == outs[i];
      }
      if o.Set? && o.n == m {
        assert all[|outs|] == o;
      }
    }
  }

  /** A codepoint no line speaks about has nothing set. */
  lemma {:induction false} Unmentioned(outs: seq<Outcome>, n: int)
    requires !Mentions(outs, n)
    ensures EntryOf(outs, n) == Entry(None, None, None)
  {
    if outs != [] {
      Unmentioned(outs[..|outs| - 1], n);
    }
  }

  /** No line raised. */
  predicate NoneRaised(outs: seq<Outcome>)
  {
    forall j :: 0 <= j < |outs| ==> !outs[j].Raised?
  }

  /** One more line that did not raise keeps the prefix free of raising lines. */
  lemma NoneRaisedStep(outs: seq<Outcome>, i: nat)
    requires i < |outs| && NoneRaised(outs[..i]) && !outs[i].Raised?
    ensures NoneRaised(outs[..i + 1])
  {
    assert forall j :: 0 <= j < i ==> outs[..i + 1][j] == outs[..i][j];
  }

  /** The table holds an entry for every codepoint the lines speak about, and that entry is theirs. */
  ghost predicate Tracks(kanji: map<int, Entry>, outs: seq<Outcome>)
  {
    (forall n :: n in kanji <==> Mentions(outs, n)) && (forall n :: n in kanji ==> kanji[n] == EntryOf(outs, n))
  }

  /** The rest of the loop body for a line that did not raise: create the entry if needed, then set the attribute. */
  method Store(kanji: map<int, Entry>, o: Outcome, ghost outs: seq<Outcome>) returns (k: map<int, Entry>)
    requires Tracks(kanji, outs) && !o.Raised?
    ensures Tracks(k, outs + [o])
  {
    ReadOne(outs, o);
    k := kanji;
    if o.Set? {
      var n := o.n;
      if n !in k {
        Unmentioned(outs, n);
        k := k[n := Entry(None, None, None)];
      }
      match o.attr
      case Mandarin(v) => k := k[n := k[n].(mandarin := Some(v))];
      case Cantonese(v) => k := k[n := k[n].(cantonese := Some(v))];
      case Grade(g) => k := k[n := k[n].(grade := Some(g))];
      case Other =>
    }
  }

  /** The loop body's reading of line `i`. */
  method ReadLine(lines: seq<string>, i: nat) returns (o: Outcome)
    requires i < |lines|
    ensures o == Outcomes(lines)[i]
  {
    o := Classify(lines[i]);
    OutcomeAt(lines, i);
  }

  /**
   * The reading loop of the script.  It stops at the first line whose
   * codepoint or grade is not an integer; otherwise every codepoint some
   * line speaks about has an entry, with the attributes of its lines
   * applied in order, a later line overwriting an earlier one.
   */
  method Load(lines: seq<string>) returns (r: Result<map<int, Entry>, LoadError>)
    ensures r.Err? ==> (r.error.line < |lines| && Outcomes(lines)[r.error.line] == Raised
                        && NoneRaised(Outcomes(lines)[..r.error.line]))
    ensures r.Ok? ==> NoneRaised(Outcomes(lines)) && Tracks(r.value, Outcomes(lines))
  {
    ghost var outs := Outcomes(lines);
    var kanji: map<int, Entry> := map[];
    for i := 0 to |lines|
      invariant NoneRaised(outs[..i])
      invariant Tracks(kanji, outs[..i])
    {
      var o := ReadLine(lines, i);
      if o.Raised? {
        return Err(ValueError(i));
      }
      NoneRaisedStep(outs, i);
      kanji := Store(kanji, o, outs[..i]);
      assert outs[..i + 1] == outs[..i] + [o];
    }
    assert outs[..|lines|] == outs;
    r := Ok(kanji);
  }

  // ---------------------------------------------------------------- the filter

  /** Python truth of an attribute: present and not empty, or present and not 0. */
  predicate Truthy(e: Entry)
  {
    (e.mandarin.Some? && e.mandarin.value != []) || (e.cantonese.Some? && e.cantonese.value != [])
    || (e.grade.Some? && e.grade.value != 0)
  }

  /**
   * The comprehension that builds the rows to insert: one row per codepoint
   * with at least one truthy attribute, carrying its attributes unchanged.
   */
  function Rows(kanji: map<int, Entry>): (r: set<Row>)
    ensures forall row :: row in r <==> row.id in kanji && Truthy(kanji[row.id])
                                        && row == Row(row.id, kanji[row.id].mandarin, kanji[row.id].cantonese, kanji[row.id].grade)
  {
    set n | n in kanji && Truthy(kanji[n]) :: Row(n, kanji[n].mandarin, kanji[n].cantonese, kanji[n].grade)
  }

  /** No two rows share a codepoint. */
  lemma RowsDistinct(kanji: map<int, Entry>, a: Row, b: Row)
    requires a in Rows(kanji) && b in Rows(kanji) && a.id == b.id
    ensures a == b
  {
  }
}
