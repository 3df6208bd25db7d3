/** The pure parts of DataExporter in src/scraper.cpp: the CSV field escape
    and the recency tie-break comparators the CSV and legacy text exports
    sort with. */
module DataExporter {
  import opened Utils

  // ---------------------------------------------------------------------------
  // CSV fields
  // ---------------------------------------------------------------------------

  /** EscapeCSV: a field containing a comma is wrapped in double quotes;
      quotes inside the field are left as they are. */
  function EscapeCSV(s: string): string {
    if Contains(s, ",") then "\"" + s + "\"" else s
  }

  /** The field escape section 2 of RFC 4180 calls for: a field containing a
      comma, a double quote or a line break (CR or LF) is wrapped in quotes
      and each inner quote is doubled. */
  function QuoteCSV(s: string): string {
    if NeedsQuotes(s) then "\"" + DoubleQuotes(s) + "\"" else s
  }

  predicate NeedsQuotes(s: string) {
    Contains(s, ",") || Contains(s, "\"") || Contains(s, "\n") || Contains(s, "\r")
  }

  /** s with every double quote written twice. */
  function DoubleQuotes(s: string): (r: string)
    ensures |s| <= |r|
  {
    if s == [] then []
    else (if s[0] == '"' then "\"\"" else [s[0]]) + DoubleQuotes(s[1..])
  }

  /** Reads one field as a reader following section 2 of RFC 4180 does: a
      quoted field up to its closing quote (a doubled quote inside stands
      for one quote, and commas and line breaks inside are data), otherwise
      everything up to the next comma or line break, which ends the field or
      the record. Returns the field and the unread rest. */
  function ReadField(t: string): (string, string) {
    if t != [] && t[0] == '"' then ReadQuoted(t[1..]) else ReadPlain(t)
  }

  function ReadPlain(t: string): (string, string) {
    if t == [] || Separator(t[0]) then ("", t)
    else var (f, rest) := ReadPlain(t[1..]); ([t[0]] + f, rest)
  }

  /** The inside of a quoted field, after its opening quote. */
  function ReadQuoted(t: string): (string, string) {
    if t == [] then ("", [])
    else if t[0] == '"' then
      if |t| > 1 && t[1] == '"' then var (f, rest) := ReadQuoted(t[2..]); ("\"" + f, rest)
      else ("", t[1..])
    else var (f, rest) := ReadQuoted(t[1..]); ([t[0]] + f, rest)
  }

  /** The characters that end an unquoted field: the field separator, and
      the CR and LF of a record break. */
  predicate Separator(c: char) {
    c == ',' || c == '\n' || c == '\r'
  }

  /** What may follow a field: nothing, the next field or the next record. */
  predicate FieldBoundary(rest: string) {
    rest == [] || Separator(rest[0])
  }

  /** The character c does not occur in s. */
  predicate Free(s: string, c: char) {
    forall i :: 0 <= i < |s| ==> s[i] != c
  }

  /** s holds no separator. */
  predicate Unbroken(s: string) {
    Free(s, ',') && Free(s, '\n') && Free(s, '\r')
  }

  /** A field without a separator is read back up to the separator. */
  lemma {:induction false} ReadPlainRoundTrip(s: string, rest: string)
    requires Unbroken(s) && FieldBoundary(rest)
    ensures ReadPlain(s + rest) == (s, rest)
  {
    if s != [] {
      assert (s + rest)[0] == s[0] && !Separator(s[0]);
      assert (s + rest)[1..] == s[1..] + rest;
      assert Unbroken(s[1..]) by {
        forall i | 0 <= i < |s[1..]| ensures !Separator(s[1..][i]) {
          assert s[1..][i] == s[i + 1];
        }
      }
      ReadPlainRoundTrip(s[1..], rest);
      assert [s[0]] + s[1..] == s;
    } else {
      assert s + rest == rest;
    }
  }

  /** The inside of a quoted field with its quotes doubled is read back up to
      the closing quote. */
  lemma {:induction false} ReadQuotedRoundTrip(s: string, rest: string)
    requires FieldBoundary(rest)
    ensures ReadQuoted(DoubleQuotes(s) + "\"" + rest) == (s, rest)
  {
    var t := DoubleQuotes(s) + "\"" + rest;
    if s == [] {
      assert t == "\"" + rest;
      assert t[1..] == rest;
    } else if s[0] == '"' {
      assert t == "\"\"" + (DoubleQuotes(s[1..]) + "\"" + rest);
      assert t[2..] == DoubleQuotes(s[1..]) + "\"" + rest;
      ReadQuotedRoundTrip(s[1..], rest);
      assert "\"" + s[1..] == s;
    } else {
      assert t == [s[0]] + (DoubleQuotes(s[1..]) + "\"" + rest);
      assert t[1..] == DoubleQuotes(s[1..]) + "\"" + rest;
      ReadQuotedRoundTrip(s[1..], rest);
      assert [s[0]] + s[1..] == s;
    }
  }

  /** Contains(s, [c]) exactly when c occurs somewhere in s. */
  lemma ContainsChar(s: string, c: char)
    ensures Contains(s, [c]) <==> !Free(s, c)
  {
    ContainsIff(s, [c]);
    if !Free(s, c) {
      var i :| 0 <= i < |s| && s[i] == c;
      assert OccursAt(s, [c], i);
    }
    if Contains(s, [c]) {
      var i :| OccursAt(s, [c], i);
      assert s[i] == c;
    }
  }

  /** Every field survives QuoteCSV followed by ReadField. */
  lemma QuoteCSVRoundTrip(s: string, rest: string)
    requires FieldBoundary(rest)
    ensures ReadField(QuoteCSV(s) + rest) == (s, rest)
  {
    ContainsChar(s, ',');
    ContainsChar(s, '"');
    ContainsChar(s, '\n');
    ContainsChar(s, '\r');
    if NeedsQuotes(s) {
      QuotedFieldRoundTrip(s, rest);
    } else {
      PlainFieldRoundTrip(s, rest);
    }
  }

  lemma QuotedFieldRoundTrip(s: string, rest: string)
    requires FieldBoundary(rest)
    ensures ReadField("\"" + DoubleQuotes(s) + "\"" + rest) == (s, rest)
  {
    var t := "\"" + DoubleQuotes(s) + "\"" + rest;
    assert t == "\"" + (DoubleQuotes(s) + "\"" + rest);
    assert t[1..] == DoubleQuotes(s) + "\"" + rest;
    ReadQuotedRoundTrip(s, rest);
  }

  lemma PlainFieldRoundTrip(s: string, rest: string)
    requires Unbroken(s) && Free(s, '"') && FieldBoundary(rest)
    ensures ReadField(s + rest) == (s, rest)
  {
    ReadPlainRoundTrip(s, rest);
    assert s != [] ==> (s + rest)[0] == s[0] != '"';
  }

  /** EscapeCSV round-trips every field without a double quote or a line
      break. */
  lemma EscapeCSVRoundTrip(s: string, rest: string)
    requires Free(s, '"') && Free(s, '\n') && Free(s, '\r') && FieldBoundary(rest)
    ensures ReadField(EscapeCSV(s) + rest) == (s, rest)
  {
    ContainsChar(s, ',');
    ContainsChar(s, '"');
    ContainsChar(s, '\n');
    ContainsChar(s, '\r');
    assert QuoteCSV(s) == EscapeCSV(s) by {
      if Contains(s, ",") {
        DoubleQuotesFree(s);
      }
    }
    QuoteCSVRoundTrip(s, rest);
  }

  /** Without quotes to double, DoubleQuotes changes nothing. */
  lemma {:induction false} DoubleQuotesFree(s: string)
    requires Free(s, '"')
    ensures DoubleQuotes(s) == s
  {
    if s != [] {
      DoubleQuotesFree(s[1..]);
      assert [s[0]] + s[1..] == s;
    }
  }

  /** A name holding both a quote and a comma does not survive EscapeCSV:
      the field is cut at the inner quote and the rest spills into the
      next column. */
  lemma EscapeCSVSplitsQuotedName()
    ensures EscapeCSV("a\",b") == "\"a\",b\""
    ensures ReadField(EscapeCSV("a\",b")) == ("a", ",b\"")
  {
    assert Contains("a\",b", ",") by {
      assert OccursAt("a\",b", ",", 2);
      ContainsIff("a\",b", ",");
    }
    var t := "\"a\",b\"";
    assert t[1..] == "a\",b\"";
    assert t[1..][1..] == "\",b\"";
    assert ReadQuoted("\",b\"") == ("", ",b\"");
    var u := "a\",b\"";
    assert u[0] == 'a' && u[1..] == "\",b\"";
    assert ReadQuoted(u) == ([u[0]] + ReadQuoted(u[1..]).0, ReadQuoted(u[1..]).1);
    assert [u[0]] + "" == "a";
  }

  /** A name holding a line break but no comma is written unquoted, so the
      reader ends the record inside the name. */
  lemma EscapeCSVSplitsLineBreak()
    ensures EscapeCSV("a\nb") == "a\nb"
    ensures ReadField(EscapeCSV("a\nb")) == ("a", "\nb")
  {
    assert !Contains("a\nb", ",") by {
      ContainsChar("a\nb", ',');
    }
    var t := "a\nb";
    assert t[0] == 'a' && t[1..] == "\nb";
    assert ReadPlain(t[1..]) == ("", "\nb");
    assert ReadPlain(t) == ([t[0]] + ReadPlain(t[1..]).0, ReadPlain(t[1..]).1);
    assert [t[0]] + "" == "a";
  }

  // ---------------------------------------------------------------------------
  // Tie-break comparators
  // ---------------------------------------------------------------------------

  /** Config::Weights::TIE_THRESHOLD. */
  const TieThreshold: real := 0.005

  /** The tieBreakerSort lambda: scores within the threshold of each other
      are ordered by recency_bonus (fresher first), all others by score
      (higher first). */
  predicate TieBreakBefore(recA: int, recB: int, scoreA: real, scoreB: real, threshold: real) {
    if Abs(scoreA - scoreB) <= threshold then recA > recB else scoreA > scoreB
  }

  /** What the CSV filters and comparators read from an entity: its recency
      bonus, its overall and value ranks, and its input price. */
  datatype SortKey = SortKey(recencyBonus: int, overall: real, value: real, price: real)

  /** The performance CSV: by overall rank, threshold 0.005. */
  predicate PerformanceBefore(a: SortKey, b: SortKey) {
    TieBreakBefore(a.recencyBonus, b.recencyBonus, a.overall, b.overall, TieThreshold)
  }

  /** The value CSV: by value rank, threshold 0.005. */
  predicate ValueBefore(a: SortKey, b: SortKey) {
    TieBreakBefore(a.recencyBonus, b.recencyBonus, a.value, b.value, TieThreshold)
  }

  /** The legacy text export: overall rank times 100, threshold 0.005 * 100. */
  predicate LegacyBefore(a: SortKey, b: SortKey) {
    TieBreakBefore(a.recencyBonus, b.recencyBonus, a.overall * 100.0, b.overall * 100.0, TieThreshold * 100.0)
  }

  /** The comparator is a strict relation: irreflexive and asymmetric. */
  lemma TieBreakIsStrict(recA: int, recB: int, scoreA: real, scoreB: real, threshold: real)
    ensures !TieBreakBefore(recA, recA, scoreA, scoreA, threshold)
    ensures TieBreakBefore(recA, recB, scoreA, scoreB, threshold) ==> !TieBreakBefore(recB, recA, scoreB, scoreA, threshold)
  {
    assert Abs(scoreB - scoreA) == Abs(scoreA - scoreB);
  }

  /** A lead of more than the threshold always wins; within the threshold
      only recency_bonus decides. */
  lemma TieBreakCases(recA: int, recB: int, scoreA: real, scoreB: real, threshold: real)
    requires 0.0 <= threshold
    ensures scoreA - scoreB > threshold ==> TieBreakBefore(recA, recB, scoreA, scoreB, threshold)
    ensures scoreB - scoreA > threshold ==> !TieBreakBefore(recA, recB, scoreA, scoreB, threshold)
    ensures Abs(scoreA - scoreB) <= threshold ==>
      (TieBreakBefore(recA, recB, scoreA, scoreB, threshold) <==> recA > recB)
  {}

  /** Scaling both scores and the threshold by 100 changes nothing: the
      legacy text export orders exactly as the performance CSV. */
  lemma LegacyMatchesPerformance(a: SortKey, b: SortKey)
    ensures LegacyBefore(a, b) <==> PerformanceBefore(a, b)
  {
    var d := a.overall - b.overall;
    assert a.overall * 100.0 - b.overall * 100.0 == 100.0 * d;
    assert Abs(100.0 * d) == 100.0 * Abs(d);
  }

  /** The value CSV is the performance comparator applied to the value rank
      in place of the overall rank. */
  lemma ValueMatchesPerformance(a: SortKey, b: SortKey)
    ensures ValueBefore(a, b) <==> PerformanceBefore(a.(overall := a.value), b.(overall := b.value))
  {}

  /** The value CSV therefore inherits the near-tie cycle shown below. */
  lemma ValueCycle()
    ensures ValueBefore(SortKey(3, 0.0, 0.0, 0.0), SortKey(2, 0.0, 0.004, 0.0))
    ensures ValueBefore(SortKey(2, 0.0, 0.004, 0.0), SortKey(1, 0.0, 0.008, 0.0))
    ensures ValueBefore(SortKey(1, 0.0, 0.008, 0.0), SortKey(3, 0.0, 0.0, 0.0))
  {}

  /** Among entities with equal recency_bonus the comparator is transitive:
      each step is a lead of more than the threshold. */
  lemma TieBreakTransitiveAtEqualRecency(rec: int, a: real, b: real, c: real, threshold: real)
    requires 0.0 <= threshold
    requires TieBreakBefore(rec, rec, a, b, threshold) && TieBreakBefore(rec, rec, b, c, threshold)
    ensures TieBreakBefore(rec, rec, a, c, threshold)
  {}

  /** A chain of near-ties closes into a cycle, so the comparator is not a
      strict weak ordering: 0 (tier 3) precedes 0.004 (tier 2), which
      precedes 0.008 (tier 1), which precedes 0 again. Run registers only
      entities of tier 3, among which the comparator has no cycle
      (TieBreakTransitiveAtEqualRecency); what Run's registry does reach is
      TieBreakIncomparabilityNotTransitive below. */
  lemma TieBreakCycle()
    ensures PerformanceBefore(SortKey(3, 0.0, 0.0, 0.0), SortKey(2, 0.004, 0.0, 0.0))
    ensures PerformanceBefore(SortKey(2, 0.004, 0.0, 0.0), SortKey(1, 0.008, 0.0, 0.0))
    ensures PerformanceBefore(SortKey(1, 0.008, 0.0, 0.0), SortKey(3, 0.0, 0.0, 0.0))
  {}

  /** Even at equal recency_bonus, being unordered is not transitive: 0 and
      0.004 are unordered, 0.004 and 0.008 are unordered, yet 0.008 precedes 0. */
  lemma TieBreakIncomparabilityNotTransitive()
    ensures !PerformanceBefore(SortKey(3, 0.0, 0.0, 0.0), SortKey(3, 0.004, 0.0, 0.0))
    ensures !PerformanceBefore(SortKey(3, 0.004, 0.0, 0.0), SortKey(3, 0.0, 0.0, 0.0))
    ensures !PerformanceBefore(SortKey(3, 0.004, 0.0, 0.0), SortKey(3, 0.008, 0.0, 0.0))
    ensures !PerformanceBefore(SortKey(3, 0.008, 0.0, 0.0), SortKey(3, 0.004, 0.0, 0.0))
    ensures PerformanceBefore(SortKey(3, 0.008, 0.0, 0.0), SortKey(3, 0.0, 0.0, 0.0))
  {}

  // ---------------------------------------------------------------------------
  // Row selection and the price order
  // ---------------------------------------------------------------------------

  /** The price at or above which a model's price counts as unknown. */
  const UnknownPrice: real := 999999.0

  /** The price CSV lists only models with a known price. */
  predicate PriceListed(k: SortKey) {
    k.price < UnknownPrice
  }

  /** The value CSV lists only models with a positive value rank. */
  predicate ValueListed(k: SortKey) {
    0.0 < k.value
  }

  /** The price CSV: cheapest first. */
  predicate PriceBefore(a: SortKey, b: SortKey) {
    a.price < b.price
  }

  /** erase(remove_if(...)) with the negation of keep: the models keep
      accepts, each as often as it occurs, in their order. */
  function Listed(keys: seq<SortKey>, keep: SortKey -> bool): (r: seq<SortKey>)
    ensures |r| <= |keys|
    ensures forall i :: 0 <= i < |r| ==> keep(r[i])
    ensures forall k :: multiset(r)[k] == if keep(k) then multiset(keys)[k] else 0
  {
    if keys == [] then []
    else
      var last := keys[|keys| - 1];
      assert keys == keys[..|keys| - 1] + [last];
      Listed(keys[..|keys| - 1], keep) + (if keep(last) then [last] else [])
  }

  /** Selection keeps the order: selecting from two parts one after the
      other is selecting from the whole. */
  lemma {:induction false} ListedAppend(a: seq<SortKey>, b: seq<SortKey>, keep: SortKey -> bool)
    ensures Listed(a + b, keep) == Listed(a, keep) + Listed(b, keep)
  {
    if b != [] {
      var init := b[..|b| - 1];
      ListedAppend(a, init, keep);
      assert (a + b)[..|a + b| - 1] == a + init;
      assert (a + b)[|a + b| - 1] == b[|b| - 1];
    } else {
      assert a + b == a;
    }
  }

  /** Unlike the tie-break, the price order is a strict weak ordering:
      irreflexive, transitive, and with transitive incomparability (equal
      prices). */
  lemma PriceOrderIsStrictWeak(a: SortKey, b: SortKey, c: SortKey)
    ensures !PriceBefore(a, a)
    ensures PriceBefore(a, b) && PriceBefore(b, c) ==> PriceBefore(a, c)
    ensures !PriceBefore(a, b) && !PriceBefore(b, a) && !PriceBefore(b, c) && !PriceBefore(c, b) ==>
      !PriceBefore(a, c) && !PriceBefore(c, a)
  {}
}
