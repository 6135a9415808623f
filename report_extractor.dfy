/**
 * `get_test_results` (Tools/feishu_bot.py): reading the pass/fail counts and the timing
 * fields out of the text of `reports/aomaker-report.html`.
 *
 * The three regular expressions involved are deterministic: each greedy run (`\d+`,
 * `\s*`, `[^>]*`, `[^<]+`) is followed by a character the run cannot contain, so a
 * shorter run can never let the rest of the pattern match. Whether a pattern matches
 * at a position, and what it captures, is therefore a function of the text and the
 * position (`LegendAt`, `TimeAt`).
 */
module ReportExtractor {
  import opened Wrappers
  import opened TextUtil

  const LegendOpen: string := "<span class=\"legend-value\">"
  const SpanOpen: string := "<span"
  const SpanClose: string := "</span>"

  /** The placeholder for a timing field the report does not contain. */
  const Unknown: string := "未知"

  const StartLabel: string := "开始时间"
  const EndLabel: string := "结束时间"
  const DurationLabel: string := "运行时长"

  /** One match of the legend pattern: where it starts, where it ends, what group 1 holds. */
  datatype Hit = Hit(start: nat, end: nat, group: string)

  datatype Stats = Stats(total: nat, passed: nat, failed: nat, broken: nat, skipped: nat) {
    /** The total is the sum of the four counts. */
    predicate Valid() {
      total == passed + failed + broken + skipped
    }
  }

  datatype Times = Times(start: string, end: string, duration: string)

  /** The dictionary `{"stats": ..., "time": ...}` that `get_test_results` returns. */
  datatype TestResults = TestResults(stats: Stats, time: Times)

  /** What the `except` branch returns: every count zero, every timing field unknown. */
  const ZeroedResults: TestResults := TestResults(Stats(0, 0, 0, 0, 0), Times(Unknown, Unknown, Unknown))

  // ---------------------------------------------------------------------------------
  // The legend pattern and re.findall

  /** `<span class="legend-value">(\d+)</span>` tried at position `i` of `s`. */
  function LegendAt(s: string, i: nat): (h: Option<Hit>)
    requires i <= |s|
    ensures h.Some? ==> h.value.start == i < h.value.end <= |s|
    ensures h.Some? ==> h.value.group != [] && AllDigits(h.value.group)
    ensures h.Some? ==> OccursAt(s, i, LegendOpen + h.value.group + SpanClose)
  {
    if !OccursAt(s, i, LegendOpen) then None
    else
      var j := i + |LegendOpen|;
      var e := DigitsEnd(s, j);
      if e > j && OccursAt(s, e, SpanClose) then
        assert s[i..e + |SpanClose|] == s[i..j] + s[j..e] + s[e..e + |SpanClose|];
        Some(Hit(i, e + |SpanClose|, s[j..e]))
      else None
  }

  /**
   * Conversely, every occurrence at `i` of the opening tag, a non-empty run of digits
   * and `</span>` is a match at `i` capturing those digits.
   */
  lemma LegendAtComplete(s: string, i: nat, g: string)
    requires i <= |s| && g != [] && AllDigits(g)
    requires OccursAt(s, i, LegendOpen + g + SpanClose)
    ensures LegendAt(s, i) == Some(Hit(i, i + |LegendOpen| + |g| + |SpanClose|, g))
  {
    var j := i + |LegendOpen|;
    var e := j + |g|;
    OccursAtAppend(s, i, LegendOpen + g, SpanClose);
    OccursAtAppend(s, i, LegendOpen, g);
    OccursAtIndex(s, j, g);
    OccursAtIndex(s, e, SpanClose);
    DigitsEndAt(s, j, e);
    assert s[j..e] == g;
  }

  /** No match of the legend pattern starts at a position in `[lo, hi)`. */
  predicate NoLegendIn(s: string, lo: nat, hi: nat) {
    forall p :: lo <= p < hi && p <= |s| ==> LegendAt(s, p).None?
  }

  /**
   * `hits` is what `re.findall` finds searching from `from`: the leftmost match at or
   * after `from`, then the leftmost match at or after where that one ended, and so on,
   * until no match is left.
   */
  predicate IsFindAll(s: string, from: nat, hits: seq<Hit>)
    decreases |hits|
  {
    if hits == [] then NoLegendIn(s, from, |s| + 1)
    else
      from <= hits[0].start <= |s| &&
      NoLegendIn(s, from, hits[0].start) &&
      LegendAt(s, hits[0].start) == Some(hits[0]) &&
      IsFindAll(s, hits[0].end, hits[1..])
  }

  /** The scan `re.findall` performs, from position `i`. */
  function Scan(s: string, i: nat): (hits: seq<Hit>)
    requires i <= |s|
    ensures IsFindAll(s, i, hits)
    ensures forall k :: 0 <= k < |hits| ==> hits[k].group != [] && AllDigits(hits[k].group)
    decreases |s| - i
  {
    match LegendAt(s, i)
    case Some(h) => [h] + Scan(s, h.end)
    case None => if i == |s| then [] else Scan(s, i + 1)
  }

  /** The leftmost-match description determines the scan: nothing else satisfies it. */
  lemma {:induction false} FindAllUnique(s: string, from: nat, hits: seq<Hit>)
    requires from <= |s|
    requires IsFindAll(s, from, hits)
    ensures hits == Scan(s, from)
    decreases |s| - from
  {
    match LegendAt(s, from)
    case Some(h) =>
      assert hits != [];
      assert hits[0] == h;
      FindAllUnique(s, h.end, hits[1..]);
    case None =>
      if from == |s| {
        assert hits == [];
      } else {
        assert IsFindAll(s, from + 1, hits);
        FindAllUnique(s, from + 1, hits);
      }
  }

  /** `re.findall(legend_pattern, content)`: group 1 of every match, left to right. */
  function FindLegendValues(content: string): (groups: seq<string>)
    ensures forall k :: 0 <= k < |groups| ==> groups[k] != [] && AllDigits(groups[k])
  {
    var hits := Scan(content, 0);
    seq(|hits|, k requires 0 <= k < |hits| => hits[k].group)
  }

  // ---------------------------------------------------------------------------------
  // The timing patterns and re.search

  /*
   * The timing pattern `LABEL:</span>\s*<span[^>]*>([^<]+)</span>`, matched stage by
   * stage: the label and `:</span>` (`TimeAt`), the white space and `<span` (`TagAt`),
   * the attributes and `>` (`AttrsAt`), the captured value and `</span>` (`ValueAt`).
   * For each stage, `...Text` is the text it matches, given what its runs matched, and
   * `...Occur(s)` says the same piece by piece; the lemmas go from stage to stage on the
   * pieces and join them into the whole text only at the top.
   */

  /** `([^<]+)</span>` tried at position `c`: group 1, if it matches. */
  function ValueAt(s: string, c: nat): (v: Option<string>)
    requires c <= |s|
    ensures v.Some? ==> v.value != [] && Avoids(v.value, '<')
  {
    var e := IndexOf(s, c, '<');
    if e > c && OccursAt(s, e, SpanClose) then Some(s[c..e]) else None
  }

  /** `[^>]*>([^<]+)</span>` tried at position `b`. */
  function AttrsAt(s: string, b: nat): (v: Option<string>)
    requires b <= |s|
    ensures v.Some? ==> v.value != [] && Avoids(v.value, '<')
  {
    var g := IndexOf(s, b, '>');
    if g == |s| then None else ValueAt(s, g + 1)
  }

  /** `\s*<span[^>]*>([^<]+)</span>` tried at position `a`. */
  function TagAt(s: string, a: nat): (v: Option<string>)
    requires a <= |s|
    ensures v.Some? ==> v.value != [] && Avoids(v.value, '<')
  {
    var j := SpacesEnd(s, a);
    if OccursAt(s, j, SpanOpen) then AttrsAt(s, j + |SpanOpen|) else None
  }

  /** `LABEL:</span>\s*<span[^>]*>([^<]+)</span>` tried at position `i`: group 1, if it matches. */
  function TimeAt(s: string, marker: string, i: nat): (v: Option<string>)
    requires i <= |s|
    ensures v.Some? ==> v.value != [] && Avoids(v.value, '<')
  {
    if OccursAt(s, i, Head(marker)) then TagAt(s, i + |Head(marker)|) else None
  }

  /** `LABEL:</span>`, the text the timing pattern for `marker` starts with. */
  function Head(marker: string): string {
    marker + ":" + SpanClose
  }

  function ValueText(v: string): string {
    v + SpanClose
  }

  function AttrsText(attrs: string, v: string): string {
    attrs + (">" + ValueText(v))
  }

  function TagText(ws: string, attrs: string, v: string): string {
    ws + (SpanOpen + AttrsText(attrs, v))
  }

  /** The text the timing pattern for `marker` matches, given what `\s*`, `[^>]*` and `([^<]+)` matched. */
  function TimeText(marker: string, ws: string, attrs: string, v: string): string {
    Head(marker) + TagText(ws, attrs, v)
  }

  /** What `\s*`, `[^>]*` and `[^<]+` may match. */
  predicate TimeParts(ws: string, attrs: string, v: string) {
    AllSpaces(ws) && Avoids(attrs, '>') && v != [] && Avoids(v, '<')
  }

  /** `v` and then `</span>` occur at `c`. */
  predicate ValueOccurs(s: string, c: nat, v: string) {
    OccursAt(s, c, v) && OccursAt(s, c + |v|, SpanClose)
  }

  /** `attrs`, `>`, `v` and `</span>` occur one after another at `b`. */
  predicate AttrsOccur(s: string, b: nat, attrs: string, v: string) {
    OccursAt(s, b, attrs) && OccursAt(s, b + |attrs|, ">") && ValueOccurs(s, b + |attrs| + 1, v)
  }

  /** `ws`, `<span`, `attrs`, `>`, `v` and `</span>` occur one after another at `a`. */
  predicate TagOccurs(s: string, a: nat, ws: string, attrs: string, v: string) {
    OccursAt(s, a, ws) && OccursAt(s, a + |ws|, SpanOpen) && AttrsOccur(s, a + |ws| + |SpanOpen|, attrs, v)
  }

  /** The text of each stage occurs exactly when its pieces occur one after another. */
  lemma ValueOccursText(s: string, c: nat, v: string)
    ensures OccursAt(s, c, ValueText(v)) <==> ValueOccurs(s, c, v)
  {
    OccursAtAppend(s, c, v, SpanClose);
  }

  lemma AttrsOccurText(s: string, b: nat, attrs: string, v: string)
    ensures OccursAt(s, b, AttrsText(attrs, v)) <==> AttrsOccur(s, b, attrs, v)
  {
    OccursAtAppend(s, b, attrs, ">" + ValueText(v));
    CloseOccursText(s, b + |attrs|, v);
  }

  lemma CloseOccursText(s: string, g: nat, v: string)
    ensures OccursAt(s, g, ">" + ValueText(v)) <==> OccursAt(s, g, ">") && ValueOccurs(s, g + 1, v)
  {
    OccursAtAppend(s, g, ">", ValueText(v));
    ValueOccursText(s, g + 1, v);
  }

  lemma TagOccursText(s: string, a: nat, ws: string, attrs: string, v: string)
    ensures OccursAt(s, a, TagText(ws, attrs, v)) <==> TagOccurs(s, a, ws, attrs, v)
  {
    OccursAtAppend(s, a, ws, SpanOpen + AttrsText(attrs, v));
    OpenOccursText(s, a + |ws|, attrs, v);
  }

  lemma OpenOccursText(s: string, j: nat, attrs: string, v: string)
    ensures OccursAt(s, j, SpanOpen + AttrsText(attrs, v)) <==> OccursAt(s, j, SpanOpen) && AttrsOccur(s, j + |SpanOpen|, attrs, v)
  {
    OccursAtAppend(s, j, SpanOpen, AttrsText(attrs, v));
    AttrsOccurText(s, j + |SpanOpen|, attrs, v);
  }

  /** Each stage's match is an occurrence of its pieces, and every such occurrence is its match. */
  lemma ValueAtSound(s: string, c: nat)
    requires c <= |s| && ValueAt(s, c).Some?
    ensures ValueOccurs(s, c, ValueAt(s, c).value)
  {
    OccursAtSlice(s, c, c + |ValueAt(s, c).value|);
  }

  lemma ValueAtComplete(s: string, c: nat, v: string)
    requires c <= |s| && TimeParts([], [], v) && ValueOccurs(s, c, v)
    ensures ValueAt(s, c) == Some(v)
  {
    OccursAtFirst(s, c + |v|, SpanClose);
    IndexOfOver(s, c, '<', v);
  }

  lemma AttrsAtSound(s: string, b: nat) returns (attrs: string)
    requires b <= |s| && AttrsAt(s, b).Some?
    ensures TimeParts([], attrs, AttrsAt(s, b).value)
    ensures AttrsOccur(s, b, attrs, AttrsAt(s, b).value)
  {
    var g := IndexOf(s, b, '>');
    attrs := s[b..g];
    IndexOfRun(s, b, '>');
    ValueAtSound(s, g + 1);
    AttrsOccurFrom(s, b, g, AttrsAt(s, b).value);
  }

  /** Assembles the pieces a match of `AttrsAt` found. */
  lemma AttrsOccurFrom(s: string, b: nat, g: nat, v: string)
    requires b <= g < |s| && s[g] == '>' && ValueOccurs(s, g + 1, v)
    ensures AttrsOccur(s, b, s[b..g], v)
  {
    OccursAtSlice(s, b, g);
    OccursAtChar(s, g);
    assert [s[g]] == ">";
  }

  lemma AttrsAtComplete(s: string, b: nat, attrs: string, v: string)
    requires b <= |s| && TimeParts([], attrs, v) && AttrsOccur(s, b, attrs, v)
    ensures AttrsAt(s, b) == Some(v)
  {
    var g := b + |attrs|;
    OccursAtFirst(s, g, ">");
    IndexOfOver(s, b, '>', attrs);
    ValueAtComplete(s, g + 1, v);
    AttrsAtFrom(s, b, g, v);
  }

  /** `AttrsAt` goes on with `ValueAt` right after the first `>`. */
  lemma AttrsAtFrom(s: string, b: nat, g: nat, v: string)
    requires b <= |s| && IndexOf(s, b, '>') == g < |s| && ValueAt(s, g + 1) == Some(v)
    ensures AttrsAt(s, b) == Some(v)
  {
  }

  lemma TagAtSound(s: string, a: nat) returns (ws: string, attrs: string)
    requires a <= |s| && TagAt(s, a).Some?
    ensures TimeParts(ws, attrs, TagAt(s, a).value)
    ensures TagOccurs(s, a, ws, attrs, TagAt(s, a).value)
  {
    var j := SpacesEnd(s, a);
    ws := s[a..j];
    SpacesEndRun(s, a);
    attrs := AttrsAtSound(s, j + |SpanOpen|);
    TagOccursFrom(s, a, j, attrs, TagAt(s, a).value);
  }

  /** Assembles the pieces a match of `TagAt` found. */
  lemma TagOccursFrom(s: string, a: nat, j: nat, attrs: string, v: string)
    requires a <= j <= |s| && OccursAt(s, j, SpanOpen) && AttrsOccur(s, j + |SpanOpen|, attrs, v)
    ensures TagOccurs(s, a, s[a..j], attrs, v)
  {
    OccursAtSlice(s, a, j);
  }

  lemma TagAtComplete(s: string, a: nat, ws: string, attrs: string, v: string)
    requires a <= |s| && TimeParts(ws, attrs, v) && TagOccurs(s, a, ws, attrs, v)
    ensures TagAt(s, a) == Some(v)
  {
    var j := a + |ws|;
    OccursAtFirst(s, j, SpanOpen);
    SpacesEndOver(s, a, ws);
    AttrsAtComplete(s, j + |SpanOpen|, attrs, v);
    TagAtFrom(s, a, j, v);
  }

  /** `TagAt` goes on with `AttrsAt` right after `\s*` and `<span`. */
  lemma TagAtFrom(s: string, a: nat, j: nat, v: string)
    requires a <= |s| && SpacesEnd(s, a) == j && OccursAt(s, j, SpanOpen)
    requires AttrsAt(s, j + |SpanOpen|) == Some(v)
    ensures TagAt(s, a) == Some(v)
  {
  }

  /**
   * `v` is what the timing pattern for `marker` captures in some text of the pattern's
   * shape that occurs at `i`.
   */
  ghost predicate TimeMatch(s: string, marker: string, i: nat, v: string) {
    exists ws: string, attrs: string :: TimeParts(ws, attrs, v) && OccursAt(s, i, TimeText(marker, ws, attrs, v))
  }

  lemma TimeMatchIntro(s: string, marker: string, i: nat, ws: string, attrs: string, v: string)
    requires TimeParts(ws, attrs, v)
    requires OccursAt(s, i, Head(marker)) && TagOccurs(s, i + |Head(marker)|, ws, attrs, v)
    ensures TimeMatch(s, marker, i, v)
  {
    TagOccursText(s, i + |Head(marker)|, ws, attrs, v);
    OccursAtAppend(s, i, Head(marker), TagText(ws, attrs, v));
    assert OccursAt(s, i, TimeText(marker, ws, attrs, v));
  }

  /** A match of the timing pattern at `i` is an occurrence there of text of the pattern's shape. */
  lemma TimeAtSound(s: string, marker: string, i: nat)
    requires i <= |s| && TimeAt(s, marker, i).Some?
    ensures TimeMatch(s, marker, i, TimeAt(s, marker, i).value)
  {
    var v := TimeAt(s, marker, i).value;
    var a := i + |Head(marker)|;
    assert OccursAt(s, i, Head(marker)) && TagAt(s, a) == Some(v);
    var ws, attrs := TagAtSound(s, a);
    TimeMatchIntro(s, marker, i, ws, attrs, v);
  }

  /** Every occurrence at `i` of text of the timing pattern's shape is a match there capturing its value. */
  lemma TimeAtFromParts(s: string, marker: string, i: nat, ws: string, attrs: string, v: string)
    requires i <= |s| && TimeParts(ws, attrs, v)
    requires OccursAt(s, i, TimeText(marker, ws, attrs, v))
    ensures TimeAt(s, marker, i) == Some(v)
  {
    var a := i + |Head(marker)|;
    OccursAtAppend(s, i, Head(marker), TagText(ws, attrs, v));
    TagOccursText(s, a, ws, attrs, v);
    TagAtComplete(s, a, ws, attrs, v);
    TimeAtFrom(s, marker, i, v);
  }

  /** `TimeAt` goes on with `TagAt` right after the label and `:</span>`. */
  lemma TimeAtFrom(s: string, marker: string, i: nat, v: string)
    requires i <= |s| && OccursAt(s, i, Head(marker))
    requires TagAt(s, i + |Head(marker)|) == Some(v)
    ensures TimeAt(s, marker, i) == Some(v)
  {
  }

  /** Every text of the timing pattern's shape at `i` is what the pattern matches there. */
  lemma TimeAtComplete(s: string, marker: string, i: nat, v: string)
    requires i <= |s| && TimeMatch(s, marker, i, v)
    ensures TimeAt(s, marker, i) == Some(v)
  {
    var ws, attrs :| TimeParts(ws, attrs, v) && OccursAt(s, i, TimeText(marker, ws, attrs, v));
    TimeAtFromParts(s, marker, i, ws, attrs, v);
  }

  /** The timing pattern matches at `i` capturing `v` exactly when text of its shape with value `v` occurs at `i`. */
  lemma TimeAtShape(s: string, marker: string, i: nat, v: string)
    requires i <= |s|
    ensures TimeAt(s, marker, i) == Some(v) <==> TimeMatch(s, marker, i, v)
  {
    if TimeAt(s, marker, i) == Some(v) {
      TimeAtSound(s, marker, i);
    }
    if TimeMatch(s, marker, i, v) {
      TimeAtComplete(s, marker, i, v);
    }
  }

  /** A match object of `re.search`: where the match starts and what group 1 holds. */
  datatype Found = Found(start: nat, group: string)

  /** The timing pattern matches at no position in `[lo, hi)`. */
  predicate NoTimeIn(s: string, marker: string, lo: nat, hi: nat)
    requires hi <= |s| + 1
    decreases hi - lo
  {
    lo >= hi || (TimeAt(s, marker, lo).None? && NoTimeIn(s, marker, lo + 1, hi))
  }

  /** A position of a range with no match of the timing pattern is not a match. */
  lemma {:induction false} NoTimeInAt(s: string, marker: string, lo: nat, hi: nat, q: nat)
    requires hi <= |s| + 1 && lo <= q < hi
    requires NoTimeIn(s, marker, lo, hi)
    ensures TimeAt(s, marker, q).None?
    decreases q - lo
  {
    if lo < q {
      NoTimeInAt(s, marker, lo + 1, hi, q);
    }
  }

  /** A range none of whose positions matches the timing pattern has no match. */
  lemma {:induction false} NoTimeInFromAll(s: string, marker: string, lo: nat, hi: nat)
    requires hi <= |s| + 1
    requires forall q :: lo <= q < hi ==> TimeAt(s, marker, q).None?
    ensures NoTimeIn(s, marker, lo, hi)
    decreases hi - lo
  {
    if lo < hi {
      NoTimeInFromAll(s, marker, lo + 1, hi);
    }
  }

  /** `re.search` from position `i`: the leftmost position where the timing pattern matches. */
  function SearchFrom(s: string, marker: string, i: nat): (m: Option<Found>)
    requires i <= |s|
    ensures m.Some? ==> i <= m.value.start <= |s| && TimeAt(s, marker, m.value.start) == Some(m.value.group)
    ensures m.Some? ==> NoTimeIn(s, marker, i, m.value.start)
    ensures m.None? ==> NoTimeIn(s, marker, i, |s| + 1)
    decreases |s| - i
  {
    match TimeAt(s, marker, i)
    case Some(v) => Some(Found(i, v))
    case None => if i == |s| then None else SearchFrom(s, marker, i + 1)
  }

  /** `m.group(1) if m else "未知"` with `m = re.search(pattern, content)`. */
  function TimeField(content: string, marker: string): string {
    SearchFrom(content, marker, 0).GetOr(Found(0, Unknown)).group
  }

  /** A timing field is the value captured by the leftmost match of its own pattern. */
  lemma TimeFieldLeftmost(content: string, marker: string, p: nat)
    requires p <= |content| && TimeAt(content, marker, p).Some?
    requires forall q :: 0 <= q < p ==> TimeAt(content, marker, q).None?
    ensures TimeField(content, marker) == TimeAt(content, marker, p).value
  {
    var m := SearchFrom(content, marker, 0);
    if m.None? {
      NoTimeInAt(content, marker, 0, |content| + 1, p);
      assert false;
    }
    if m.value.start > p {
      NoTimeInAt(content, marker, 0, m.value.start, p);
      assert false;
    }
  }

  /** A timing field whose pattern matches nowhere is the placeholder. */
  lemma TimeFieldMissing(content: string, marker: string)
    requires forall q :: 0 <= q <= |content| ==> TimeAt(content, marker, q).None?
    ensures TimeField(content, marker) == Unknown
  {
  }

  // ---------------------------------------------------------------------------------
  // get_test_results

  /**
   * The body of the `try` once the file has been read. With fewer than four legend
   * values the `if` has no `else` and the function falls off its end: `None`.
   */
  function ExtractResults(content: string): (r: Option<TestResults>)
    ensures r.Some? <==> |FindLegendValues(content)| >= 4
    ensures r.Some? ==> r.value.stats.Valid()
    ensures r.Some? ==>
      var vs := FindLegendValues(content);
      r.value.stats.passed == ParseDecimal(vs[0]) && r.value.stats.failed == ParseDecimal(vs[1]) &&
      r.value.stats.broken == ParseDecimal(vs[2]) && r.value.stats.skipped == ParseDecimal(vs[3])
    ensures r.Some? ==>
      r.value.time == Times(TimeField(content, StartLabel), TimeField(content, EndLabel),
                            TimeField(content, DurationLabel))
  {
    var stats := FindLegendValues(content);
    if |stats| >= 4 then
      var passed := ParseDecimal(stats[0]);
      var failed := ParseDecimal(stats[1]);
      var broken := ParseDecimal(stats[2]);
      var skipped := ParseDecimal(stats[3]);
      var total := passed + failed + broken + skipped;
      Some(TestResults(
        Stats(total, passed, failed, broken, skipped),
        Times(TimeField(content, StartLabel), TimeField(content, EndLabel), TimeField(content, DurationLabel))))
    else
      None
  }

  /**
   * `get_test_results()`. The report is the text of the file, or `None` when opening or
   * decoding it raised; the `except` branch then returns the zeroed summary.
   */
  function GetTestResults(report: Option<string>): (r: Option<TestResults>)
    ensures report.None? ==> r == Some(ZeroedResults)
    ensures r.None? <==> report.Some? && |FindLegendValues(report.value)| < 4
    ensures r.Some? ==> r.value.stats.Valid()
    ensures report.Some? ==> r == ExtractResults(report.value)
  {
    match report
    case None => Some(ZeroedResults)
    case Some(content) => ExtractResults(content)
  }

  /**
   * The legend values are the groups of the leftmost non-overlapping matches, in
   * document order, and the counts are the first four of them read as integers.
   */
  lemma LegendValuesAreFindAll(content: string, hits: seq<Hit>)
    requires IsFindAll(content, 0, hits)
    ensures |FindLegendValues(content)| == |hits|
    ensures forall k :: 0 <= k < |hits| ==> FindLegendValues(content)[k] == hits[k].group
  {
    FindAllUnique(content, 0, hits);
  }

  /**
   * A report whose first four legend values are `0` and that has no timing fields gives
   * exactly the zeroed summary of a failed read: the two cannot be told apart.
   */
  lemma EmptyRunLooksLikeFailure(content: string)
    requires |FindLegendValues(content)| >= 4
    requires forall k :: 0 <= k < 4 ==> FindLegendValues(content)[k] == "0"
    requires forall q :: 0 <= q <= |content| ==> TimeAt(content, StartLabel, q).None?
    requires forall q :: 0 <= q <= |content| ==> TimeAt(content, EndLabel, q).None?
    requires forall q :: 0 <= q <= |content| ==> TimeAt(content, DurationLabel, q).None?
    ensures GetTestResults(Some(content)) == GetTestResults(None)
  {
    TimeFieldMissing(content, StartLabel);
    TimeFieldMissing(content, EndLabel);
    TimeFieldMissing(content, DurationLabel);
    ZeroCountsNoTimes(content);
  }

  /** Four legend values `0` read as four zero counts. */
  lemma ZeroCounts(vs: seq<string>)
    requires |vs| >= 4
    requires forall k :: 0 <= k < 4 ==> vs[k] == "0"
    ensures ParseDecimal(vs[0]) == 0 && ParseDecimal(vs[1]) == 0
    ensures ParseDecimal(vs[2]) == 0 && ParseDecimal(vs[3]) == 0
  {
    assert ParseDecimal("0") == 0;
    assert vs[0] == "0" && vs[1] == "0" && vs[2] == "0" && vs[3] == "0";
  }

  lemma ZeroCountsNoTimes(content: string)
    requires |FindLegendValues(content)| >= 4
    requires forall k :: 0 <= k < 4 ==> FindLegendValues(content)[k] == "0"
    requires TimeField(content, StartLabel) == Unknown && TimeField(content, EndLabel) == Unknown
    requires TimeField(content, DurationLabel) == Unknown
    ensures ExtractResults(content) == Some(ZeroedResults)
  {
    ZeroCounts(FindLegendValues(content));
  }
}
