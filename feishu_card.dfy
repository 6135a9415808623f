/**
 * The message card that `send_feishu_report` (Tools/feishu_bot.py) builds: the pass
 * rate, the header colour, the five fixed body elements, the optional action block
 * with the two report links, and `create_status_tag`.
 */
module FeishuCard {
  import opened Wrappers
  import opened TextUtil
  import opened ReportExtractor

  datatype Text = Text(tag: string, content: string)

  datatype Field = Field(isShort: bool, text: Text)

  /** A link button; `kind` is the JSON key `type`. */
  datatype Button = Button(text: Text, kind: string, url: string)

  datatype Image = Image(tag: string, imgKey: string, alt: Text)

  datatype Element =
    | TextDiv(text: Text)
    | ImageDiv(text: Text, extra: Image)
    | Hr
    | FieldsDiv(fields: seq<Field>)
    | Action(actions: seq<Button>)
  {
    /** The JSON key `tag` of the element. */
    function Tag(): string {
      match this
      case Hr => "hr"
      case Action(_) => "action"
      case _ => "div"
    }
  }

  datatype Header = Header(title: Text, template: string)

  datatype Card = Card(header: Header, elements: seq<Element>)

  datatype Message = Message(msgType: string, card: Card)

  const Title: string := "\U{1F3AF} 自动化测试报告"
  const TimingName: string := "\U{23F1}\U{FE0F} 执行时间"
  const TotalName: string := "\U{1F4CA} 总用例数"
  const RateName: string := "\U{2728} 通过率"
  const PassedName: string := "\U{2705} 通过"
  const FailedName: string := "\U{274C} 失败"
  const BrokenName: string := "\U{26A0}\U{FE0F} 阻塞"
  const SkippedName: string := "\U{23ED}\U{FE0F} 跳过"
  const AomakerButton: string := "\U{1F4CA} 完整测试报告"
  const AllureButton: string := "\U{1F4C8} Allure测试报告"

  const StatusImgKey: string := "img_v2_041b28e3-5680-48c2-9af2-497ace79333g"

  const AomakerReportPath: string := "/reports/aomaker-report.html"
  const AllureReportPath: string := "/allure/index.html"

  function LarkMd(content: string): Text { Text("lark_md", content) }

  function PlainText(content: string): Text { Text("plain_text", content) }

  /** The markdown `**name**` followed on the next line by `value`. */
  function Bold(name: string, value: string): string {
    "**" + name + "**\n" + value
  }

  // ---------------------------------------------------------------------------------
  // create_status_tag

  /** `create_status_tag(count, type_name, color)`; the colour is never used. */
  function CreateStatusTag(count: int, typeName: string, color: string): Element {
    ImageDiv(LarkMd(Bold(typeName, ShowInt(count))),
             Image("img", StatusImgKey, PlainText(typeName + " " + ShowInt(count))))
  }

  /** Text `d` is the decimal form of `n`: canonical digits, after a minus sign when `n` is negative. */
  predicate ShowsInt(d: string, n: int) {
    if n >= 0 then Canonical(d) && ParseDecimal(d) == n
    else |d| >= 1 && d[0] == '-' && Canonical(d[1..]) && ParseDecimal(d[1..]) == -n
  }

  lemma ShowIntShows(n: int)
    ensures ShowsInt(ShowInt(n), n)
  {
    if n >= 0 {
      ParseShow(n);
    } else {
      ParseShow(-n);
      assert ShowInt(n)[1..] == ShowNat(-n);
    }
  }

  /**
   * A status tag is a `div` whose markdown text is the name in bold and, on the next
   * line, the count, and whose image's alternative text is the name, a space and the
   * count; every other field is constant, and the colour does not matter.
   */
  lemma StatusTagShowsCount(count: int, typeName: string, color: string, other: string)
    ensures var e := CreateStatusTag(count, typeName, color);
      var k := |typeName| + 5;
      var a := |typeName| + 1;
      e.ImageDiv? && e.Tag() == "div" && e.text.tag == "lark_md" &&
      e.extra.tag == "img" && e.extra.imgKey == StatusImgKey && e.extra.alt.tag == "plain_text" &&
      |e.text.content| > k && e.text.content[..k] == "**" + typeName + "**\n" &&
      ShowsInt(e.text.content[k..], count) &&
      |e.extra.alt.content| > a && e.extra.alt.content[..a] == typeName + " " &&
      ShowsInt(e.extra.alt.content[a..], count) &&
      e == CreateStatusTag(count, typeName, other)
  {
    var e := CreateStatusTag(count, typeName, color);
    ShowIntShows(count);
    assert e.text.content[|typeName| + 5..] == ShowInt(count);
    assert e.extra.alt.content[|typeName| + 1..] == ShowInt(count);
  }

  // ---------------------------------------------------------------------------------
  // Pass rate and header template

  /** `passed / total * 100 if total > 0 else 0`, as an exact rational. */
  function PassRate(passed: nat, total: nat): (rate: real)
    ensures total == 0 ==> rate == 0.0
    ensures total > 0 ==> rate * (total as real) == (passed as real) * 100.0
    ensures rate >= 0.0
    ensures passed <= total ==> rate <= 100.0
  {
    if total > 0 then (passed as real) / (total as real) * 100.0 else 0.0
  }

  /** `"blue" if pass_rate == 100 else "orange" if pass_rate >= 80 else "red"`. */
  function Template(rate: real): (t: string)
    ensures t in {"blue", "orange", "red"}
    ensures t == "blue" <==> rate == 100.0
    ensures t == "orange" <==> 80.0 <= rate && rate != 100.0
  {
    if rate == 100.0 then "blue" else if rate >= 80.0 then "orange" else "red"
  }

  lemma RateIsHundred(passed: nat, total: nat)
    requires total > 0
    ensures PassRate(passed, total) == 100.0 <==> passed == total
  {
    var r := PassRate(passed, total);
    var t := total as real;
    if r == 100.0 {
      assert 100.0 * t == (passed as real) * 100.0;
    }
  }

  /** A rate `r` with `r * t == x` for a positive `t` is at least `b` exactly when `x >= b * t`. */
  lemma ScaledAtLeast(r: real, x: real, t: real, b: real)
    requires t > 0.0 && r * t == x
    ensures r >= b <==> x >= b * t
  {
    assert r * t - b * t == (r - b) * t;
    if r >= b {
      assert (r - b) * t >= 0.0;
    } else {
      assert (b - r) * t > 0.0;
    }
  }

  lemma RateAtLeastEighty(passed: nat, total: nat)
    requires total > 0
    ensures PassRate(passed, total) >= 80.0 <==> 5 * passed >= 4 * total
  {
    var t := total as real;
    var p := passed as real;
    ScaledAtLeast(PassRate(passed, total), p * 100.0, t, 80.0);
    assert (5 * passed) as real == 5.0 * p && (4 * total) as real == 4.0 * t;
  }

  /**
   * The header colour in integer terms: blue exactly for a non-empty run with every
   * test passed, orange for at least four passed out of five otherwise, red for the
   * rest, the empty run included.
   */
  lemma {:induction false} TemplateByCounts(passed: nat, total: nat)
    ensures Template(PassRate(passed, total)) == "blue" <==> total > 0 && passed == total
    ensures Template(PassRate(passed, total)) == "orange" <==>
              total > 0 && passed != total && 5 * passed >= 4 * total
    ensures Template(PassRate(passed, total)) == "red" <==> total == 0 || 5 * passed < 4 * total
  {
    if total > 0 {
      RateIsHundred(passed, total);
      RateAtLeastEighty(passed, total);
    }
  }

  // ---------------------------------------------------------------------------------
  // Pass-rate text

  /** The number of tenths `f"{x:.1f}"` shows: `10 * x` rounded half to even. */
  function RoundTenths(x: real): (n: nat)
    requires x >= 0.0
    ensures -0.5 <= n as real - x * 10.0 <= 0.5
  {
    var q := (x * 10.0).Floor;
    var d := x * 10.0 - q as real;
    if d > 0.5 || (d == 0.5 && q % 2 == 1) then q + 1 else q
  }

  /** `f"{x:.1f}"` for a non-negative `x`. */
  function OneDecimal(x: real): string
    requires x >= 0.0
  {
    var n := RoundTenths(x);
    ShowNat(n / 10) + "." + [DigitChar(n % 10)]
  }

  /**
   * Text `m` reads as a whole number, a point and one digit, whose value differs from
   * `x` by at most a twentieth.
   */
  predicate ShowsOneDecimal(m: string, x: real) {
    |m| >= 3 && m[|m| - 2] == '.' && Canonical(m[..|m| - 2]) && IsDigit(m[|m| - 1]) &&
    var tenths := ParseDecimal(m[..|m| - 2]) * 10 + DigitValue(m[|m| - 1]);
    -0.5 <= tenths as real - x * 10.0 <= 0.5
  }

  lemma OneDecimalShows(x: real)
    requires x >= 0.0
    ensures ShowsOneDecimal(OneDecimal(x), x)
  {
    var n := RoundTenths(x);
    var m := OneDecimal(x);
    ParseShow(n / 10);
    assert m[..|m| - 2] == ShowNat(n / 10);
  }

  // ---------------------------------------------------------------------------------
  // The body elements

  function ShortField(content: string): Field { Field(true, LarkMd(content)) }

  function FieldRow(left: string, right: string): Element {
    FieldsDiv([ShortField(left), ShortField(right)])
  }

  /** The first element: the three timing fields, verbatim, one per line. */
  function TimingDiv(times: Times): Element {
    TextDiv(LarkMd(Bold(TimingName, "开始：" + times.start + "\n结束：" + times.end + "\n耗时：" + times.duration)))
  }

  /** The five elements every card has, in order. */
  function BaseElements(stats: Stats, times: Times, rate: real): seq<Element>
    requires rate >= 0.0
  {
    [ TimingDiv(times),
      Hr,
      FieldRow(Bold(TotalName, ShowNat(stats.total)), Bold(RateName, OneDecimal(rate) + "%")),
      FieldRow(Bold(PassedName, ShowNat(stats.passed)), Bold(FailedName, ShowNat(stats.failed))),
      FieldRow(Bold(BrokenName, ShowNat(stats.broken)), Bold(SkippedName, ShowNat(stats.skipped))) ]
  }

  /** A short markdown field that reads `**name**` and then the canonical decimal digits of `n`. */
  predicate ShowsCount(f: Field, name: string, n: nat) {
    var c := f.text.content;
    var k := |name| + 5;
    f.isShort && f.text.tag == "lark_md" && k <= |c| && c[..k] == "**" + name + "**\n" &&
    Canonical(c[k..]) && ParseDecimal(c[k..]) == n
  }

  /** A short markdown field that reads `**name**` and then `x` to one decimal and `%`. */
  predicate ShowsPercent(f: Field, name: string, x: real) {
    var c := f.text.content;
    var k := |name| + 5;
    f.isShort && f.text.tag == "lark_md" && k < |c| && c[..k] == "**" + name + "**\n" &&
    c[|c| - 1] == '%' && ShowsOneDecimal(c[k..|c| - 1], x)
  }

  lemma BoldCount(name: string, n: nat)
    ensures ShowsCount(ShortField(Bold(name, ShowNat(n))), name, n)
  {
    ParseShow(n);
    assert Bold(name, ShowNat(n))[|name| + 5..] == ShowNat(n);
  }

  lemma BoldPercent(name: string, x: real)
    requires x >= 0.0
    ensures ShowsPercent(ShortField(Bold(name, OneDecimal(x) + "%")), name, x)
  {
    var c := Bold(name, OneDecimal(x) + "%");
    OneDecimalShows(x);
    assert c[|name| + 5..|c| - 1] == OneDecimal(x);
  }

  /** The base elements are, in order, a timing div, a rule and three rows of fields. */
  lemma BaseElementsTags(stats: Stats, times: Times, rate: real)
    requires rate >= 0.0
    ensures var es := BaseElements(stats, times, rate);
      |es| == 5 &&
      [es[0].Tag(), es[1].Tag(), es[2].Tag(), es[3].Tag(), es[4].Tag()] == ["div", "hr", "div", "div", "div"] &&
      es[0] == TextDiv(LarkMd("**" + TimingName + "**\n开始：" + times.start +
                              "\n结束：" + times.end + "\n耗时：" + times.duration)) &&
      es[1] == Hr
  {
  }

  /**
   * The three rows of the base elements pair two short fields each: {total, pass
   * rate}, {passed, failed}, {broken, skipped}, each showing its value.
   */
  lemma BaseElementsRows(stats: Stats, times: Times, rate: real)
    requires rate >= 0.0
    ensures var es := BaseElements(stats, times, rate);
      es[2].FieldsDiv? && |es[2].fields| == 2 &&
      ShowsCount(es[2].fields[0], TotalName, stats.total) &&
      ShowsPercent(es[2].fields[1], RateName, rate) &&
      es[3].FieldsDiv? && |es[3].fields| == 2 &&
      ShowsCount(es[3].fields[0], PassedName, stats.passed) &&
      ShowsCount(es[3].fields[1], FailedName, stats.failed) &&
      es[4].FieldsDiv? && |es[4].fields| == 2 &&
      ShowsCount(es[4].fields[0], BrokenName, stats.broken) &&
      ShowsCount(es[4].fields[1], SkippedName, stats.skipped)
  {
    RateRow(TotalName, stats.total, RateName, rate);
    CountRow(PassedName, stats.passed, FailedName, stats.failed);
    CountRow(BrokenName, stats.broken, SkippedName, stats.skipped);
  }

  /** A row of a count and the pass rate shows both. */
  lemma RateRow(left: string, m: nat, right: string, x: real)
    requires x >= 0.0
    ensures var e := FieldRow(Bold(left, ShowNat(m)), Bold(right, OneDecimal(x) + "%"));
      e.FieldsDiv? && |e.fields| == 2 && ShowsCount(e.fields[0], left, m) && ShowsPercent(e.fields[1], right, x)
  {
    BoldCount(left, m);
    BoldPercent(right, x);
  }

  /** A row of two counts shows both. */
  lemma CountRow(left: string, m: nat, right: string, n: nat)
    ensures var e := FieldRow(Bold(left, ShowNat(m)), Bold(right, ShowNat(n)));
      e.FieldsDiv? && |e.fields| == 2 && ShowsCount(e.fields[0], left, m) && ShowsCount(e.fields[1], right, n)
  {
    BoldCount(left, m);
    BoldCount(right, n);
  }

  // ---------------------------------------------------------------------------------
  // The action block and the whole message

  /** The action block with its two link buttons. */
  function ActionBlock(aomakerUrl: string, allureUrl: string): Element {
    Action([ Button(PlainText(AomakerButton), "primary", aomakerUrl),
             Button(PlainText(AllureButton), "primary", allureUrl) ])
  }

  /**
   * The two report links for the value of `GITHUB_PAGES_URL`, if it enables them: the
   * value without its trailing slashes, followed by each report's fixed path.
   */
  function ReportLinks(reportUrl: string): (links: Option<(string, string)>)
    ensures links.Some? <==> RStrip(reportUrl, '/') != ""
  {
    var base := RStrip(reportUrl, '/');
    if base != "" then Some((base + AomakerReportPath, base + AllureReportPath)) else None
  }

  /**
   * The message `send_feishu_report` posts for a summary and the value of
   * `GITHUB_PAGES_URL` (empty when unset).
   */
  function ReportMessage(stats: Stats, times: Times, reportUrl: string): Message {
    var rate := PassRate(stats.passed, stats.total);
    var elements := BaseElements(stats, times, rate);
    Message("interactive", Card(
      Header(PlainText(Title), Template(rate)),
      match ReportLinks(reportUrl)
      case Some((aomakerUrl, allureUrl)) => elements + [ActionBlock(aomakerUrl, allureUrl)]
      case None => elements))
  }

  /**
   * Every message starts with the five base elements under the coloured header; there
   * is a sixth, the action block, exactly when the URL without its trailing slashes is
   * not empty.
   */
  lemma ReportMessageLayout(stats: Stats, times: Times, reportUrl: string)
    ensures var m := ReportMessage(stats, times, reportUrl);
      var rate := PassRate(stats.passed, stats.total);
      m.msgType == "interactive" &&
      m.card.header == Header(PlainText(Title), Template(rate)) &&
      5 <= |m.card.elements| <= 6 &&
      m.card.elements[..5] == BaseElements(stats, times, rate) &&
      (|m.card.elements| == 6 <==> RStrip(reportUrl, '/') != "") &&
      (|m.card.elements| == 6 ==> m.card.elements[5].Tag() == "action")
  {
    var m := ReportMessage(stats, times, reportUrl);
    var rate := PassRate(stats.passed, stats.total);
    BaseElementsTags(stats, times, rate);
    assert m.card.elements[..5] == BaseElements(stats, times, rate);
  }

  /**
   * When there is an action block, its two buttons link, in this order, to the
   * main report and to the Allure report under `b`: the URL with every trailing
   * slash removed, so `b` never ends in a slash.
   */
  lemma ActionBlockLinks(stats: Stats, times: Times, reportUrl: string)
    requires RStrip(reportUrl, '/') != ""
    ensures var es := ReportMessage(stats, times, reportUrl).card.elements;
      var b := RStrip(reportUrl, '/');
      |es| == 6 && es[5].Action? && |es[5].actions| == 2 &&
      es[5].actions[0] == Button(PlainText(AomakerButton), "primary", b + "/reports/aomaker-report.html") &&
      es[5].actions[1] == Button(PlainText(AllureButton), "primary", b + "/allure/index.html") &&
      b <= reportUrl && b[|b| - 1] != '/' &&
      forall k :: |b| <= k < |reportUrl| ==> reportUrl[k] == '/'
  {
    ReportMessageLayout(stats, times, reportUrl);
  }

  /** Adding the links changes nothing in the message but the appended action block. */
  lemma ActionBlockOnlyAppends(stats: Stats, times: Times, reportUrl: string)
    ensures var m := ReportMessage(stats, times, reportUrl);
      var m0 := ReportMessage(stats, times, "");
      m.msgType == m0.msgType && m.card.header == m0.card.header &&
      m.card.elements[..5] == m0.card.elements
  {
    ReportMessageLayout(stats, times, reportUrl);
    ReportMessageLayout(stats, times, "");
  }

  /**
   * A base URL followed by any number of slashes links to the two reports directly
   * under that base, without a doubled slash.
   */
  lemma PaddedUrlLinks(base: string, n: nat)
    requires base != [] && base[|base| - 1] != '/'
    ensures ReportLinks(base + seq(n, _ => '/')) ==
              Some((base + "/reports/aomaker-report.html", base + "/allure/index.html"))
  {
    RStripPadded(base, '/', n);
  }

  /** A URL made only of slashes enables no links. */
  lemma SlashesOnlyNoLinks(n: nat)
    ensures ReportLinks(seq(n, _ => '/')).None?
  {
    RStripPadded("", '/', n);
    assert "" + seq(n, _ => '/') == seq(n, _ => '/');
  }

  /** A run with 8 passed, 1 failed, 0 broken and 1 skipped: a rate of exactly 80. */
  lemma EightOfTenIsOrange()
    ensures PassRate(8, 10) == 80.0
    ensures Template(PassRate(8, 10)) == "orange"
  {
    TemplateByCounts(8, 10);
    RateAtLeastEighty(8, 10);
  }
}
