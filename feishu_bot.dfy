/**
 * `send_feishu_report` (Tools/feishu_bot.py): read the summary, build the card, post it
 * to the webhook and classify the reply. The report file, the environment and the
 * webhook's reply are inputs; the console messages are represented by the outcome
 * that selects them.
 */
module FeishuBot {
  import opened Wrappers
  import opened TextUtil
  import opened ReportExtractor
  import opened FeishuCard

  /** The endpoint used when `FEISHU_WEBHOOK_URL` is not set. */
  const DefaultWebhookUrl: string :=
    "https://open.feishu.cn/open-apis/bot/v2/hook/4184dbcd-2483-412e-9b88-330009114d69"

  const ContentType: string := "application/json"
  const TimeoutSeconds: nat := 10

  /** A JSON value as `json.loads` gives it; numbers are the values Python holds. */
  datatype Json = JNull | JBool(b: bool) | JNumber(x: real) | JString(s: string) | JArray | JObject

  /** What `response.json()` makes of the reply body. */
  datatype Body =
    | NotJson                       // `response.json()` raises
    | JsonObject(code: Option<Json>) // the value of the key `code`, if present
    | JsonOther                     // valid JSON that is not an object: no `.get`

  /** What `requests.post` gives: an exception (connection error, timeout) or a reply. */
  datatype Reply = PostRaised | Replied(status: int, body: Body)

  /** Which console message `send_feishu_report` ends with. */
  datatype Outcome =
    | Delivered        // "Successfully sent test report to Feishu"
    | Rejected(status: int) // "Failed to send message to Feishu"
    | Crashed          // "Error sending message to Feishu", from the outer `except`

  /** The request `requests.post(webhook_url, json=message, headers=..., timeout=10)`. */
  datatype Post = Post(url: string, message: Message, contentType: string, timeout: nat)

  /** `os.getenv(key, default)`. */
  function GetEnv(env: map<string, string>, key: string, default: string): string {
    if key in env then env[key] else default
  }

  /** Python's `value == 0` for a JSON value, `None` standing for a missing key. */
  predicate EqualsZero(code: Option<Json>) {
    code == Some(JNumber(0.0)) || code == Some(JBool(false))
  }

  /**
   * Lines 226-232 and the outer `except`: `response.json()` runs before the status
   * test, and `.get` only runs when the status is 200. Delivery succeeds exactly on
   * status 200 with a JSON object whose `code` equals 0.
   */
  function Classify(reply: Reply): (outcome: Outcome)
    ensures outcome == Delivered <==>
      reply.Replied? && reply.status == 200 && reply.body.JsonObject? && EqualsZero(reply.body.code)
    ensures outcome == Crashed <==>
      reply.PostRaised? || reply.body.NotJson? || (reply.status == 200 && reply.body.JsonOther?)
    ensures outcome.Rejected? ==> reply.Replied? && outcome.status == reply.status
  {
    match reply
    case PostRaised => Crashed
    case Replied(_, NotJson) => Crashed
    case Replied(status, body) =>
      if status != 200 then Rejected(status)
      else match body
        case JsonObject(code) => if EqualsZero(code) then Delivered else Rejected(status)
        case _ => Crashed
  }

  /** For an integer `code`: success iff the status is 200 and the code is 0. */
  lemma IntegerCodeDelivered(status: int, code: int)
    ensures Classify(Replied(status, JsonObject(Some(JNumber(code as real))))) == Delivered <==>
              status == 200 && code == 0
    ensures status != 200 ==>
              Classify(Replied(status, JsonObject(Some(JNumber(code as real))))) == Rejected(status)
  {
  }

  /**
   * `send_feishu_report()`. `report` is the text of the report file (`None` when
   * reading it raises), `env` the environment, `reply` what the webhook gives back.
   * The request posted, if any, is returned with the outcome.
   */
  method SendFeishuReport(report: Option<string>, env: map<string, string>, reply: Reply)
    returns (posted: Option<Post>, outcome: Outcome)
    ensures GetTestResults(report).None? ==> posted == None && outcome == Crashed
    ensures GetTestResults(report).Some? ==>
      var results := GetTestResults(report).value;
      posted == Some(Post(GetEnv(env, "FEISHU_WEBHOOK_URL", DefaultWebhookUrl),
                          ReportMessage(results.stats, results.time, GetEnv(env, "GITHUB_PAGES_URL", "")),
                          ContentType, TimeoutSeconds)) &&
      outcome == Classify(reply)
  {
    var results := GetTestResults(report);
    posted, outcome := SendResults(results, env, reply);
  }

  /** The rest of `send_feishu_report` once `get_test_results()` has returned `results`. */
  method SendResults(results: Option<TestResults>, env: map<string, string>, reply: Reply)
    returns (posted: Option<Post>, outcome: Outcome)
    ensures results.None? ==> posted == None && outcome == Crashed
    ensures results.Some? ==>
      posted == Some(Post(GetEnv(env, "FEISHU_WEBHOOK_URL", DefaultWebhookUrl),
                          ReportMessage(results.value.stats, results.value.time, GetEnv(env, "GITHUB_PAGES_URL", "")),
                          ContentType, TimeoutSeconds)) &&
      outcome == Classify(reply)
  {
    if results.None? {
      // `results["stats"]` on `None` raises; the outer `except` catches it.
      return None, Crashed;
    }
    var stats := results.value.stats;
    var times := results.value.time;
    var passRate := PassRate(stats.passed, stats.total);

    var reportUrl := GetEnv(env, "GITHUB_PAGES_URL", "");
    ghost var pagesUrl := reportUrl;
    var links: Option<(string, string)> := None;
    if reportUrl != "" {
      reportUrl := RStrip(reportUrl, '/');
      links := Some((reportUrl + AomakerReportPath, reportUrl + AllureReportPath));
    }

    var message := Message("interactive", Card(
      Header(PlainText(Title), Template(passRate)),
      BaseElements(stats, times, passRate)));

    if reportUrl != "" {
      // The link variables are bound here: a non-empty stripped URL came from a non-empty one.
      var (aomakerUrl, allureUrl) := links.value;
      message := message.(card := message.card.(elements := message.card.elements + [ActionBlock(aomakerUrl, allureUrl)]));
    }

    var webhookUrl := GetEnv(env, "FEISHU_WEBHOOK_URL", DefaultWebhookUrl);
    posted := Some(Post(webhookUrl, message, ContentType, TimeoutSeconds));
    outcome := Classify(reply);
  }
}
