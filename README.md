# Test-report notifier: a Dafny model

This project models the test-report notifier of the API test suite, `Tools/feishu_bot.py`.
After a test run, the notifier reads the pass/fail counts and the timing fields out of
the generated HTML report (`get_test_results`). It works out the pass rate and a header
colour, then builds a Feishu chat "interactive" message card: five fixed elements, plus
an action block with two report links when `GITHUB_PAGES_URL` gives a base URL. It posts
the card to the webhook and classifies the reply (`send_feishu_report`).
`create_status_tag` builds a tagged status element.

Modules:

- `Wrappers`: `Option`.
- `TextUtil`: character classes (`\d`, `\s`), greedy runs, `str.rstrip('/')`, `int(digits)` and `f"{n}"`.
- `ReportExtractor`: the legend pattern and `re.findall`, the three timing patterns and `re.search`, and `get_test_results`.
- `FeishuCard`: pass rate, header template, the `:.1f` rate text, the body elements, the links, the whole message, and `create_status_tag`.
- `FeishuBot`: the webhook reply, its classification, and `send_feishu_report` as a method.

`get_test_results` and `create_status_tag` are modelled as functions. `send_feishu_report`
is modelled as a method with the source's steps:

- it reassigns the report URL;
- it binds the two links only when that URL is non-empty;
- it appends the action block to the message value when the stripped URL is non-empty.

The method's postcondition ties what it posts to the specification function
`ReportMessage`, and the lemmas of `FeishuCard` state that function's layout.

The three regular expressions never need backtracking: each greedy run is followed by a
character the run cannot contain. So "the pattern matches at position i, capturing v"
is a function (`LegendAt`, `TimeAt`). `re.findall` is the leftmost, non-overlapping scan
`Scan`. `IsFindAll` describes that scan independently, and `FindAllUnique` proves that
the description determines it. `re.search` is the leftmost position (`SearchFrom`).

`get_test_results` can end in three ways, and the model keeps all three:

- a summary, when there are at least four legend values;
- `None`, when there are fewer. The `if` at line 22 has no `else`, so the function falls off its end;
- the zeroed summary, when reading the file raises.

On the second case the code departs from the notifier's intended fail-soft design, under
which fewer than four markers would give the zeroed summary. The code returns `None`, so
`send_feishu_report` then raises at `results["stats"]`, its own `except` catches it, and
nothing is posted. The model follows the code (`GetTestResults`, `SendFeishuReport`).

Inputs of the model that are I/O in the source:

- the report text: `Option<string>`, `None` when opening or decoding the file raises;
- the environment: a `map<string, string>` read the way `os.getenv(key, default)` reads it;
- the webhook's reply: `Reply`. It is either an exception from `requests.post`, or a status with a body as `response.json()` sees it: not JSON, a JSON object with or without `code`, or other JSON.

Console printing is represented by the `Outcome` that selects the message printed.

## Model

| member | source | states |
|---|---|---|
| `TextUtil.DigitsEnd` | Tools/feishu_bot.py:19 | where the greedy `\d+` run starting at i stops: every character before it is a digit, and the next one is not, or the text ends |
| `TextUtil.SpacesEnd` | Tools/feishu_bot.py:30-32 | where the greedy `\s*` run starting at i stops: every character before it is white space in the sense of `str.isspace`, and the next one is not, or the text ends |
| `TextUtil.IndexOf` | Tools/feishu_bot.py:30-32 | where a greedy `[^>]*` or `[^<]+` run starting at i stops: no character before it is the excluded one, and it is the excluded character or the end of the text |
| `TextUtil.RStrip` | Tools/feishu_bot.py:108 | `rstrip('/')` gives a prefix of the URL that does not end in `/`, and everything it removed is `/` |
| `TextUtil.RStripUnique` | Tools/feishu_bot.py:108 | those three properties single out the stripped URL among all prefixes |
| `TextUtil.RStripIdempotent` | Tools/feishu_bot.py:108 | stripping an already-stripped URL changes nothing |
| `TextUtil.RStripPadded` | Tools/feishu_bot.py:108 | a base that does not end in `/`, followed by any number of slashes, strips back to that base |
| `TextUtil.ShowNat` | Tools/feishu_bot.py:142 | `f"{n}"` of a count is one or more digits, with no leading zero, and is one digit exactly for n < 10 |
| `TextUtil.ParseShow` | Tools/feishu_bot.py:23-26 | `int(f"{n}") == n`: reading back a rendered count gives the count |
| `TextUtil.ShowParse` | Tools/feishu_bot.py:23-26 | a canonical digit string, read with `int` and rendered again, is unchanged |
| `TextUtil.ParseDecimal` | Tools/feishu_bot.py:23-26 | `int(digits)` on a string of ASCII digits. It has no contract of its own: `ParseShow` and `ShowParse` state that it and `ShowNat` invert each other, and `ZeroCounts` reads `0` as 0 |
| `TextUtil.ShowInt` | Tools/feishu_bot.py:75-82 | `f"{count}"` of a count that may be negative. It has no contract of its own: `FeishuCard.ShowIntShows` states that it is the count's digits, after a minus sign when the count is negative, and that they read back as the count |
| `ReportExtractor.LegendAt` | Tools/feishu_bot.py:19 | a legend match at i ends after i and inside the text; it captures one or more digits; and the text there is the opening tag, the digits and `</span>` |
| `ReportExtractor.LegendAtComplete` | Tools/feishu_bot.py:19-20 | conversely, wherever the opening tag, one or more digits and `</span>` occur at i, the legend pattern matches at i, ends right after `</span>` and captures exactly those digits |
| `ReportExtractor.Scan` | Tools/feishu_bot.py:20 | the scan is a leftmost, non-overlapping sequence of matches (`IsFindAll`), and every captured group is a non-empty digit string |
| `ReportExtractor.FindAllUnique` | Tools/feishu_bot.py:20 | any match sequence that is leftmost and non-overlapping from a position equals the scan from there, so `re.findall`'s result is determined |
| `ReportExtractor.FindLegendValues` | Tools/feishu_bot.py:19-20 | every value `re.findall` returns is a non-empty string of digits, so `int` cannot fail and every count is non-negative |
| `ReportExtractor.LegendValuesAreFindAll` | Tools/feishu_bot.py:19-20 | the legend values are, in document order, the groups of whatever match sequence is leftmost and non-overlapping from the start |
| `ReportExtractor.TimeAt` | Tools/feishu_bot.py:30-32 | a captured timing value is non-empty and contains no `<` |
| `ReportExtractor.TimeAtSound` | Tools/feishu_bot.py:30-32 | a match of a timing pattern at i is an occurrence at i of the label, `:</span>`, white space, `<span`, attributes without `>`, `>`, a non-empty value without `<` and `</span>`, and the value is what it captures |
| `ReportExtractor.TimeAtComplete` | Tools/feishu_bot.py:30-32 | conversely, every occurrence at i of text of that shape is a match at i that captures its value |
| `ReportExtractor.TimeAtShape` | Tools/feishu_bot.py:30-32 | both directions together: the pattern matches at i capturing v exactly when text of the pattern's shape with value v occurs at i |
| `ReportExtractor.NoTimeInAt` | Tools/feishu_bot.py:34-36 | a range where the timing pattern matches nowhere has no match at any of its positions |
| `ReportExtractor.NoTimeInFromAll` | Tools/feishu_bot.py:34-36 | conversely, a range none of whose positions matches is a range where the pattern matches nowhere |
| `ReportExtractor.SearchFrom` | Tools/feishu_bot.py:34-36 | `re.search` returns the first position where the timing pattern matches, with its group; when it returns nothing, the pattern matches nowhere |
| `ReportExtractor.TimeField` | Tools/feishu_bot.py:47-49 | `m.group(1) if m else "未知"` for one timing pattern. It has no contract of its own: `TimeFieldLeftmost` and `TimeFieldMissing` state its value in both cases |
| `ReportExtractor.TimeFieldLeftmost` | Tools/feishu_bot.py:34-49 | a timing field is the value captured by the leftmost match of that field's own pattern |
| `ReportExtractor.TimeFieldMissing` | Tools/feishu_bot.py:47-49 | a timing field whose pattern matches nowhere is `"未知"` |
| `ReportExtractor.ExtractResults` | Tools/feishu_bot.py:18-51 | there is a summary iff there are at least four legend values. Then passed, failed, broken and skipped are the first four values read as integers, total is their sum, and each timing field depends only on its own pattern |
| `ReportExtractor.GetTestResults` | Tools/feishu_bot.py:11-67 | a read failure gives the zeroed summary; the result is `None` exactly when the text has fewer than four legend values; every summary's total is the sum of its four counts |
| `ReportExtractor.ZeroCounts` | Tools/feishu_bot.py:23-26 | four legend values `0` are read as four zero counts |
| `ReportExtractor.ZeroCountsNoTimes` | Tools/feishu_bot.py:38-67 | four `0` legend values with all three timing fields unknown give exactly the zeroed summary |
| `ReportExtractor.EmptyRunLooksLikeFailure` | Tools/feishu_bot.py:22-67 | a report of an all-zero run with no timing fields cannot be told apart from a report that could not be read |
| `FeishuCard.ShowIntShows` | Tools/feishu_bot.py:75 | `f"{count}"` is canonical digits (non-empty, no leading zero), after a minus sign for a negative count, and reads back as the count |
| `FeishuCard.CreateStatusTag` | Tools/feishu_bot.py:69-85 | `create_status_tag`. It has no contract of its own: `StatusTagShowsCount` states the tag's layout and that the colour is ignored |
| `FeishuCard.StatusTagShowsCount` | Tools/feishu_bot.py:69-85 | the tag's text is the bold name and then the count on the next line; its alt text is the name, a space and the count; the other fields are the constants `div`, `lark_md`, `img`, the image key and `plain_text`; the colour argument changes nothing |
| `FeishuCard.PassRate` | Tools/feishu_bot.py:102 | the rate is 0 with no division when total is 0, and otherwise it satisfies rate × total = passed × 100; it is never negative and at most 100 when passed ≤ total |
| `FeishuCard.Template` | Tools/feishu_bot.py:122 | the template is blue iff the rate is 100, orange iff 80 ≤ rate and rate ≠ 100, and red otherwise |
| `FeishuCard.RateIsHundred` | Tools/feishu_bot.py:102-122 | for a non-empty run, the rate is 100 iff every test passed |
| `FeishuCard.ScaledAtLeast` | Tools/feishu_bot.py:102-122 | a rate r with r·t = x, for a positive total t, is at least a bound b exactly when x ≥ b·t |
| `FeishuCard.RateAtLeastEighty` | Tools/feishu_bot.py:102-122 | for a non-empty run, the rate is at least 80 iff 5·passed ≥ 4·total |
| `FeishuCard.TemplateByCounts` | Tools/feishu_bot.py:102-122 | blue iff total > 0 and passed = total; orange iff total > 0, passed ≠ total and 5·passed ≥ 4·total; red iff total = 0 or 5·passed < 4·total |
| `FeishuCard.EightOfTenIsOrange` | Tools/feishu_bot.py:102-122 | 8 passed out of 10 is a rate of exactly 80, which is orange |
| `FeishuCard.RoundTenths` | Tools/feishu_bot.py:149 | the number of tenths shown is within half a tenth of the exact rate |
| `FeishuCard.OneDecimal` | Tools/feishu_bot.py:149 | `f"{rate:.1f}"`. It has no contract of its own: `OneDecimalShows` states its form and that it is within 0.05 of the rate |
| `FeishuCard.OneDecimalShows` | Tools/feishu_bot.py:149 | the rate text is a whole number without leading zeros, a point and one digit, and its value is within 0.05 of the rate |
| `FeishuCard.BaseElements` | Tools/feishu_bot.py:124-192 | the five fixed elements. It has no contract of its own: `BaseElementsTags` and `BaseElementsRows` state their tags, the timing text and each field's label and value |
| `FeishuCard.BaseElementsTags` | Tools/feishu_bot.py:124-134 | there are five base elements, tagged div, hr, div, div, div; the first shows start, end and duration verbatim, one per line; the second is the rule |
| `FeishuCard.BaseElementsRows` | Tools/feishu_bot.py:135-192 | the three rows are pairs of short markdown fields, {total, pass rate}, {passed, failed} and {broken, skipped}; each shows its label and then either the count in canonical digits (non-empty, no leading zero) that read back as it, or the rate to one decimal followed by `%` |
| `FeishuCard.ReportLinks` | Tools/feishu_bot.py:105-111 | there are links exactly when `GITHUB_PAGES_URL` without its trailing slashes is non-empty; `ActionBlockLinks` and `PaddedUrlLinks` state what they are |
| `FeishuCard.ReportMessage` | Tools/feishu_bot.py:113-220 | the posted message. It has no contract of its own: `ReportMessageLayout`, `ActionBlockLinks` and `ActionBlockOnlyAppends` state its layout |
| `FeishuCard.ReportMessageLayout` | Tools/feishu_bot.py:113-220 | the message is `interactive`, with the title and the rate's template in its header. Its elements are the five base elements, followed by an action block exactly when the URL without trailing slashes is non-empty |
| `FeishuCard.ActionBlockLinks` | Tools/feishu_bot.py:105-220 | the action block holds two primary buttons, in order: the main report at base + `/reports/aomaker-report.html` and the Allure report at base + `/allure/index.html`. The base is the URL with all trailing slashes removed, so it does not end in `/` |
| `FeishuCard.ActionBlockOnlyAppends` | Tools/feishu_bot.py:196-220 | adding the links changes neither the message type, nor the header, nor any of the first five elements |
| `FeishuCard.PaddedUrlLinks` | Tools/feishu_bot.py:106-111 | a base followed by any number of slashes gives the two links directly under the base, with no doubled slash |
| `FeishuCard.SlashesOnlyNoLinks` | Tools/feishu_bot.py:106-197 | a URL of slashes only gives no links and no action block, although it passes the first `if report_url` |
| `FeishuBot.Classify` | Tools/feishu_bot.py:226-235 | the reply counts as delivered iff the status is 200 and the body is a JSON object whose `code` equals 0. It crashes when the post raises, when the body is not JSON, or when a status-200 body is JSON but not an object. Otherwise it is rejected with the reply's status |
| `FeishuBot.IntegerCodeDelivered` | Tools/feishu_bot.py:229-232 | with an integer `code`, success iff status = 200 and code = 0; any other status is rejected with that status |
| `FeishuBot.GetEnv` | Tools/feishu_bot.py:105 | `os.getenv(key, default)`, used for `GITHUB_PAGES_URL` here and for `FEISHU_WEBHOOK_URL` at line 223. It has no contract of its own: `SendResults` states which variable feeds which part of the post |
| `FeishuBot.SendResults` | Tools/feishu_bot.py:92-235 | with no summary, nothing is posted and the outer `except` is reached. Otherwise it posts `ReportMessage` of the summary and `GITHUB_PAGES_URL` to `FEISHU_WEBHOOK_URL` (or the built-in default), as JSON with a 10-second timeout, and the outcome is the reply's classification |
| `FeishuBot.SendFeishuReport` | Tools/feishu_bot.py:87-235 | the same, for the summary `get_test_results` gives for the report text: a report with fewer than four legend values posts nothing |

## Left out

- Reading `reports/aomaker-report.html`, `os.getenv`, `requests.post`, `response.json()` and the `rich` console are I/O. They become inputs (the report text, the environment map, `Reply`) and an output (`Outcome`). The text of the log messages is not modelled.
- `TextUtil.IsDigit`: models `\d` as ASCII `0`-`9` only. Python's `\d` on a `str` also matches other Unicode decimal digits, and `int` accepts them. A report using such digits is not modelled.
- `FeishuCard.PassRate`: uses exact rational arithmetic, not the binary floating point of `passed / total * 100`. Rounding can make the source's rate land exactly on a boundary that the exact rate misses, and the template then differs. At 80 this already happens for totals of about 1.6·10^15: with total = 1637672591771099 and passed = 1310138073416879 the exact rate is just below 80, and the floating-point rate is exactly 80.0, so the source picks orange and the model red. At 100 it needs totals of about 2^54.
- `FeishuCard.RoundTenths`: rounds the exact rate half to even. `:.1f` rounds the double that `passed / total * 100` evaluates to. That double is rounded twice and is often not the exact rate (57 of 100 gives 56.99999999999999…), so the two can differ by one tenth when the rate is at or next to a half-tenth.
- `FeishuBot.Json`: a JSON number is the value Python's parser produced. The decimal-to-float conversion of `json.loads` is not modelled. `json.loads` also accepts `NaN`, `Infinity` and `-Infinity`, which a `JNumber` cannot hold. Such a `code` is not equal to 0, so the reply would be rejected, like a reply with any other non-zero number.
- `ReportExtractor.ExtractResults`: reads legend values of any length. CPython 3.11 and later refuse to convert a string of more than 4300 digits with `int` (the `ValueError` is caught, so `get_test_results` returns the zeroed summary). Counts that long are not modelled.
- `TextUtil.ShowNat`: renders a count of any size. CPython 3.11 and later refuse to render an integer of more than 4300 digits with `f"{n}"`; `send_feishu_report` would then raise, catch the error and post nothing. Counts that long are not modelled.
- Turning the message into JSON text, and the HTTP request itself, are not modelled. `Post` holds the message as a structure, with its URL, content type and timeout.
- `create_status_tag` is modelled, but `send_feishu_report` never calls it, and neither does the model.
- The API-object declarations in `apis/mock/` and the pytest cases and fixtures in `testcases/` have no algorithm. They are not part of this model.
