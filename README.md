# elasticsearch-alert: a Dafny model of the alert engine

This project models the alert engine of elasticsearch-alert. The engine periodically runs
each alert rule's query against Elasticsearch. When the hit count exceeds the rule's
threshold, and the rule's quiet period has elapsed since it last fired, it renders a
Markdown alert body and sends it to every configured notifier whose name appears among the
rule's channels. The model covers:

- the quiet-period and threshold decisions;
- one evaluation tick of a rule, as a method on an `Engine` class whose state is the rule
  set, the map from rule name to the time it last fired, and the trace of sends made;
- the dispatch loop over channels and notifiers;
- all-or-nothing loading of the rule set from a directory listing;
- construction of the search request and injection of `_index`/`_id` into the samples;
- the body builder, specified line by line;
- the email notifier's subject rule, its Markdown-to-HTML converter and its MIME message;
- notifier selection, with its fixed order and default timeouts;
- duration and configuration defaulting.

Strings are byte sequences, because the source measures and slices them in bytes.
Durations are Go's signed 64-bit nanosecond counts. Times are integers in nanoseconds, and
the difference of two times saturates as Go's `time.Time.Sub` does. Several things that
the source gets from libraries or the environment become parameters:

- `time.ParseDuration` is a partial function (`DurationParser`).
- The search backend is a function from index and request to a response or an error
  (`Backend`).
- The wall clock is the `now` argument of a tick. The time as the body shows it is the
  byte string `firedAt`.
- When `buildEmailMessage` ranges over its header map, the order is the parameter `order`,
  which is any permutation of the five headers.

Modules follow the source files:

- `Rules` (types.dfy): internal/alert/types.go.
- `Config` (config.dfy): internal/config/config.go.
- `Notification` (notifier.dfy): internal/notification/notifier.go.
- `Email` (email.dfy): internal/notification/email.go.
- `RuleLoader` (loader.dfy): `loadRules`.
- `Query` (query.dfy): `queryCountAndSamples`.
- `Render` (render.dfy): `renderBody`.
- `Engine` (engine.dfy): the engine itself.

The first four come from the files named; the last four come from internal/alert/engine.go.
The shared modules are `Wrappers`, `Bytes` and `Time`.

The body builder appears twice. `Render.BodyPieces` lists the lines the body is made of;
each line has a kind and the value it shows. The lemmas about `Count` and `Shown` say which
lines appear and what they show. The builder itself is `Render.WriteBody` and the methods it
calls, one per section: `WriteHeader`, `WriteRuleLines`, `WriteCriteria`, and for the first
sample `WriteSample`, which calls `WriteTarget`, `WritePod`, `WriteMessage` and `WriteLink`.
They append to the body as the source writes to its builder. Each is proved to write its
section's text. `Render.RenderBody` returns `WriteBody`'s result. Its contract says the body
is exactly the concatenation of those lines.

## Model

| member | source | states |
|---|---|---|
| Bytes.HasSuffixIff | internal/alert/engine.go:85 | `strings.HasSuffix`: a string ends with the suffix iff it is some string followed by the suffix |
| Bytes.TrimTrailingSlashes | internal/alert/engine.go:234 | `strings.TrimRight(base, "/")`: the result is a prefix of the input that does not end in `/`, and everything dropped is `/` |
| Bytes.JoinSnoc | internal/notification/email.go:125 | `strings.Join`: joining one more part appends the separator and that part, with no separator before the first part |
| Bytes.Digits | internal/alert/engine.go:178-180 | the digits `%d` prints for a natural number are all decimal digits, with no leading zero |
| Bytes.DigitsRoundTrip | internal/alert/engine.go:178-180 | reading the printed digits back gives the number |
| Bytes.Decimal | internal/alert/engine.go:178-180 | `%d` of an integer is non-empty and starts with `-` iff the integer is negative |
| Bytes.DecimalRoundTrip | internal/alert/engine.go:178-180 | reading the `%d` text back gives the integer, so the count and threshold lines show their values |
| Bytes.DecimalInjective | internal/alert/engine.go:178-180 | two integers print the same `%d` text iff they are equal |
| Rules.GetQuietPeriod | internal/alert/types.go:13-22 | an empty or unparsable quiet period gives the default; a parsable one gives the parsed value; the result is always one of the two |
| Rules.QuietPeriodIndependentOfDefault | internal/alert/types.go:17-21 | when the quiet period parses, the result does not depend on the default |
| Time.Sub | internal/alert/engine.go:146 | `now.Sub(last)` is the exact difference when it fits in a Duration, and saturates at the int64 bounds otherwise |
| Time.SubMonotone | internal/alert/engine.go:146 | a later time never gives a smaller difference |
| Time.ParseDurationDefault | internal/notification/notifier.go:114-123 | the default for an empty string or a parse failure, the parsed value otherwise |
| Time.ParseDurationDefaultTotal | internal/notification/notifier.go:114-123 | the result is always the default or the parsed value |
| Time.ParseDurationDefaultIgnoresDefault | internal/notification/notifier.go:118-122 | a parsable string gives the same result whatever the default |
| Config.GetRequestTimeout | internal/config/config.go:32-41 | 30s when the timeout is empty or unparsable, else the parsed value |
| Config.GetDefaultQuietPeriod | internal/config/config.go:53-62 | 5m when empty or unparsable, else the parsed value |
| Config.FillDefaults | internal/config/config.go:133-147 | a non-positive sample size becomes 3; an empty timezone, provider, listen address or log level becomes "Asia/Shanghai", "elasticsearch", ":8080" or "INFO"; set fields and every other field are unchanged |
| Config.FillDefaultsFixesDefaulted | internal/config/config.go:133-147 | a configuration that already has all defaults is left as it is |
| Config.FillDefaultsIdempotent | internal/config/config.go:133-147 | filling defaults twice is the same as once |
| Config.Load | internal/config/config.go:124-153 | a read or parse failure is returned unchanged; on success every default holds; a non-empty LOG_LEVEL overrides the log level and nothing else; with no LOG_LEVEL the result is exactly the filled configuration |
| Notification.NamesIdentifyKinds | internal/notification/notifier.go:73 | two notifiers have the same `Name()` exactly when they are of the same kind; the fixed names are checked in `Name` |
| Notification.Candidate | internal/notification/notifier.go:22-65 | the notifier built for each position of the fixed order has that position's kind |
| Notification.BuiltIsBuiltUpTo | internal/notification/notifier.go:20-68 | the selection so far holds, in order, exactly the enabled kinds among the first positions, each carrying its configuration |
| Notification.NotifierSelection | internal/notification/notifier.go:22-66 | console is always first; each of webhook, feishu, dingtalk and wechat is present iff its URL/webhook is non-empty; email is present iff host and from are non-empty and there is a recipient; every notifier carries its kind's settings, with the timeout defaulted to 5s, or 10s for email |
| Notification.BuildNotifiers | internal/notification/notifier.go:20-68 | the successive appends give exactly the specified selection, with console first and the kinds in the fixed order |
| Notification.OrderedNotifiersHaveDistinctNames | internal/notification/notifier.go:20-68 | the notifiers built have pairwise distinct names |
| RuleLoader.RuleFiles | internal/alert/engine.go:85-87 | only non-directory entries named `.yaml` or `.yml` are rule files, taken from the listing |
| RuleLoader.OnlyRuleFilesMatter | internal/alert/engine.go:85-87 | loading a listing is the same as loading only its rule files |
| RuleLoader.LoadFailurePersists | internal/alert/engine.go:89-99 | once a prefix of the listing fails, loading the whole listing fails with the same error |
| RuleLoader.LoadAllSucceeds | internal/alert/engine.go:84-103 | loading succeeds iff every rule file is readable, parses and has a name, index, cron and time window |
| RuleLoader.LoadedRulesInOrder | internal/alert/engine.go:84-103 | on success the rules are exactly those of the rule files, one for one, in listing order |
| RuleLoader.LoadAllFailsAtFirstBadFile | internal/alert/engine.go:84-99 | a failure is the error of the first rule file that is unreadable, malformed or invalid, and every rule file before it is good |
| RuleLoader.LoadedRulesAreValid | internal/alert/engine.go:97-100 | every loaded rule has its required fields |
| Query.Window | internal/alert/engine.go:247-250 | the rule's time window, or "5m" when it is empty |
| Query.BuildQuery | internal/alert/engine.go:251-287 | size is the sample size, total hits are tracked, the sort is `@timestamp` descending, the first filter is the range from "now-" plus the window to "now", then a `query_string` with operator AND if the query string is set, else the raw DSL if set, else nothing |
| Query.QueryStringTakesPrecedence | internal/alert/engine.go:277-286 | with a query string, the DSL is never sent |
| Query.RangeDependsOnlyOnWindow | internal/alert/engine.go:251-252 | the range filter depends on the window alone |
| Query.Inject | internal/alert/engine.go:316-323 | a sample is the hit's source, or an empty map, with `_index` and `_id` set to the hit's index and id |
| Query.CollectSamples | internal/alert/engine.go:315-325 | the samples loop gives one sample per hit, in order, each the injected document |
| Query.QueryCountAndSamples | internal/alert/engine.go:246-327 | it fails exactly when the backend fails, with the backend's error; on success it gives the reported total and the injected samples of the hits |
| Render.StrField | internal/alert/engine.go:191-198 | the comma-ok `doc[key].(string)`: the string stored under the key, and empty when the key is missing or holds no string |
| Render.Truncate | internal/alert/engine.go:199-203 | a message of at most 800 bytes is kept; a longer one becomes its first 800 bytes plus "..." |
| Render.DetailUrl | internal/alert/engine.go:233-235 | the link starts with the address, its trailing slashes removed, followed by "/" |
| Render.SeverityOf | internal/alert/engine.go:158-161 | the rule's severity, or "Medium" when it is empty |
| Render.BodyOrderComplete | internal/alert/engine.go:163-240 | the layout lists every kind of line once |
| Render.BodyLine | internal/alert/engine.go:163-240 | each kind of line appears at most once, and shows the value the builder writes for it |
| Render.OverviewLines | internal/alert/engine.go:165-178 | the banner, overview, rule name, severity, fired-at, index, window and count lines always appear once, and show the rule's fields, the defaulted severity and the count |
| Render.DescriptionLine | internal/alert/engine.go:167-169 | the description line appears iff the description is non-empty |
| Render.ThresholdLineShown | internal/alert/engine.go:179-181 | the threshold line appears iff a threshold is set, and shows it |
| Render.QueryLineShown | internal/alert/engine.go:182-186 | the query line shows the query string, else the "DSL" marker, and is absent when neither is set |
| Render.TargetHeadingLine | internal/alert/engine.go:189-205 | the target heading appears iff there is a sample |
| Render.NodeLine | internal/alert/engine.go:194-208 | the node line appears iff the first sample's `kubernetes_host` is a non-empty string, and shows it |
| Render.NamespaceLine | internal/alert/engine.go:195-211 | the same for `kubernetes_namespace_name` |
| Render.PodLine | internal/alert/engine.go:196-214 | the same for `kubernetes_pod_name` |
| Render.ImageLine | internal/alert/engine.go:197-217 | the same for `kubernetes_container_image` |
| Render.LogTimeLine | internal/alert/engine.go:191-220 | the same for `@timestamp` |
| Render.MessageBlockLines | internal/alert/engine.go:222-229 | the log heading, message and closing newline appear iff the first sample has a non-empty message |
| Render.MessageShown | internal/alert/engine.go:199-224 | a message of at most 800 bytes is shown verbatim; a longer one is cut to 800 bytes plus "..." |
| Render.TruncationNoteLine | internal/alert/engine.go:199-227 | the truncation note appears iff the message is longer than 800 bytes |
| Render.LinkLine | internal/alert/engine.go:232-239 | the link appears iff the sample has an index and an id and there is an address; it is the first address, trailing slashes trimmed, then index, `/_doc/`, id and `?pretty`, unescaped |
| Render.BodyIsText | internal/alert/engine.go:163-243 | the text written section by section is exactly the concatenation of the body's lines |
| Render.RenderBody | internal/alert/engine.go:156-244 | the builder's output is exactly the concatenation of the body's lines |
| Render.WriteBody | internal/alert/engine.go:158-240 | the builder's writes are exactly the body's section texts in order: header, rule lines, criteria, then the sample's lines when there is a sample |
| Render.WriteHeader | internal/alert/engine.go:165-173 | appends the banner, the description and two newlines when it is set, the overview heading and the rule-name line |
| Render.WriteRuleLines | internal/alert/engine.go:174-177 | appends the severity line with the defaulted severity, then the fired-at, index and time-window lines |
| Render.WriteCriteria | internal/alert/engine.go:178-186 | appends the hit-count line, the threshold line when a threshold is set, and the query line or the DSL marker line |
| Render.WriteSample | internal/alert/engine.go:189-240 | for the first sample, appends its target, pod, message and link lines in that order |
| Render.WriteTarget | internal/alert/engine.go:205-211 | appends the target heading, then the node and namespace lines when those fields are non-empty strings |
| Render.WritePod | internal/alert/engine.go:212-220 | appends the pod, image and log-time lines, each when its field is a non-empty string |
| Render.WriteMessage | internal/alert/engine.go:198-229 | when the message is non-empty, appends the log heading, the message cut to 800 bytes plus "..." when longer, the truncation note when it was cut, and a newline |
| Render.WriteLink | internal/alert/engine.go:232-239 | appends the link label, the detail URL and a newline iff the sample has an index and an id and there is an address |
| Engine.ShouldFireElapsed | internal/alert/engine.go:140-147 | a rule that never fired may fire; otherwise it may fire iff the time since it last fired is at least its quiet period |
| Engine.ShouldFireMonotone | internal/alert/engine.go:140-147 | with the map unchanged, once a rule may fire it may fire at every later time |
| Engine.HitThresholdCases | internal/alert/engine.go:149-154 | with no threshold no count passes; otherwise a count passes iff it is strictly greater than the threshold |
| Engine.HitThresholdMonotone | internal/alert/engine.go:149-154 | a larger count passes whenever a smaller one does |
| Engine.Title | internal/alert/engine.go:124 | the title is "[Elasticsearch Alert] " followed by the rule name |
| Engine.MatchesIsNameEquality | internal/alert/engine.go:130 | the match condition, with its console clause, is plain name equality |
| Engine.SendsToConcat | internal/alert/engine.go:128-136 | the sends to a notifier add up over consecutive parts of the trace |
| Engine.ChannelSendsCount | internal/alert/engine.go:129-135 | one channel sends to a notifier once per occurrence of it in the list when the names match, else not at all |
| Engine.SendsCount | internal/alert/engine.go:128-136 | a notifier receives the alert (occurrences of its name among the channels) times (its occurrences among the notifiers) times |
| Engine.UnmatchedChannelSendsNothing | internal/alert/engine.go:129-135 | a channel that names no notifier sends nothing |
| Engine.SendsAreMatched | internal/alert/engine.go:128-136 | every send goes to a listed notifier whose name is a channel, with the alert's title and body |
| Engine.ChannelSendsAreMatched | internal/alert/engine.go:129-135 | every send of a channel goes to a listed notifier of that name |
| Engine.FiresIff | internal/alert/engine.go:113-123 | a tick fires iff the rule may fire, the query succeeds and the count passes the threshold; a quiet rule is suppressed before any query; a failed query is reported |
| Engine.NextAlertAtFrame | internal/alert/engine.go:137 | only a firing tick changes the map, only the rule's own entry, and it becomes `now` |
| Engine.QuietAfterFiring | internal/alert/engine.go:137-147 | after firing at `now`, every tick before the quiet period has elapsed is suppressed, whatever the backend answers |
| Engine.FiredAlert | internal/alert/engine.go:124-136 | a fired alert has the rule's title and the rendered body, and each notifier gets it as often as the dispatch count says |
| Engine.Engine.constructor | internal/alert/engine.go:37-53 | the default quiet period and sample size come from the configuration; the map and the trace start empty |
| Engine.Engine.LoadRules | internal/alert/engine.go:78-104 | a failed directory read or any bad rule file leaves the rule set unchanged and reports the error; on success the rule set is replaced by the loaded rules |
| Engine.Engine.Dispatch | internal/alert/engine.go:128-136 | the nested loop appends exactly the specified sends to the trace, channel by channel and notifier by notifier |
| Engine.Engine.Fire | internal/alert/engine.go:124-137 | the firing branch renders, dispatches and records `now` for the rule |
| Engine.Engine.ExecuteRule | internal/alert/engine.go:106-138 | the tick's outcome is the specified evaluation; the map is updated only on firing, to `now` for the rule alone; sends are recorded only on firing |
| Email.Subject | internal/notification/email.go:30-33 | the subject is the prefix, a space and the title when the prefix is non-empty, else the title |
| Email.Escape | internal/notification/email.go:155-167 | exactly `&`, `<`, `>` and newline are not copied: a newline becomes `<br>`, and what the other three become holds no `<` or `>` |
| Email.ScanSource | internal/notification/email.go:143-169 | the converter's tokens consume the whole input: each `**` pair two bytes, every other byte one |
| Email.ScanWellNested | internal/notification/email.go:145-172 | `<strong>` and `</strong>` alternate, and an open bold is closed at the end |
| Email.BoldPair | internal/notification/email.go:145-154 | a `**` pair toggles bold and emits the matching tag |
| Email.LoneStar | internal/notification/email.go:145-166 | a single `*`, including a final one, is copied literally |
| Email.TextByte | internal/notification/email.go:155-168 | a byte that is not part of a `**` pair is written escaped |
| Email.PlainUnchanged | internal/notification/email.go:143-169 | an input with no `*`, `&`, `<`, `>` or newline is returned unchanged |
| Email.MarkdownToHtml | internal/notification/email.go:140-174 | the byte-scanning loop computes exactly the converter's output |
| Email.EscapeHtml | internal/notification/email.go:100-121 | the escaped subject contains no `<`, `>`, `"` or `'` |
| Email.EscapeRoundTrip | internal/notification/email.go:100-121 | unescaping the escaped subject gives the subject back, so it appears only escaped but unaltered |
| Email.HeaderBlockConcat | internal/notification/email.go:131-133 | the header lines written for consecutive parts of the order concatenate |
| Email.HeaderOnce | internal/notification/email.go:123-133 | each of From, To, Subject, MIME-Version and Content-Type occurs once in the order, and the header block holds its "name: value" CRLF line at that place |
| Email.MessageHeader | internal/notification/email.go:123-136 | for an iteration order of the five headers, the message holds each header's line exactly once, inside the header block, followed by the bare CRLF and the page |
| Email.WriteHeaders | internal/notification/email.go:131-133 | for an iteration order of the five headers, the header loop writes the header block in that order |
| Email.BuildEmailMessage | internal/notification/email.go:97-137 | for an iteration order of the five headers, the message is the header block, a bare CRLF, then the HTML page holding the escaped subject and the converted body |

## Left out

- Cron scheduling, `Start` and `Stop`, and the time zone (`time.LoadLocation` and
  `WithLocation`) are left out. The cron library is foreign code, and `Start` and `Stop`
  run goroutines. A tick is a call that takes `now`.
- Rendering gets the time as the formatted string `firedAt`. The wall clock is not modelled.
- `lastAlertAt` has no lock in the source. The model is single-threaded.
- The `recover()` in `executeRule` is left out. Every call of the model terminates.
- `os.ReadDir`, `os.ReadFile` and `yaml.Unmarshal` are left out.
  - A directory listing is an `Option` of entries. Each entry carries its name, whether it is
    a directory, and the parsed file: unreadable, malformed or a rule.
  - The configuration file is a `Result` of a parsed configuration.
  - `LOG_LEVEL` is a parameter.
- The JSON encoding of the request and the decoding of the response are left out, and so is
  the Elasticsearch client.
  - The request is a datatype and the backend is a function parameter.
  - A decoding failure is one of the backend's errors.
  - The DSL is an opaque raw value.
- `time.ParseDuration` is an abstract partial function. The grammar of durations is not
  modelled.
- The `Send` bodies are left out. These are the console log line and HTTP POST of webhook,
  feishu, dingtalk and wechat, and SMTP sending with TLS and authentication. DingTalk's
  signing is left out too.
  - A send is recorded in the engine's trace of deliveries.
  - Send errors are only logged in the source, so they change nothing in the model.
  - The shared 10-second context of one firing's sends is left out with them.
- The web server, logging and the entry point are outside the engine and are left out.
- The detail link is built without URL escaping, as in the source. `Web.BaseURL` is never
  used, also as in the source.
- Engine.ShouldFireElapsed: the "iff" is stated only when the elapsed time is at least the
  smallest Duration. Below that, Go's `Sub` saturates, and `Time.Sub` states that case.
- Engine.Engine.constructor: `NewEngine`'s call of `loadRules` is the separate method
  `LoadRules`. It is called after construction with the listing of the rules directory.
