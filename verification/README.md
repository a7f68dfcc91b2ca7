# Watchdog verification

A Dafny model of the Railway and Hermes watchdog, with proofs about what it does in every
environment. Three parts, which share a few datatypes:

- **The recovery engine** (`Trace`, `TraceProofs`, `World`, `RailwayClient`, `HermesClient`,
  `Orchestrator`, `Watchdog`, with `Json`, `Responses`, `Replies`, `HttpPolicy`, `State`,
  `CommaNames`, `Errors`, `Outcomes`; `StatusBody`, `HealthBody` and `BodyProofs` say what the
  conclusions rest on in the bodies that were read, field by field). One target's run is a set of methods over two stateful
  clients and an absolute budget. The environment is an arbitrary script: every request may be
  answered or fail in any way, every step may take any time. Each interaction is recorded as an
  event; a monitor folds the events and keeps rules (`Trace.Allowed`). The methods prove that no
  run breaks a rule, `TraceProofs` proves what an unbroken trace means event by event. Exceptions
  are values of `Errors.Error`.
- **The incident log** (`IncidentLog`, `Notify`, `NotifyProofs`, `ReportProofs`,
  `CountingProofs`, `Alerting`, and `EndToEnd` from a run's requests to its emails). The
  inbox is an append-only sequence read back by a filtered, newest-first, ten-message search.
  Each remote call may find new unrelated mail and may fail, a failed send possibly after the
  message was stored. The notifier's methods equal functions on that inbox, and the theorems are
  about any sequence of runs.
- **The text transformers** (`Text`, `Redaction`, `RedactionSafety`, `RedactionOrder`,
  `RedactionChain`, `Markdown`, `Words`, `Summary`, `RowReads`, `RawTokens`, `PageShown`,
  `PageLeaks`). Sequential replacement as Python does it, patterns as arbitrary cuts
  of the text, the Markdown escape and a reader for it after the GitHub Flavored Markdown Spec
  0.29, sections 6.1 and 6.2.

`StringOrder` and `Wrappers` are support.

Where the code and its own description differ, the model follows the code:

- The redactor promises that no secret escapes. A secret that is part of the word REDACTED, or
  that ends as the mask begins, can come out again (`RedactionSafety.BorderLeaks`).
  `RedactionSafety.SafeIff` says exactly which secret sets are safe whatever the patterns
  match, `RedactionSafety.RedactorSafeIff` the same for bracket-free secrets and any one list
  of patterns.
- The incident store says an incident is active while it has more incident than resolved
  markers; the code lets the newest marker decide. In the logs that the notifier writes the two
  agree all along exactly when every resolved marker ends one incident marker
  (`CountingProofs.CountingOverRuns`), and a change of condition followed by a recovery is a log
  where they differ (`IncidentLog.CountingDiffers`). The search is right exactly when the newest
  marker is among the ten newest messages that contain the key (`IncidentLog.LookupExact`);
  an incident marker below ten such messages is missed (`IncidentLog.LookupMisses`).
- In Railway mode an exception is reported with action "none" even if a mutation was called;
  the reported action is right exactly when no exception escaped or nothing was called
  (`Orchestrator.Orchestrator.RecoverOne`). A deployment restart that times out is called and
  reported as "none" (`EndToEnd.ActionIsLost`).
- A status read from Railway reads the clock twice; the second reading is its wall and may be
  zero or less, so `TraceProofs.StartedInTime` speaks of the first.
- A same-origin redirect answering the restart request counts as success
  (`Replies.RestartVerdict`).
- A timestamp without an offset makes the classification raise (`State.Classify` is `None`).
- The condition is meant to tell different sets of failing platforms apart. A name with a comma
  can hide a change, exactly when its parts between the commas are strictly ascending
  (`CommaNames.CommaMergesIff`).
- Every field of the summary is redacted before it is escaped, so what it shows has no secret
  (`Summary.RenderedNameIsSafe`). But the last redaction reads the escaped text of the whole, and
  the page it leaves can show one again. If the secrets that contain no other are mask-disjoint
  and have no white space, `&`, `\` or `;`, the page shows a secret only if one of those in it ends with a colon
  and begins with `<` or `>` or has a metacharacter inside (`PageShown.ShownHasEdge`), whatever
  the patterns cut; and each of these is shown by the target that is named like it without the
  colon (`PageLeaks.EdgeIsShown`). `PageLeaks.PageSafeIff` is the exact condition. The secret
  `a.:` and the name `a.` are an instance (`PageLeaks.ColonLeaks`). The secrets `p;x.y` and `am`
  show that secrets with those characters can also be shown in the middle of a name, by a
  redaction that cuts an entity (`PageLeaks.EntityLeaks`).

Hypotheses, stated where they are used: `NotifyProofs.Setting` (keys are distinct 16-digit and
fingerprints 12-digit hex strings, alert subjects and unrelated mail contain no key),
`RedactionSafety.CoreDisjoint`, `RedactionOrder.Laminar`, `Redaction.Cuts`,
`StringOrder.CommaFree`, `Alerting.ToldApart` (the hash does not confuse two given conditions),
`HealthBody.ListsOnce` (a decoded object has distinct keys). A non-negative backoff base is required of the retry policy.

## Model

| member | source | states |
|---|---|---|
| Redaction.Redactor.constructor | src/watchdog/redaction.py:44-47 | the secrets kept are those given that are not all white space, without repetition, longest first |
| Redaction.Redactor.Redact | src/watchdog/redaction.py:49-56 | the two loops compute the replacement of every secret in order, then every pattern |
| RedactionSafety.ReplaceIsMark | src/watchdog/redaction.py:51-53 | a replacement never touches a mask already shown, and the original text can still be read off the pieces |
| RedactionSafety.ReplaceRemoves | src/watchdog/redaction.py:51-53 | replacing a mask-disjoint secret leaves no occurrence of it |
| RedactionSafety.MaskingCreatesNothing | src/watchdog/redaction.py:54-55 | masking any set of spans cannot make a mask-disjoint string appear |
| RedactionSafety.DisjointNeverSurvives | src/watchdog/redaction.py:49-56 | a mask-disjoint secret is never in the output, whatever the other secrets are and however they overlap |
| RedactionSafety.NoSecretSurvives | src/watchdog/redaction.py:49-56 | no secret is in the output, for every text and every pattern, if those that contain no other secret are mask-disjoint |
| RedactionSafety.SharedLeaks | src/watchdog/redaction.py:49-56 | one secret that contains no other and shares text with the mask leaks: a text and a pattern are built |
| RedactionSafety.SafeIff | src/watchdog/redaction.py:41-56 | no text ever comes out with a secret in it if and only if every secret that contains no other is mask-disjoint |
| RedactionSafety.BracketFreeIsDisjoint | src/watchdog/redaction.py:19 | a secret without brackets is mask-disjoint exactly when it is not part of the word in the mask |
| RedactionSafety.RedactorSafeIff | src/watchdog/redaction.py:41-56 | for bracket-free secrets and any fixed patterns, all outputs are free of all secrets if and only if no secret is part of REDACTED |
| RedactionSafety.BorderLeaks | src/watchdog/redaction.py:51-53 | a concrete secret and text for which the secret is in the output, for any patterns that find nothing in it |
| RedactionChain.RedactedIsChain | src/watchdog/redaction.py:49-56 | the output is reached from the text with its secrets replaced by one link for each pattern in order, and nothing else is: each link shows as the mask exactly the spans its pattern cuts and keeps the rest |
| RedactionChain.EveryPatternHides | src/watchdog/redaction.py:54-55 | whatever its place in the list: when the other patterns find nothing, all a pattern cuts is shown as the mask |
| RedactionOrder.SequentialIsSimultaneous | src/watchdog/redaction.py:44-53 | the loop over secrets equals one simultaneous replacement when occurrences are nested or disjoint |
| RedactionOrder.MarkThenPass | src/watchdog/redaction.py:44-53 | masking the longest secret first does not change what one pass over all secrets hides |
| RedactionOrder.HidesMaximal | src/watchdog/redaction.py:44-47 | that pass hides every maximal secret occurrence and nothing else |
| RedactionOrder.RedactionHidesMaximal | src/watchdog/redaction.py:44-53 | source positions hidden by the loop over secrets are exactly the maximal occurrences |
| Markdown.LexTranslate | src/watchdog/markdown.py:35-60 | escaped text is read back as one token for each character, with no bare metacharacter |
| Markdown.RoundTrip | src/watchdog/markdown.py:63-75 | rendering the sanitized text shows exactly the collapsed, trimmed input |
| Markdown.SanitizeInjective | src/watchdog/markdown.py:63-75 | two texts sanitize alike exactly when they collapse and trim alike |
| Markdown.SanitizeGuards | src/watchdog/markdown.py:48-60 | every listed metacharacter in the output is escaped or starts an entity, so no link joint or autolink candidate is contiguous |
| Markdown.TidiedIffTidy | src/watchdog/markdown.py:74 | collapsing and trimming gives one line with single inner spaces, and leaves exactly such text alone |
| Words.TidiedIsWords | src/watchdog/markdown.py:74 | collapsing and trimming keep the words of the text, in order, with single spaces between them |
| Markdown.SanitizeIsTidy | src/watchdog/markdown.py:74-75 | the output is one line with single inner spaces, and has no other white space and no control character |
| Markdown.CleanNames | src/watchdog/markdown.py:70-72 | a name stays byte-for-byte the same exactly when it is tidy and has no metacharacter |
| Summary.TidiedCreatesNothing | src/watchdog/markdown.py:74 | collapsing and trimming cannot create a word that has no white space |
| Summary.RenderedNameIsSafe | src/watchdog/cli.py:110-116 | what is shown of a redacted, sanitized field contains no secret, before the last redaction of the whole |
| Summary.RenderRow | src/watchdog/cli.py:107-123 | a row is built from the redacted and then sanitized name and detail |
| Summary.RenderSummary | src/watchdog/cli.py:99-128 | the summary is the redaction of all lines joined |
| Summary.NoForgedRows | src/watchdog/cli.py:99-128 | whatever names and details are, the summary has at most four lines more than outcomes |
| RowReads.RowsApart | src/watchdog/cli.py:107-123 | no name and no detail can pass for another field: equal rows have equal verdicts, classifications, actions, times and reasons, and the same redacted name and detail up to white space |
| RowReads.RowTellsVerdict | src/watchdog/cli.py:120-123 | a row ends in PASS or FAIL as its target did |
| Summary.FailedCounted | src/watchdog/cli.py:124-127 | the number of unrecovered targets is that of the rows that did not pass |
| PageShown.ShownIsEdge | src/watchdog/cli.py:99-128 | for all rows, secrets and cutting patterns: a secret without other secrets, white space, `&`, `\` and `;` is shown by the summary only if it ends with a colon behind something escaped |
| PageShown.ShownHasEdge | src/watchdog/cli.py:99-128 | any secret that the summary shows contains a smallest one of that kind |
| PageLeaks.EdgeIsShown | src/watchdog/cli.py:99-128 | every smallest secret of that kind is shown by a summary with a target that is named like it without the colon |
| PageLeaks.PageSafeIff | src/watchdog/cli.py:99-128 | no summary shows a secret if and only if no smallest secret is of that kind |
| PageLeaks.ColonLeaks | src/watchdog/cli.py:107-123 | the secret `a.:` and the name `a.`: any summary with that target shows the secret |
| PageLeaks.EntityLeaks | src/watchdog/cli.py:107-123 | two secrets and a name that shows one of them in its middle, because the last redaction cuts an entity |
| StringOrder.SortCanonical | src/watchdog/state.py:130 | sorting two lists of names gives the same list exactly when they are permutations |
| StringOrder.LeAtDifference | src/watchdog/state.py:130 | names are ordered by the character where they first differ, a prefix first |
| StringOrder.JoinInjective | src/watchdog/state.py:130 | joining comma-free names loses nothing |
| Responses.ParsePlatforms | src/watchdog/hermes.py:70-87 | the loop reads each platform once, in the order of the names |
| Responses.PlatformsIgnoreOrder | src/watchdog/hermes.py:74 | the platforms read do not depend on the order of the body |
| State.ClassifyFour | src/watchdog/state.py:77-108 | Railway mode has four classifications, and exactly when HEALTHY, GATEWAY_ONLY_FAILURE and TRANSITIONAL are given and when the timestamp makes it raise; the rest is CONTAINER_FAILURE |
| State.JudgedUpIsProven | src/watchdog/railway.py:286-351 | a body judged up proves ownership and shows a running instance of an active, not stopped deployment |
| StatusBody.ReadableIsParsed | src/watchdog/railway.py:286-309 | a status is read exactly from an own body of the expected shape, field by field |
| StatusBody.ActiveIsParsed | src/watchdog/railway.py:311-340 | what is read of the active deployment, and the id for a restart: the latest deployment's, else the active one's |
| StatusBody.BodyDecides | src/watchdog/state.py:77-108 | when a body and the health lead to each of the four classifications, in both directions, in terms of the fields of the body |
| HealthBody.HealthIsRead | src/watchdog/hermes.py:207-222 | a health is read exactly from a 200 object, and the gateway runs exactly when the body says `true` |
| HealthBody.PlatformIsListed | src/watchdog/hermes.py:70-87 | each platform read is one of the listing's, with the state and the error texts listed for it |
| HealthBody.ReplyDecides | src/watchdog/state.py:111-135 | the self-hosted verdict and condition in terms of the fields of the reply: the failing names, in order, each once |
| State.ComputeSelfhosted | src/watchdog/state.py:111-135 | the method with its loop over failing platforms computes the specified verdict |
| State.FailingCounted | src/watchdog/state.py:117-120 | a name is listed as often as a platform of that name is neither connected nor ignored |
| State.ConditionSpelled | src/watchdog/state.py:130-134 | a degraded condition spells the failing names in order, each as often as it fails |
| State.DetailTells | src/watchdog/state.py:123-133 | the detail shows the name and the state of every failing platform |
| State.ConditionIsSignature | src/watchdog/state.py:111-135 | for comma-free names, two probes have equal conditions exactly when both are unreachable, both have no gateway, or each name belongs to equally many failing platforms in both |
| State.ConditionFixesClassification | src/watchdog/state.py:57-66 | equal conditions mean equal classifications |
| State.FlappingKeepsCondition | src/watchdog/state.py:57-66 | states and error texts of platforms that fail all the same never change the condition |
| State.FailingIgnoresOrder | src/watchdog/state.py:117-120 | the order of the platforms never changes the failing names |
| CommaNames.ConditionIsPieces | src/watchdog/state.py:130 | for any names, two conditions are equal exactly when the sorted names have the same parts between commas |
| CommaNames.CommaMergesIff | src/watchdog/state.py:130 | a name with a comma, among names without, lets two different sets of failing names share a condition if and only if its parts are strictly ascending |
| CommaNames.CommaMerges | src/watchdog/state.py:130 | the smallest such pair of sets |
| IncidentLog.CountingAgreesIff | src/watchdog/notify.py:208-209 | counting markers and the newest marker agree at every point of a log exactly when no incident is marked while resolved markers are ahead and none resolved while two are open |
| IncidentLog.CountingAgreesOneByOne | src/watchdog/notify.py:208-209 | when only open incidents are resolved, they agree at every point exactly when every resolved marker ends one incident marker |
| CountingProofs.RunsAreOrderly | src/watchdog/notify.py:238-240 | the notifier resolves only open incidents, over any runs and faults |
| CountingProofs.CountingOverRuns | src/watchdog/notify.py:208-240 | so over any runs and faults counting agrees with the newest marker exactly when every resolved marker ends one incident marker |
| IncidentLog.CountingDiffers | src/watchdog/notify.py:208-230 | a log on which the newest marker closes what counting would keep open |
| IncidentLog.LookupExact | src/watchdog/notify.py:217-230 | the ten-message search is right exactly when the newest marker is among the ten newest messages containing the key, or none is open |
| IncidentLog.LookupMisses | src/watchdog/notify.py:217-230 | below ten messages that contain the key, an open incident is not found |
| IncidentLog.LookupIsFold | src/watchdog/notify.py:217-230 | when only markers contain the key, the search equals the map folded over the whole inbox |
| IncidentLog.IncidentReads | src/watchdog/notify.py:235-236 | an incident marker reads back with its fingerprint, by its own key only |
| IncidentLog.ResolvedReads | src/watchdog/notify.py:238-240 | a resolved marker closes its own key only |
| Notify.Inbox.Send | src/watchdog/notify.py:169-179 | a send may find new mail, be refused, or fail after the message was stored |
| Notify.Inbox.List | src/watchdog/notify.py:181-201 | a listing is one page of the newest messages whose subject contains the key |
| Notify.IncidentStore.ActiveCondition | src/watchdog/notify.py:217-230 | the loop over the page answers with the first marker of the key |
| Notify.IncidentStore.MarkActive | src/watchdog/notify.py:235-236 | sends the incident marker |
| Notify.IncidentStore.Clear | src/watchdog/notify.py:238-240 | sends a resolved marker only for an open incident |
| Notify.Notifier.One | src/watchdog/notify.py:294-317 | one outcome's emails, markers and report entries, up to the first failed call |
| Notify.Notifier.Host | src/watchdog/notify.py:320-343 | the host roll-up, up to the first failed call |
| Notify.Notifier.Process | src/watchdog/notify.py:284-318 | one run: degraded without a client or recipient, else host roll-up and targets in order |
| NotifyProofs.OneView | src/watchdog/notify.py:294-317 | one outcome touches no other alias; its own follows the automaton, and announces before it opens even if cut short |
| NotifyProofs.OpenIsAnnounced | src/watchdog/notify.py:300-317 | with any failures, an open condition was announced since the last resolved marker, after any sequence of runs |
| NotifyProofs.AnnouncedInLog | src/watchdog/notify.py:306-309 | an announced condition is an incident email in the inbox with no resolved marker behind it |
| NotifyProofs.RunsRefineAutomaton | src/watchdog/notify.py:284-318 | without faults any sequence of runs is, for every alias, its small automaton |
| NotifyProofs.EmailsExactlyOnChange | src/watchdog/notify.py:300-317 | the automaton emails an incident exactly for a failure whose condition, hashed, is not the open one; recovery and passive health clear it, deferral changes nothing |
| NotifyProofs.OtherEmails | src/watchdog/notify.py:294-317 | one email for each recovery by an action, and in self-hosted mode one for an incident that passed by itself |
| NotifyProofs.StretchBound | src/watchdog/notify.py:300-309 | a constant failing condition sends at most one incident email plus one for each run cut short |
| NotifyProofs.HostEmailsAlternate | src/watchdog/notify.py:320-343 | host-down and host-resolved emails alternate, host-down first, over any fault-free runs |
| ReportProofs.HostEmailsExactly | src/watchdog/notify.py:320-343 | a complete run calls the host down exactly when more than one target is there, all are unreachable and no such incident is open, and up again exactly when one is open and not all are |
| NotifyProofs.HostDownRun | src/watchdog/notify.py:291-292 | a host-down run sends at most one email and leaves every target's state alone, cut short or not |
| ReportProofs.ReportIsTally | src/watchdog/notify.py:284-318 | all four lists of a complete run's report, alias by alias, in terms of what was open before |
| ReportProofs.ReportAccounts | src/watchdog/notify.py:247-318 | each alias is listed once for every email it got, and every failing outcome is announced or suppressed, every recovery listed |
| ReportProofs.ClearedWhenOpen | src/watchdog/notify.py:310-317 | an alias is listed as cleared exactly when its passively healthy outcome found an incident open |
| ReportProofs.FailureIsStored | src/watchdog/notify.py:235-236 | after a complete run that reports a failure of a target, the store answers with the hash of its condition, or with the empty string when there is none |
| Alerting.RunFailureIsJudged | src/watchdog/orchestrator.py:227-257 | a failure that a self-hosted run reports carries the condition of the health its last probe read |
| Alerting.ConditionIsTrouble | src/watchdog/state.py:57-66 | two failures have equal conditions exactly when they are of one kind, with the same failing names |
| Alerting.AnnouncedIffFailsDifferently | src/watchdog/notify.py:300-309 | of two failures in a row, whose conditions the hash does not confuse, the second alerts exactly when it is another failure |
| Alerting.RunsAlertIffFailsDifferently | src/watchdog/notify.py:284-318 | after any fault-free runs, the second of two runs that report a failure of a target sends one incident email if it is another failure, else none; all that is asked of the hash is not to confuse the two conditions |
| EndToEnd.AlertsOnChangeOfTrouble | src/watchdog/orchestrator.py:227-257 | of two runs of the engine that report a failure of a target with comma-free names, whatever they met, the second, without delivery faults, sends one incident email exactly when its probes found another kind of failure or other failing platforms, else none |
| EndToEnd.HostDownWasSeen | src/watchdog/orchestrator.py:85-90 | the host is called down only if the last probe of every target read no health, with no mutation after it |
| EndToEnd.HostDownIff | src/watchdog/orchestrator.py:85-90 | the host is called down exactly when there are several targets and the last probe of each, with no exception after it, could not reach the gateway |
| EndToEnd.ReasonWasRaised | src/watchdog/orchestrator.py:227-257 | a self-hosted failure is reported with a code other than a timeout only when the error of that code was raised since the last probe began |
| EndToEnd.UpIsRestartedAfterAllChecks | src/watchdog/orchestrator.py:394-405 | in every run, a container that the body shows up is restarted only after as many failed health checks in that probe as the settings ask for |
| EndToEnd.RequestsInNumbers | src/watchdog/orchestrator.py:155-187 | requests of a Railway run, counted in the trace, in the numbers of the settings |
| World.Budget.constructor | src/watchdog/http.py:66-68 | the end is fixed once, from one clock reading |
| World.Budget.Remaining | src/watchdog/http.py:70-71 | the live time left, and being on time is kept by reading it |
| World.Budget.Expired | src/watchdog/http.py:73-74 | spent exactly when the clock is at the end; if not, the reading left time |
| World.Budget.Clip | src/watchdog/http.py:76-78 | a wait bounded by its own value and by what is left |
| HttpPolicy.BackoffTotal | src/watchdog/http.py:52-54 | the backoffs of n retries add up to base * (2^n - 1) |
| RailwayClient.Client.Settle | src/watchdog/railway.py:223-246 | a status read is tried again exactly for a retryable reply before the last attempt; success is the decoded data |
| RailwayClient.Client.Post | src/watchdog/railway.py:211-248 | with retries at least 0 the loop never falls through; the result is what the last reply settles or a spent budget, and a retryable last reply is that of request maxRetries + 1; requests and waiting are bounded; only retryable replies are followed by another request, each after its backoff, and a mutation by none |
| RailwayClient.Client.GetServiceStatus | src/watchdog/railway.py:267-284 | at most m+1 requests; a status is the parse of the last reply, an error is explained by it, after all retries if it is retryable, or by the budget |
| RailwayClient.Client.RestartCurrentDeployment | src/watchdog/railway.py:355-361 | at most one request, lawful after its call; success is an explicit true |
| HermesClient.Client.Request | src/watchdog/hermes.py:169-205 | refuses once the budget is spent, else one request walled by what is left; rejects foreign redirects |
| HermesClient.Client.LogIn | src/watchdog/hermes.py:269-286 | one request; success leaves a session, and a session held afterwards comes from the reply to this login; the error is the one the reply or the spent budget calls for |
| HermesClient.Client.ParseHealth | src/watchdog/hermes.py:207-222 | health is read from a 200 object only; a 401 is the authentication error |
| HermesClient.Client.Status | src/watchdog/hermes.py:288-298 | at most two logins and two reads, each read with a session; the error is the one the last reply or the spent budget calls for, and a 401 is an error only after a new login and a second read |
| HermesClient.Client.CheckHealth | src/watchdog/hermes.py:226-237 | at most two logins and two reads, no mutation; an error is explained by them or by the spent budget |
| HermesClient.Client.PostRestart | src/watchdog/hermes.py:300-319 | at most two restart requests, the second after a 401 and a login; success is an accepted last reply, the error the one it calls for, and a 401 is an error only on the second |
| Replies.AcceptedReads | src/watchdog/hermes.py:311-319 | a restart is accepted exactly by a response below 400 on the trusted origin whose body, if it is an object, has no false `ok` and no `error` |
| HermesClient.Client.Poll | src/watchdog/hermes.py:321-334 | true only on a healthy status; gives up only when the budget is spent or as many polls as configured were made and none read it healthy, with a pause between them |
| HermesClient.Client.RestartGateway | src/watchdog/hermes.py:241-257 | at most 4 + 4P requests; success means a restart request was sent and the gateway then read healthy |
| Orchestrator.Orchestrator.SleepClipped | src/watchdog/orchestrator.py:413-416 | sleeps for the interval or what the budget leaves, whichever is less, keeps the run on time and sends nothing |
| Orchestrator.Orchestrator.HealthProbe | src/watchdog/orchestrator.py:394-405 | unreachable only after as many failed checks as the settings ask for, with a pause between them, or once the budget was spent |
| Orchestrator.Orchestrator.Probe | src/watchdog/orchestrator.py:383-392 | a complete probe classifies the status, the health and the date it read into one of four classes; unreachable only if the checks were used up |
| Orchestrator.Orchestrator.WaitContainerUp | src/watchdog/orchestrator.py:359-379 | true only when a new status shows the container up and the gateway then answered; false only after as many failed rounds as the settings ask for or once the budget was spent |
| Orchestrator.Orchestrator.DoGatewayRestart | src/watchdog/orchestrator.py:339-357 | called on a fresh gateway failure only; recovered exactly when the probe after it is healthy |
| Orchestrator.Orchestrator.RecoverContainer | src/watchdog/orchestrator.py:304-337 | rechecks, then no justified mutation is withheld and the report is what happened |
| Orchestrator.Orchestrator.RestartContainer | src/watchdog/orchestrator.py:321-337 | one restart of the named deployment, the wait in full unless it succeeds, then a fresh probe |
| Orchestrator.Orchestrator.RecoverGatewayOnly | src/watchdog/orchestrator.py:291-302 | rechecks and follows the fresh classification |
| Orchestrator.Orchestrator.SelfhostedHealth | src/watchdog/orchestrator.py:262-276 | the health checks end with an answer, an authentication error, as many failures as the settings ask for, or a spent budget |
| Orchestrator.Orchestrator.CheckWebui | src/watchdog/hermes.py:90-114 | the code is that of the reply; a client error or a spent budget counts as none |
| Orchestrator.Orchestrator.Judge | src/watchdog/orchestrator.py:277-287 | the verdict and its condition are those of the health that was read; a healthy target with a web UI is judged by the reply of the web UI |
| Orchestrator.Orchestrator.SelfhostedProbe | src/watchdog/orchestrator.py:259-287 | a rejected login is HOST_UNREACHABLE and nothing is sent after it, the web UI included; the reason is that of the last error or a timeout |
| Orchestrator.Orchestrator.SelfhostedOne | src/watchdog/orchestrator.py:227-249 | no Railway call, at most one gateway restart, nothing sent once a login was rejected; the outcome tells the last verdict, its condition and the reason |
| Orchestrator.Orchestrator.RecoverOne | src/watchdog/orchestrator.py:155-187 | for every environment: the rules are kept, requests are at most (m+1)(5+W)+1 and 4(R+1)(5+W)+4+4P, the outcome says what happened, and if sleeps and walls are honoured the run ends by start plus budget plus the time between clock readings (in self-hosted mode plus that of the web UI) |
| EndToEnd.ActionIsLost | src/watchdog/orchestrator.py:180-184 | a lawful trace that calls the deployment restart, and whose truthful outcome reports action "none" |
| Watchdog.Run | src/watchdog/orchestrator.py:144-151 | one outcome for each target in order, which tells the action, classification, condition and reason that its trace shows; every run keeps to its mode, its request bounds and its time; only a shutdown signal fails the whole |
| Watchdog.ExitCodeIsBorne | src/watchdog/orchestrator.py:78-83 | exit code 0 is given exactly when every run ended without an exception on a probe that said HEALTHY, or TRANSITIONAL with no gateway restart |
| TraceProofs.AtMostOneDeployRequest | src/watchdog/orchestrator.py:8-8 | at most one deployment-restart request is sent |
| TraceProofs.RepostOnlyAfterRejection | src/watchdog/hermes.py:303-310 | a second restart request follows a 401 and a successful login, never a timeout or another reply |
| TraceProofs.AtMostTwoPosts | src/watchdog/hermes.py:300-319 | there is no third restart request |
| TraceProofs.DeployIsJustified | src/watchdog/orchestrator.py:307-323 | a deployment restart directly follows a probe classified CONTAINER_FAILURE, on the deployment it names |
| TraceProofs.UpIsRestartedOnlyUnreached | src/watchdog/orchestrator.py:6-7 | a container that Railway shows up is restarted only if every health check of that probe was made and failed |
| BodyProofs.ProbeRestsOnBody | src/watchdog/orchestrator.py:383-392 | each of the four classifications of a probe is given exactly for the body read in it, in terms of its fields, its health and its date |
| BodyProofs.DeployRestsOnBody | src/watchdog/orchestrator.py:304-323 | the restarted id is the one the body read in that probe names; a deployment that moved within the threshold is not restarted, and one the body shows up only when every health check failed |
| TraceProofs.CheckFailureIsExplained | src/watchdog/hermes.py:226-237 | a health check fails only with the error its last reply calls for, or a timeout after a reading past the end |
| TraceProofs.RequestBelongsToCall | src/watchdog/orchestrator.py:321-323 | a deployment-restart request directly follows its call, on the same deployment |
| TraceProofs.GatewayIsJustified | src/watchdog/orchestrator.py:294-302 | a gateway restart directly follows a probe that found the gateway unhealthy |
| TraceProofs.GatewayDownWasRead | src/watchdog/orchestrator.py:233-242 | the gateway said in that probe that it is not running |
| BodyProofs.GatewaySaidDown | src/watchdog/orchestrator.py:291-302 | the gateway is restarted only when the body of a 200 reply in that probe does not say it runs |
| TraceProofs.RecheckedFirst | src/watchdog/orchestrator.py:7-7 | every mutation has two complete probes before it |
| TraceProofs.PostBelongsToCall | src/watchdog/hermes.py:246-257 | a restart request is preceded only by logins and its own rejected first request since the call |
| TraceProofs.RestartsOnlyOwned | src/watchdog/railway.py:290-304 | no deployment is restarted unless a status reply read in the probe right before the call proves that it belongs to the watched service |
| TraceProofs.ProbeAfterRestartSawUp | src/watchdog/orchestrator.py:326-330 | after a container restart the next probe waits for a status that shows the container up and a gateway that answers after it |
| BodyProofs.UpWasShown | src/watchdog/orchestrator.py:359-379 | the next probe waits for a body with a running, not stopped instance of a deployment that succeeded, and then for an answering gateway |
| TraceProofs.SessionHeld | src/watchdog/hermes.py:259-298 | status reads and restart requests are sent only while a session cookie is held |
| TraceProofs.QuietAfterAuth | src/watchdog/orchestrator.py:273-274 | a monitor that counted no call after an authentication error means there is none in the trace |
| TraceProofs.PausedAfterCheck | src/watchdog/orchestrator.py:394-405 | after a failed health check Hermes is asked nothing before a sleep of the clipped interval or another step of the run |
| TraceProofs.PausedBetweenRounds | src/watchdog/orchestrator.py:359-379 | rounds of waiting or polling are separated by a sleep of the clipped interval or another step |
| TraceProofs.RetriedAfterBackoff | src/watchdog/railway.py:223-243 | a failed status read is tried again only after a sleep of its clipped exponential backoff |
| TraceProofs.HealthyWebAnswered | src/watchdog/state.py:138-143 | a target with a web UI is judged healthy only when that answered 200 or 302 in the same probe |
| BodyProofs.JudgedOnReply | src/watchdog/orchestrator.py:259-287 | the classification of a self-hosted probe that was answered, in terms of the fields of the answer |
| TraceProofs.WebDownWasSeen | src/watchdog/state.py:138-143 | WEBUI_DOWN rests on a reply that is neither 200 nor 302, or on a spent budget |
| TraceProofs.UnreachableWasTried | src/watchdog/orchestrator.py:264-280 | HOST_UNREACHABLE rests on all health checks failed, a rejected login, or a spent budget |
| TraceProofs.DryRunOnlyLooks | src/watchdog/orchestrator.py:165-168 | no event of a dry run is a mutation |
| TraceProofs.ModesStayApart | src/watchdog/orchestrator.py:136-140 | no event of a self-hosted run asks Railway, none of a Railway run asks a web UI |
| TraceProofs.StartedInTime | src/watchdog/http.py:16-22 | in a budgeted run nothing is sent and no mutation begins before the budget is made, or unless a clock reading directly before it left time |
| TraceProofs.AllowanceIsLive | src/watchdog/http.py:57-64 | in a budgeted run every wall and sleep is bounded by what the clock reading right before it left |
| TraceProofs.VerdictIsLast | src/watchdog/orchestrator.py:356-357 | the verdict an outcome rests on is the last probe's, with no mutation after it |
| TraceProofs.OverheadIsReadingTime | src/watchdog/http.py:57-64 | when sleeps and walls are honoured, overhead is only the time between readings and that of the web UI |

## Left out

- HTTP transport, TLS, cancellation, cookie matching and JSON decoding: a request is answered with a status, a decoded body, a redirect flag and a session flag, or fails.
- The thread pool and the concurrency cap of `run`: jobs run one after another, each in its own world.
- SHA-256 and the six regular expressions: hashes and patterns are arbitrary functions under stated hypotheses; idempotence of the pattern layer is not claimed.
- Case folding, trimming of status words and timestamp parsing: arbitrary functions (`Responses.TextOps`).
- Email layout, the wording of the summary's fixed lines and the rendering of seconds: parameters of `Summary.RenderSummary`, or absent.
- Argument parsing, environment variables, exit codes other than that of a run, configuration validation and resource closing other than the Hermes client's.
- Elapsed seconds in outcomes and floating-point rounding: time is a real number.
- The web UI check has a timeout for each phase, not a wall: all its time counts as overhead in the time bound.
- RedactionSafety.SafeIff: not for a set of secrets that uses every character there is, because the leaking text needs one that no secret has; and its "only if" ranges over all patterns, so that for the program's six it is exact only where `RedactorSafeIff` is.
- PageShown.ShownIsEdge: no exact condition for smallest secrets with `&`, `\` or `;` (`PageLeaks.EntityLeaks` is such a set).
- PageLeaks.PageSafeIff: not for sets with a secret that is part of the name of an entity (`amp`, `lt`, `gt`), which the last redaction can cut; its "only if" is for patterns that find nothing in the one-target page.
- State.FailingIgnoresOrder: the detail text, which follows the order of the platforms, is not covered.
- The Markdown reader knows the three entities the sanitizer emits, not the full list of the specification.
