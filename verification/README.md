# PaySentinel backend core in Dafny

PaySentinel is a payment-monitoring backend. A chaos simulator generates card
transactions and can inject failures. A watchdog keeps per-issuer sliding
windows of latencies and success flags and raises `LATENCY_SPIKE` or
`SUCCESS_DROP`. An analyst diagnoses each alert, using mock status and
database tools or a language model. A manager routes traffic away from a
failing issuer when it is confident enough, and can roll that decision back.
The FastAPI application ties these together with a bounded event log, which
also feeds a chat assistant.

This project models that core and proves properties of the model:

| file | module | models |
|---|---|---|
| `basics.dfy` | `Basics` | `Option`; the "newest n elements" of a sequence, which is what a `deque(maxlen=n)` holds |
| `text.dfy` | `Text` | the string operations the core uses: ASCII `lower`/`upper`, `replace`, substring `in`, `join`, integer formatting |
| `models.dfy` | `Models` | `backend/app/models/transaction.py`: the enums with their string values, and the transaction record with its defaults |
| `tools.dfy` | `Tools` | `backend/app/tools/definitions.py`: the three mock tools and the registry |
| `watchdog.dfy` | `Watchdog` | `backend/app/agents/watchdog.py`: per-issuer windows (a class) and the classification (functions) |
| `analyst.dfy` | `Analyst` | `backend/app/agents/analyst.py`: gathering context and the fallback diagnosis. The language model is an input |
| `manager.dfy` | `Manager` | `backend/app/agents/manager.py`: the policy, the decision stack and rollback. Every tool call is recorded in a call log |
| `chaos.dfy` | `Chaos` | `backend/app/simulator/chaos_simulator.py`: the ordered injection map and transaction generation. Random draws are inputs |
| `backend.dfy` | `Backend` | `backend/app/main.py`: the event log, one step of the simulation loop, `/inject`, `/rollback` and the chat context |

The modules also prove three end-to-end properties:

- Without a working language model, an alert on an issuer leads to a routing mitigation exactly when the issuer is CHASE, in any letter case.
- A CHASE injection at rate 1.0 fails every CHASE transaction and leaves the other issuers alone.
- Acting and then rolling back leaves the decision stack as it was.

The latency test is modelled exactly over the reals, without a square root. `Watchdog.Spike` compares `(x - m)²` with `z² · variance`. The lemma `Watchdog.SpikeIsZScoreTest` shows that this equals the source's `stdev > 0 and (x - m) / stdev > z` for every `stdev ≥ 0` whose square is the sample variance.

Two details of the detector are easy to misread:

- The success-rate test runs only when the success window holds more than 10 entries (`backend/app/agents/watchdog.py:41`), that is at least 11. `Watchdog.NoSuccessDropAtTenSamples` states this.
- The mean and standard deviation of the latency test include the newest latency (`backend/app/agents/watchdog.py:30-33`). `Watchdog.SpikeExample` works a case through with those statistics.

Default arguments of the source are Dafny default parameter values: the watchdog's window 50 and threshold 2.0, the simulator's rate 1, the injection's issuer None, error "500", rate 0.5 and latency 1500, the log level "info", and the issuer "CHASE" of `/inject`.

## Model

| member | source | states |
|---|---|---|
| Models.ParsePaymentMethod | backend/app/models/transaction.py:6-10 | a value parses to a payment method exactly when it is that method's string value. The four values `credit_card`, `debit_card`, `bank_transfer`, `digital_wallet` round-trip |
| Models.ParseStatus | backend/app/models/transaction.py:12-16 | a value parses to a status exactly when it is that status's value (`success`, `failed`, `pending`, `retry`) |
| Models.NewTransaction | backend/app/models/transaction.py:18-32 | a transaction built from the required fields has no error code, no BIN range, retry count 0 and empty metadata, and keeps the given issuer, status and latency |
| Tools.RouteTraffic | backend/app/tools/definitions.py:15-22 | routing always succeeds, and its data echoes the percentage and the destination |
| Tools.CheckExternalStatus | backend/app/tools/definitions.py:29-42 | always succeeds with status data. The upper-cased service CHASE is degraded, STRIPE operational, BOA in maintenance, and anything else unknown / "Service not found" |
| Tools.StatusLookupIgnoresCase | backend/app/tools/definitions.py:37 | the status of a service equals the status of its upper-cased name, so "chase" and "CHASE" agree |
| Tools.QueryDatabase | backend/app/tools/definitions.py:49-54 | always succeeds, with the same fixed rows whatever the query |
| Tools.RegistryHoldsEveryToolByName | backend/app/tools/definitions.py:57-61 | the registry has exactly the keys route_traffic, check_external_status and query_database, and each tool is registered under its own name |
| Basics.LastN | backend/app/agents/watchdog.py:16-20 | the window holds min(n, length) elements, and they are the newest ones in insertion order |
| Basics.LastNConcat | backend/app/agents/watchdog.py:16-20 | trimming a window to n, appending and trimming again equals trimming the whole history once: eviction only ever drops the oldest |
| Watchdog.DequeAppend | backend/app/agents/watchdog.py:19-20 | appending to a bounded deque at or under capacity leaves the newest `capacity` entries of the extended window |
| Watchdog.SuccessFlag | backend/app/agents/watchdog.py:20 | the success flag is 0 or 1, and it is 1 exactly for SUCCESS |
| Watchdog.Spike | backend/app/agents/watchdog.py:33 | the squared form of the one-sided z-score test on the newest latency. It only holds when the sample variance is positive |
| Watchdog.SampleVariance | backend/app/agents/watchdog.py:32 | the sample variance (divided by n − 1) of two or more latencies is never negative |
| Watchdog.SpikeIsZScoreTest | backend/app/agents/watchdog.py:30-35 | for every standard deviation s ≥ 0 with s² = the sample variance, the spike test holds exactly when s > 0 and (newest − mean)/s > z |
| Watchdog.ConstantWindowNeverSpikes | backend/app/agents/watchdog.py:31-37 | a window of identical latencies has zero variance and never yields a spike |
| Watchdog.SuccessTestIsRate | backend/app/agents/watchdog.py:41-43 | the integer test 5·sum < 4·len is exactly rate = sum/len < 0.8 |
| Watchdog.Classify | backend/app/agents/watchdog.py:24-47 | fewer than 10 latencies give no alert. LATENCY_SPIKE holds exactly when there are at least 10 latencies and the spike test holds. SUCCESS_DROP holds exactly when there are at least 10 latencies, no spike, more than 10 success flags and a rate below 0.8 |
| Watchdog.SpikeExample | backend/app/agents/watchdog.py:30-35 | ten latencies around 100 ms followed by 400 ms classify as LATENCY_SPIKE at threshold 2.0 |
| Watchdog.NoSuccessDropAtTenSamples | backend/app/agents/watchdog.py:41 | with exactly 10 success flags no SUCCESS_DROP is raised, whatever they hold |
| Watchdog.ObservePreservesMatch | backend/app/agents/watchdog.py:14-20 | recording one observation for an issuer keeps every issuer's two windows equal to the newest window-size entries of its histories, the two histories of equal length and the windows created together |
| Watchdog.WatchdogAgent.constructor | backend/app/agents/watchdog.py:7-12 | starts with the given window size and threshold (50 and 2.0 by default) and no windows |
| Watchdog.WatchdogAgent.ProcessTransaction | backend/app/agents/watchdog.py:14-22 | appends the latency and success flag to the issuer's histories, creating them on first sight. Only that issuer's windows change, and they become the newest window-size entries of those histories, of equal length at most the window size. Returns the classification of the new windows |
| Watchdog.WatchdogAgent.DetectAnomalies | backend/app/agents/watchdog.py:24-47 | the alert for an issuer is the classification of the newest window-size entries of its histories |
| Manager.Confidence | backend/app/agents/manager.py:20 | the diagnosis's confidence, or 0.0 when it is missing |
| Manager.NormalizeAction | backend/app/agents/manager.py:34 | each character is the lower-case form of the action's character, or a space where the action has `_`. So the result has the same length, no underscores and no upper-case letters |
| Manager.ShouldAct | backend/app/agents/manager.py:33-34 | the policy test. Acting needs a present confidence above 0.8 and an action at least as long as "route traffic" |
| Manager.DecisionFor | backend/app/agents/manager.py:25-47 | ROUTED_TRAFFIC exactly when the policy acts, carrying the issuer, "Mitigating {root cause}" and the (50, STRIPE) tool result. Otherwise MONITOR with the fixed reason |
| Manager.PolicyExamples | backend/app/agents/manager.py:19-34 | "Route Traffic" and "ROUTE_TRAFFIC to STRIPE" at 0.95 qualify. Confidence 0.8 or 0.5, a missing confidence (0.0) and a missing action do not |
| Manager.ManagerAgent.constructor | backend/app/agents/manager.py:9-11 | starts with an empty decision stack and no tool calls |
| Manager.ManagerAgent.DecideAndAct | backend/app/agents/manager.py:13-53 | returns `DecisionFor` the diagnosis. When the policy acts: exactly one tool call (50, STRIPE, issuer) and the record pushed. Otherwise no call and no change. The stack holds only ROUTED_TRAFFIC records |
| Manager.ManagerAgent.RollbackLastAction | backend/app/agents/manager.py:55-69 | an empty stack gives status "failed" with "No actions to rollback" with no call and no change. Otherwise the top record is popped first. A routed record then gives one call (0, ORIGINAL, its issuer) and status "success" with "Rolled back routing for …" and the record. Any other kind gives status "failed" with "Unknown action type" |
| Manager.ManagerAgent.ActThenRollback | backend/app/agents/manager.py:13-69 | acting and then rolling back restores the decision stack and leaves exactly the calls (50, STRIPE) and then (0, ORIGINAL) for the issuer |
| Chaos.Triggers | backend/app/simulator/chaos_simulator.py:48-49 | an injection for another issuer never triggers. A matching injection with rate ≥ 1.0 always triggers on a draw in [0, 1), and one with rate ≤ 0 never does |
| Chaos.LastTriggered | backend/app/simulator/chaos_simulator.py:46-54 | finds the last injection, in insertion order, that matches the issuer and whose draw is below its failure rate. None means that no injection triggers |
| Chaos.Decide | backend/app/simulator/chaos_simulator.py:40-54 | with no trigger: SUCCESS, no error code and the baseline latency. Otherwise FAILED with the error code, and the latency plus jitter, of the last injection that triggered |
| Chaos.OtherIssuerIrrelevant | backend/app/simulator/chaos_simulator.py:48 | the draw of an injection for another issuer never changes which injection decides |
| Chaos.CertainFailure | backend/app/simulator/chaos_simulator.py:49 | a matching injection with failure rate ≥ 1.0 always triggers, so some injection at or after it decides |
| Chaos.ChaseOutageScenario | backend/app/simulator/chaos_simulator.py:46-54 | with only {CHASE, "500", rate 1.0} active, CHASE fails with "500" at 1500 ms ± jitter and other issuers succeed at the baseline |
| Chaos.Without | backend/app/simulator/chaos_simulator.py:34-36 | removing a key from the order keeps exactly the other keys |
| Chaos.WithoutIsSplice | backend/app/simulator/chaos_simulator.py:36 | in an order without duplicates, removing a key cuts it out at its position, so the other keys keep their relative order, as `del` on a dict does |
| Chaos.WithoutKeepsDistinct | backend/app/simulator/chaos_simulator.py:34-36 | removing a key keeps the order free of duplicates |
| Chaos.WithoutAbsent | backend/app/simulator/chaos_simulator.py:35 | removing an absent key changes nothing |
| Chaos.InOrder | backend/app/simulator/chaos_simulator.py:46 | lists the injections in insertion order, one per key |
| Chaos.ChaosSimulator.constructor | backend/app/simulator/chaos_simulator.py:14-17 | starts with the given rate (1 by default) and no injections |
| Chaos.ChaosSimulator.InjectFailure | backend/app/simulator/chaos_simulator.py:19-32 | maps the id to exactly the given parameters (defaults None, "500", 0.5, 1500) and leaves the other ids alone. A reused id keeps its position and a new id goes last. Returns "Injection {id} started." |
| Chaos.ChaosSimulator.StopInjection | backend/app/simulator/chaos_simulator.py:34-36 | removes the id from the map and cuts it out of the order, the other ids keeping their relative order, and is a no-op when the id is absent |
| Chaos.ChaosSimulator.GenerateTransaction | backend/app/simulator/chaos_simulator.py:38-69 | the loop over the injections in insertion order computes `Decide`. The issuer is one of the four. Status is SUCCESS (no error, latency in 50..300) or FAILED (latency within ±100 of some injection's latency). Processor STRIPE, currency USD, fixed metadata |
| Analyst.IsDegraded | backend/app/agents/analyst.py:92 | the context reports "degraded" only through status data. A missing external status is not degraded |
| Analyst.GatherContext | backend/app/agents/analyst.py:63-73 | the context holds the status tool's data for the issuer and the database tool's rows |
| Analyst.MockDiagnosis | backend/app/agents/analyst.py:90-107 | always well formed. If degraded: the outage at the issuer, 0.95, one evidence line naming the issuer, route_traffic. Otherwise: unknown latency spike, 0.5, two fixed lines, monitor |
| Analyst.Investigate | backend/app/agents/analyst.py:53-88 | a model answer is returned as is. Without a model, or when the call fails, the result is the fallback over the gathered context: well formed, with confidence 0.95 exactly when the issuer's status is degraded |
| Backend.FallbackActsIffDegraded | backend/app/agents/analyst.py:92-100 | the manager acts on the fallback diagnosis exactly when the status page reports degraded |
| Backend.FallbackRoutesOnlyChase | backend/app/agents/analyst.py:92-100 | without a working model, the manager acts on an alert exactly when the upper-cased issuer is CHASE |
| Backend.ChaseFallbackRoutes | backend/app/agents/analyst.py:92-100 | without a working model, the decision for CHASE is ROUTED_TRAFFIC "Mitigating External outage detected at {issuer}" with the (50, STRIPE) tool result |
| Backend.Appended | backend/app/main.py:67-70 | the new entry is last. A log of at most 50 entries stays at most 50, and it holds the newest 50 entries, so an overflow removes the oldest |
| Backend.AppendAllBounded | backend/app/main.py:67-70 | any sequence of `log_event` calls on a log within capacity leaves the newest 50 of all entries, in order |
| Backend.AppendAllFirst | backend/app/main.py:83-96 | logging several entries is logging the first, then the rest |
| Backend.Lines | backend/app/main.py:135 | one "[ts] agent: message" line per entry, in log order |
| Backend.ChatContext | backend/app/main.py:135-137 | "No recent significant events." for an empty log, otherwise the entry lines joined by newlines |
| Backend.ChatContextAppend | backend/app/main.py:135 | a new log entry becomes the last line of the context |
| Backend.Incomplete | backend/app/main.py:87 | the diagnosis lacks a root cause or a confidence, so building the diagnosis message fails. A well-formed diagnosis is never incomplete |
| Backend.AgentLogs | backend/app/main.py:87-96 | the Analyst line comes first, and a Manager line follows exactly when the manager acts |
| Backend.StepEntries | backend/app/main.py:83-96 | on an alert a Watchdog entry is always logged. When the diagnosis is complete an Analyst entry follows, then a Manager entry exactly when the manager acts |
| Backend.Backend.constructor | backend/app/main.py:28-35 | the simulator at 5 tps, the watchdog with window 50 and threshold 2.0, an empty decision stack and call log, an empty event log |
| Backend.Backend.LogEvent | backend/app/main.py:59-71 | the log becomes the bounded append of the returned entry. The level defaults to info |
| Backend.Backend.HandleTransaction | backend/app/main.py:77-104 | the watchdog records the transaction. The payload carries the transaction and the detector's alert for it. With no alert: empty agent logs and no change to the log or the manager. With an alert: the log receives the step's entries, a diagnosis missing root cause or confidence stops the step, and the manager acts exactly by its policy |
| Backend.Backend.HandleAlert | backend/app/main.py:82-96 | the alert branch on its own: logs the step's entries in order, returns the agent logs, and stops when the diagnosis is incomplete |
| Backend.Backend.TriggerInjection | backend/app/main.py:120-124 | always writes the id "api_trigger" with the issuer (CHASE by default), "500", 0.9 and 1500 ms, so repeated calls replace one injection. The id keeps its place or, when new, goes last in the order. Logs the trigger and returns the status text |
| Backend.Backend.RollbackAction | backend/app/main.py:126-130 | on an empty stack the rollback fails with no call and no change to the stack. Otherwise it pops the newest routed record and issues the (0, ORIGINAL) call. Either way it logs "Rollback requested: …" |

## Left out

- The language-model chain in `backend/app/agents/analyst.py` and the assistant in `backend/app/agents/assistant.py` are external calls. The model's outcome is the input `LanguageModel`: none, a failure, or an answer. An answer is taken as an arbitrary diagnosis whose keys may be missing. The prompt text and `str(context)` are not modelled.
- Analyst.Investigate: a confidence in a model answer that is not a number is not modelled, so the `TypeError` the comparison in the manager would raise is not modelled either.
- `ChaosSimulator.run`, its `running` flag and the `asyncio.sleep` pacing, `broadcast`, the websocket endpoint, `/health`, `/` and startup are async plumbing. This includes the websocket command that injects "manual_1".
- Clocks and randomness are parameters. `datetime.now()` becomes a `now` string. The issuer choice, the baseline latency, one uniform draw and one jitter per injection, and the cosmetic fields (id, timestamp, amount, payment method, region) are inputs.
- Chaos.ChaosSimulator.GenerateTransaction: the `"latency_ms" in params` guard is always true, because `inject_failure` always stores a latency, so the model always applies the injection's latency.
- Python floats are modelled as exact reals. `statistics.mean` and `statistics.stdev` round, so a value within rounding of the threshold may classify differently.
- `str.upper` and `str.lower` are modelled on ASCII letters only.
- Python's formatting of the confidence float in "Diagnosed: … (Conf: …)" is the parameter `showConfidence`.
- Backend.Backend.HandleTransaction: when a diagnosis lacks `root_cause` or `confidence`, the source raises `KeyError`, which ends the simulation task. The model returns `Crashed` and does not model the task ending.
- The payload's constant `"type": "transaction"` field and the JSON round-trip of the transaction are not modelled.
- `print` logging and the tools' `description` attributes have no behaviour to model.
- The FastAPI entry points are modelled as atomic and sequential. `/inject` and `/rollback` are plain `def` endpoints that FastAPI runs on worker threads, concurrently with the simulation loop. The model does not capture those interleavings. For example, an `/inject` that adds a new key while `_generate_transaction` iterates the injections could end the loop with "dictionary changed size during iteration". A rollback between the steps of one handling step is not captured either.
- Backend.Backend.HandleTransaction: one `now` timestamps every log entry of a step. The source reads the clock again in each `log_event` call, so in the source the entries of one step may carry different seconds.
- `WatchdogAgent` takes a natural window size. A negative `maxlen`, which Python rejects, is not modelled.

