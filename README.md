# ec2-controller, modelled in Dafny

Two AWS Lambda handlers keep a small EC2 fleet in check. This project models both and proves what they do to the fleet's tags, to DNS and to the chat channel.

- **The instance controller** (`lambda/EC2Control/index.mjs`) answers one HTTP request: `list`, `start`, `start1h`, `stop`, or the default status.
  - `start` starts an instance and deletes its `shutdownTime` tag, which cancels any auto-stop.
  - `start1h` starts an instance unless it is already running, and writes `shutdownTime` one hour from now.
  - When a domain and a hosted zone are given, a started instance is then polled for a public address (at most 30 describes), and an A record with a 300 s TTL is upserted for it.
  - Under `start1h`, an instance that was already running is not polled: the address its describe reported goes to the DNS update.
  - A failed wait or DNS update is reported with status 200, and the start stays done.
  - A missing instance id gives 400. Any other failure gives 500.
- **The idle sweeper** (`lambda/ScheduledEC2Stopper/index.mjs`) makes one scheduled pass over every instance:
  - It tags a running instance that has no `startedTime` with the time of the pass, and announces it.
  - It warns about every running instance started more than one hour ago.
  - It collects the running instances whose `shutdownTime` has passed, and stops them in one request.

Two details of the sweep:

- The sweep's body reads `Processed N instances`, where N is the number of instances stopped. The model reports that number in `Report.processed`.
- The single `catch` rethrows every error, so a rejected describe, tag write, message or stop ends the pass.

## How the model is built

- **`Basics`** (`basics.dfy`) holds `Option`, `Result`, `Given` and three lemmas about concatenation. `Given` is JavaScript truthiness of an optional string: present and not empty.
- **`Tags`** (`tags.dfy`):
  - Tags are a sequence of `Key`/`Value` pairs. Lookup is first-match, as `Tags.find` is.
  - `SetTag` and `RemoveTag` are what `CreateTags` and `DeleteTags` do to one key.
  - `TagSummary` is the `Key: Value` join with its `No tags` fallback.
  - Time is integer milliseconds. The ISO-8601 text stored in a tag is reached through a `TimeCodec(format, parse)` parameter.
  - `parse` gives `None` where `new Date(text)` is an invalid date. Every comparison with such a date is false, so it neither warns nor stops.
- **`Cloud`** (`cloud.dfy`) stands for EC2, Route 53 and Telegram together.
  - The class `Provider` holds the fleet, the trace of every call issued, and the set `down` of services that reject calls during the invocation.
  - `Provider.Issue` appends a call to the trace. The call is rejected when its service is down or it names an unknown instance. Otherwise the call's effect is applied to the fleet.
  - The pure function `Perform(fleet, down, plan)` issues a plan call by call and stops at the first rejection. A rejected call throws, and neither handler resumes after an exception.
  - The methods are proved against `Perform`, and the `Perform*` lemmas relate runs of plans to each other.
- **`Ec2Control`** (`ec2_control.dfy`) is the controller.
  - The handler and its helpers are methods on a `Provider`. `waitForPublicIp` keeps its `while` loop.
  - The address the j-th describe reports is the parameter `address(j)`.
- **`Sweeper`** (`sweeper.dfy`) is the sweeper.
  - The handler keeps its two nested loops: `VisitSnapshot` over reservations and `VisitReservation` over instances. `VisitInstance` is the loop body.
  - `Visit`, `Visits`, `Batch` and `Plan` are the specification functions that the loops are proved against.

## Model

| member | source | states |
|---|---|---|
| Tags.Lookup | lambda/ScheduledEC2Stopper/index.mjs:21 | a key has a value iff some tag carries that key; the value found is that of the first such tag |
| Tags.SetTag | lambda/EC2Control/index.mjs:48-53 | after CreateTags the key reads as the new value whether or not it was present; every other key reads as before |
| Tags.RemoveTag | lambda/EC2Control/index.mjs:55-60 | after DeleteTags the key is absent whether or not it was present; every other key reads as before |
| Tags.TagSummary | lambda/ScheduledEC2Stopper/index.mjs:31 | the summary is never empty, and with no tags it is `No tags` |
| Tags.SummaryFallback | lambda/ScheduledEC2Stopper/index.mjs:31 | the summary is `No tags` exactly when the instance has no tags (an empty join is falsy) |
| Tags.SummaryLines | lambda/ScheduledEC2Stopper/index.mjs:40 | splitting a summary at line breaks gives back one `Key: Value` line per tag, in tag order, for a non-empty tag list in which no key or value holds a line break |
| Tags.SplitJoin | lambda/ScheduledEC2Stopper/index.mjs:31 | for a non-empty list, `join('\n')` is undone by splitting at line breaks when no line holds one |
| Cloud.PerformPrefix | lambda/EC2Control/index.mjs:145-148 | the calls issued are a prefix of the plan: all of it when the run completes, otherwise ending with the rejected call |
| Cloud.PerformStopped | lambda/ScheduledEC2Stopper/index.mjs:77-80 | once a call is rejected, no later call of the plan is issued |
| Cloud.PerformStep | lambda/ScheduledEC2Stopper/index.mjs:17-68 | a completed plan was issued in full, and one more awaited call either is rejected (the run stops there, fleet unchanged) or takes effect |
| Cloud.PerformThen | lambda/EC2Control/index.mjs:83-98 | running a completed plan and then a second plan is running their concatenation |
| Cloud.PerformReplay | lambda/EC2Control/index.mjs:100-111 | a completed run issued exactly its plan and left the fleet as every call's effect applied in order |
| Cloud.PerformCompletes | lambda/ScheduledEC2Stopper/index.mjs:9-81 | a plan whose services are all up and whose calls name known instances runs to the end |
| Cloud.Provider.Issue | lambda/EC2Control/index.mjs:84 | one request: appended to the trace, rejected iff its service is down or it names an unknown instance, otherwise applied to the fleet |
| Ec2Control.ListAll | lambda/EC2Control/index.mjs:71-75 | one `{instanceId, state, publicIp}` entry per instance of every reservation, in order |
| Ec2Control.HandleList | lambda/EC2Control/index.mjs:69-77 | `list` issues one describe of everything, changes nothing, and answers 200 with the listing (500 if the describe is rejected) |
| Ec2Control.DnsChange | lambda/EC2Control/index.mjs:23-44 | no change iff domain, zone or address is missing; otherwise one UPSERT of an A record named after the domain, pointing at the address, TTL 300, in that zone |
| Ec2Control.UpdateDns | lambda/EC2Control/index.mjs:23-46 | issues nothing when a parameter is missing, otherwise exactly that one change; fails only when Route 53 rejects it |
| Ec2Control.PollFrom | lambda/EC2Control/index.mjs:11-20 | from attempt k the poll makes between k and 30 describes, and its only failure is the timeout after all 30 |
| Ec2Control.PollFromMeaning | lambda/EC2Control/index.mjs:11-19 | from attempt k on, the loop stops at the first attempt that sees an address and returns it, or times out after attempt 30 with none seen |
| Ec2Control.PollMeaning | lambda/EC2Control/index.mjs:7-21 | at most 30 describes; the result is the first address observed, and a timeout happens iff none of the 30 observations had one |
| Ec2Control.WaitForPublicIp | lambda/EC2Control/index.mjs:7-21 | the loop issues exactly the describes the poll counts and returns the poll's result; a rejected describe fails at once |
| Ec2Control.AddShutdownTag | lambda/EC2Control/index.mjs:48-53 | one CreateTags of `shutdownTime` with the formatted deadline |
| Ec2Control.RemoveShutdownTag | lambda/EC2Control/index.mjs:55-60 | one DeleteTags of `shutdownTime` |
| Ec2Control.AwaitAndUpdateDns | lambda/EC2Control/index.mjs:91-97 | wait for an address, then upsert it; the fault is the timeout, the rejected describe or the rejected DNS change, and the fleet is untouched |
| Ec2Control.HandleStart | lambda/EC2Control/index.mjs:83-98 | start then delete `shutdownTime`; 500 iff one of those is rejected; without domain or zone, 200 and nothing more; otherwise poll and DNS, and their failure still answers 200 with the error |
| Ec2Control.StartFleet | lambda/EC2Control/index.mjs:84-85 | after a successful `start` the fleet is the start's effect followed by the tag deletion's |
| Ec2Control.StartCancelsShutdown | lambda/EC2Control/index.mjs:83-85 | after a successful `start` the instance has no `shutdownTime` whether or not it had one; its other tags and every other instance are unchanged |
| Ec2Control.ExtendPlan | lambda/EC2Control/index.mjs:100-111 | `start1h` first describes the instance and last writes `shutdownTime` one hour from now, and it starts the instance iff it was not running |
| Ec2Control.StartAndTag | lambda/EC2Control/index.mjs:105-111 | the optional start and the tag write are issued in turn, stopping at the first rejection |
| Ec2Control.ScheduleStop | lambda/EC2Control/index.mjs:100-111 | describe, start only if not running, then write the deadline now + 1 h; reports the described state and address |
| Ec2Control.HandleStart1h | lambda/EC2Control/index.mjs:100-135 | 500 iff a call before the DNS work is rejected; a stopped instance is polled and its new address upserted; a running one is never polled, and its known address goes to the DNS update, which silently skips an absent one; DNS failures answer 200 with the error |
| Ec2Control.ExtendFleet | lambda/EC2Control/index.mjs:100-111 | a successful `start1h` issues exactly its plan and leaves the fleet as the optional start followed by the tag write |
| Ec2Control.ExtendSchedulesShutdown | lambda/EC2Control/index.mjs:100-111 | a start is issued iff the instance was not running; afterwards `shutdownTime` reads now + 1 h, overwriting any earlier deadline; other tags and instances are unchanged |
| Ec2Control.HandleStop | lambda/EC2Control/index.mjs:137-140 | `stop` issues exactly one stop request; 200 if it is accepted, 500 if not |
| Ec2Control.StopKeepsTags | lambda/EC2Control/index.mjs:137-139 | a stop changes no tag, address or id, only the state of the named instances |
| Ec2Control.HandleStatus | lambda/EC2Control/index.mjs:142-148 | one describe by id, no change, 200 with that instance's id, state and address; 500 if the describe is rejected |
| Ec2Control.HandleInstance | lambda/EC2Control/index.mjs:83-148 | an action with an instance id answers 200 or 500; `start` begins with the start request, `start1h` with a describe, `stop` is exactly one stop request, and any other action is one describe that changes nothing |
| Ec2Control.Handle | lambda/EC2Control/index.mjs:62-149 | status is 200, 400 or 500; 400 iff a non-`list` action lacks an instance id, and then no call is made; `list` needs no id; each action begins with its own first call |
| Sweeper.IssueInOrder | lambda/ScheduledEC2Stopper/index.mjs:25-33 | awaited calls one after another: the trace grows by exactly the calls issued before and including the first rejection, whose service is reported |
| Sweeper.Visit | lambda/ScheduledEC2Stopper/index.mjs:19-44 | an instance that is not running gets no call, and none gets more than two |
| Sweeper.DueForStop | lambda/ScheduledEC2Stopper/index.mjs:47-53 | only a running instance with a `shutdownTime` tag is due |
| Sweeper.Batch | lambda/ScheduledEC2Stopper/index.mjs:47-53 | the batch is never longer than the instances visited |
| Sweeper.VisitInstance | lambda/ScheduledEC2Stopper/index.mjs:19-44 | the calls for one instance are those `Visit` prescribes, stopping at the first rejected one |
| Sweeper.VisitReservation | lambda/ScheduledEC2Stopper/index.mjs:18-55 | the inner loop issues the visits of the reservation's instances in order; when nothing is rejected it collects exactly their due ids |
| Sweeper.VisitSnapshot | lambda/ScheduledEC2Stopper/index.mjs:17-56 | the outer loop issues the visits of every instance of the snapshot in order; when nothing is rejected `instancesToStop` is the whole batch |
| Sweeper.StopDue | lambda/ScheduledEC2Stopper/index.mjs:59-68 | one stop request carrying the batch when the batch is not empty, none when it is |
| Sweeper.Sweep | lambda/ScheduledEC2Stopper/index.mjs:9-81 | a pass issues, in order, the describe, the visits of every instance and the stop request, and stops at the first rejection; it fails iff a call was rejected, naming its service (rethrown); otherwise it reports the batch as `stoppedInstances` and its length as the count |
| Sweeper.VisitsAppend | lambda/ScheduledEC2Stopper/index.mjs:17-18 | the visits of two runs of instances are the first run's followed by the second's |
| Sweeper.BatchAppend | lambda/ScheduledEC2Stopper/index.mjs:17-18 | the batch keeps iteration order across reservations and instances |
| Sweeper.VisitsMember | lambda/ScheduledEC2Stopper/index.mjs:17-18 | a call is made by the pass iff it is made for some instance of the snapshot |
| Sweeper.VisitsOnlyTagAndNotify | lambda/ScheduledEC2Stopper/index.mjs:19-53 | between the describe and the stop, a pass only writes tags and sends messages |
| Sweeper.StartedTagWrites | lambda/ScheduledEC2Stopper/index.mjs:19-28 | a tag write happens iff it sets `startedTime` to the time of the pass on a running instance that lacked it; non-running instances are never tagged |
| Sweeper.Announcements | lambda/ScheduledEC2Stopper/index.mjs:19-33 | a new-instance notice goes out iff a running instance lacks `startedTime`, and it carries that instance's tag summary |
| Sweeper.WarningFor | lambda/ScheduledEC2Stopper/index.mjs:34-43 | one instance is warned about iff it runs, its `startedTime` reads as a time, more than one hour has elapsed, and the hours reported are the elapsed time rounded down |
| Sweeper.Warnings | lambda/ScheduledEC2Stopper/index.mjs:34-43 | over the snapshot, a warning goes out iff some running instance has run more than `ALERT_TIME_LIMIT` hours, with the elapsed hours rounded down and its tag summary; an instance without a readable `startedTime` is never warned about, and the hours reported are at least 1 |
| Sweeper.BatchMembership | lambda/ScheduledEC2Stopper/index.mjs:47-53 | an id is in the batch iff its instance is running with a `shutdownTime` that reads as a time no later than now; the batch is never longer than the snapshot |
| Sweeper.BatchSnoc | lambda/ScheduledEC2Stopper/index.mjs:47-53 | visiting one more instance appends its id to the batch iff it is due, and nothing else: at most one id per instance, in visiting order |
| Sweeper.NoDeadlineNoStop | lambda/ScheduledEC2Stopper/index.mjs:47-48 | an instance without `shutdownTime` is never stopped by a pass |
| Sweeper.DueAfterDeadline | lambda/ScheduledEC2Stopper/index.mjs:49-51 | when the text `start1h` wrote for a deadline reads back as that deadline, a running instance carrying it is due exactly once the deadline has passed |
| Sweeper.SingleStop | lambda/ScheduledEC2Stopper/index.mjs:59-68 | a pass sends at most one stop request: the last call, carrying the whole batch, made exactly when the batch is not empty |
| Sweeper.VisitsSnoc | lambda/ScheduledEC2Stopper/index.mjs:17-44 | visiting one more instance appends exactly its own calls |
| Sweeper.SweepCompletes | lambda/ScheduledEC2Stopper/index.mjs:9-81 | with EC2 and Telegram reachable, every call of a pass names a known instance and the pass runs to the end |

## Left out

- The AWS SDK clients, region configuration and `send` calls are not modelled directly. Each request is a `Call` issued on the abstract `Provider`.
- Which requests are rejected is the parameter `down`, one set of services per invocation. An unknown instance id is rejected too, as EC2 rejects it. So the model cannot express a service that rejects one call and accepts a later one in the same invocation: a describe throttled only on a later attempt of the poll, or a tag write failing after earlier ones went through. A poll that meets a rejection always ends after its first describe.
- Telegram delivery through axios, the bot token and the chat id are not modelled. A message is a `SendMessage` call carrying a `Notice` without its wording.
- The 5-second sleep between describes is not modelled. The address each describe reports is the parameter `address`.
- `toISOString`, `new Date(text)` and `toLocaleString('ko-KR')` are not modelled. Time is integer milliseconds behind the `TimeCodec` parameter.
- `setHours(getHours() + 1)` is modelled as adding 3600000 ms, which ignores a daylight-saving change in the Lambda's local time zone.
- The floating-point hours of the warning are not modelled. The model compares integer milliseconds and divides exactly, which agrees with `runningHours > 1` and `Math.floor(runningHours)` for whole-millisecond times.
- `JSON.stringify`, the Korean and English message texts, and `console.log`/`console.error` are not modelled. A response is a status code and a `Body` variant.
- State transitions are not modelled in detail. A start makes an instance `Pending` unless it is running, and a stop makes it `Stopping` unless it is stopped. Nothing moves it on later within the invocation.
- Races between concurrent invocations on the tag store are not modelled. Within one invocation everything is sequential.
- Tags are a sequence rather than a map, so that first-match lookup and the order of the summary lines are kept. A missing tag list (`Tags` undefined) is the empty sequence, and it gives the same summary.
- Ec2Control.Handle: its own contract states the dispatch, the 400 case and the first call of each action, through HandleInstance. What each action does afterwards is stated by the contracts of HandleList, HandleStart, HandleStart1h, HandleStop and HandleStatus, which it calls.
- Cloud.Perform: has no contract of its own. Its meaning is stated by the lemmas PerformPrefix, PerformStopped, PerformStep, PerformThen, PerformReplay and PerformCompletes.
