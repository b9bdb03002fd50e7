# jcowork: a verified model of its hard parts

jcowork is a desktop and server agent: chat turns that call a language model and tools, scheduled
tasks, background tasks that outlive a connection, connectors to outside tools, and a WeChat mini program as a client.
This project models the parts of it where a mistake is easy to make and hard to see, and proves what they promise. Where
a promise does not hold of the code as it stands, the code is kept, an input that breaks the promise is given,
and the exact condition under which it holds is proved.

| part of the system | modules |
|---|---|
| cron: calendar search, day-of-week conversion, trigger loop, job store | `Calendar`, `NextFire`, `SearchWindow`, `Dow`, `DowFields`, `CronDays`, `TriggerLoop`, `JobStore` |
| agent turn: stream parser, tool-call accumulation, tool loop, history | `SseStream`, `Chunking`, `ToolCalls`, `Pipeline`, `Response`, `ResponseText`, `Wire`, `History`, `Turn`, `TurnProps`, `TurnEnds` |
| background tasks: event log, replay, life cycle | `TaskLog`, `Session` |
| mini program: WebSocket manager, Markdown blocks, table rows | `Socket`, `SocketRuns`, `SocketRoutes`, `Markdown`, `MarkdownLines`, `MarkdownProps`, `TableCells` |
| connectors: MCP requests, registry sync, tool names, templates | `Mcp`, `Connectors`, `ConnectorProps`, `ToolNames`, `Template` |
| mentions of public accounts | `NameRemoval`, `Mentions` |
| shared | `Options`, `Text`, `Folds` |

Code that changes things step by step is modelled by methods and classes (`NextFire.NextLocalFire`, `SseStream.SseParser`,
`Turn.AgentTurn`, `Session.RunningTask`, `Socket.SocketManager`, `Markdown.ParseMarkdown`, `Mcp.McpClient`,
`Connectors.ConnectorManager`, `Template.RenderTemplate`, `Mentions.ExtractPublicMentions`), each proved equal to a function or
against a direct statement of its result; the theorems are about these functions. Concurrent protocols are
state machines whose steps are what the code does between two points where another task may run;
their theorems hold for every interleaving of those steps. Methods that only take one step of a state machine are tied to
it by their contracts and have no row below; the rows name the theorems about the step.

What came out, where the code or its comments promise more than they keep:

- `emit` broadcasts before it takes the lock that its comment says covers both (`session.rs:61-69`). With the lock
  around both, what a connection delivers is a prefix of the log in every interleaving; as written, a connection lacks
  exactly the events that were between broadcast and append when it attached, and distinct events are logged out of order
  exactly when an append overtakes another.
- The five-year search misses 29 February around century years without one: it gives up wrongly exactly on schedules
  that name that day alone, when none of the years searched has such a fire still to come.
- `remap_dow` copies everything after the first `/`: `*/7,3` is converted wrongly. The exact condition for a right
  conversion is `Dow.TailHarmless`; no comma after the first `/` is enough. The comment that 0 and 7 both
  mean Sunday (`scheduler.rs:785`) is not followed: 0 to 6 become 1 to 7, and 7 is Saturday.
- With exact sleeps the trigger loop fires every due instant unless it starts off the whole second and one of
  them has a scheduled instant one second before it; an every-second schedule then never fires.
- A removed job stays removed exactly when no update, addition or aborted save of it is under way at the moment it is
  taken out of the map.
- An update of a job is said to keep its last run (`scheduler.rs:428-432`). It writes back the one it has fetched: a run
  marked in between is forgotten. The last run is kept exactly when nobody has changed it between fetch and write.
- A Markdown heading or list line ending in CR that opens nothing else makes the block loop turn for ever, exactly when
  it is outside a fence.
- A message from an MCP server that is a request of its own, not a response, answers the client's request with the same
  number, with null. The comment says that only responses are handled. A request gets what its response says exactly when
  no such message comes first, or the response says null.
- The eight-character prefix in a connector tool's name does not by itself make names unique, as its comment has it: two
  tools share a name exactly when prefix and sanitized name agree, and the later one stays.
- A connector tool can be registered and yet be refused when called, if a disabled tool of the same name stands
  before it.
- Removing a mention can put together another: `@a@bbc` with users `bb` and `ac`. The scan keeps the mentions apart
  exactly when the text does not glue (`NameRemoval.Glues`), which can be told from text and names.
- A request to an MCP server that has ended its output is still sent, and can only time out.
- A payload queued while the socket is down goes to whatever conversation is connected next.
- A tool call has its whole name only when arguments were put out with or after the last part of the name.
- A stop that comes before the abort handle is stored marks the task as finished and puts it out of reach: unless another
  stop is already on its way, nothing can cancel it any more.

## Model

| member | source | states |
|---|---|---|
| Calendar.PredIsPreviousDay | crates/jcowork-cron/src/scheduler.rs:56-62 | the day before a date, used for the last day of a month, has the number and the weekday before: the day count never skips or repeats |
| Calendar.MonthsBegin | crates/jcowork-cron/src/scheduler.rs:56-65 | for every year, on which day of it each month begins: 0, 31, 59, 90, ... days after 1 January, one more from March on in leap years |
| Calendar.YearsBegin | crates/jcowork-cron/src/scheduler.rs:56-65 | from one 1 January to the next there are 365 days, or 366 by the Gregorian rule |
| Calendar.DaysOfMonth | crates/jcowork-cron/src/scheduler.rs:66 | which dates exist: the days of each month by name of the month, numbered on from its first |
| Calendar.TimeLine | crates/jcowork-cron/src/scheduler.rs:21-28 | a day is 86400 seconds of the time line; hours, minutes, seconds and nanoseconds count as such, and a zone of that many minutes east is that much ahead of UTC |
| Calendar.Anchors | crates/jcowork-cron/src/scheduler.rs:66-67 | two fixed points tie the day count and its weekdays to the calendar; with the lengths of months and years they determine both |
| Calendar.OrderIsChronological | crates/jcowork-cron/src/scheduler.rs:106-108 | comparing local times field by field agrees with the UTC time line at every offset |
| NextFire.FireInMinute | crates/jcowork-cron/src/scheduler.rs:101-110 | the least upcoming instant within one minute, or none there is |
| NextFire.FireOnDay | crates/jcowork-cron/src/scheduler.rs:83-112 | the least upcoming instant within one matching day, or none there is |
| NextFire.FireInMonth | crates/jcowork-cron/src/scheduler.rs:51-113 | the least upcoming instant within one month, under the rule that day of month and day of week are alternatives when both are restricted |
| NextFire.FireInYear | crates/jcowork-cron/src/scheduler.rs:46-114 | the least upcoming instant within one year |
| NextFire.NextLocalFire | crates/jcowork-cron/src/scheduler.rs:39-118 | the least instant strictly after now that the schedule names, among the five calendar years searched; None exactly when these hold none |
| NextFire.NextFireIsUnique | crates/jcowork-cron/src/scheduler.rs:34-39 | that promise leaves one answer only |
| SearchWindow.FiveYearsAreEnough | crates/jcowork-cron/src/scheduler.rs:44-45 | the search never gives up wrongly, for any schedule, exactly when a 29 February still lies ahead in the years searched |
| SearchWindow.GivesUpWronglyIff | crates/jcowork-cron/src/scheduler.rs:44-118 | for each schedule at each time, the search gives up wrongly exactly when the schedule, by its fields, names 29 February alone and no year searched has one with a fire still to come |
| SearchWindow.EnoughAwayFromSkippedCenturies | crates/jcowork-cron/src/scheduler.rs:44-64 | with no century without leap day among the five years, None means that the schedule names no instant ever |
| SearchWindow.GivesUpBefore2100 | crates/jcowork-cron/src/scheduler.rs:44-45 | from 1 March 2096 the search misses 29 February 2104 |
| Dow.ConvertFields | crates/jcowork-cron/src/scheduler.rs:789-797 | five fields become seven: seconds 0, the day of week remapped, the year open, the others as they were |
| Text.ParseU32Iff | crates/jcowork-cron/src/scheduler.rs:846 | what `parse::<u32>` takes, and for which number |
| Text.UpperIs | crates/jcowork-cron/src/scheduler.rs:852 | names of weekdays are put in capitals, character by character |
| DowFields.NumberIsDay | crates/jcowork-cron/src/scheduler.rs:784-788 | what a day-of-week field means, from its text: a weekday by its number, Sunday being the base |
| DowFields.NameIsDay | crates/jcowork-cron/src/scheduler.rs:851 | a weekday by its first three letters, in capitals or not |
| DowFields.StarMeans | crates/jcowork-cron/src/scheduler.rs:809-819 | a star is the whole week; with a step, every so many days from its first |
| DowFields.RangeMeans | crates/jcowork-cron/src/scheduler.rs:832-842 | a range is its days; with a step, every so many from the first |
| DowFields.DayMeans | crates/jcowork-cron/src/scheduler.rs:844-854 | a day is itself; with a step, every so many days from it to the end of the week |
| DowFields.ListMeans | crates/jcowork-cron/src/scheduler.rs:821-823 | a list is the days of its items together, and malformed when one of them is |
| Dow.RemapMeaning | crates/jcowork-cron/src/scheduler.rs:807-854 | what the converted field denotes: the items up to the first step shifted by one, those after it unshifted |
| Dow.ConversionExactly | crates/jcowork-cron/src/scheduler.rs:807-854 | the conversion preserves the weekdays exactly when the days that the unshifted items gain or lose are among the others |
| Dow.ConversionPreservesDays | crates/jcowork-cron/src/scheduler.rs:807-829 | with a step on the last item at most, for every field of values, names, ranges, lists and stars, the days are those of the original counted from 1 |
| Dow.StepBeforeTheLastItem | crates/jcowork-cron/src/scheduler.rs:807-829 | `*/7,3` meant Sunday and Wednesday and becomes Sunday and Tuesday |
| Dow.SevenIsNotSunday | crates/jcowork-cron/src/scheduler.rs:783-788 | 7 is not taken for Sunday: before translation it is turned into 8, which names no weekday, and after translation it is Saturday |
| CronDays.FiresOnStandardDays | crates/jcowork-cron/src/scheduler.rs:66-78 | the search, given the converted field, passes exactly the days that standard cron names by the original field, whatever the days of the month: weekday and day of month are alternatives when both are restricted |
| TriggerLoop.SearchIsNext | crates/jcowork-cron/src/scheduler.rs:329-332 | the result of the search is the least instant after now on the time line |
| TriggerLoop.InstantsAreWholeSeconds | crates/jcowork-cron/src/scheduler.rs:101-106 | every instant of a schedule is a whole second on the time line |
| TriggerLoop.NeverTwiceNeverEarly | crates/jcowork-cron/src/scheduler.rs:321-341 | in every run, however long the sleeps overshoot, instants fire in order, none twice, none a second or more early |
| TriggerLoop.ExactRunFires | crates/jcowork-cron/src/scheduler.rs:333-339 | with exact sleeps, exactly which instants have fired at any time |
| TriggerLoop.EveryDueInstantFiresOnce | crates/jcowork-cron/src/scheduler.rs:321-341 | every due instant fires exactly once exactly when the loop started on a whole second or no due instant has a scheduled instant one second before it |
| TriggerLoop.EverySecondNeverFires | crates/jcowork-cron/src/scheduler.rs:333-337 | an every-second schedule started off a whole second never fires |
| TriggerLoop.EveryRoundTakesASecond | crates/jcowork-cron/src/scheduler.rs:334-339 | rounds make progress, so every instant comes within reach |
| JobStore.InvHolds | crates/jcowork-cron/src/scheduler.rs:306-382 | in every interleaving of loops, triggers, removals, updates, additions and aborts: saves by a loop or trigger hold the jobs lock with the job present, as the map has it, and ids are not reused |
| JobStore.RemovedStaysRemovedIff | crates/jcowork-cron/src/scheduler.rs:738-755 | at the moment a removal takes its job out of the map: once its delete is done the job stays out of map and store, whatever comes next, exactly when no update, addition or aborted save of it is under way |
| JobStore.SavesWhatTheMapHolds | crates/jcowork-cron/src/scheduler.rs:510-525 | a save by a loop or a manual trigger writes the job as the map has it |
| JobStore.MapStaysWithoutIff | crates/jcowork-cron/src/scheduler.rs:465-489 | the map alone stays without the job exactly when no update or addition has yet to put it there |
| JobStore.WriterLands | crates/jcowork-cron/src/scheduler.rs:378-380 | an update, addition or aborted save under way, at whatever step, brings the job into the store when left alone |
| JobStore.LoopRuns | crates/jcowork-cron/src/scheduler.rs:341-358 | a trigger loop left alone: map and store then hold the job with the new last run and its settings, all else is as before; a save that fails leaves the store |
| JobStore.TriggerRuns | crates/jcowork-cron/src/scheduler.rs:501-525 | the same for a manual trigger, which is done then |
| JobStore.AdditionRuns | crates/jcowork-cron/src/scheduler.rs:404-425 | an addition left alone: map and store hold exactly its job, and its loop runs |
| JobStore.UpdateRuns | crates/jcowork-cron/src/scheduler.rs:433-493 | an update left alone: map and store hold the job with exactly the new settings and the last run it had, and a new loop runs |
| JobStore.RemovalRuns | crates/jcowork-cron/src/scheduler.rs:738-755 | a removal left alone: map and store are without the job, and lack nothing else; a delete that fails leaves the store |
| JobStore.AbortRuns | crates/jcowork-cron/src/scheduler.rs:468-471 | an abort ends a loop and frees the lock; a save that it cuts off may still land |
| JobStore.NothingToDo | crates/jcowork-cron/src/scheduler.rs:342-348 | without the job, loop, manual trigger and update end and change nothing |
| JobStore.UpdateKeepsLastRunIff | crates/jcowork-cron/src/scheduler.rs:428-489 | whatever other tasks do between the fetch and the write of an update: the map gets the new settings with the last run that was fetched, so the last run is kept exactly when nobody has changed it in between |
| JobStore.MarkForgotten | crates/jcowork-cron/src/scheduler.rs:455-489 | a manual run that marks the job while an update is under way loses its mark |
| ToolCalls.ParserStep | crates/jcowork-llm/src/openai.rs:338-371 | one tool-call fragment through the parser: the buffers hold the id, name and arguments of all fragments so far, and the arguments not yet out are put out once id and name are known |
| SseStream.SseParser.OnFragments | crates/jcowork-llm/src/openai.rs:338-371 | all fragments of a choice, in order |
| SseStream.SseParser.OnChoices | crates/jcowork-llm/src/openai.rs:326-387 | all choices of a message: text, reasoning, tool calls, finish |
| Pipeline.LineCarries | crates/jcowork-llm/src/openai.rs:316-401 | a line does to the buffers what the tool-call fragments of its message do, and puts out their deltas |
| ResponseText.LinesSay | crates/jcowork-llm/src/openai.rs:316-401 | a line adds to text and reasoning the contents of the choices of its message, and nothing when it is an end mark, an error or no data |
| Wire.LineMeans | crates/jcowork-llm/src/openai.rs:316-402 | for every text: after `data: `, or `data:` and no blank, it is the end mark, a message whose choices are taken, or an error; a line without the prefix does nothing (section 9.2.6 of the WHATWG HTML standard) |
| Wire.ChoiceMeans | crates/jcowork-llm/src/openai.rs:326-387 | what a choice puts out: content, reasoning, tool-call deltas, then the end with its usage exactly for the finish reasons `stop` and `tool_calls` |
| Wire.IndexIs | crates/jcowork-llm/src/openai.rs:340 | the index of a fragment is its number modulo 2^64, and 0 without one |
| Wire.WrittenIsRead | crates/jcowork-llm/src/openai.rs:307-403 | any events of non-empty lines, written with line feeds or CR LF between and a blank line after them, in any pieces: exactly their lines are taken, in order, and nothing is left over |
| Wire.MessagesArrive | crates/jcowork-llm/src/openai.rs:307-387 | of any messages, in any pieces, the turn gets exactly the contents and the reasoning of all their choices, and the parser the fragments of all their tool calls, in order |
| SseStream.SseParser.OnEvent | crates/jcowork-llm/src/openai.rs:315-402 | one event, line by line |
| SseStream.SseParser.OnData | crates/jcowork-llm/src/openai.rs:309-403 | text from the network: complete events are taken off the buffer, the rest stays |
| Chunking.DrainConcat | crates/jcowork-llm/src/openai.rs:309-313 | what one text leaves in the buffer is all that the next needs, also with a cut inside the separator |
| Chunking.ChunksAreOneText | crates/jcowork-llm/src/openai.rs:307-403 | feeding pieces is feeding the whole |
| Chunking.CutsDoNotMatter | crates/jcowork-llm/src/openai.rs:300-403 | two ways to cut a text give the same chunks and the same parser state |
| Chunking.DrainIsTheTextCut | crates/jcowork-llm/src/openai.rs:311-313 | the events are the text cut at its first blank lines, and joining them gives the text back (section 9.2.6 of the WHATWG HTML standard, blank line as two line feeds) |
| ToolCalls.PipelineState | crates/jcowork-llm/src/openai.rs:338-371 | after any fragments, buffers and accumulator hold, per index, the id, the name and all arguments so far |
| ToolCalls.OneCallPerIndex | crates/jcowork-agent/src/loop.rs:507-547 | one call per index that has id, name and arguments, with all arguments in order, also those that came before the id, under the name last put out; nothing else |
| ToolCalls.WholeNameIff | crates/jcowork-llm/src/openai.rs:343-370 | a call carries the whole name exactly when some arguments were put out with or after the last part of the name, and the name is not blank |
| Pipeline.StreamCallsAreFragmentCalls | crates/jcowork-agent/src/loop.rs:507-520 | the accumulator after a response in any pieces is that of its fragments |
| Pipeline.StreamGivesOneCallPerIndex | crates/jcowork-llm/src/openai.rs:288-371 | the same from the text of the response |
| Response.TurnGetsTheCalls | crates/jcowork-agent/src/loop.rs:507-553 | whatever the pieces and the order of the hash map, the calls of a turn are exactly those of the complete indexes, each once; all have their whole names exactly when the names came in time |
| ResponseText.TurnGetsTheText | crates/jcowork-agent/src/loop.rs:499-506 | whatever the pieces, the text and the reasoning that the turn collects are those of all choices of the response, in order |
| ResponseText.ChoiceAddsItsContent | crates/jcowork-llm/src/openai.rs:327-336 | each choice adds its content to the text and its reasoning content to the reasoning |
| History.WellPairedConcat | crates/jcowork-agent/src/loop.rs:578-587 | well-paired histories can be appended |
| History.WellPairedRound | crates/jcowork-agent/src/loop.rs:578-730 | a request for tools and one result per call keep a history well paired |
| History.WithContextPaired | crates/jcowork-agent/src/loop.rs:399-406 | the context message after the system prompt keeps it well paired |
| Turn.AgentTurn.ReadStream | crates/jcowork-agent/src/loop.rs:477-534 | text, reasoning, calls, usage and events read from a stream up to its end or first error |
| Turn.AgentTurn.DispatchCalls | crates/jcowork-agent/src/loop.rs:632-730 | the calls of a round, in order |
| Turn.AgentTurn.Conclude | crates/jcowork-agent/src/loop.rs:578-632 | the answer appended; done, forced end, or tools run |
| Turn.AgentTurn.Round | crates/jcowork-agent/src/loop.rs:389-620 | a whole round: request, stream, conclusion, on every path |
| Turn.AgentTurn.RunTurn | crates/jcowork-agent/src/loop.rs:382-740 | the bounded loop of rounds |
| TurnProps.CallStepsAre | crates/jcowork-agent/src/loop.rs:632-730 | every call of a round gets one result message in order; those not skipped are run once and reported once |
| TurnProps.Budget | crates/jcowork-agent/src/loop.rs:389-456 | at most `max_turns` requests, tools offered in all but the last, none run in it |
| TurnProps.AlwaysPaired | crates/jcowork-agent/src/loop.rs:399-730 | every history sent and the final one are well paired, on every path: errors, timeouts, empty names and arguments, forced final round |
| TurnProps.TurnEvents | crates/jcowork-agent/src/loop.rs:389-740 | done is signalled exactly once, last, exactly when the turn completed; the text streamed since the last status is the response; each call run is reported once with its result, in order |
| TurnProps.TurnAnswers | crates/jcowork-agent/src/loop.rs:596-620 | a completed turn leaves its response as the last message, which asks for no tools |
| TurnEnds.TurnEndsIn | crates/jcowork-agent/src/loop.rs:389-740 | a turn ends in the first round that does not go on to tools, and that determines everything: rounds used, response, usage, history, events, requests, tools run. It completes exactly when the stream of that round ends well and either lists no calls, or it is the last round and there is text |
| TurnEnds.CompletesIff | crates/jcowork-agent/src/loop.rs:597-620 | over all rounds: a turn completes exactly when the first round that does not go on completes it |
| TurnEnds.ChatSays | crates/jcowork-gateway/src/ws.rs:891-928 | the events of a chat task: those of its turn, and a text with a done event of zero usage exactly when the turn did not complete |
| TurnEnds.RequestHolds | crates/jcowork-agent/src/loop.rs:398-427 | what a request holds: the history, the context message second, and in the last round the hint at the end |
| TurnEnds.ResultSays | crates/jcowork-agent/src/loop.rs:632-721 | the result message of a call, by what the tool did or why it was not run |
| TurnEnds.UsageIs | crates/jcowork-agent/src/loop.rs:516-519 | the usage of a stream is that of its last end mark; without one it stays as it was |
| TurnEnds.FirstErrorIsReported | crates/jcowork-agent/src/loop.rs:485-527 | what comes before the first error of a stream counts, the error is reported, nothing after it counts |
| TurnProps.NoCallTwice | crates/jcowork-agent/src/loop.rs:553-730 | no call id is run twice in one round; the same id may come back in a later round |
| TurnProps.ChatEndsWithDone | crates/jcowork-gateway/src/ws.rs:891-932 | the event log of an unaborted chat task has exactly one done event, and it is last |
| TaskLog.DeliveredIsPrefixOfLog | crates/jcowork-gateway/src/session.rs:61-81 | with the lock across `emit`, in every interleaving, what a connection has delivered is a gap-free, duplicate-free prefix of the log, and all of it when nothing is left to come |
| TaskLog.GivenLogThenBroadcast | crates/jcowork-gateway/src/ws.rs:345-369 | as written, in every run: a connection is given the log as it was when it attached and then the broadcast from there on, without gap or duplicate; lagging only ends it |
| TaskLog.AllAccounted | crates/jcowork-gateway/src/session.rs:64-70 | in every run each event broadcast is in the log or in flight, once |
| TaskLog.DeliversAllIff | crates/jcowork-gateway/src/session.rs:64-81 | in every run, once all is quiet: a connection lacks exactly the events that were in flight when it attached, so it has the events of the log, each once, exactly when none was |
| TaskLog.LogInOrderIff | crates/jcowork-gateway/src/session.rs:64-70 | in every run the log is in the order of the broadcast when no append overtakes that of an earlier event, and with distinct events only then |
| TaskLog.DeliversTheLogIff | crates/jcowork-gateway/src/session.rs:64-81 | in every run with distinct events, once all is quiet: a connection has delivered the log as it is exactly when nothing was in flight when it attached and no later append overtook |
| TaskLog.LostEvent | crates/jcowork-gateway/src/session.rs:64-70 | the losing interleaving: broadcast, attach, append |
| TaskLog.ReorderedEvents | crates/jcowork-gateway/src/session.rs:64-70 | two emitters may leave the log in another order than the broadcast |
| TaskLog.EmitUnderLock | crates/jcowork-gateway/src/session.rs:61-69 | an emit that nobody interrupts, and an attach between emits, observe the lock; the emit adds its event to broadcast and log |
| TaskLog.DetachedIff | crates/jcowork-gateway/src/ws.rs:345-369 | in every run a connection is detached exactly when it has left, or has asked for the next event with more than 4096 waiting for it |
| Session.RunningTask.Emit | crates/jcowork-gateway/src/session.rs:64-69 | uninterrupted, an emit is the broadcast step and then the append step of the protocol |
| Session.RunningTask.Abort | crates/jcowork-gateway/src/session.rs:98-111 | whether the task was running; the handle is used at most once |
| Session.AdoptedOnceAndInTime | crates/jcowork-gateway/src/ws.rs:877-932 | in every interleaving the finished history is adopted at most once, is out before a task that neither panicked nor was stopped is seen as finished, and a task is cancelled only after a stop |
| Session.LifeIs | crates/jcowork-gateway/src/ws.rs:877-932 | in every run: a task counts as running until it is dropped, cancelled, has panicked or a stop has acted; its history is adopted exactly when someone looks for it after it was published, and never from a running task |
| Session.StopBeforeHandle | crates/jcowork-gateway/src/ws.rs:877-934 | a stop that acts before the handle is stored puts a working task out of reach; it may still publish its history |
| Session.AbortAskedIff | crates/jcowork-gateway/src/session.rs:91-111 | in every run the task is asked to abort exactly when some stop acts after the handle is stored |
| Session.CancelledIff | crates/jcowork-gateway/src/session.rs:98-111 | in every run a working task can still be cancelled, by whatever comes, exactly when it is not out of reach: marked finished, never asked to abort, nobody about to stop it |
| Socket.SocketManager.TransmitAll | miniprogram/utils/socket.js:81-85 | the payloads whose send does not throw, in order |
| SocketRuns.ConnectionStates | miniprogram/utils/socket.js:62-181 | in every reachable state: closed by hand means no task and no timer; a timer is pending exactly when the task has closed, and then the manager is neither open nor connecting; open exactly when the platform has the task open; and a manager not closed by hand is open, waits for a timer, or is still owed the open or close of its task |
| SocketRuns.ConnectIs | miniprogram/utils/socket.js:89-103 | `connect` keeps a connection that is open or being made to the same address, and else lets go of the task and makes a new one |
| SocketRuns.ReconnectIs | miniprogram/utils/socket.js:60-75 | the timer and `ensureConnected` connect again with the same parameters |
| SocketRuns.CloseIs | miniprogram/utils/socket.js:166-181 | `close` drops task, timer, parameters and queue; `ensureConnected` then does nothing |
| SocketRuns.CallbacksAre | miniprogram/utils/socket.js:104-138 | open flushes the outbox, an error ends connecting, a close schedules a reconnection |
| SocketRuns.AttemptsAre | miniprogram/utils/socket.js:64-70 | in every run the attempts counted are the expiries of the timer since the last `connect`, `close` or open of the current task |
| SocketRuns.StaleTaskIgnored | miniprogram/utils/socket.js:104-138 | once the manager has let go of a task, no callback of it changes the manager, however late in the run it comes |
| SocketRuns.StepKeeps | miniprogram/utils/socket.js:77-198 | apart from `close` and a send onto a full outbox, every step keeps all payloads in order |
| SocketRuns.PayloadsInOrder | miniprogram/utils/socket.js:77-198 | in every run without throwing sends, what was transmitted followed by the outbox is an in-order subsequence of what was sent |
| SocketRoutes.AlwaysRouted | miniprogram/utils/socket.js:89-163 | in every run address, parameters and task of the manager are those of the last `connect` |
| SocketRoutes.GoesWhereItWasSentIff | miniprogram/utils/socket.js:77-86 | in every run each payload goes out on the address current at its `send` exactly when the last `connect` while it was queued, if any, was to that address |
| SocketRoutes.StopGoesAstray | miniprogram/pages/chat/chat.js:444-458 | a stop sent to one conversation while it is not connected is delivered to the next |
| SocketRuns.ConnectInsideCloseHandler | miniprogram/utils/socket.js:132-138 | after any run, a close handler that connects at once leaves a timer pending on a connecting manager, which no run without such a handler does |
| Markdown.ParseMarkdown | miniprogram/utils/markdown.js:144-259 | the block loop, with the line it would stay at for ever |
| Markdown.ReadBlock | miniprogram/utils/markdown.js:148-255 | one time round the loop, with its inner loops |
| Markdown.NextBlockAdvances | miniprogram/utils/markdown.js:148-255 | a round makes progress exactly unless the line ends a paragraph and opens nothing |
| MarkdownLines.HeadingIff | miniprogram/utils/markdown.js:184-186 | the heading test, level and title, is the shape of its regular expression: blanks, one to six `#`, blanks, title |
| MarkdownLines.ItemIff | miniprogram/utils/markdown.js:224-229 | the same for list items: bullet or up to three digits and a dot |
| MarkdownLines.RuleIff | miniprogram/utils/markdown.js:77-79 | the same for rules |
| MarkdownLines.FenceIff | miniprogram/utils/markdown.js:81-83 | the same for code fences |
| MarkdownLines.BlankIs | miniprogram/utils/markdown.js:148-149 | what `\s` matches and `.` does not, by code point (sections 12.2 and 12.3 of ECMA-262) |
| MarkdownLines.QuoteIff | miniprogram/utils/markdown.js:195-198 | the same for quote lines, with the text after the marker and one blank at most |
| MarkdownLines.FirstTestWins | miniprogram/utils/markdown.js:148-232 | which block a line opens: that of the first test it passes, in the order of the loop |
| MarkdownProps.BlocksTileTheText | miniprogram/utils/markdown.js:148-255 | the blocks are consecutive non-empty intervals of lines; code is verbatim between its fences, paragraphs are verbatim, and these, quotes and tables are as long as possible; each block holds what its lines say |
| MarkdownProps.TerminatesIff | miniprogram/utils/markdown.js:148-255 | the loop ends exactly when every line that ends a paragraph and opens nothing is inside a fence, as a left-to-right scan of the lines alone tells; otherwise it stays at the first such line that is not |
| MarkdownProps.TestsAgree | miniprogram/utils/markdown.js:184-247 | without CR, U+2028 and U+2029 the tests that end a paragraph are those that open a block |
| MarkdownProps.CleanTextIsPartitioned | miniprogram/utils/markdown.js:139-259 | for such texts the loop ends and the blocks partition the lines |
| MarkdownProps.HeadingWithCarriageReturn | miniprogram/utils/markdown.js:184-247 | the loop never gets past a heading that ends in CR |
| TableCells.SplitRow | miniprogram/utils/markdown.js:86-103 | the character loop over a row computes the split at unescaped bars |
| TableCells.WrittenRow | miniprogram/utils/markdown.js:86-103 | how many cells splitting a written row gives |
| TableCells.RoundTripIff | miniprogram/utils/markdown.js:86-103 | splitting gives back the cells that were written exactly when none but the last ends in a backslash |
| TableCells.RowIff | miniprogram/utils/markdown.js:105-112 | a line is a table row exactly when, blanks aside, it starts or ends with a bar and has another bar inside |
| TableCells.RowIsRead | miniprogram/utils/markdown.js:105-112 | a row of two or more cells written with a bar before or after it, or both, is read back as its cells, trimmed |
| TableCells.DashesIff | miniprogram/utils/markdown.js:115-117 | the cells of a separator: two or more dashes, with a colon on either side or not |
| TableCells.HeaderIff | miniprogram/utils/markdown.js:119-127 | the first row is the header exactly when the second is a separator; then no separator is shown, else every row is |
| TableCells.SeparatorsGo | miniprogram/utils/markdown.js:126 | dropping separators drops these rows and no others, and keeps the order |
| TableCells.NoRowIsLost | miniprogram/utils/markdown.js:119-134 | a table of some rows is always shown, with every row that is not a separator, in order |
| Mcp.McpClient.Begin | crates/jcowork-connectors/src/mcp_client.rs:224-239 | a request takes its number, registers its channel and queues its line |
| Mcp.McpClient.OnLine | crates/jcowork-connectors/src/mcp_client.rs:94-120 | one line in the reader resolves at most the request it names |
| Mcp.McpClient.OnClose | crates/jcowork-connectors/src/mcp_client.rs:121-126 | at the end of the output every pending request fails |
| Mcp.McpClient.TimeOut | crates/jcowork-connectors/src/mcp_client.rs:239-244 | a deadline takes the pending entry away |
| Mcp.InvAlways | crates/jcowork-connectors/src/mcp_client.rs:90-126 | the invariant of requests, pending map and channels, in every interleaving |
| Mcp.OutcomesAreSound | crates/jcowork-connectors/src/mcp_client.rs:94-126 | an answer carries the request's own id and is what the first line naming it says since it was registered: its error, or else its result, or else null (id matching of section 5 of JSON-RPC 2.0); a closed connection is reported only when the output ended without one; the channel is never found abandoned; nothing is left pending unless the writer was closed |
| Mcp.OneOutcome | crates/jcowork-connectors/src/mcp_client.rs:240-247 | the outcome of a request never changes |
| Mcp.Exchange | crates/jcowork-connectors/src/mcp_client.rs:224-247 | a request left alone with the reader: it is registered and sent, the line that names it is its answer, and every other request is as before |
| Mcp.FirstExchange | crates/jcowork-connectors/src/mcp_client.rs:224-247 | a fresh connection numbers its requests from 1 and answers them |
| Mcp.WaitingEnds | crates/jcowork-connectors/src/mcp_client.rs:239-247 | a deadline takes the entry away; a caller that goes away leaves it |
| Mcp.IgnoredLine | crates/jcowork-connectors/src/mcp_client.rs:94-120 | a line that names no pending request does nothing |
| Mcp.CanBeToldIff | crates/jcowork-connectors/src/mcp_client.rs:118-126 | in every reachable state a waiting request can still be answered, or told that the connection closed, exactly when the reader is there or has its outcome in hand or sent |
| Mcp.AskedTooLate | crates/jcowork-connectors/src/mcp_client.rs:224-247 | a request that comes after the end of the output is sent and waits for nobody, until it times out |
| Mcp.AnyOrderDeliversAll | crates/jcowork-connectors/src/mcp_client.rs:121-126 | the order in which the map is drained does not matter |
| Mcp.LeftoverIff | crates/jcowork-connectors/src/mcp_client.rs:233-239 | in every run the entry of a request that returned because the writer was closed is still there exactly when no line has named it since and the output has not ended since it was registered |
| Mcp.ClosedWriterLeavesAnEntry | crates/jcowork-connectors/src/mcp_client.rs:235-239 | the run that leaves such an entry |
| Mcp.GetsItsResponseIff | crates/jcowork-connectors/src/mcp_client.rs:104-120 | in every run an answered request gets the content of the server's first response to it exactly when the first line that names it since its registration is a response, or the response says null |
| Mcp.ServerRequestAnswers | crates/jcowork-connectors/src/mcp_client.rs:104-120 | such a request answers a pending one with null |
| Connectors.ConnectorManager.DiscoverTools | crates/jcowork-connectors/src/manager.rs:365-394 | connect unless connected, list unless cached |
| ConnectorProps.DiscoveryLeaves | crates/jcowork-connectors/src/manager.rs:365-394 | what asking for tools leaves behind: the connection when the server answers, the tools when it lists them, and nothing else |
| Connectors.ConnectorManager.Desire | crates/jcowork-connectors/src/manager.rs:88-139 | the wanted tools collected over all enabled connectors |
| Connectors.ConnectorManager.DropStale | crates/jcowork-connectors/src/manager.rs:141-151 | stale names leave registry and index |
| Connectors.ConnectorManager.RegisterAll | crates/jcowork-connectors/src/manager.rs:153-222 | every wanted tool is registered, described and indexed |
| Connectors.ConnectorManager.SyncRegistry | crates/jcowork-connectors/src/manager.rs:81-229 | the whole new state of registry, index and caches; unchanged without registry or without store answer |
| ConnectorProps.SyncReconciles | crates/jcowork-connectors/src/manager.rs:76-229 | after a sync the index holds exactly the global names of the enabled tools of the enabled reachable connectors, where a tool of an MCP server is enabled unless the stored state turns it off; the registry these and what it had beside the index |
| ConnectorProps.LaterStays | crates/jcowork-connectors/src/manager.rs:88-139 | of two wanted tools with one name the later stays |
| ConnectorProps.InStepIff | crates/jcowork-connectors/src/manager.rs:141-222 | registry and index agree after a sync exactly when every name that only the registry had is now wanted |
| ConnectorProps.EverySyncReconciles | crates/jcowork-connectors/src/manager.rs:81-229 | after any history of edits, syncs, invalidations and uses that ends in a successful sync, both hold exactly the active names |
| ConnectorProps.SecondSyncChangesNothing | crates/jcowork-connectors/src/manager.rs:81-229 | an immediate second sync changes nothing |
| ConnectorProps.RegisteredAsOffered | crates/jcowork-connectors/src/manager.rs:154-221 | every tool a sync registers carries the description and parameters of the first tool of that name that its connector has, and belongs to the connector's owner |
| ConnectorProps.UndescribedIs | crates/jcowork-connectors/src/manager.rs:154-208 | a tool of which nothing is found has no description and takes any object |
| ConnectorProps.WellNamedAlways | crates/jcowork-connectors/src/manager.rs:96-131 | in every history each index entry stands under the global name of its tool |
| ConnectorProps.CallsAreAllowed | crates/jcowork-connectors/src/manager.rs:231-281 | however old the index, a call reaches only an enabled connector of the caller's own as the store now has it: its first API tool of that name, if enabled, or an MCP tool that is not turned off, under that tool's global name |
| ConnectorProps.CallableIff | crates/jcowork-connectors/src/manager.rs:236-270 | for any index and store: a call gets through exactly when the name is indexed for the caller and the connector is the caller's, enabled, and has the tool enabled, or, for an MCP tool, not turned off |
| ConnectorProps.RegisteredRunsIff | crates/jcowork-connectors/src/manager.rs:254-270 | straight after a sync a registered tool can be called by its owner exactly when it is an MCP tool or the first tool of its name is enabled |
| ConnectorProps.RegisteredButRefused | crates/jcowork-connectors/src/manager.rs:256-263 | a registered tool that is refused |
| ToolNames.SanitizedIsLegal | crates/jcowork-connectors/src/models.rs:134-146 | sanitizing gives a legal function name, and leaves exactly the legal names alone |
| ToolNames.SanitizedChars | crates/jcowork-connectors/src/models.rs:134-140 | character by character: ASCII letters and digits, `_` and `-` stay, any other becomes `_` |
| ToolNames.GlobalNameIs | crates/jcowork-connectors/src/models.rs:148-155 | `connector_`, eight characters of the id or all it has, an underscore, the sanitized name, and `tool` for an empty one |
| ToolNames.GlobalNameExample | crates/jcowork-connectors/src/models.rs:148-155 | `get_weather` of connector `01234567-...` is `connector_01234567_get_weather` |
| ToolNames.Utf8Is | crates/jcowork-connectors/src/models.rs:163 | the length in bytes that the prefix is measured by (section 3 of RFC 3629) |
| ToolNames.ParseIff | crates/jcowork-connectors/src/models.rs:157-167 | any name parses exactly when it is put together like a global name from a prefix of eight bytes |
| ToolNames.ParseBack | crates/jcowork-connectors/src/models.rs:148-167 | a global name parses back to id prefix and sanitized name exactly when the prefix has no underscore and eight bytes |
| ToolNames.CollideIff | crates/jcowork-connectors/src/models.rs:148-155 | for ids of eight characters or more, two tools share a name exactly when prefix and sanitized name agree |
| Template.RenderTemplate | crates/jcowork-connectors/src/api_executor.rs:47-71 | the loop computes the literal pieces interleaved with the values, never rescanned, or names the first missing one |
| Template.TemplatePlaceholders | crates/jcowork-connectors/src/api_executor.rs:74-88 | the names of the holes, in order |
| Template.PiecesAreTheTemplate | crates/jcowork-connectors/src/api_executor.rs:47-71 | the pieces put together are the template |
| Template.PiecesAreWellCut | crates/jcowork-connectors/src/api_executor.rs:50-71 | a hole opens at the first `{{` and closes at the first `}}` after it |
| Template.WellCutPiecesAreFound | crates/jcowork-connectors/src/api_executor.rs:50-71 | and pieces cut like that are found again, whatever they are |
| Template.RendersIff | crates/jcowork-connectors/src/api_executor.rs:43-71 | rendering succeeds exactly when every placeholder has a value; else it names the first without |
| Template.ValidateApiTool | crates/jcowork-connectors/src/api_executor.rs:164-191 | valid exactly when the name is not blank, the URL starts with `http://` or `https://` and every placeholder is declared; otherwise the first of these that fails is reported |
| Template.ValidToolRenders | crates/jcowork-connectors/src/api_executor.rs:160-191 | a valid tool renders URL and body for any arguments that cover what it declares |
| Mentions.ByLengthSorts | crates/jcowork-agent/src/loop.rs:1078-1079 | the stable sort by falling length |
| Mentions.OfLengthKeeps | crates/jcowork-agent/src/loop.rs:1078-1079 | the users of one length, in terms of which the sort is stable: these and no others, in their order |
| NameRemoval.ContainsIsStart | crates/jcowork-agent/src/loop.rs:1084-1085 | a text contains `@name` exactly when the name starts what follows one of its `@` |
| NameRemoval.RemovalOnRuns | crates/jcowork-agent/src/loop.rs:1086-1088 | removing a name from a text, run of non-blank text by run: what it takes goes, and what it leaves over is stuck to the segment before |
| NameRemoval.KeepsSegmentsIff | crates/jcowork-agent/src/loop.rs:1081-1093 | for every text and list of plain names, the scan keeps after each name exactly the segments that no name so far starts, exactly when the text does not glue: no name leaves part of a segment over while an earlier segment of the same run is still there |
| NameRemoval.SpacedNeverGlues | crates/jcowork-agent/src/loop.rs:1066-1073 | a text in which every `@` starts the text or follows whitespace glues nothing, whatever the names |
| Text.SpaceIs | crates/jcowork-agent/src/loop.rs:634-655 | what `trim` and the other string operations take for whitespace, by code point |
| Mentions.ExtractPublicMentions | crates/jcowork-agent/src/loop.rs:1074-1095 | the loop over the users, longest name first |
| Mentions.FoundIffMentioned | crates/jcowork-agent/src/loop.rs:1082-1092 | in a text that does not glue, a user is found exactly when its name is the longest public one at some `@` |
| Mentions.MentionsAreLongest | crates/jcowork-agent/src/loop.rs:1066-1095 | in a text that does not glue, the users listed are exactly those, each id once |
| Mentions.AddressGluesNothing | crates/jcowork-agent/src/loop.rs:1083-1088 | an `@` inside a word does no harm by itself |
| Mentions.GluedMention | crates/jcowork-agent/src/loop.rs:1083-1088 | a text that glues lists a user whom no `@` names |

## Left out

- Calendar: years are unbounded integers; `chrono` ends near the year 262000, where the search would return None.
- NextFire: the year field of a schedule, which the search never reads; the statements are about the other six fields.
- Dow: the schedule parser of the `cron` crate is not part of this model; what a day-of-week field denotes is `Dow.FieldDays`, for stars, values, names, ranges, lists and steps. Upper-casing is ASCII only, and a value of 2^32 - 1 would overflow.
- TriggerLoop: one job at a time, as successive states of clock and firings; the clock never goes back.
- JobStore: methods of the scheduler are cut into their atomic steps and appear as successive states of the maps, not as methods of an object; an abort may drop a loop at any await, and leaves a store write in progress that lands at any later time or never; other store operations are atomic and may fail.
- JobStore.RemovedStaysRemovedIff: claims nothing for a removal whose delete failed, which the source reports as done all the same.
- Reminders, task results and the job listing of the scheduler.
- SseStream: bytes are decoded to text before they reach the model, so a network chunk may not end inside a character, where lossy decoding would put replacement characters; lengths are counted in characters; JSON decoding is a parameter.
- ToolCalls.OneCallPerIndex: no claim about a call without arguments, which the parser never puts out.
- Turn: the usage reported is that of the last end mark, and the mark `[DONE]` overwrites it with zeros; status lines, the forced-final hint and the fallback text are shortened; log entries, images and time measurements are left out; timeouts are outcomes of the model and the tools.
- Turn: a hash map's order is a parameter, one for each round, that only has to yield every entry once (`Turn.YieldsEntries`).
- TaskLog: events are opaque text, and a poisoned lock does not occur.
- Session: one task at a time, whose own steps are only to publish, to panic, to be cancelled and to end; `SessionManager` with its map of tasks and stale clean-up is left out, and so is the rest of the connection handler (documents, images, history restore).
- Socket: the connection parameters are taken as the URL they build; back-off delays and received messages are left out.
- SocketRuns: handlers do not call the manager back while a callback runs (`ConnectInsideCloseHandler` shows what would happen).
- Markdown: inline styling, list markers and indentation, sizes, image replacement and the length limit; a loop that would not end is given as the line it stays at.
- Mcp: numbers do not wrap at 2^64; a line's JSON decoding, the HTTP transport, notifications and the protocol handshake are left out. The steps may also run while the reader holds the map's lock, which allows more interleavings than the code has.
- Mcp.OutcomesAreSound: does not say that the line was a response, because a request of the server's own passes for one (`GetsItsResponseIff`, `ServerRequestAnswers`).
- Connectors: the tool configuration is taken as decoded; a sync is not interleaved with an invalidation or another use of the caches; the call itself is left out after its checks.
- ToolNames: names can collide, so no injectivity is claimed beyond `CollideIff`.
- Template: JSON arguments are taken as a map of texts; the HTTP request and the truncation of the response are left out.
- Mentions.MentionsAreLongest: for distinct non-empty names without `@` and whitespace; in a text that glues, the users listed may be right or wrong (`GluedMention`).
- Run traces of scheduled tasks, log file rotation, skill import from GitHub, and the memory tables with their full-text index: parts of their own beside the protocols and parsers above.
- HTTP, TLS, SQL, child processes, authentication, mail, the desktop and web user interfaces.
