# Auto video producer: upload scheduling, video building and script extraction

This project models the decision logic of three cooperating Java programs and
proves properties of that model in Dafny:

- **uploadManager** keeps a pending folder of rendered `.mp4` files for each
  YouTube channel. `ChannelScheduler` plans one batch at a time. The batch
  starts at the first slot the channel's `upload_history.txt` allows (the last
  upload plus 5 hours, or now), and later items follow at 5-hour steps. The
  process-wide claim set `scheduledVideos` ensures that no video is submitted
  twice. Each upload succeeds (the file is archived, the history gains a line
  and the channel's next-upload time moves on), hits the daily quota (the rest
  of the batch is re-planned a day later) or fails. `Main` runs a 15-minute
  tick per channel. The tick refills the channel through the video builder
  when fewer than five videos are pending, then plans. The tick also checks a
  running flag, but it never finds the flag set (see "Left out"). A separate
  one-minute status tick counts down and reports the next upload of every
  channel.
- **videoBuilder** `Main` reads a channel name (or "all") and a repeat count.
  For each selected channel it builds a prompt from the channel's base prompt
  and its upload history, and asks for that many videos. `Renderer` names the
  rendered file after the first caption, sanitised for the file system.
- **AIscraper** sends the prompt to a language model and extracts a
  `SearchResult` (title and text) from the reply. The reply is the first
  "output_text" item of the first "message" output item. Error fallbacks cover
  malformed replies and failed requests.

Everything is pure. The scheduler state is an immutable `Scheduler.State`:

- each channel's folder: the pending listing, the archive and the history
  lines;
- the claim set;
- the next-upload map;
- a multiset of submitted uploads.

Every operation is a function from one state to the next. The executor
becomes a nondeterministic choice of which submitted upload `Fire` runs next.
`Fire` runs `uploadAndArchive` as the program has it
(`Scheduler.UploadAndArchiveAsWritten`). `Scheduler.UploadAndArchiveIntended`
is the corrected variant that "Findings" describes. Nothing else in the model
uses it.
Time is an integer number of milliseconds. The clock, the uploader's reply,
the file-system failures and the directory listings are parameters of each
step: `Attempt` for an upload, `Probe` for a tick, and `listFails` and
`historyFails` flags elsewhere. The JSON documents are abstract trees
(`Json.Json`).

Modules:

- `Wrappers`: Option, Result, Max, Min.
- `Text`: the Java string operations used.
- `Order`: the natural order of names, and sorting.
- `Pending`: the pending queue.
- `Ledger`: the history file and the first slot.
- `Scheduler`: planning, uploads and the re-plan.
- `SchedulerProps`: properties across steps, the state invariant and the quota
  finding.
- `Coordinator`: uploadManager `Main`.
- `Renderer`: the output filename.
- `Builder`: videoBuilder `Main`.
- `Json`: the org.json accessors.
- `Scraper`: AIscraper and SearchResult.
- `Pipeline`: how the programs meet. The pre-fill job, rendered file names
  and upload titles.

## Model

| member | source | states |
|---|---|---|
| Pending.Mp4s | uploadManager/src/main/java/vid/manager/ChannelScheduler.java:55-56 | exactly the ".mp4" names of the listing survive the filter, each as often as it is listed |
| Pending.Queue | uploadManager/src/main/java/vid/manager/ChannelScheduler.java:55-60 | the pending queue is sorted and holds exactly the ".mp4" files of the listing, with their multiplicities |
| Pending.QueueIgnoresListingOrder | uploadManager/src/main/java/vid/manager/ChannelScheduler.java:55-60 | two listings of the same files give the same queue, whatever order the file system returns them in |
| Order.Sort | uploadManager/src/main/java/vid/manager/ChannelScheduler.java:59 | sorting yields a permutation of its input in natural order |
| Order.SortedUnique | uploadManager/src/main/java/vid/manager/ChannelScheduler.java:59 | a multiset has only one sorted arrangement, so the sorted queue is fully determined by its contents |
| Order.LeTotal | uploadManager/src/main/java/vid/manager/ChannelScheduler.java:59 | any two names are comparable in the natural order |
| Order.LeTransitive | uploadManager/src/main/java/vid/manager/ChannelScheduler.java:59 | the natural order is transitive |
| Order.LeAntisymmetric | uploadManager/src/main/java/vid/manager/ChannelScheduler.java:59 | two names that each precede the other are equal |
| Ledger.FirstSlot | uploadManager/src/main/java/vid/manager/ChannelScheduler.java:70-76 | an absent or empty history gives now; otherwise the result is never before now, is the last upload plus 5 hours when that is later, and fails exactly when the last line's instant is unreadable |
| Ledger.FirstSlotAfterRecord | uploadManager/src/main/java/vid/manager/ChannelScheduler.java:70-76 | after the record of an upload at slot is appended, the next batch starts at the later of slot plus 5 hours and now |
| Text.BeforeFirstComma | uploadManager/src/main/java/vid/manager/ChannelScheduler.java:117 | the field is a prefix of the line without a comma, ended by the line's first comma if there is one |
| Text.DecimalRoundTrip | uploadManager/src/main/java/vid/manager/ChannelScheduler.java:117-118 | an instant written into a history line is read back unchanged, and its text contains no comma that would split it |
| Scheduler.Due | uploadManager/src/main/java/vid/manager/ChannelScheduler.java:96-97 | an upload runs at its slot, or at once when the slot has already passed, never before submission |
| Scheduler.PlanFromClaims | uploadManager/src/main/java/vid/manager/ChannelScheduler.java:87-106 | the planning loop claims every queued video, touches no folder, and sets the next-upload time to the first slot only when the head of the queue was newly claimed |
| Scheduler.PlanFromTasks | uploadManager/src/main/java/vid/manager/ChannelScheduler.java:87-101 | the planning loop submits exactly one upload per index whose video was unclaimed and not seen earlier in the queue, and nothing for claimed videos |
| Scheduler.ScheduleAll | uploadManager/src/main/java/vid/manager/ChannelScheduler.java:54-112 | an empty queue, and a next-upload time after now, leave the state unchanged; a listing or history failure changes nothing; a plan only adds claims and uploads, never touches folders or other channels' times |
| Scheduler.ScheduleAllPlans | uploadManager/src/main/java/vid/manager/ChannelScheduler.java:78-111 | when the batch is not skipped, the new state is the old one plus the claims of the whole queue, the uploads planned for freshly claimed indices, and the first slot as next-upload time if the head was free |
| SchedulerProps.PlannedSpacing | uploadManager/src/main/java/vid/manager/ChannelScheduler.java:96 | every planned upload sits a whole number of 5-hour spacings after the first slot and is due at the later of its slot and now |
| SchedulerProps.PlannedPairSpacing | uploadManager/src/main/java/vid/manager/ChannelScheduler.java:96 | any two uploads of one plan are a whole number of 5-hour spacings apart |
| SchedulerProps.PlannedOncePerFreshVideo | uploadManager/src/main/java/vid/manager/ChannelScheduler.java:87-101 | an unclaimed video gets exactly one upload, at the slot of its first position in the queue |
| SchedulerProps.PlannedSkipsClaimed | uploadManager/src/main/java/vid/manager/ChannelScheduler.java:90-94 | no upload is planned for a video already claimed |
| SchedulerProps.SecondPassSkipsFirstPassClaims | uploadManager/src/main/java/vid/manager/ChannelScheduler.java:90-94 | a second plan over the same queue submits nothing: the first pass claimed everything |
| SchedulerProps.PlannedNamesQueued | uploadManager/src/main/java/vid/manager/ChannelScheduler.java:87-100 | a planned upload is for the planning channel and a file of its queue |
| SchedulerProps.ScheduleAllKeepsValid | uploadManager/src/main/java/vid/manager/ChannelScheduler.java:54-112 | planning keeps the invariant that every submitted upload names a configured channel and a ".mp4" file |
| Scheduler.Title | uploadManager/src/main/java/vid/manager/ChannelScheduler.java:122-123 | the title is the file name without its extension, with every '_' turned to a space and every other character kept |
| Pending.RemoveFile | uploadManager/src/main/java/vid/manager/ChannelScheduler.java:139-148 | moving a file out of pending removes that name and keeps every other file with its multiplicity |
| Scheduler.Publish | uploadManager/src/main/java/vid/manager/ChannelScheduler.java:138-167 | after a successful upload: with a move within five tries the file leaves pending for the archive; the history gains exactly the record line when the append works; the next-upload time becomes slot plus 5 hours if ".mp4" files remain and is removed otherwise; failures stop the steps after them; claims, uploads and other channels are untouched |
| Pending.IndexOf | uploadManager/src/main/java/vid/manager/ChannelScheduler.java:198-199 | the index found is the first position of the name, and none is found exactly when the name is not queued |
| Scheduler.Replan | uploadManager/src/main/java/vid/manager/ChannelScheduler.java:189-224 | a listing failure or a video no longer queued changes nothing; otherwise the video is claimed again, rescheduled one day from now, and its channel's next-upload time is that instant; folders are never touched and nothing is withdrawn |
| Scheduler.ReplanFromSpec | uploadManager/src/main/java/vid/manager/ChannelScheduler.java:202-216 | from the failed index on, every video is claimed and gets exactly its upload at one day plus its distance in 5-hour spacings, and only the first sets the next-upload time |
| SchedulerProps.ReplanTailOnly | uploadManager/src/main/java/vid/manager/ChannelScheduler.java:202-205 | every re-planned upload is for a video at or after the failed one, in the future, a day plus a whole number of spacings from now |
| SchedulerProps.ReplanTaskShape | uploadManager/src/main/java/vid/manager/ChannelScheduler.java:202-205 | a re-planned upload is due at its own slot, one day plus its distance in spacings from now |
| SchedulerProps.ReplanCoversTail | uploadManager/src/main/java/vid/manager/ChannelScheduler.java:202-210 | each video from the failed one on is claimed and rescheduled at one day plus its distance in spacings |
| SchedulerProps.ReplanFromCovers | uploadManager/src/main/java/vid/manager/ChannelScheduler.java:202-210 | the re-plan loop holds the upload and the claim of every index of the tail |
| SchedulerProps.ReplanDoubleSchedules | uploadManager/src/main/java/vid/manager/ChannelScheduler.java:207-210 | because the re-plan claims without checking, a tail video whose earlier upload still waits ends up with two uploads |
| SchedulerProps.ReplanFromKeeps | uploadManager/src/main/java/vid/manager/ChannelScheduler.java:207 | the re-plan never withdraws an upload already submitted |
| SchedulerProps.ReplannedNamesQueued | uploadManager/src/main/java/vid/manager/ChannelScheduler.java:202-208 | a re-planned upload is for the failed channel and a file of its queue |
| SchedulerProps.ReplanKeepsValid | uploadManager/src/main/java/vid/manager/ChannelScheduler.java:189-224 | the re-plan keeps the invariant on submitted uploads |
| Scheduler.UploadAndArchiveAsWritten | uploadManager/src/main/java/vid/manager/ChannelScheduler.java:121-187 | the video is unclaimed after every outcome, the quota one included; a success, a refusal or a failed move leaves the uploads alone; a refusal or a failed move changes nothing but the claim; a successful move takes the file from pending to the archive; the history gains exactly one record precisely for a recorded upload, and then the next-upload time is the slot plus 5 hours exactly when ".mp4" files remain; a quota failure touches no folder or history, submits and times the uploads of the re-plan, and with the video still queued sets the next-upload time to a day from now and submits its upload for then; other channels are untouched |
| SchedulerProps.QuotaAsWrittenLosesClaim | uploadManager/src/main/java/vid/manager/ChannelScheduler.java:173-186 | as written, a quota failure on a still-pending video leaves its rescheduled upload submitted while the video is unclaimed |
| SchedulerProps.QuotaAsWrittenExample | uploadManager/src/main/java/vid/manager/ChannelScheduler.java:173-186 | one pending "a.mp4" and a quota reply give an empty claim set beside the upload rescheduled a day later |
| SchedulerProps.QuotaAsWrittenAfter | uploadManager/src/main/java/vid/manager/ChannelScheduler.java:173-214 | the state that example leaves: only the rescheduled upload submitted, nothing claimed, the next-upload time a day on |
| SchedulerProps.QuotaAsWrittenSubmitsTwice | uploadManager/src/main/java/vid/manager/ChannelScheduler.java:78-111 | the tick one day after that quota reply finds the video unclaimed and its next-upload time no longer in the future, and submits it a second time |
| SchedulerProps.FreshChannelPlan | uploadManager/src/main/java/vid/manager/ChannelScheduler.java:54-112 | a channel with no history and three distinct queued videos gets them claimed and submitted 5 hours apart from now, with now as its next-upload time |
| SchedulerProps.FreshChannelScenario | uploadManager/src/main/java/vid/manager/ChannelScheduler.java:54-112 | "a.mp4", "b.mp4" and "c.mp4" pending on an empty ledger are submitted at now, now plus 5 hours and now plus 10 hours |
| SchedulerProps.RecordedUploadSpacesNextBatch | uploadManager/src/main/java/vid/manager/ChannelScheduler.java:150-167 | after a recorded upload at slot, the channel's next batch can start no earlier than slot plus 5 hours |
| Scheduler.Fire | uploadManager/src/main/java/vid/manager/ChannelScheduler.java:100-101 | running a submitted upload consumes it from the bag (a quota re-plan may resubmit it), always leaves its video unclaimed, and appends exactly its record when recorded |
| SchedulerProps.FireKeepsValid | uploadManager/src/main/java/vid/manager/ChannelScheduler.java:121-187 | running any submitted upload keeps the invariant on submitted uploads |
| Scheduler.UploadNow | uploadManager/src/main/java/vid/manager/ChannelScheduler.java:234-236 | one immediate upload leaves the video unclaimed, appends the record stamped with its own start instant exactly when recorded, and leaves other channels alone |
| Scheduler.UploadEachHistory | uploadManager/src/main/java/vid/manager/ChannelScheduler.java:226-237 | uploading the whole queue at once appends one record per recorded upload, in queue order |
| Scheduler.UploadEachOthers | uploadManager/src/main/java/vid/manager/ChannelScheduler.java:226-237 | uploading one channel's queue at once leaves every other channel's folder unchanged |
| Coordinator.PrefillJob | uploadManager/src/main/java/vid/manager/Main.java:94 | the refill job names the channel as first of its two arguments |
| Coordinator.TickBody | uploadManager/src/main/java/vid/manager/Main.java:81-112 | a failed count changes nothing; otherwise a refill job is queued exactly when fewer than five videos are pending, then the plan's state is taken, an I/O failure keeps the old state, and an unreadable history instant kills the channel's periodic task |
| Coordinator.Tick | uploadManager/src/main/java/vid/manager/Main.java:76-113 | a channel already running or dead skips the tick with no effect; otherwise the tick ends with the flag cleared and the countdown reset to 15 minutes, and never revives a dead channel |
| Coordinator.TickPlansOrKeeps | uploadManager/src/main/java/vid/manager/Main.java:103-108 | a tick changes scheduler state only by adopting the result of a successful plan |
| Coordinator.TickStops | uploadManager/src/main/java/vid/manager/Main.java:105-112 | a channel's periodic task dies exactly when the count succeeds and planning meets an unreadable history instant; I/O failures are survived |
| Coordinator.StoppedStaysStopped | uploadManager/src/main/java/vid/manager/Main.java:76-113 | a dead channel's tick does nothing and no other channel's tick revives it |
| Coordinator.TickRefills | uploadManager/src/main/java/vid/manager/Main.java:84-101 | a tick asks for exactly one job of three videos of its own channel when the count succeeds with fewer than five pending videos, and for none otherwise |
| Coordinator.TickKeepsValid | uploadManager/src/main/java/vid/manager/Main.java:76-113 | every tick keeps the invariant on submitted uploads |
| Coordinator.CountDown | uploadManager/src/main/java/vid/manager/Main.java:117-123 | a positive countdown shows its whole minutes and drops by 60 seconds; otherwise nothing is shown and it rests at zero |
| Coordinator.CountDownFromReset | uploadManager/src/main/java/vid/manager/Main.java:111-123 | after a reset, successive status ticks show 15, 14, ... 1 minutes |
| Coordinator.CountDownRests | uploadManager/src/main/java/vid/manager/Main.java:117-123 | after fifteen status ticks without a channel tick the countdown stays at zero and shows nothing |
| Coordinator.Minutes | uploadManager/src/main/java/vid/manager/Main.java:142 | the minutes shown are the whole minutes until the instant, truncated, and zero when it is not in the future |
| Coordinator.FirstClaimed | uploadManager/src/main/java/vid/manager/Main.java:134-137 | the reported video is the first of the sorted queue that is claimed, and none is reported exactly when no queued video is claimed |
| Coordinator.ChannelLine | uploadManager/src/main/java/vid/manager/Main.java:128-164 | a failed listing gives an error line for the channel, and every line names its own channel |
| Coordinator.ChannelLineMeaning | uploadManager/src/main/java/vid/manager/Main.java:134-160 | a named video is the first claimed video of the sorted queue, shown with the channel's next-upload time (now when none is recorded); an unassigned line means a recorded time and no claimed video; silence means neither |
| Coordinator.Status | uploadManager/src/main/java/vid/manager/Main.java:117-166 | the status tick changes only the countdown, never claims, times, uploads or folders, and prints the report of the listed channels |
| Coordinator.Report | uploadManager/src/main/java/vid/manager/Main.java:124-165 | every line is the one its channel gives and names a listed channel, every channel with a line contributes it, there are at most as many lines as channels, and channels listed once give at most one line each |
| Coordinator.PlanClaimsHead | uploadManager/src/main/java/vid/manager/ChannelScheduler.java:87-106 | a channel's first plan claims the head of its queue and records the first slot as its next-upload time |
| Coordinator.ChannelLineHead | uploadManager/src/main/java/vid/manager/Main.java:134-150 | with the head of the queue claimed, the status names that video with the minutes until the recorded time |
| Renderer.RemoveForbidden | videoBuilder/src/main/java/vid/builder/Renderer.java:61 | the deletion leaves none of `\ / : * ? " < > \| $` and never lengthens the text |
| Renderer.RemoveForbiddenConcat | videoBuilder/src/main/java/vid/builder/Renderer.java:61 | deleting characters works piece by piece over a concatenation |
| Renderer.RemoveForbiddenKeeps | videoBuilder/src/main/java/vid/builder/Renderer.java:61 | text without forbidden characters is unchanged, and the deletion introduces no control character |
| Text.Trim | videoBuilder/src/main/java/vid/builder/Renderer.java:62 | trimming yields a slice of the text that neither starts nor ends with a character at or below the space |
| Text.TrimCutsOnlyTrimmable | videoBuilder/src/main/java/vid/builder/Renderer.java:62 | everything trimming removes is a character at or below the space |
| Renderer.TrimKeepsClass | videoBuilder/src/main/java/vid/builder/Renderer.java:62 | trimming keeps text free of forbidden and control characters |
| Renderer.Collapse | videoBuilder/src/main/java/vid/builder/Renderer.java:63 | collapsing whitespace leaves no `\s` character and never lengthens the text |
| Renderer.CollapseSpace | videoBuilder/src/main/java/vid/builder/Renderer.java:63 | the whitespace collapse leaves no `\s` character and never lengthens the text |
| Renderer.CollapseKeeps | videoBuilder/src/main/java/vid/builder/Renderer.java:63 | text without `\s` is unchanged, and the collapse adds no forbidden or trimmable character |
| Renderer.CollapseRun | videoBuilder/src/main/java/vid/builder/Renderer.java:63 | a maximal whitespace run between two words becomes exactly one '_' |
| Renderer.RunBetween | videoBuilder/src/main/java/vid/builder/Renderer.java:63 | a maximal whitespace run becomes one '_' between the collapses of its neighbours |
| Renderer.RunAbsorbed | videoBuilder/src/main/java/vid/builder/Renderer.java:63 | further whitespace inside a run adds nothing, and the run ends before the next word |
| Renderer.Sanitize | videoBuilder/src/main/java/vid/builder/Renderer.java:59-67 | a sanitised title has at most 50 characters, no forbidden character and no whitespace |
| Renderer.SanitizeVisible | videoBuilder/src/main/java/vid/builder/Renderer.java:59-67 | without control characters in the input, the title holds no character at or below the space |
| Renderer.SanitizeFixes | videoBuilder/src/main/java/vid/builder/Renderer.java:59-67 | a short clean title passes through the sanitiser unchanged |
| Renderer.SanitizeIdempotent | videoBuilder/src/main/java/vid/builder/Renderer.java:59-67 | sanitising twice is sanitising once |
| Renderer.FirstCaption | videoBuilder/src/main/java/vid/builder/Renderer.java:15-20 | no captions give "untitled"; otherwise the first caption's "text" (or "untitled" when absent), and a document that is not an array of objects throws |
| Renderer.UntitledIsClean | videoBuilder/src/main/java/vid/builder/Renderer.java:24 | the fallback stem is itself a clean, non-empty title |
| Renderer.WithExtension | videoBuilder/src/main/java/vid/builder/Renderer.java:25 | a clean stem with ".mp4" appended is a clean ".mp4" name whose stem is recoverable |
| Renderer.OutputFilename | videoBuilder/src/main/java/vid/builder/Renderer.java:22-25 | the file name is a clean ".mp4" name of 5 to 54 characters whose stem is the sanitised caption, or "untitled" when that is empty |
| Renderer.RenderFinalVideo | videoBuilder/src/main/java/vid/builder/Renderer.java:12-25 | an unreadable captions file renders nothing; a JSON exception escapes exactly when the text does not parse, is not an array, or starts with a non-object; an empty array renders "untitled.mp4"; a first object renders to its sanitised "text" (or "untitled" when that is absent or sanitises to nothing) plus ".mp4"; every rendered name is a clean ".mp4" name of at most 54 characters |
| Builder.RepeatCount | videoBuilder/src/main/java/vid/builder/Main.java:20-26 | the count is a 32-bit integer, and 3 when the trimmed argument is not one |
| Builder.RepeatCountReads | videoBuilder/src/main/java/vid/builder/Main.java:22 | any 32-bit integer, padded with blanks, is read as itself |
| Text.ParseIntRoundTrip | videoBuilder/src/main/java/vid/builder/Main.java:22 | every 32-bit integer in decimal parses back to itself |
| Text.TrimPadded | videoBuilder/src/main/java/vid/builder/Main.java:22 | trimming blank padding from both sides recovers the padded text |
| Builder.Selection | videoBuilder/src/main/java/vid/builder/Main.java:134-143 | "all" in any ASCII case selects every configured channel once; a configured name selects exactly itself; anything else is reported as unknown |
| Builder.ReadUploadHistory | videoBuilder/src/main/java/vid/builder/Main.java:162-172 | a missing or unreadable history file reads as the empty text |
| Builder.JoinEmptyLines | videoBuilder/src/main/java/vid/builder/Main.java:166 | a history of empty lines joins to a blank text |
| Builder.JoinShowsLine | videoBuilder/src/main/java/vid/builder/Main.java:166 | every history line appears whole in the joined text at its computed offset |
| Builder.HistoryEndsWithRecord | videoBuilder/src/main/java/vid/builder/Main.java:162-167 | after the manager records an upload, the history text the builder reads ends with that record |
| Builder.BuildPrompt | videoBuilder/src/main/java/vid/builder/Main.java:174-194 | a blank history leaves the base prompt unchanged; otherwise the prompt opens with the fixed head, then the history, and ends with the base prompt and a line break |
| Builder.NoHistoryPlainPrompt | videoBuilder/src/main/java/vid/builder/Main.java:175 | a channel with a missing, unreadable or empty history is prompted with its base prompt alone |
| Builder.PromptShowsHistory | videoBuilder/src/main/java/vid/builder/Main.java:174-193 | a channel's prompt shows every line of its non-blank history, after the fixed head |
| Builder.PromptShowsLine | videoBuilder/src/main/java/vid/builder/Main.java:174-193 | each history line sits in the prompt at its offset after the head |
| Builder.PromptShowsSlice | videoBuilder/src/main/java/vid/builder/Main.java:176-193 | whatever occurs in a non-blank history occurs in the prompt, shifted by the head |
| Builder.Repeat | videoBuilder/src/main/java/vid/builder/Main.java:154-157 | the inner loop asks for the same video exactly max(n, 0) times |
| Builder.Batch | videoBuilder/src/main/java/vid/builder/Main.java:154-157 | the loop as written issues the repeated request for the channel's prompt |
| Builder.Generate | videoBuilder/src/main/java/vid/builder/Main.java:146-158 | the loop over channels, as written, issues the requests of every selected channel in order |
| Builder.CallsStep | videoBuilder/src/main/java/vid/builder/Main.java:146-158 | handling one more channel appends exactly that channel's requests |
| Builder.CallsCount | videoBuilder/src/main/java/vid/builder/Main.java:146-158 | a run asks for max(n, 0) videos per selected channel |
| Builder.CallsPrompts | videoBuilder/src/main/java/vid/builder/Main.java:146-157 | every request is for a selected channel and carries that channel's prompt |
| Builder.CallsPerChannel | videoBuilder/src/main/java/vid/builder/Main.java:146-157 | with distinct channels selected, each gets exactly max(n, 0) requests and any other channel none |
| Builder.RunWith | videoBuilder/src/main/java/vid/builder/Main.java:12-143 | fewer than two arguments give only the usage message; an unknown channel name (trimmed) is reported exactly when it is neither "all" nor configured |
| Builder.RunGenerates | videoBuilder/src/main/java/vid/builder/Main.java:145-158 | with "all" or a configured channel, every configured channel in the selection gets exactly max(count, 0) requests and any other channel none, there are that many requests per selected channel in total, and each carries its channel's prompt |
| Json.Message | videoBuilder/src/main/java/vid/builder/AIscraper.java:80 | a parser error keeps its own message, and a missing or mistyped key appears in the message right after `JSONObject["` |
| Json.LookupSpec | videoBuilder/src/main/java/vid/builder/AIscraper.java:64 | a member lookup finds the value of the first member with the key, and nothing exactly when no member has it |
| Json.OptString | videoBuilder/src/main/java/vid/builder/AIscraper.java:64 | an absent or null member yields the default, and a string member its text |
| Json.OptStringFirstMember | videoBuilder/src/main/java/vid/builder/AIscraper.java:69 | the string read is that of the first member with the key, whatever follows it |
| Json.OptArray | videoBuilder/src/main/java/vid/builder/AIscraper.java:70 | the items are given exactly when the member is an array |
| Json.GetArray | videoBuilder/src/main/java/vid/builder/AIscraper.java:61 | the items are given exactly when the member is an array; otherwise the error says whether the key is missing or mistyped |
| Json.GetObject | videoBuilder/src/main/java/vid/builder/AIscraper.java:63 | the members are given exactly when the element is an object, and the error names its index otherwise |
| Scraper.FindText | videoBuilder/src/main/java/vid/builder/AIscraper.java:66-75 | a match found is an "output_text" item at or after the start |
| Scraper.FindTextFirst | videoBuilder/src/main/java/vid/builder/AIscraper.java:66-68 | the inner loop's match is the first "output_text" item, every earlier item being some other object |
| Scraper.FindTextNone | videoBuilder/src/main/java/vid/builder/AIscraper.java:66-76 | the inner loop finds nothing exactly when every item is some other object |
| Scraper.FindTextError | videoBuilder/src/main/java/vid/builder/AIscraper.java:67 | the inner loop throws at the first non-object, and only when every earlier item was some other object |
| Scraper.Look | videoBuilder/src/main/java/vid/builder/AIscraper.java:63-65 | a match of one output item is a message whose content is read and holds an "output_text" item at the reported index |
| Scraper.LookPasses | videoBuilder/src/main/java/vid/builder/AIscraper.java:63-77 | the outer loop moves on over an item exactly when it is a non-message object or a message without a match or an error |
| Scraper.FindMessage | videoBuilder/src/main/java/vid/builder/AIscraper.java:62-78 | a match found is a message item at or after the start whose content holds an "output_text" item at the reported index |
| Scraper.FindMessageFirst | videoBuilder/src/main/java/vid/builder/AIscraper.java:62-78 | the outer loop's match is the first message with an "output_text" item, every earlier item being passed over |
| Scraper.FindMessageNone | videoBuilder/src/main/java/vid/builder/AIscraper.java:62-78 | the outer loop finds nothing exactly when every item is passed over |
| Scraper.Pick | videoBuilder/src/main/java/vid/builder/AIscraper.java:69-74 | the text is the item's "text"; missing or empty annotations give "No Title"; with annotations present, the item fails exactly when the first one is not an object, and otherwise the title is that object's "title" (empty when absent) |
| Scraper.ParseError | videoBuilder/src/main/java/vid/builder/AIscraper.java:79-80 | a caught parsing exception yields the title "Error" |
| Scraper.ExtractTitleAndText | videoBuilder/src/main/java/vid/builder/AIscraper.java:58-83 | unparsable text, a root that is not an object, or a missing or mistyped "output" array give an "Error" result carrying the exception; otherwise the result comes from the output items |
| Scraper.FromOutput | videoBuilder/src/main/java/vid/builder/AIscraper.java:62-82 | no match gives ("Not found", "No valid output found in response.") and an exception in the loops gives an "Error" result |
| Scraper.FromOutputFound | videoBuilder/src/main/java/vid/builder/AIscraper.java:62-74 | a match identifies the message and content item the result is read from |
| Scraper.Search | videoBuilder/src/main/java/vid/builder/AIscraper.java:26-53 | a failed request gives title "Error" and text "Error occurred: " followed by the exception's message; a reply is handed to the extraction |
| Scraper.NoMatchGivesNotFound | videoBuilder/src/main/java/vid/builder/AIscraper.java:82 | a well-formed reply whose output items are all passed over gives the "Not found" result |
| Scraper.PicksFirstMatch | videoBuilder/src/main/java/vid/builder/AIscraper.java:62-74 | the result is the one picked from the first "output_text" item of the first message that has one |
| Scraper.SkipsNonMessage | videoBuilder/src/main/java/vid/builder/AIscraper.java:62-64 | an object item that is not a message, put before the others, does not change the result |
| Scraper.FromOutputSkips | videoBuilder/src/main/java/vid/builder/AIscraper.java:62-64 | the loops give the same result with a non-message object put in front |
| Scraper.FirstMatchWins | videoBuilder/src/main/java/vid/builder/AIscraper.java:74 | once a match exists, items appended after it never change the result |
| Pipeline.PrefillAsksForThree | uploadManager/src/main/java/vid/manager/Main.java:92-100 | the refill job makes the builder ask for exactly three videos of the refilled channel, each with its prompt |
| Pipeline.RenderedFileIsQueued | videoBuilder/src/main/java/vid/builder/Renderer.java:23-25 | whatever the caption, the rendered file is picked up by the manager's pending queue |
| Pipeline.TitleRoundTrip | uploadManager/src/main/java/vid/manager/ChannelScheduler.java:122-123 | a plain caption comes back unchanged as the title uploaded for its rendered file |
| Pipeline.SanitizePlain | videoBuilder/src/main/java/vid/builder/Renderer.java:59-67 | a plain caption is sanitised by turning its spaces into '_' and nothing else |
| Pipeline.SingleSpacesBecomeUnderscores | videoBuilder/src/main/java/vid/builder/Renderer.java:63 | on text whose only blanks are single spaces, the collapse just replaces each space by '_' |
| Pipeline.RunEndsAtWord | videoBuilder/src/main/java/vid/builder/Renderer.java:63 | a whitespace run ends at the first non-blank character |

## Left out

- Threads and the executor. Each claim-set, map or bag operation is one atomic step. Interleavings inside `uploadAndArchive` or `scheduleAll` are not modelled.
- Timer resolution, `scheduleWithFixedDelay` periods and `Thread.sleep` backoff. Ticks and uploads are steps the environment chooses, and the 200 ms pause between move attempts is only a count.
- File I/O. Listings, moves, appends and reads become state plus failure flags; the bytes and encodings of files are not modelled.
- Logging and console output. None of it affects the state.
- Instants are integers of milliseconds. The history stores them as decimal text rather than ISO-8601 text, so `Instant.parse` becomes `ParseDecimal`. `Instant` overflow is not modelled.
- The two clocks of the re-plan: the base uses one `Instant.now()` and each delay another. They are modelled as a single `now`, so re-planned uploads are due exactly at their slot.
- Windows path order. `Path.compareTo` on Windows ignores case; the model orders names by character. Paths are reduced to (channel, file name) pairs, because all of a channel's pending paths share their directory.
- Unicode. Case folding in `equalsIgnoreCase` and the digits `Integer.parseInt` accepts are ASCII only. A Dafny `char` is one Unicode scalar value, while a Java `String` holds UTF-16 code units, so every length, position and cut in the model counts scalar values. The two agree on text inside the Basic Multilingual Plane; a character beyond it is one `char` here and two code units in Java.
- JSON text. Parsing and serialisation escapes are not modelled; a reply is the tree it denotes, or a parser message. Numbers are integers. org.json's exact message wording is approximated.
- YouTubeUploader.java is not part of this model. Its call is an `Attempt.reply` of success, quota exhaustion or another failure.
- VidBuilder.java, WhisperTranscriber.java and background_generator.java are not part of this model. A generation request is recorded as a `Builder.Call`.
- The vidRenderer React project is not part of this model.
- The Remotion process launch and its exit code. `Renderer.RenderFinalVideo` stops at the output file name.
- The channel prompt texts and `Map.of` iteration order. Both are the `Builder.Config` parameter, whose key list is any order of the keys.
- A runtime exception thrown inside `generateVid` aborts the rest of the builder's run. This is not modelled: every request of the loop is issued.
- The class comment of uploadManager/src/main/java/vid/manager/Main.java:20 says uploads are scheduled "every 3hrs". The code spaces them 5 hours apart and ticks every 15 minutes; the model follows the code.
- Scheduler.Publish: when all five move attempts fail, the video has been uploaded but stays pending and nothing is recorded. This is modelled as written (the state is unchanged apart from the claim) and not treated as a finding.
- Scheduler.UploadEachHistory: `uploadAllNow` releases claims it never took and ignores existing claims and next-upload times. This is modelled as written, and only the history and the untouched other channels are stated.
- Renderer.SanitizeIdempotent: requires that the input contain no control character other than `\s`. Java's `trim` strips every character up to U+0020, while `\s` matches only six of them, so when the 50-character cut exposes such a character at the end (49 times "a" followed by "\u0001b"), the second pass trims it away.
- Renderer.Sanitize: the cut at 50 and the bound of 50 count Unicode scalar values, not UTF-16 code units. Java's `substring(0, 50)` counts code units, so on 26 copies of U+1F600 Java keeps 25 emoji and the model keeps 26. A cut that falls inside a surrogate pair, which Java can produce, is not modelled. The two agree whenever the cleaned text lies inside the Basic Multilingual Plane.
- Renderer.SanitizeFixes: "short" means at most 50 scalar values, not 50 UTF-16 code units, for the reason given under Renderer.Sanitize.
- Renderer.OutputFilename: the length bounds of 5 to 54 count scalar values, not UTF-16 code units, for the reason given under Renderer.Sanitize.
- Renderer.RenderFinalVideo: the bound of 54 counts scalar values, for the reason given under Renderer.Sanitize. The model also covers only the JSON exceptions of lines 15-19. `Path.of` at line 28 throws `InvalidPathException` for a file name the platform rejects, for example one holding U+0000 (or, on Windows, another control character below U+0020), which `sanitizeForFilename` can leave inside the title. The catch at line 54 takes only `IOException` and `InterruptedException`, so that exception escapes too, and the model does not show it.
- Pipeline.TitleRoundTrip: "plain" captions are measured in scalar values, so the 50-character limit is not the code-unit limit Java applies, for the reason given under Renderer.Sanitize.
- Pipeline.SanitizePlain: the 50-character limit counts scalar values, not UTF-16 code units, for the reason given under Renderer.Sanitize.
- Builder.RepeatCount: its own ensures give only the range and the default of 3. Builder.RepeatCountReads states that a padded integer is read as itself.
- Builder.Run has no contract of its own. It is Builder.RunWith applied to the program's text block.
- Coordinator.Tick: the branch for a running flag that is already set is unreachable. The tick is one atomic step, and `scheduleWithFixedDelay` never starts a run of a task while that task's previous run is still going. The branch is kept because the source has it, and the model never reaches it.

## Findings

| source | as written | input that shows it | evidently intended | confidence | as-written member | corrected member |
|---|---|---|---|---|---|---|
| uploadManager/src/main/java/vid/manager/ChannelScheduler.java:173-186 | on a quota failure, `rescheduleBatchForTomorrow` claims the failed video again (line 210) and the `finally` block of `uploadAndArchive` then removes that claim (line 185). The rescheduled video is therefore unclaimed while its upload waits. The re-plan sets the next-upload time to now plus one day (line 214), so `scheduleAll` skips the channel until then (lines 79-85). From that instant until the rescheduled upload runs, a tick finds the video unclaimed and submits it a second time. | channel "Channel_1" with pending "a.mp4" claimed and a quota reply at time 0. The claim set is then empty, and the upload for one day later is submitted. The tick at exactly one day later submits the same upload again, so two copies wait in the bag. | the re-planned video stays claimed until its rescheduled upload runs (`Scheduler.UploadAndArchiveIntended` releases the claim before the re-plan), so that tick submits nothing new (`SchedulerProps.QuotaIntendedSubmitsOnce`) | medium, not executed | SchedulerProps.QuotaAsWrittenSubmitsTwice | SchedulerProps.QuotaKeepsClaim |
