# A verified model of the GamesAI plugin's conversation, round and cluster logic

GamesAI lets Minecraft players talk to language models from a game server and ties several servers
together through a hub. Three parts of it carry promises that no single function keeps on its own, and
this project models them in Dafny and proves those promises.

**The conversation.** A history is a list of role-tagged messages. Providers reject a request in which
a tool call is not directly followed by its results, so every operation on the history has to keep
these groups whole: splitting into rounds, dropping and truncating to stay inside the model window,
compressing old rounds into a summary, repairing, merging adjacent user messages, injecting notes,
storing and restoring. `Tokens`, `Messages`, `Rounds`, `Validate`, `Merge`, `Window`, `Compression` and
`Records` give each operation a specification function, prove what it promises, and prove the loops of
the source against it; `RoundBoundaries` and `WindowChecks` say what rounds, checks, estimates and
limits come to by their results alone; `ChatParam` is the class whose methods update the fields in
place, each tied to the same functions.

**Rounds and their owner.** `RoundRun` is `response_ai` as a machine: the owning thread walks through
its steps while other threads queue messages and ask to stop between any two of them. `RoundsGoOn` says
that it goes on until the model has been asked about everything, and what its history holds then,
`StopProtocol` and `LateStarts` what a stop does to it, `BrokenGroups` what a round leaves behind that
died in the middle, and `ContextChecks` that its edits are the real context checks. `Ownership` is
`ask_ai` with any number of askers and managers, one lock section per step, and `AskQueue` follows each
question through it. `SharedConversation` puts the two together,
with the deliveries of other users in between, and proves that all these threads do to a conversation
what a single owner could do, as long as only owners release; `Deliveries` follows the messages, and
`SharedTraces` are the runs that show what goes wrong.

**The hub.** `NodeTable` and `EnrolLimiter` are the token table and the limiter in front of it, over
whole runs (`EnrolBurst` shows that a bound of the limiter is reached); `NodeHistory` and `EnrolHistory`
read what they hold and answer off the operations alone, one name and one address at a time; `HubTables`
is the class that holds both. `PeerTable` interleaves registration, exit, waiting calls, replies and
aborts; `PeerAborts` says which calls an abort reaches, and `PeerReplies` what a call comes back with.
`Star` is the request and reply protocol between the hub and honest nodes over links that lose and
reorder frames; `StarResults` says what it never does, `StarDeliveries` what it always does. `NodeCalls`
is a node's own list of waiting calls, and `NodeRuns` what is on it over every interleaving.

Two smaller machines complete it: `Sessions`, the bounded registry of remote commands, and
`BotConversation`, the bot controller's trimmed conversation, with `BotMemory` for what it remembers of
all its cycles.

## How to read it

- *Well formed* (`Messages.WellFormed`) means *grouped* (each calling assistant's run of results covers
  all its ids) and *owned* (each result answers a call of the assistant its run belongs to).
- Functions specify, methods compute. A method's `ensures` equates the new state with a specification
  function of the old one; lemmas prove what that function promises.
- Many main results are stated against a reading of the run: a fold over its steps that collects what was
  said, asked or granted and knows nothing of how the machine keeps it.
- In the machines one step is one section under a lock, or one action that needs none. A theorem about
  a run holds for every interleaving of such steps.
- Outside answers are arbitrary inputs: model replies, tool results, summaries, timeouts, lost frames.
- Clocks are real numbers that never run backwards.

## What the code does not keep

Some promises fail in the code. Each has a lemma with a trace that shows it and, where that is not
plain, a lemma that says exactly when the promise holds.

- `release_round` runs in a `finally` even after the ownership was given up. A late one frees the round
  under a newer owner (`Ownership.TwoOwnersReachable`); that is the only way to a second owner
  (`Ownership.StepKeepsOneOwner`), and from there the stop event can part from the ownership flag
  (`Ownership.StopEventExactly`, `Ownership.StopEventCanLie`). The second owner can write into a tool
  group of the first and send it broken (`SharedTraces.StaleReleaseBreaksRequest`); without a stale
  release that cannot happen (`SharedConversation.SharedRequestsWellFormed`).
- A model switch clears the queue. A message that was told it is queued is lost when it arrives there
  after the round's end and before the switch (`SharedTraces.DeliveryLost`,
  `RoundRun.SwitchLosesMessage`). Nothing else loses one: `RoundRun.HandedMessagesArrive` and
  `SharedConversation.SharedMessagesArrive` are exact.
- A question can wait although nobody runs the conversation: one queued just after the owner left
  (`Ownership.QuestionCanStrand`), or one a manager released the round on (`Ownership.ManagerCanStrand`).
  `Ownership.StepStrandsExactly` names the steps that do it; there are no others.
- A stop accepted between the claim and `response_ai`'s own snapshot is forgotten
  (`StopProtocol.EarlyStopForgotten`, `StopProtocol.StopSeenExactly`).
- A stop that falls into a context check can be followed by a summarizing request and the request itself
  (`LateStarts.BothAreStarted`), but by no more than one of each (`LateStarts.AtMostOneLateStart`).
  `LateStarts.StartsBounded` and `LateStarts.StartsReached` give the exact number for every state a stop
  can fall into.
- If an exception leaves a round while a call has no result yet, the next request carries a broken
  group (`RoundRun.FailureLeaks`, `RoundRun.FailureHarmlessExactly`), and so does every later one until
  the group is repaired, dropped or compressed (`BrokenGroups.BrokenExactly`).
- Dropping rounds and cutting texts do not count as changes of the history, so a compression that was
  summarizing meanwhile still commits (`Compression.UnversionedChangesExactly`) and can bring a dropped
  round back (`Compression.LateCommitCanBeWrong`). Both are done by the round's own thread only, so
  that takes a second owner of the round.
- A truncated text is the longest fitting prefix plus a note and so exceeds its cap
  (`Window.TruncationOvershoots`).
- The repair accepts a late second result for a call that was answered already
  (`Validate.LateResultSurvives`, `Validate.ValidatedWellFormedExactly`).
- `verify` and `rotate` read the table in two sections (`NodeTable.TwoReadingsExactly`,
  `NodeTable.RevokeBetweenReadings`, `NodeTable.RotationExactly`, `NodeTable.RevokeDuringRotation`).
- A caller whose peer left is not always woken: its connection may have been replaced before
  (`PeerAborts.ReplacedCallerSleeps`), or the call may be listed after the abort
  (`PeerAborts.LateCallerSleeps`); and a call on a newer connection can be dropped by an older one's
  abort (`PeerAborts.NewerCallIsDropped`). `PeerAborts.MissedExactly` and
  `PeerAborts.AbortReachesExactly` say exactly when. Stopping the hub empties one of three tables
  (`PeerTable.Peers.Stop`).
- A node's waiting call whose frame could not be sent stays listed until the link drops
  (`NodeCalls.FailedCallsPileUp`, `NodeRuns.PendingExactly`).
- The hub looks up whether a sender is a bot when it reads the frame, so a request can slip through when
  the name is not registered any more (`StarResults.BotSlipsThrough`, `StarResults.HubHandlesExactly`).
- A session pushed out by the cap does not come back when drops make room
  (`Sessions.PushedOutStaysOut`, `Sessions.NewestExactly`).
- One bot turn of thirty calls leaves results without their call
  (`BotConversation.ThirtyCallsBreakBlocks`, `BotConversation.TrimKeepsBlocksExactly`). Its messages
  never include a user message, so the trimmer's first search always fails.

## Model

| member | source | states |
|---|---|---|
| RoundRun.RequestsAndHistoriesWellFormed | games_ai/ai/chat_param.py:2050-2143 | over every run, however earlier rounds died and whatever other threads hand over at any step: every history a finished or stopped round leaves has each tool call directly followed by its results and no result without its call; and so have every request sent and every history between rounds, unless a round died with a call unanswered since the last repair |
| RoundRun.StepKeepsInv | games_ai/ai/chat_param.py:2050-2143 | every step of the owner and of the other threads, but for a failure with a call unanswered, keeps groups whole, or open with exactly the calls still to run, or about to be repaired by a stop that is sure to be seen |
| RoundRun.StepKeepsOwned | games_ai/ai/chat_param.py:2050-2143 | every step, such failures included, keeps results behind the calls they answer, and the repair at the end of a round makes the history well formed |
| RoundRun.FailureHarmlessExactly | games_ai/ai/chat_param.py:2127-2143 | a round that dies leaves a well-formed history exactly when the results at the end of the history answer every call with an id that was still to come |
| RoundRun.FailureLeaks | games_ai/ai/chat_param.py:2103-2143 | a failure between storing a tool-calling answer and its first result makes the next round send a broken group (trace from a fresh conversation) |
| BrokenGroups.BrokenExactly | games_ai/ai/chat_param.py:2103-2143 | over every run, however often rounds died in it: a request is broken, and so is a history between rounds, exactly while the group of the last failure with a call unanswered is still in the history, neither repaired nor switched away, dropped or compressed |
| BrokenGroups.PlainKeepsBroken | games_ai/ai/chat_param.py:2050-2143 | a step that appends leaves such a group broken for good and, behind it, keeps what it would keep without it |
| BrokenGroups.CutKeepsBroken | games_ai/ai/chat_param.py:1117-1127 | dropping or compressing rounds keeps the broken group as it is or removes all of it, and then all groups are whole |
| RoundRun.HandedMessagesArrive | games_ai/ai/chat_param.py:1816-1830 | over every run: what the merges append, followed by what still waits, is what was waiting and handed over, in order, exactly when no model switch of the run found messages waiting |
| RoundRun.SwitchLosesMessage | games_ai/ai/chat_param.py:2187-2191 | a message queued while no round runs is cleared away by a model switch (trace given) |
| RoundsGoOn.DoneIsAnswered | games_ai/ai/chat_param.py:2087-2126 | over every run a round that is done was answered: its last reply called no tool, every call was answered before, and nothing was put behind the history since the request that drew it, so every tool result and every merged message was there when the model was asked again; a request carries its preamble and the whole merged history; and none is prepared without a reason |
| RoundsGoOn.HistoryIsTranscript | games_ai/ai/chat_param.py:2050-2126 | over every run without a rewriting step the history is what it was followed by all that was said, read off the run in order: questions, deliveries, replies, one result for each call with its id and text, merged messages; the check at the end changes nothing |
| RoundsGoOn.NoteStandsInFront | games_ai/ai/chat_param.py:1999-2023 | a time note stands directly in front of the newest user message, or at the end without one, and nothing else moves |
| RoundsGoOn.StopDropsOpenGroup | games_ai/ai/chat_param.py:704-739 | a stopped round loses the group it was interrupted in and nothing else, neither the groups in front of it nor the messages merged behind it |
| RoundsGoOn.StopKeepsWholeGroups | games_ai/ai/chat_param.py:704-739 | a round stopped between its groups loses nothing |
| RoundsGoOn.DoneKeepsHistory | games_ai/ai/chat_param.py:1314-1370 | over every run, unless a round died with a call unanswered since the last repair, the repair at the end of a round that is done changes nothing |
| RoundsGoOn.SwitchSetsHistoryAside | games_ai/ai/chat_param.py:2165-2208 | a model switch sets the whole history aside to be summarized, and a second switch before anything was said does not lose it |
| StopProtocol.StopSeenExactly | games_ai/ai/chat_param.py:672-702 | a stop is seen exactly when one was accepted since the owner last took its snapshot |
| StopProtocol.EarlyStopForgotten | games_ai/ai/chat_param.py:1612-1625 | a stop accepted between the claim and the snapshot of `response_ai` is forgotten (trace given) |
| LateStarts.StartsBounded | games_ai/ai/chat_param.py:2063-2113 | from wherever a stop is pending, in whatever run, to the end of the round no more requests (summarizing ones included) and tool calls are started than are foreseen there: in the check in front of a request that request, and one summary if a hand-off or older rounds with any text wait for one; past its check the tool call; and one summary behind an answer if there are ten rounds with old text |
| LateStarts.StartsReached | games_ai/ai/chat_param.py:2063-2113 | and from every reachable state that many can follow, so the bound is exact wherever the stop falls |
| LateStarts.AtMostOneLateStart | games_ai/ai/chat_param.py:2068-2105 | in every run a round starts at most one more tool call or request with the history after a stop, and at most one summarizing request |
| LateStarts.BothAreStarted | games_ai/ai/chat_param.py:612-651 | both happens: a stop in the check that has a hand-off to summarize is followed by that request and the request itself (trace from any fresh conversation) |
| LateStarts.StepKeepsAskInv | games_ai/ai/chat_param.py:2165-2208 | every step keeps that a pending hand-off finds nothing but what players said since the switch |
| LateStarts.UsersAskNothing | games_ai/ai/chat_param.py:1083-1110 | and that is one round, so the check asks for no other summary |
| StopProtocol.StopEndsRound | games_ai/ai/chat_param.py:2068-2143 | from wherever a stop is pending, in whatever run: after at most a stated number of further steps of its own the owner has ended the round, and unless it died the history is well formed |
| ContextChecks.CheckInFrontIsRun | games_ai/ai/chat_param.py:1372-1400 | the machine reaches exactly what the check in front of a request leaves, with one request for a pending hand-off and at most one more, and that only if there are more than ten rounds |
| ContextChecks.CheckBehindIsRun | games_ai/ai/chat_param.py:1402-1413 | and exactly what the check behind a request leaves, with at most one request |
| ChatParam.Conversation.constructor | games_ai/ai/chat_param.py:532-610 | a new conversation is empty, unowned and has no stop outstanding |
| ChatParam.Conversation.AddToResponseList | games_ai/ai/chat_param.py:1786-1799 | appends one message and counts one change |
| ChatParam.Conversation.ForcedAddToResponseList | games_ai/ai/chat_param.py:1801-1814 | queues a system or user message and leaves the history alone |
| ChatParam.Conversation.MergeResponseQueue | games_ai/ai/chat_param.py:1816-1830 | moves the whole queue behind the history in order; counts a change only if something moved |
| ChatParam.Conversation.AddExternalMessage | games_ai/ai/chat_param.py:1918-1946 | an idle conversation takes the message into its history, a running one into its queue, never both |
| ChatParam.Conversation.InjectNote | games_ai/ai/chat_param.py:2019-2023 | the note lands in front of the newest question, or at the end without one |
| ChatParam.Conversation.SplitRounds | games_ai/ai/chat_param.py:1075-1110 | the loop computes the preamble and rounds of the reference split |
| ChatParam.Conversation.DropOldestRound | games_ai/ai/chat_param.py:1117-1127 | removes exactly the oldest round, refuses to remove the last one, and counts no change |
| ChatParam.Conversation.TruncateLongMessages | games_ai/ai/chat_param.py:1134-1152 | cuts exactly the over-long plain messages; says whether there were any |
| ChatParam.Conversation.EstimateRequestTokens | games_ai/ai/chat_param.py:1050-1062 | the calibrated estimate of the whole request, with the uncalibrated one remembered |
| ChatParam.Conversation.EmergencyReduce | games_ai/ai/chat_param.py:1154-1170 | leaves a fitting history alone, otherwise cuts long texts and then drops the least number of oldest rounds |
| ChatParam.Conversation.TakeSnapshot | games_ai/ai/chat_param.py:1270-1278 | the first section of a compression: old rounds, kept rounds and the version they belong to |
| ChatParam.Conversation.CommitSummary | games_ai/ai/chat_param.py:1282-1307 | the second section replaces the history only if its version is still the remembered one |
| ChatParam.Conversation.CompressOldRounds | games_ai/ai/chat_param.py:1253-1308 | undisturbed, a compression installs the newest rounds behind the summary exactly when there are older rounds |
| ChatParam.Conversation.ApplyPendingHandOff | games_ai/ai/chat_param.py:612-651 | a pending hand-off is consumed; its summary becomes the first message, a failed one changes nothing |
| ChatParam.Conversation.ApplyPendingCompaction | games_ai/ai/chat_param.py:1733-1745 | a pending manual compaction is consumed by one ordinary compression |
| ChatParam.Conversation.ManageContextPreflight | games_ai/ai/chat_param.py:1372-1400 | the check in front of a request leaves what `WindowChecks.LeftByCheck` says: the deferred work first, then nothing below 80%, the ten newest rounds behind a summary from 80% on, and a cut and reduced history from 95% on; it is within the window and as well formed as before |
| ChatParam.Conversation.ManageContextAfter | games_ai/ai/chat_param.py:1402-1413 | the check behind a request leaves the ten newest rounds behind a summary, made to fit, exactly if the largest answer came to a fifth of the window or the prompt to four fifths, and otherwise changes nothing; it keeps the history well formed |
| ChatParam.Conversation.ValidateSequence | games_ai/ai/chat_param.py:1314-1370 | installs the repaired history, counts a change exactly when something was dropped, and leaves complete groups |
| ChatParam.Conversation.DropUnansweredToolCall | games_ai/ai/chat_param.py:704-724 | drops at most the trailing assistant message with unanswered calls |
| ChatParam.Conversation.AbortInterruptedRound | games_ai/ai/chat_param.py:726-739 | a stopped round leaves complete groups whatever it was interrupted in |
| ChatParam.Conversation.RequestStop | games_ai/ai/chat_param.py:672-692 | accepted exactly while a round runs, and then counted once |
| ChatParam.Conversation.BeginRound | games_ai/ai/chat_param.py:694-697 | takes the stop count as seen |
| ChatParam.Conversation.TryClaimRound | games_ai/ai/chat_param.py:1612-1625 | succeeds exactly for a free round, which is then active, running and freshly snapshotted |
| ChatParam.Conversation.QueuePendingAsk | games_ai/ai/chat_param.py:1627-1635 | the question waits behind those that came before it |
| ChatParam.Conversation.FinishRoundOrTakeNext | games_ai/ai/chat_param.py:1637-1658 | hands out all waiting questions in order, or an empty batch for relayed messages, or gives the round up |
| ChatParam.Conversation.ReleaseRound | games_ai/ai/chat_param.py:1660-1665 | frees the round unconditionally |
| Ownership.BatchesFollowArrivals | games_ai/ai/chat_param.py:1627-1658 | over every interleaving, stale releases included, the batches handed out followed by what still waits are the queued questions in arrival order |
| Ownership.StepKeepsOneOwner | games_ai/__init__.py:3008-3042 | a step keeps at most one owner, and the stop event in step with it, exactly when it is not the release of a thread that already gave the round up while another one owns it |
| Ownership.OnlyOwnersRelease | games_ai/ai/chat_param.py:1612-1665 | if only owners release, at most one thread runs the conversation and waiters see the event set exactly when none does |
| Ownership.StaleReleaseAdmitsSecondOwner | games_ai/__init__.py:3039-3042 | after a stale release the next asker claims a round somebody else still owns |
| Ownership.TwoOwnersReachable | games_ai/__init__.py:3008-3042 | three askers are enough: a trace from a fresh conversation that ends with two owners |
| Ownership.StepStrandsExactly | games_ai/ai/chat_param.py:1612-1665 | under a single owner, of all steps exactly these leave questions behind that nobody runs: queueing on a free round, and a release by an asker or a manager while questions wait |
| Ownership.WaitingQuestionsAttended | games_ai/ai/chat_param.py:1612-1665 | without such a step every waiting question has an owner to hand it out |
| Ownership.QuestionCanStrand | games_ai/__init__.py:3008-3021 | a question queued just after the owner left waits although nobody runs the conversation (trace given) |
| Ownership.ManagerCanStrand | games_ai/ai/chat_param.py:1687-1731 | so does a question asked while a compaction holds the round, which releases without looking at the queue (trace given) |
| Ownership.StopEventExactly | games_ai/ai/chat_param.py:1637-1665 | the only step that parts the stop event from the ownership flag is taking a batch after the round was released under its owner |
| Ownership.StopEventCanLie | games_ai/ai/chat_param.py:1637-1665 | a trace that ends with the event cleared although the round is free |
| AskQueue.ClaimOrQueue | games_ai/__init__.py:3008-3021 | over every interleaving: who finds the round free runs it with its own question, and who does not puts its own question behind those that wait; a manager that finds it taken may try again |
| AskQueue.FinishTakesAll | games_ai/ai/chat_param.py:1637-1658 | over every interleaving an owner that is through takes all questions queued since the last batch was taken, in order, or an empty batch for relayed messages, and gives the round up exactly when there is neither |
| AskQueue.RoundIsGivenBack | games_ai/ai/chat_param.py:2050-2143 | over every interleaving a round entered without an owner is active from then on and is given back by the one who entered it so; who entered an owned one leaves it to its owner |
| SharedConversation.EveryStepRefines | games_ai/ai/chat_param.py:2050-2143 | every step of any thread but a stale release is one step of the machine of a single owner, or nothing to it |
| SharedConversation.ThreadsRefineOneOwner | games_ai/__init__.py:3008-3042 | over every interleaving without a stale release, what all askers, managers, deliveries and stops do to a conversation is a run of the machine of a single owner |
| SharedConversation.SharedRequestsWellFormed | games_ai/__init__.py:3008-3042 | so every request any thread sends and every history nobody works on is well formed unless a round died with a call unanswered since the last repair, and what a finished or stopped round leaves is so even then |
| SharedConversation.SharedRoundStops | games_ai/ai/chat_param.py:672-702 | and a round starts at most one more request with the history or tool call after a stop, and at most one summarizing request |
| SharedConversation.StaysFitting | games_ai/ai/chat_param.py:1918-1946 | while a delivery that found no round running holds the lock of the history, a thread that claims the round meanwhile gets no further than its first merge |
| SharedConversation.SharedMessagesArrive | games_ai/ai/chat_param.py:1816-1830 | over every interleaving, even after a stale release: what all threads merge, followed by what still waits, is what was waiting and queued, in order, exactly when no model switch found messages waiting |
| Deliveries.DeliveriesArrive | games_ai/ai/chat_param.py:1918-1946 | over every interleaving every delivered message is stored, merged, queued or still carried by who delivers it, as often as it was delivered, exactly when no model switch found messages waiting |
| Deliveries.DeliveryGoes | games_ai/ai/chat_param.py:1939-1946 | a delivery that finds no round running becomes the newest message of the history, one that finds a round running the newest of its queue |
| SharedTraces.StaleReleaseBreaksRequest | games_ai/__init__.py:3039-3042 | with no failure anywhere, one stale release is enough for an asker to write into the tool group of another one and to send it (trace from a fresh conversation) |
| SharedTraces.DeliveryLost | games_ai/ai/chat_param.py:1939-1946 | a delivery that was told its message is queued loses it when it is queued after the end of the round and the model is switched before the next one (trace from a fresh conversation) |
| Window.PreflightFits | games_ai/ai/chat_param.py:1372-1400 | after a preflight the estimate is below 80% of the window, or at most 85%, or one round is left |
| WindowChecks.PreflightLeaves | games_ai/ai/chat_param.py:1384-1400 | what the check leaves, stated by the result: below 80% of the window nothing changes; from 80% and below 95% the ten newest rounds stay word for word behind a summary of the others if one came, with long texts cut and the fewest oldest rounds dropped only if that is still over 85%; from 95% on nothing is summarized and only cut and dropped |
| WindowChecks.AfterRequestLeaves | games_ai/ai/chat_param.py:1402-1413 | and the check behind a request leaves the same as between 80% and 95% exactly when it is triggered |
| WindowChecks.PreparedLeaves | games_ai/ai/chat_param.py:1384-1386 | the deferred work puts the summary of a hand-off first, as a system message with its prefix, and then keeps ten rounds if a compaction was asked for |
| WindowChecks.SummedUpMeans | games_ai/ai/chat_param.py:1253-1308 | such a result has at most ten rounds; if there were more, it is made from the summary and an end of the history with exactly ten rounds that begins with a turn |
| WindowChecks.TruncatedMeans | games_ai/ai/chat_param.py:1134-1152 | truncation leaves provider objects, assistant messages and texts within the cap alone, and keeps of every other text the longest beginning within the cap, then a line with the note |
| WindowChecks.MessageCapMeans | games_ai/ai/chat_param.py:1159-1162 | the cap of one text is 8% of the window, never below 1024 and never above 16000 tokens |
| WindowChecks.TriggeredMeans | games_ai/ai/chat_param.py:1402-1407 | the triggers are a fifth of the window for the largest answer of the round and four fifths for the prompt, and zero counters never trigger |
| WindowChecks.SummaryCapMeans | games_ai/ai/chat_param.py:1237-1240 | a summarizing request carries 30% of the window at most, or 1024 tokens |
| WindowChecks.MessageTokensMean | games_ai/ai/chat_param.py:345-380 | a message costs four tokens and what its content, the name, arguments and id of each call, its reasoning and, on a plain dictionary, the id it answers cost together |
| WindowChecks.RequestEstimateMeans | games_ai/ai/chat_param.py:1050-1062 | a request costs the fixed part and every message once, times the calibration factor, rounded down |
| Window.ReducedIsLeast | games_ai/ai/chat_param.py:1154-1165 | an emergency reduction drops the least number of oldest rounds that makes the cut history fit, never the newest round |
| Window.LoopDropsLeast | games_ai/ai/chat_param.py:1163-1165 | dropping one round at a time, with a new estimate each time, stops at exactly that number |
| Window.ReducedFits | games_ai/ai/chat_param.py:1154-1165 | the reduced request fits or is down to one round |
| Window.TailIsCheaper | games_ai/ai/chat_param.py:1050-1062 | leaving out messages in front never makes a request larger |
| Window.TruncationOvershoots | games_ai/ai/chat_param.py:1134-1152 | a cut text uses its whole budget, so with a note of three characters it is over the cap it was cut to |
| Window.TruncatedSkeleton | games_ai/ai/chat_param.py:1134-1152 | truncation changes neither roles nor calls nor answered ids |
| Window.CutLongTexts | games_ai/ai/chat_param.py:1134-1152 | the loop cuts exactly the texts that are over the cap |
| Window.CompressedKeepsNewest | games_ai/ai/chat_param.py:1253-1308 | a compression leaves exactly ten rounds, verbatim behind at most one summary, and a second one changes nothing |
| Window.CompressedIsSuffix | games_ai/ai/chat_param.py:1272-1290 | what is kept is an end of the history that begins with a turn |
| Window.PreflightWellFormed | games_ai/ai/chat_param.py:1372-1400 | no preflight breaks a tool-call group or orphans a result |
| Window.AfterRequestWellFormed | games_ai/ai/chat_param.py:1402-1413 | nor does the check behind a request |
| Window.PreparedWellFormed | games_ai/ai/chat_param.py:1384-1386 | nor does the deferred work in front of it |
| Rounds.SplitPartitions | games_ai/ai/chat_param.py:1075-1110 | preamble and rounds concatenate back to the history; every round but the first begins with a turn, and a history with rounds has no preamble |
| RoundBoundaries.RoundsBeginExactly | games_ai/ai/chat_param.py:1075-1110 | without the scan: a round other than the first begins exactly in front of a user message that does not directly follow another one, system notes in front of it included, if anything but system notes comes before; there is none exactly when there are only system notes |
| Rounds.TailResplits | games_ai/ai/chat_param.py:1075-1127 | splitting what is left behind the first rounds yields exactly the remaining rounds |
| Rounds.TailWellFormed | games_ai/ai/chat_param.py:1075-1127 | a round boundary never cuts a tool-call group |
| Rounds.DropOneMore | games_ai/ai/chat_param.py:1117-1127 | dropping rounds one by one is dropping them at once |
| Rounds.DropKeepsNewest | games_ai/ai/chat_param.py:1117-1127 | dropping leaves an end of the history that splits into the remaining rounds, the newest always among them |
| Rounds.SplitPrepend | games_ai/ai/chat_param.py:1075-1110 | a system note put in front joins the first round and changes no other |
| Rounds.UsersCount | games_ai/ai/chat_param.py:1083-1096 | user messages in a row open at most one round, exactly one if the history does not end with an unanswered one, and change no round but the newest |
| Rounds.SplitMaps | games_ai/ai/chat_param.py:1075-1110 | changing messages in place, roles apart, moves no boundary between rounds |
| Compression.CommitIsOptimistic | games_ai/ai/chat_param.py:1270-1308 | against versioned changes the commit is all or nothing: it installs the compression of exactly the current history, or leaves the history untouched |
| Compression.SnapshotSplits | games_ai/ai/chat_param.py:1270-1278 | the rounds to be summarized and the ten that are kept are the whole history, and there is nothing to do exactly up to ten rounds |
| Compression.VersionedChangeProtects | games_ai/ai/chat_param.py:1282-1286 | one versioned change among any others is enough to keep the history as it is |
| Compression.UnversionedChangesExactly | games_ai/ai/chat_param.py:1117-1152 | dropping rounds and cutting texts are not counted as changes; after any mix of them the late commit is the compression of the current history exactly when more than ten rounds are left, or ten and no summary came, and the cuts touched none of the ten kept rounds |
| Compression.LateCommitCanBeWrong | games_ai/ai/chat_param.py:1117-1127 | for every history under compression there are drops after which the late commit brings a dropped round back |
| Validate.CleanSequence | games_ai/ai/chat_param.py:1314-1363 | the index-and-cursor loop computes the reference repair |
| Validate.LengthDecides | games_ai/ai/chat_param.py:1314-1370 | the repair keeps a subsequence, and equal length means nothing changed |
| Validate.KeepsExactlyTheSurvivors | games_ai/ai/chat_param.py:1320-1363 | of the messages that are no tool results exactly the calling assistants with a missing result go; everything else stays in order |
| Validate.ValidatedGrouped | games_ai/ai/chat_param.py:1314-1363 | every remaining call has its results directly behind it, and repairing again changes nothing |
| Validate.ValidatedWellFormedExactly | games_ai/ai/chat_param.py:1314-1363 | the repaired history is fully well formed exactly when the original held no stray result |
| Validate.ValidatedWellFormed | games_ai/ai/chat_param.py:1314-1363 | when every result answers its own call the repair always succeeds, and changes the history exactly when a group was incomplete |
| Validate.LateResultSurvives | games_ai/ai/chat_param.py:1344-1360 | a history the repair leaves alone although it is not well formed |
| Merge.MergeAdjacentUserMessages | games_ai/ai/chat_param.py:315-342 | the loop computes the merged list |
| Merge.MergedByRuns | games_ai/ai/chat_param.py:315-342 | merging is joining each maximal run of user messages into its first one, texts in order |
| Merge.JoinRunMeans | games_ai/ai/chat_param.py:326-342 | joined messages keep what the first one carried besides its text, unless that is a provider object, of which only the text is kept |
| Merge.MergedSeparates | games_ai/ai/chat_param.py:315-342 | no two user messages stay side by side, and merging again changes nothing |
| Merge.MergeDistributes | games_ai/ai/chat_param.py:315-342 | merging distributes over concatenation exactly when no user meets a user at the seam; then the earlier request is a prefix of the later one |
| Merge.MergedWellFormed | games_ai/ai/chat_param.py:2092-2099 | the outgoing request has whole tool-call groups exactly when the stored history has |
| Merge.InsertBeforeLastUser | games_ai/ai/chat_param.py:295-305 | the note goes directly in front of the newest user message, and the caller learns when there is none |
| Merge.NotedWellFormed | games_ai/ai/chat_param.py:1999-2023 | a note in front of the question never lands inside a tool-call group |
| Messages.GroupedAtEveryIndex | games_ai/ai/chat_param.py:1320-1341 | a history is grouped exactly when the run behind every calling assistant answers all its ids |
| Messages.OwnedAtEveryIndex | games_ai/ai/chat_param.py:1344-1360 | in an owned history every result stands in the run behind the assistant whose call it answers |
| Messages.WellFormedConcat | games_ai/ai/chat_param.py:2092-2099 | well-formed pieces stay well formed when glued |
| Messages.WellFormedCut | games_ai/ai/chat_param.py:1117-1127 | a cut in front of anything but a tool result leaves two well-formed pieces |
| Messages.ClosedExactly | games_ai/ai/chat_param.py:1320-1341 | a history that is open only for ids its newest calling assistant offers is grouped exactly when the results at its end answer them |
| Tokens.EstimateTextTokens | games_ai/ai/chat_param.py:81-95 | the counting loop: a quarter token per latin character, one per CJK character, one more, and nothing for an empty text |
| WindowChecks.EstimateMeans | games_ai/ai/chat_param.py:73-95 | a text costs one token for each CJK character and one for four of the others, in whatever order they stand, and one more; nothing if it is empty |
| Tokens.EstimateMonotone | games_ai/ai/chat_param.py:81-95 | a longer prefix never costs less |
| Tokens.ShrinkIsLongestFit | games_ai/ai/chat_param.py:98-111 | the cut is a prefix within a positive cap, and no longer prefix is |
| Tokens.ShrinkText | games_ai/ai/chat_param.py:98-111 | the binary search finds that cut, and nothing for a cap of zero or less |
| Tokens.LimitSummaryInput | games_ai/ai/chat_param.py:1237-1251 | the kept parts are the longest newest run within the budget, or the newest part alone, cut to at most one token more |
| Records.NormalIsFixed | games_ai/ai/chat_param.py:175-219 | writing a normal form again changes nothing |
| Records.ReadInvertsWriteExactly | games_ai/ai/chat_param.py:175-237 | reading inverts writing exactly for the four roles with an id on tool results; anything else is refused |
| Records.RolesShown | games_ai/ai/chat_param.py:222-237 | the four roles that can be stored are the four the model sees, each as itself |
| Records.TextsShown | games_ai/ai/chat_param.py:175-219 | the model sees every text that is stored: content, reasoning, answered id, and id, kind, name and arguments of each call |
| Records.StoredSaysTheSame | games_ai/ai/chat_param.py:175-219 | what is stored of a message has its role, text, reasoning and answered id, and its calls each with its id, name, arguments and kind; an object that cannot be dumped keeps its role and text |
| Records.RestoredShowsRepaired | games_ai/ai/chat_param.py:1878-1916 | what a restored conversation shows the model is the stored history after the sequence check |
| Records.RestoreExactly | games_ai/ai/chat_param.py:1837-1916 | a history comes back with the same normal forms exactly when every message is storable and the sequence check has nothing to drop |
| Records.QueueExactly | games_ai/ai/chat_param.py:1837-1916 | a queue comes back whole exactly when it holds system and user messages only |
| Records.RestoreKeepsRounds | games_ai/ai/chat_param.py:1837-1916 | a history restored whole is cut into the same rounds at the same places |
| Records.Conversation.ToRecord | games_ai/ai/chat_param.py:1837-1876 | the record holds the normal form of every message, in order |
| Records.Conversation.Restore | games_ai/ai/chat_param.py:1878-1916 | unreadable messages are dropped one by one, the rest is repaired, the queue keeps system and user messages, counters are at least zero and moments in the future are forgotten |
| Records.RestoredNumbers | games_ai/ai/chat_param.py:1878-1916 | a stored moment is forgotten exactly if it lies more than a minute ahead, and a negative counter becomes zero, any other stays |
| Records.CopyThroughRecord | games_ai/ai/chat_param.py:1837-1916 | a conversation copied through a record stores the same record again |
| NodeTable.VerifiesExactlyTheLatest | games_ai/cluster/websockets_server.py:490-579 | over every run of enrol, issue, rotate, revoke and record_seen: ok exactly for the token last issued to the name, with a matching identity, in time and not revoked since; unknown exactly for any other token or identity |
| NodeHistory.TableIsHistories | games_ai/cluster/websockets_server.py:430-616 | over every run what the table holds about a name is what the operations on that name alone come to, read off the run: whether it waits, its token, identity, time of issue and lifetime, and the address and time it was last seen |
| NodeHistory.VerdictFollowsHistory | games_ai/cluster/websockets_server.py:558-579 | so the answer to a token follows from the operations on its name: unknown, expired a second ahead of its time, or ok |
| NodeHistory.WaitsExactly | games_ai/cluster/websockets_server.py:430-556 | over every run a name waits exactly when its last enrolment request was followed by no issue, rotation, revocation or expiry |
| NodeHistory.IssuesExactly | games_ai/cluster/websockets_server.py:490-529 | over every run an issue is carried out exactly when the name is not empty, waits if it has to, and has no token that may not be replaced; then it no longer waits and has that token, and no other name is touched |
| NodeHistory.RevokedMeansUnknown | games_ai/cluster/websockets_server.py:546-556 | a revocation leaves neither token nor request of the name and touches no other |
| NodeHistory.RemainingMeans | games_ai/cluster/websockets_server.py:371-386 | the seconds left are exact to the second, cut towards zero, and none for an unlimited token |
| NodeTable.TokenNamesExactly | games_ai/cluster/websockets_server.py:388-401 | a search finds a name exactly when a check of that name without an identity says ok or expired, and never two names |
| NodeTable.IssueRespectsEnrolled | games_ai/cluster/websockets_server.py:490-529 | without replace an enrolled entry is never touched |
| NodeTable.AliveMeans | games_ai/cluster/websockets_server.py:371-386 | a token is taken for expired from one second before its time on |
| NodeTable.TwoReadingsExactly | games_ai/cluster/websockets_server.py:558-579 | a check reads the table twice; over all operations between the readings its verdict differs from that of the first one exactly when the token was the name's then and since then the name was revoked although the token was expired, or got a token with the other liveness |
| NodeTable.RevokeBetweenReadings | games_ai/cluster/websockets_server.py:558-579 | an expired token is let in when its node is revoked between the two readings |
| NodeTable.RotationExactly | games_ai/cluster/websockets_server.py:531-544 | over all operations between its two sections a rotation does what one section at the end would do exactly when that still finds the entry, identity and address the first one read |
| NodeTable.UntouchedEntryStays | games_ai/cluster/websockets_server.py:490-616 | what a rotation reads of a name changes only with an issue, a rotation, a revocation or a registration of that name |
| NodeTable.RevokeDuringRotation | games_ai/cluster/websockets_server.py:531-544 | a rotation that read its entry before a revocation brings the node back, with a token that is ok whatever its lifetime unless that is zero |
| HubTables.Registry.constructor | games_ai/cluster/websockets_server.py:257-275 | empty tables satisfy the table invariant |
| HubTables.Registry.Enrol | games_ai/cluster/websockets_server.py:430-488 | records, refreshes or refuses a request exactly as the limiter specification says, and a refusal adds no entry |
| HubTables.Registry.PrunePending | games_ai/cluster/websockets_server.py:403-409 | drops exactly the requests older than a week |
| HubTables.Registry.EnrolRateOk | games_ai/cluster/websockets_server.py:411-428 | the decision and the new window of one address, with over-large tables pruned first |
| HubTables.Registry.Issue | games_ai/cluster/websockets_server.py:490-529 | writes the entry and takes the name off the waiting list, or changes nothing and returns no token |
| HubTables.Registry.Rotate | games_ai/cluster/websockets_server.py:531-544 | replaces the token of an enrolled node and of no other; a token comes back exactly for an enrolled one |
| HubTables.Registry.Revoke | games_ai/cluster/websockets_server.py:546-556 | drops entry and request; true exactly when there was an entry |
| HubTables.Registry.RecordSeen | games_ai/cluster/websockets_server.py:581-616 | updates time and address of an enrolled node only |
| HubTables.Registry.ExpiresIn | games_ai/cluster/websockets_server.py:371-386 | the seconds left, or none for an unknown name or an unlimited token |
| HubTables.Registry.Verify | games_ai/cluster/websockets_server.py:558-579 | both readings of a check with nothing in between give the specified verdict |
| HubTables.Registry.NameForToken | games_ai/cluster/websockets_server.py:388-401 | the search returns the only name the token belongs to, or none |
| EnrolLimiter.PruningChangesNothing | games_ai/cluster/websockets_server.py:411-428 | for any non-decreasing clock, bounding the limiter's own table never changes what anybody is told |
| EnrolLimiter.AtMostNineteenPerWindow | games_ai/cluster/websockets_server.py:411-428 | an address passes at most nineteen new names in any interval no longer than a window (one better than twice the limit) |
| EnrolBurst.NineteenReached | games_ai/cluster/websockets_server.py:411-428 | and nineteen are reached: a run in which any address gets that many new names within one window |
| EnrolLimiter.AtMostTenPerSpan | games_ai/cluster/websockets_server.py:411-428 | and at most ten since its current window began |
| EnrolLimiter.WaitingListCapped | games_ai/cluster/websockets_server.py:403-466 | the waiting list never exceeds 32 if it started within that |
| EnrolHistory.WaitingListIsTrue | games_ai/cluster/websockets_server.py:430-488 | over every run the waiting list says of a name what the events come to: since when it waits, the newest identity and address given, how often it was asked for, and nothing after a week or a removal |
| EnrolHistory.AnsweredExactly | games_ai/cluster/websockets_server.py:430-488 | over every run each request is answered exactly as it should be: repeated with its count if the name waits, full exactly when 32 names wait, too many exactly when there is room but ten requests were counted in the current minute of its address, recorded otherwise |
| EnrolHistory.FullReached | games_ai/cluster/websockets_server.py:451-466 | and the list does fill: 32 names are recorded, and the next one is told that it is full |
| PeerTable.NewestConnectionHoldsName | games_ai/cluster/websockets_server.py:928-971 | over every interleaving a name maps to the connection that registered it last unless that one left, with what that connection announced, and the three tables have equal keys |
| PeerTable.OldExitKeepsNewer | games_ai/cluster/websockets_server.py:956-971 | the exit of a replaced connection never unregisters the newer one |
| PeerTable.WokenFindsOwnReply | games_ai/cluster/websockets_server.py:864-894 | a woken caller always finds a reply, and it is to its own request unless its peer dropped |
| PeerTable.ReturnedIsNotPending | games_ai/cluster/websockets_server.py:883-894 | a caller that returned is no longer waited for, however its call ended |
| PeerTable.DroppedMeansGone | games_ai/cluster/websockets_server.py:1269-1289 | a caller is told its peer dropped only when a connection under that name registered and left |
| PeerTable.WakeUpFindsReply | games_ai/cluster/websockets_server.py:886-890 | the woken caller comes back with the reply from its box |
| PeerReplies.ReturnsWhatWasDecided | games_ai/cluster/websockets_server.py:864-894 | over every interleaving a call comes back with what was decided for it: no such peer when nobody held the name, not sent, timed out, or what was in its box when it was woken |
| PeerReplies.BoxHoldsWhatCame | games_ai/cluster/websockets_server.py:1258-1289 | over every interleaving what a caller finds in its box came in for it, word for word, while it was listed, or says that its peer dropped, and then one of that name did |
| PeerReplies.ReplyGetsThere | games_ai/cluster/websockets_server.py:1258-1267 | over every interleaving, from when the reply to a listed call has come in on, the caller is awake or a thread is about to wake it |
| PeerReplies.ReplyIsReturned | games_ai/cluster/websockets_server.py:864-894 | left to itself the caller then comes back with that reply and is off the list |
| PeerTable.LeavingPeerWakesAll | games_ai/cluster/websockets_server.py:964-971 | working off its list, the thread of a peer that left wakes everybody who was listed for it |
| PeerAborts.AbortReachesExactly | games_ai/cluster/websockets_server.py:1269-1289 | over every interleaving a call is taken off the list before it is over exactly when an abort for its name ran since it was listed |
| PeerAborts.ReachedIsWoken | games_ai/cluster/websockets_server.py:1269-1289 | over every interleaving whoever was taken off the list is awake, or on the list of the thread that wakes it |
| PeerAborts.MissedExactly | games_ai/cluster/websockets_server.py:956-967 | a call whose connection has ended is missed exactly when that connection had been replaced or the call was listed after its abort, and no other connection under the name aborted since |
| PeerAborts.ReplacedCallerSleeps | games_ai/cluster/websockets_server.py:956-967 | a call sent on a connection that is then replaced sleeps on when that connection ends (trace from the start) |
| PeerAborts.LateCallerSleeps | games_ai/cluster/websockets_server.py:864-882 | a call that found a connection before it left and lists itself after the abort sleeps on (trace from the start) |
| PeerAborts.NewerCallIsDropped | games_ai/cluster/websockets_server.py:1269-1289 | the abort goes by name: a call on the new connection of a peer that is back is told its peer dropped (trace from the start) |
| PeerTable.Peers.RegisterPeer | games_ai/cluster/websockets_server.py:928-937 | replaces the entry of the name in all three tables and returns the connection it replaced |
| PeerTable.Peers.UnregisterPeer | games_ai/cluster/websockets_server.py:956-963 | removes the name from all three tables only for the connection that holds it |
| PeerTable.Peers.AbortPending | games_ai/cluster/websockets_server.py:1269-1289 | takes exactly the calls waiting for the peer, or all of them, off the list, each once |
| PeerTable.Peers.Stop | games_ai/cluster/websockets_server.py:676-697 | stopping forgets the connections but keeps identities and builds, so the tables agree afterwards only if nobody was online |
| StarResults.HandledAtMostOnce | games_ai/cluster/websockets_server.py:1161-1210 | whatever is lost, reordered or late and whoever comes and goes: a request that is not a broadcast is handled at most once, only by the one it names, and with the text that was sent |
| StarResults.CallerGetsItsOwnAnswer | games_ai/cluster/websockets_client.py:468-562 | a handler's answer a waiting caller gets is the one its own request drew, and for a named peer that peer made it |
| StarResults.NoRequestIsSwallowed | games_ai/cluster/websockets_server.py:1161-1210 | over every run in which no link loses it, a request of a node, or of the hub to somebody online, is still on a link or somebody sent a reply that names it, and replies go to the one who asked |
| StarDeliveries.ReachesExactlyItsReceivers | games_ai/cluster/websockets_server.py:1185-1210 | over every run a request that is no ping is on the link to a node, handled by it, or lost there, exactly if the hub took it from somebody not registered as a bot while the node it names was online, or for everybody else who was, or asked the node itself |
| StarDeliveries.RepliesAreTrue | games_ai/cluster/websockets_server.py:1185-1210 | over every run every reply, on a link or in a caller's box, is true: unknown was drawn only while the target was offline, a refusal only by a registered bot, a broadcast notice only by a broadcast, an answer by that handling, a drop notice by an abort of that call |
| StarDeliveries.WaitingCallerIsServed | games_ai/cluster/websockets_server.py:1161-1210 | over every run a caller that still waits has its reply, or its request or the reply is on a link, unless a link lost it or the reply reached the hub while the caller's node was not online |
| StarDeliveries.HubServesItself | games_ai/cluster/websockets_server.py:706-745 | what the hub asks itself it handles on the spot, puts the answer in the caller's box, and sends nothing |
| StarDeliveries.ListsAndTableAreTrue | games_ai/cluster/websockets_server.py:864-894 | over every run a call is listed exactly when it was sent to be waited for and neither given up nor aborted since, and a name is online as what it last registered as |
| StarDeliveries.AbortedIsTold | games_ai/cluster/websockets_client.py:645-659 | over every run a call whose link dropped while it was listed is told so for good |
| StarDeliveries.SourcesAreTrue | games_ai/cluster/websockets_server.py:1161-1183 | over every run a reply names the one who gave it on both of its links |
| StarDeliveries.EventsGoWhereTheyShould | games_ai/cluster/websockets_server.py:1185-1200 | over every run an event is on a link, taken off it or lost exactly if its sender put it there, or the hub did for a node it is for, which it does for nobody registered as a bot |
| StarResults.BotAsksInVain | games_ai/cluster/websockets_server.py:1212-1237 | over every run a request that is no ping is handled by nobody and sent on to nobody as long as the hub takes it off its link while the sender is registered as a bot |
| StarResults.HubHandlesExactly | games_ai/cluster/websockets_server.py:1185-1210 | over every run the hub handles a request of a node to it exactly when it takes it off the link while the sender is not registered as a bot |
| StarResults.BotSlipsThrough | games_ai/cluster/websockets_server.py:835-838 | a name that was only ever registered as a bot can get a request handled: the name is looked up when the frame is read, and by then it may be gone (trace from the start) |
| StarResults.HandledOncePerNode | games_ai/cluster/websockets_server.py:1161-1210 | every request, broadcasts included, is handled at most once by each process, with the text that was sent |
| Star.HubRoutesKeeps | games_ai/cluster/websockets_server.py:1185-1210 | each branch of the hub's routing (ping, bot refusal, own request, broadcast, relay, unknown target) keeps the one-place and honest-answer invariants |
| Star.AtNodeKeeps | games_ai/cluster/websockets_client.py:468-494 | so does every frame a node receives |
| StarResults.BroadcastHandledTwice | games_ai/cluster/websockets_server.py:1202-1204 | a broadcast can be handled by more than one node (trace given) |
| NodeCalls.Node.Send | games_ai/cluster/websockets_client.py:510-562 | a call takes its entry off the list again except when a frame it wanted to wait for could not be sent |
| NodeCalls.Node.ResolvePending | games_ai/cluster/websockets_client.py:661-670 | a reply reaches only a call that is still listed |
| NodeCalls.Node.AbortPending | games_ai/cluster/websockets_client.py:645-659 | a dropped link empties the list |
| NodeCalls.FailedCallsPileUp | games_ai/cluster/websockets_client.py:541-551 | n failed waiting calls leave n entries behind |
| NodeRuns.PendingExactly | games_ai/cluster/websockets_client.py:510-562 | over every interleaving of calls, replies and link drops: listed are exactly the calls that listed themselves since the link last dropped and are in flight or came back because their frame could not be sent |
| NodeRuns.NobodyIsForgotten | games_ai/cluster/websockets_client.py:645-670 | over every interleaving a call in flight has its reply, or is listed to get one, or is about to be woken by the thread that noticed the drop |
| NodeRuns.FilledExactly | games_ai/cluster/websockets_client.py:645-670 | over every interleaving a box is filled exactly for the calls whose reply came while they were listed and those woken after a drop |
| Sessions.HoldsTheNewest | games_ai/cluster/ws_command.py:244-278 | over every run: at most 64 sessions, and exactly an end of the list of undropped, unexpired ones |
| Sessions.HeldAreYoung | games_ai/cluster/ws_command.py:271-278 | over every run no session is held that was dropped or is older than half an hour as of the last sweep |
| Sessions.NewIsHeld | games_ai/cluster/ws_command.py:244-250 | the id just returned is held exactly when its entry did not expire before its own sweep |
| Sessions.NewestExactly | games_ai/cluster/ws_command.py:271-278 | what is held is the newest 64 of those that live exactly when the list is full, or every session the cap pushed out is dropped or expired |
| Sessions.WithoutDropsNothingIsLost | games_ai/cluster/ws_command.py:244-278 | in runs without drops of single sessions it always is |
| Sessions.PushedOutStaysOut | games_ai/cluster/ws_command.py:244-278 | with drops it is not: after 65 sessions, two drops and a new one, 64 live but 63 are held, and the first is not among them |
| Sessions.Registry.New | games_ai/cluster/ws_command.py:244-250 | the new session joins, expired ones go, then the oldest beyond 64 |
| Sessions.Registry.Sweep | games_ai/cluster/ws_command.py:271-278 | the loops leave the newest 64 of the unexpired |
| Sessions.Registry.Oldest | games_ai/cluster/ws_command.py:275-276 | the first of the sessions with the smallest time |
| Sessions.Registry.Drop | games_ai/cluster/ws_command.py:263-265 | removes that session and no other |
| BotConversation.CyclesKeepBlocks | games_ai/bot/mineflayer_ai.py:391-417 | over every run of cycles, stopped ones included: at most thirty messages, a concatenation of complete assistant-plus-results blocks, fit to be sent, as long as no turn calls thirty tools |
| BotMemory.CycleRemembers | games_ai/bot/mineflayer_ai.py:403-417 | an unstopped cycle leaves the old conversation and what it said, cut once; a stopped one leaves the old conversation, cut; where the cut falls is stated without the trimming loop |
| BotMemory.RemembersAllSaid | games_ai/bot/mineflayer_ai.py:391-417 | over every run of cycles the conversation is everything the unstopped cycles said, cut once: nothing is forgotten earlier than the limit of thirty asks for, and nothing a stopped cycle said is kept |
| BotMemory.RemembersLongestEnd | games_ai/bot/mineflayer_ai.py:391-417 | so, as long as no turn calls thirty tools, it is the longest end of all that was said that is made of complete blocks and at most thirty messages long |
| BotMemory.NewestCycleIsThere | games_ai/bot/mineflayer_ai.py:403-417 | what the newest unstopped cycle said is there as a whole if it fits thirty messages |
| BotMemory.TrimCutsThere | games_ai/bot/mineflayer_ai.py:564-578 | trimming cuts in front of the first user message of the last thirty, without one in front of the first that is no tool result, and not at all up to thirty |
| BotConversation.CyclesStayBounded | games_ai/bot/mineflayer_ai.py:564-578 | at most thirty messages without any such condition |
| BotConversation.TrimKeepsBlocksExactly | games_ai/bot/mineflayer_ai.py:564-578 | trimming complete blocks leaves complete blocks exactly when the last thirty messages are not all tool results |
| BotConversation.TrimIsLongest | games_ai/bot/mineflayer_ai.py:564-578 | and then it keeps the longest end of the conversation that is complete and fits |
| BotConversation.ThirtyCallsBreakBlocks | games_ai/bot/mineflayer_ai.py:564-578 | one turn of thirty calls leaves thirty results without their call |
| BotConversation.PlayGivesBlocks | games_ai/bot/mineflayer_ai.py:506-547 | a cycle that was not stopped appends complete blocks only |
| BotMemory.UnstoppedSaysAll | games_ai/bot/mineflayer_ai.py:506-547 | an unstopped cycle says exactly what its turns come to, message by message, up to the turn that calls no tool, fails, is the tenth, or meets the controller's halt |
| BotMemory.StopCutsShort | games_ai/bot/mineflayer_ai.py:506-547 | what a stopped cycle says is a beginning of what it would have said |
| BotMemory.StopBounds | games_ai/bot/mineflayer_ai.py:506-547 | every model call and every tool result takes a reading of the stop flag that did not find it |
| BotMemory.EveryReadingCounts | games_ai/bot/mineflayer_ai.py:506-547 | and every such reading but the last brings a message, in a cycle that a stop cuts short every one |
| BotMemory.HaltCutsShort | games_ai/bot/mineflayer_ai.py:506-547 | no model call is made once the cycle's or the controller's flag is set, and a halt cuts short as well |
| BotMemory.CallsCarryTurns | games_ai/bot/mineflayer_ai.py:506-547 | each model call carries what all turns before it came to, and there are ten at most |
| BotMemory.CallsAreAnswered | games_ai/bot/mineflayer_ai.py:506-547 | every model call but the last brings an answer |
| BotConversation.RequestsWellFormed | games_ai/bot/mineflayer_ai.py:438-547 | no model call of the controller, chat log and prompt included, carries a call without its results or a result without its call |
| BotConversation.BlocksWellFormed | games_ai/bot/mineflayer_ai.py:506-547 | complete blocks are well formed in the sense the chat rounds use |
| BotConversation.Controller.CallWithTools | games_ai/bot/mineflayer_ai.py:506-547 | the nested loops append exactly the specified messages, with every stop check in its place |
| BotConversation.Controller.Trim | games_ai/bot/mineflayer_ai.py:564-578 | the two searching loops compute the specified cut |
| BotConversation.Controller.OneCycle | games_ai/bot/mineflayer_ai.py:391-417 | a cycle keeps what it added unless it was stopped, then trims |

## Left out

- Sockets, HTTP, the model client, files, SQLite, game commands and help texts: input and output.
- Real hashing, token generation and JSON encoding: a digest is an injective constructor, a new token is one never issued before, frames are structured.
- Frame-size limits, close codes and the handshake's own checks: they decide which frames and registrations happen, and the machines allow any.
- Floating point: the ratios 0.95, 0.85, 0.80, 0.30, 0.20 and 0.08 are integer comparisons, and the calibration factor is a fixed real between 0.5 and 3 during one call; `_update_calibration` is not modelled.
- Stripping of names and the `version`, `features` and `issued_by` fields of the node table, and when the table is written to disk.
- `NonHistoryChatParam`, the cadence and text of time notes, tool lookup and permissions, `decide_mode`, the window table and usage counters other than those stored: they add only easy members.
- Liveness: that a queued question is answered or a stop is honoured in the end; the code does not guarantee it.
- The forced abort of the bot's controller thread, which can end a cycle at any instruction.
- An exception inside `manage_context` or `_validate_sequence`, which the code swallows after logging.
- StopProtocol.StopEndsRound: speaks of steps, not of time; a step that waits for the provider may take long, and texts cut or rounds dropped inside a context check are not counted as steps.
- ChatParam.Conversation.CompressOldRounds: the method runs both sections with nothing between them; what may happen in between is in `Compression`.
- HubTables.Registry.Verify: the method reads the table twice with nothing between the readings; `NodeTable.TwoReadingsExactly` has the rest.
- HubTables.Registry.Rotate: the method runs both sections with nothing between them; `NodeTable.RevokeDuringRotation` has the rest.
- PeerTable.NewestConnectionHoldsName: runs do not include stopping the hub, after which the three tables differ.
- StarResults.HandledAtMostOnce: assumes that nodes follow the protocol, have distinct names that differ from the hub's, and that request ids are never used twice; `_on_frame` on both sides is a step of the machine rather than a method of a class.
- Records.Conversation.Restore: the raw usage dictionary and the compression note travel unchanged and are not modelled.
- PeerTable.LeavingPeerWakesAll: follows only the steps of that one thread; `PeerAborts.ReachedIsWoken` covers every interleaving.
- NodeCalls.Node.Send: what other threads do to the waiting call is the argument `box`.
- SharedConversation.SharedRequestsWellFormed: an asker may write any user messages of its batch or none, and a manager's waiting for the round to end is not modelled; both allow more runs than the code has.
- NodeRuns.PendingExactly: looking up a waiting call and filling its box are one step, and what the box holds is in `Star`.
- RoundRun.HandedMessagesArrive: the machine queues user messages only, as every caller does; the method that queues them also takes system messages (`ChatParam.Conversation.ForcedAddToResponseList`), and a restored queue may hold them (`RoundRun.Init`).
- LateStarts.StartsReached: whether a check compresses depends on the provider's numbers and the window, which are arbitrary here.
- SharedConversation.SharedMessagesArrive: after a stale release a compression works on the history as it finds it; that its commit is refused when the history changed meanwhile is in `Compression`.
- RoundsGoOn.HistoryIsTranscript: a check's edits, time notes, the repair of a stopped round and a model switch rewrite the history and are left to `WindowChecks`, `NoteStandsInFront`, `StopDropsOpenGroup` and `SwitchSetsHistoryAside`.
- StarDeliveries.EventsGoWhereTheyShould: an event a process takes off its link is handled there, the hub's own look at broadcast events included; what handlers do is not modelled.
- WindowChecks.RequestEstimateMeans: the fixed part (system block, tool schemas and 200 tokens) is an argument.
