# hacklytics fraud-demo core, modelled in Dafny

This project models the logic inside the hacklytics banking-fraud demo. The
demo is a set of web pages over a hosted database and a voice agent that
phones a customer about a transaction. The model covers eight sources:

- **Voice agent turn** (`server/llm.py`).
  - A call transcript becomes chat messages, and the prompt is assembled from them.
  - The tools offered depend on the agent's mode.
  - In `draft_response`, the model's streamed tool-call fragments are accumulated by index and dispatched in index order.
  - `hangup` ends the call. `authorize` sets is_fraud to "yes" and locks the card only when the answer is "no", and sets "no" otherwise. `confirmFraud` always sets is_fraud to "yes" and locks the card.
- **Realtime row lists.**
  - The merge reducer deduplicates by `trans_num` (shared by `my-app/src/app/dbTest/page.tsx` and `my-app/src/app/page.tsx`).
  - The home page lists INSERT notifications only.
  - The route test page appends every notification and builds its sample record.
- **Seed upload** (`my-app/src/app/dbTest/page.tsx`). Customers and transactions are inserted only when no matching row exists. This runs over an in-memory customer/transaction table with injectable faults. The page's fetch and realtime list are modelled too.
- **Admin dashboard aggregations** (`my-app/src/app/admin/page.tsx`):
  - category totals;
  - per-category volume, average risk and bar colour;
  - per-day average risk in date order;
  - the five-bin risk histogram and its labels;
  - the high-risk gauge.
- **Audio recorder** (`my-app/src/components/audio.tsx`). It covers the `MM:SS` duration formatter, the recorder's state flags as a class whose handlers are methods, and which button groups are shown.
- **Reset proxy** (`my-app/pages/api/reset/route.ts`): the `DELETE` route's choice of status and body.
- **`update_transaction`** (`server/db.py`): its outcome dict, and the update it performs as its doc comment describes it.

One module per source file: `VoicePrompt` and `VoiceTurn` (llm.py), `Rows`,
`LiveFeed`, `RouteFeed`, `SeedUpload`, `Dashboard`, `Recorder`, `ResetProxy`,
`TransactionUpdate`, plus `Decimal` (decimal rendering of naturals, shared by
the formatter, the success message and the histogram labels).

Inputs that stand in for I/O:

- The model's answer to each request is a sequence of chunk sequences, one per round.
- `json.loads` is a parameter `parse`.
- `update_trans` / `set_locked` are recorded as events in order.
- The database is a pair of `seq` tables inside a `Backend` object, and the calls that fail are given as sets of loop positions.
- Clocks, `crypto.randomUUID` and `Math.random()` are parameters.
- Realtime notifications are an event sequence.

Where the general description of the system and the code disagree, the model follows the code:

- The reset route answers 200 for any ok (2xx) upstream status. It passes through the upstream status only when that status is not ok. It also answers 500 when the upstream body is not JSON, not only on network failure.
- The seed loop does not upsert. It inserts a customer only when the lookup by card succeeds and finds nothing, and a transaction only when no row with the same card, merchant and amount exists. A lookup error skips the item.

## Model

| member | source | states |
|---|---|---|
| VoicePrompt.RoleOf | server/llm.py:114-117 | the role is the assistant's exactly when the utterance's role is "agent", the user's otherwise |
| VoicePrompt.MessageOf | server/llm.py:114-117 | the definition of one converted utterance: its content under the mapped role (RoleOf states the mapping) |
| VoicePrompt.ConvertTranscript | server/llm.py:111-118 | one message per utterance, same length and order, each with the utterance's content and its mapped role |
| VoicePrompt.Transcript | server/llm.py:133-137 | the transcript part of the prompt has one message per utterance |
| VoicePrompt.TranscriptElements | server/llm.py:133-137 | message i of the transcript part is utterance i converted |
| VoicePrompt.Prompt | server/llm.py:120-146 | the definition of the prompt `prepare_prompt` builds; PromptShape states its shape and PreparePrompt is proved to build it |
| VoicePrompt.PromptShape | server/llm.py:120-146 | system prompt by mode, then the context message, then the transcript messages in order, then the reminder iff the interaction type is "reminder_required"; length 2 + \|transcript\| (+1) |
| VoicePrompt.PreparePrompt | server/llm.py:120-146 | the loop-and-append construction builds exactly that prompt |
| VoicePrompt.PrepareFunctions | server/llm.py:148-193 | [authorize, hangup] for mode 0, [confirmFraud, hangup] for mode 1, None for any other mode; authorize requires `response` restricted to "yes"/"no"; hangup requires `message`; confirmFraud declares no parameters |
| VoicePrompt.OtherModesHaveNoTools | server/llm.py:120-193 | a mode other than 0 and 1 gets the fraud prompt but no tools |
| VoiceTurn.FirstToolChunk | server/llm.py:219-221 | the position of the first chunk carrying tool calls: none before it, and that chunk has some |
| VoiceTurn.RoundTextsBeforeFirstTool | server/llm.py:210-237 | the texts a round yields are exactly the non-empty texts of the chunks before the first tool-call chunk |
| VoiceTurn.RoundTextsAfterTool | server/llm.py:210-237 | once a tool-call chunk has arrived, later chunks add no text |
| VoiceTurn.AddFragment | server/llm.py:222-228 | the definition of folding one fragment into `func_calls`: a new index stores the fragment, a known one gets its arguments appended, and appending to missing arguments raises; AddFragmentAgrees states what this keeps |
| VoiceTurn.Accumulate | server/llm.py:203-228 | the definition of the whole accumulation of a round, starting from `{}`; AccumulateSpec states its meaning |
| VoiceTurn.AccumulateSpec | server/llm.py:203-228 | accumulating the fragments raises (TypeError) exactly when an index's first fragment has no arguments and a later one follows; otherwise each index of the fragments has exactly one call: the first fragment (id and name kept), alone when there was only one, else with the in-order concatenation of all fragments' arguments, a missing one counting as "" |
| VoiceTurn.AddFragmentAgrees | server/llm.py:222-228 | one more fragment keeps the accumulated map agreeing with the fragments seen, and raises exactly when it creates a conflict |
| VoiceTurn.AddFragments | server/llm.py:221-228 | the inner loop over a delta's fragments computes the fold of those fragments into `func_calls`, stopping at the raise |
| VoiceTurn.StreamRound | server/llm.py:211-237 | the streaming loop yields the round's texts and leaves `func_calls` equal to the accumulation of all the round's fragments (None when it raised) |
| VoiceTurn.SortedKeys | server/llm.py:247 | the indices of the accumulated calls, each once, strictly ascending |
| VoiceTurn.ToolOf | server/llm.py:268-309 | the branch taken is hangup, authorize or confirmFraud exactly when the call's name is that string |
| VoiceTurn.Handle | server/llm.py:248-335 | the definition of the loop body for one call: the assistant message, the invocation, then the branch ToolOf selects; AuthorizeEffects, ConfirmFraudEffects, EffectsOnlyFromRecordingTools and DispatchHangup state what each branch does |
| VoiceTurn.AuthorizeEffects | server/llm.py:281-307 | authorize sets is_fraud "yes" iff the response is "no" and "no" otherwise (missing response included), locks the card iff the response is "no", does not hang up, and ends with the tool result naming the response |
| VoiceTurn.ConfirmFraudEffects | server/llm.py:309-337 | confirmFraud always sets is_fraud "yes" and locks the card, and does not hang up |
| VoiceTurn.EffectsOnlyFromRecordingTools | server/llm.py:249-337 | a call that is neither authorize nor confirmFraud touches neither is_fraud nor the card lock |
| VoiceTurn.Dispatch | server/llm.py:246-335 | the definition of handling the sorted calls one after another until a hangup; DispatchHangup and DispatchStopsAtHangup state its properties and DispatchCalls is proved to compute it |
| VoiceTurn.DispatchHangup | server/llm.py:247-280 | dispatching the sorted calls hangs up exactly when one of them is a hangup; then the last two events are the response with the first hangup's message (its `message` argument, or "") marked complete and ending the call, and that hangup's own tool result (its call id) with the same message; every response in a dispatch is such a complete end-call one |
| VoiceTurn.DispatchStopsAtHangup | server/llm.py:268-280 | a dispatch that reaches a hangup is the dispatch of the calls up to and including the first hangup: no later call is handled (the `return`) |
| VoiceTurn.DispatchCalls | server/llm.py:246-337 | the dispatch loop's events, new messages and hangup flag are those of the reference dispatch |
| VoiceTurn.Round | server/llm.py:203-337 | the definition of one pass of the `while True` body: the texts, then the final response when there were no calls, else the dispatched calls; RoundShape states its outcomes |
| VoiceTurn.RoundShape | server/llm.py:240-338 | a round stops with HungUp exactly when an accumulated call is a hangup, and then ends with the response and tool result of the hangup with the least index, carrying its message; it stops with Completed exactly when there were no calls (ending with the complete, non-ending empty response); it never runs out; complete or end-call responses occur only in stopping rounds |
| VoiceTurn.RunRound | server/llm.py:202-338 | one pass of the `while True` body produces the reference round outcome |
| VoiceTurn.Run | server/llm.py:202-345 | the definition of the turn as a sequence of rounds, each extending the conversation until one stops; EndingShape states its properties |
| VoiceTurn.NoToolRoundCompletes | server/llm.py:240-345 | a round with no tool-call fragments ends the turn with its texts followed by one response with content "", complete, not ending the call |
| VoiceTurn.EndingShape | server/llm.py:195-345 | over a whole turn: one request per round used, the first being the prompt; a completed turn ends with the final non-ending response; a hung-up turn hung up in the last round it used, and ends with the response carrying the message of that round's first hangup (by index), complete and ending the call, then that hangup's tool result with the same message; no response ends the call unless the turn hung up |
| VoiceTurn.Draft | server/llm.py:195-345 | the definition of `draft_response`: the turn run from the prepared prompt; DraftResponse is proved to produce it |
| VoiceTurn.DraftResponse | server/llm.py:195-345 | the turn's requests, events and ending are those of the reference run from the prepared prompt |
| Rows.MergeUnique | my-app/src/app/dbTest/page.tsx:264-269 | an incoming row whose trans_num is listed leaves the list unchanged; otherwise it is appended at the end with every earlier entry kept in order; afterwards exactly the old trans_nums and the incoming one are listed |
| Rows.MergeKeepsUnique | my-app/src/app/page.tsx:124-128 | the reducer preserves "no two entries share a trans_num" |
| Rows.MergeListedIsNoOp | my-app/src/app/page.tsx:125-126 | merging a row with a listed trans_num returns the list unchanged |
| LiveFeed.Feed | my-app/src/app/page.tsx:113-129 | the definition of the list after a notification sequence: it starts empty and each INSERT goes through the deduplicating reducer; FeedInvariant, FeedGrowsAtEnd and FeedStep state its properties |
| LiveFeed.FeedInvariant | my-app/src/app/page.tsx:111-129 | starting empty and fed INSERTs only, the list never holds two entries with one trans_num, lists exactly the inserted trans_nums, and is no longer than the number of INSERTs |
| LiveFeed.FeedGrowsAtEnd | my-app/src/app/page.tsx:128 | later lists extend earlier ones: entries are only added at the end |
| LiveFeed.FeedStep | my-app/src/app/page.tsx:119-129 | an INSERT with a new trans_num appends exactly that row; a known trans_num, or any other kind of notification, leaves the list unchanged |
| RouteFeed.SampleRow | my-app/src/app/route/page.tsx:30-44 | the inserted record has is_fraud false, amount 100, the fixed card string, the current time as its date, and an integer trans_num in [0, 1000000) |
| RouteFeed.Feed | my-app/src/app/route/page.tsx:63-70 | every notification of every kind is listed, one entry per notification, in order |
| RouteFeed.FeedAppends | my-app/src/app/route/page.tsx:70 | one notification appends exactly its payload at the end, earlier entries unchanged |
| SeedUpload.FindCustomer | my-app/src/app/dbTest/page.tsx:171-201 | the lookup by card finds a customer iff one has that card, and what it finds has that card |
| SeedUpload.DatePart | my-app/src/app/dbTest/page.tsx:226-230 | the date is a prefix of the timestamp without "T", followed by the first "T" when there is one |
| SeedUpload.NewTransaction | my-app/src/app/dbTest/page.tsx:226-235 | the definition of the inserted record: the seed's fields spread, a fresh trans_num, the date part and time, is_fraud "no", the group's card and the found customer's id |
| SeedUpload.CustomerStep | my-app/src/app/dbTest/page.tsx:171-189 | the definition of one pass of the customer loop; CustomerStepSpec states its cases |
| SeedUpload.CustomerStepSpec | my-app/src/app/dbTest/page.tsx:171-189 | a seed customer is skipped exactly when its lookup fails, a customer with its card exists, or its insert fails; otherwise it is appended with the next id and the id advances; cards already found stay found, no second customer for a card, transactions untouched |
| SeedUpload.CustomerPhaseSpec | my-app/src/app/dbTest/page.tsx:170-189 | the customer loop only appends customers, at most one per seed, each a seed customer whose lookup and insert succeeded, numbered on from the next id; never a second one with a card already present; the transactions are untouched; every seed customer whose calls succeed is present afterwards |
| SeedUpload.TxStep | my-app/src/app/dbTest/page.tsx:208-241 | the definition of one pass of the inner transaction loop; TxStepSpec states its cases |
| SeedUpload.GroupStep | my-app/src/app/dbTest/page.tsx:195-242 | the definition of one card's pass: skipped without a customer for the card, else its transactions in order |
| SeedUpload.Upload | my-app/src/app/dbTest/page.tsx:168-243 | the definition of a whole run, the customer loop then the transaction loops; UploadBulkData is proved to compute it |
| SeedUpload.UniqueTriplesStep | my-app/src/app/dbTest/page.tsx:209-225 | appending a row with no earlier row of its card, merchant and amount keeps those triples unique |
| SeedUpload.TxStepSpec | my-app/src/app/dbTest/page.tsx:208-241 | a seed transaction is skipped (tables unchanged) exactly when its lookup fails, a row with its card, merchant and amount exists, or its insert fails; otherwise exactly one row is appended, the record built from the seed, the group's card and the card's customer id; customers untouched, the added rows stay well formed and the triples unique |
| SeedUpload.GroupTxsSpec | my-app/src/app/dbTest/page.tsx:208-242 | a card's transaction loop keeps the customers, only appends, at most one row per seed; every added row is the record built for one of the group's seeds with the group's card and its customer's id, uuid and time of that position, and is well formed and new |
| SeedUpload.TxPhaseSpec | my-app/src/app/dbTest/page.tsx:195-243 | the transaction phase keeps the customers and only appends transactions; each added one is the record built for a seed of some group whose card lookup succeeded and found a customer, with that group's card and that customer's id as user (so is_fraud "no" and its date the part of its time before "T"), and has no earlier row with its card, merchant and amount |
| SeedUpload.HasTxGrows | my-app/src/app/dbTest/page.tsx:209-215 | a duplicate found in a table is still found after rows are appended |
| SeedUpload.GroupTxsComplete | my-app/src/app/dbTest/page.tsx:208-242 | without faults, every seed transaction of the card is present after its loop |
| SeedUpload.TxPhaseComplete | my-app/src/app/dbTest/page.tsx:195-243 | without faults, every seed transaction of a card that has a customer is present afterwards |
| SeedUpload.CustomerPhaseNoOp | my-app/src/app/dbTest/page.tsx:182 | when every seed card already has a customer, the customer loop changes nothing |
| SeedUpload.GroupTxsNoOp | my-app/src/app/dbTest/page.tsx:222-225 | when every seed transaction of a card is present, its loop changes nothing |
| SeedUpload.TxPhaseNoOp | my-app/src/app/dbTest/page.tsx:222-225 | when every seed transaction is present, the transaction phase changes nothing |
| SeedUpload.UploadTwiceInsertsNothing | my-app/src/app/dbTest/page.tsx:168-245 | a second run without faults after a run without faults inserts no customer and no transaction |
| SeedUpload.Backend.constructor | my-app/src/app/dbTest/page.tsx:168 | the backend starts with the given tables |
| SeedUpload.Backend.SelectCustomer | my-app/src/app/dbTest/page.tsx:171-175 | the customer query fails exactly when told to, else answers the first customer with the card or null |
| SeedUpload.Backend.SelectTransaction | my-app/src/app/dbTest/page.tsx:209-215 | the duplicate query fails exactly when told to, else answers whether a row with card, merchant and amount exists |
| SeedUpload.Backend.InsertCustomer | my-app/src/app/dbTest/page.tsx:183 | on success the customer is appended with the next id and the id advances; on failure nothing changes; transactions are untouched |
| SeedUpload.Backend.InsertTransaction | my-app/src/app/dbTest/page.tsx:237 | on success the row is appended; on failure nothing changes; customers are untouched |
| SeedUpload.UploadBulkData | my-app/src/app/dbTest/page.tsx:168-243 | the nested loops with `continue` leave the tables exactly as the reference run computes |
| SeedUpload.AsRecords | my-app/src/app/dbTest/page.tsx:49 | the fetched rows become list entries one for one, in order |
| SeedUpload.TransactionList.constructor | my-app/src/app/dbTest/page.tsx:41 | the list starts empty |
| SeedUpload.TransactionList.FetchTransactions | my-app/src/app/dbTest/page.tsx:43-50 | an error leaves the list unchanged; success replaces it wholesale with the fetched rows |
| SeedUpload.TransactionList.Receive | my-app/src/app/dbTest/page.tsx:251-270 | every kind of notification goes through the deduplicating reducer, which preserves unique trans_nums |
| Dashboard.Group | my-app/src/app/admin/page.tsx:280-287 | the definition of the keyed `forEach` grouping: a new key is listed and starts a bucket, a known one adds to its bucket; GroupSpec states its meaning |
| Dashboard.GroupSpec | my-app/src/app/admin/page.tsx:280-287 | the keyed grouping (the same loop shape builds the category totals and the daily trend) lists each key once, exactly the keys that occur, with a bucket for exactly the listed keys; each bucket has count ≥ 1 equal to the key's number of rows and total equal to the sum of their values; counts add up to the number of rows and totals to the sum of all values |
| Dashboard.GroupBy | my-app/src/app/admin/page.tsx:280-287 | the grouping loop builds that grouping, keys in first-seen order, with the same guarantees |
| Dashboard.SumOfCounts | my-app/src/app/admin/page.tsx:289-290 | the per-label counts and totals read out of the buckets add up to the bucket sums |
| Dashboard.CategoryKey | my-app/src/app/admin/page.tsx:283 | the definition of the segment key: an empty (falsy) category becomes "Unknown"; BreakdownKeys and VolumeKeys state the keys it produces |
| Dashboard.BreakdownKeys | my-app/src/app/admin/page.tsx:97 | a key occurs exactly when some row's category (or "Unknown" for an empty one) is that key |
| Dashboard.Breakdown | my-app/src/app/admin/page.tsx:95-102 | distinct labels, exactly the rows' categories with "" grouped as "Unknown"; each amount is the sum of amt over that label's rows; all amounts add up to the sum of all amounts |
| Dashboard.VolumeKeys | my-app/src/app/admin/page.tsx:283 | a volume key occurs exactly when some row's category (or "Unknown") is that key |
| Dashboard.Averages | my-app/src/app/admin/page.tsx:291-293 | each average is the label's risk total divided by its count |
| Dashboard.BarColour | my-app/src/app/admin/page.tsx:271-298 | "#FF6384" iff the average risk is at least 0.5, "#36A2EB" iff it is below |
| Dashboard.Colours | my-app/src/app/admin/page.tsx:296-298 | one colour per average, each chosen by the threshold |
| Dashboard.Volume | my-app/src/app/admin/page.tsx:280-298 | distinct labels, exactly the categories; every count is that category's row count and at least 1; counts sum to the number of rows; each average is risk total over count; each colour follows the threshold |
| Dashboard.InsertByRank | my-app/src/app/admin/page.tsx:234-236 | inserting into a date-ordered list keeps it ordered and adds exactly the new label |
| Dashboard.SortByRank | my-app/src/app/admin/page.tsx:234-236 | the sorted labels are ordered by date and a permutation of the input |
| Dashboard.DistinctMultiset | my-app/src/app/admin/page.tsx:234 | a list has no repeats exactly when every element occurs at most once in its multiset |
| Dashboard.TrendKeys | my-app/src/app/admin/page.tsx:228 | a date key occurs exactly when some row has that date |
| Dashboard.Trend | my-app/src/app/admin/page.tsx:226-239 | distinct labels, exactly the rows' dates, in ascending date order; each average is the mean of risk_fact over that date's rows (at least one) |
| Dashboard.FirstBin | my-app/src/app/admin/page.tsx:341-346 | from bin i on, a bin is found exactly when bins[i] ≤ score < 1.0, and it is the first j ≥ i with bins[j] ≤ score < bins[j+1] |
| Dashboard.BinOf | my-app/src/app/admin/page.tsx:341-346 | the definition of the bin a score is counted in, the first whose bounds enclose it; BinOfSpec states its meaning |
| Dashboard.BinOfSpec | my-app/src/app/admin/page.tsx:323-346 | a score falls in some bin exactly when 0 ≤ score < 1.0 (1.0 itself in none), in the bin whose bounds enclose it |
| Dashboard.SumNatIncrement | my-app/src/app/admin/page.tsx:343 | incrementing one bin raises the bin sum by one |
| Dashboard.NoScoresNoBars | my-app/src/app/admin/page.tsx:338 | the zero-filled bins sum to 0 |
| Dashboard.Bump | my-app/src/app/admin/page.tsx:339-346 | the definition of counting one score into the bars; CountedStep states what it keeps |
| Dashboard.CountedStep | my-app/src/app/admin/page.tsx:339-347 | counting one more score keeps every bin equal to its number of scores in range |
| Dashboard.CountScore | my-app/src/app/admin/page.tsx:340-346 | the for/break loop over bins increments at most one bin, the one the score falls in |
| Dashboard.Distribution | my-app/src/app/admin/page.tsx:338-347 | five bins, bin b holding the number of scores in [bins[b], bins[b+1]); the bins plus the scores outside [0, 1) add up to the number of rows |
| Dashboard.BinLabels | my-app/src/app/admin/page.tsx:349-351 | exactly bins.length - 1 = 5 labels |
| Dashboard.BinLabelsText | my-app/src/app/admin/page.tsx:349-351 | the labels are "0.0 - 0.2", "0.2 - 0.4", "0.4 - 0.6", "0.6 - 0.8", "0.8 - 1.0" |
| Dashboard.CountHighRisk | my-app/src/app/admin/page.tsx:390-392 | at most the number of rows; all rows exactly when every risk is ≥ 0.5; none exactly when every risk is < 0.5 |
| Dashboard.HighRiskPercentage | my-app/src/app/admin/page.tsx:389-393 | in [0, 100]; 0 with no rows; otherwise 100·high/total; 100 iff all rows are high risk; 0 iff none is |
| Dashboard.PercentageBounds | my-app/src/app/admin/page.tsx:393 | (high/total)·100 lies in [0, 100] for 0 < total and high ≤ total |
| Dashboard.GaugeSlices | my-app/src/app/admin/page.tsx:396-399 | two slices, the high-risk percentage and its complement, each in [0, 100], summing to 100 |
| Recorder.PadTwo | my-app/src/components/audio.tsx:171 | left-pads with "0" to at least two characters, keeping the string as its suffix |
| Recorder.PadTwoValue | my-app/src/components/audio.tsx:171 | a number below 100 padded is two digits reading back as the number |
| Recorder.FormatDuration | my-app/src/components/audio.tsx:168-172 | the definition of `formatDuration`: minutes and remaining seconds, each padded to two digits, around ":"; FormatDurationRoundTrip and ParseDurationRoundTrip state its meaning |
| Recorder.FormatDurationRoundTrip | my-app/src/components/audio.tsx:168-172 | for durations under 6000 s the label is five characters, digits around ':' at index 2, and minutes·60 + seconds reads back the duration |
| Recorder.PadTwoOfValue | my-app/src/components/audio.tsx:171 | two digits are reproduced by padding their value |
| Recorder.ParseDurationRoundTrip | my-app/src/components/audio.tsx:168-172 | every well-formed label with seconds below 60 is the format of its own value |
| Recorder.AudioRecorder.constructor | my-app/src/components/audio.tsx:11-17 | not recording, nothing recorded, not playing, duration 0, match status "none", no base64 |
| Recorder.AudioRecorder.Shown | my-app/src/components/audio.tsx:208-268 | the four control groups are pairwise exclusive except that Stop shows with a playback group exactly while recording with a recording present; some group always shows |
| Recorder.AudioRecorder.ShowsMatchPanelOrBase64 | my-app/src/components/audio.tsx:272-290 | the match panel and the base64 note never show |
| Recorder.AudioRecorder.StartRecording | my-app/src/components/audio.tsx:36-72 | with microphone access: recording, duration 0, status "none", a recorder and a running interval, and an interval still running from before counted as leaked (its handle is overwritten); without access nothing changes |
| Recorder.AudioRecorder.Tick | my-app/src/components/audio.tsx:66-68 | each tick of a live interval adds exactly 1 to the duration |
| Recorder.AudioRecorder.StopRecording | my-app/src/components/audio.tsx:74-82 | with no recorder nothing changes; otherwise recording stops and the interval is cleared |
| Recorder.AudioRecorder.RecorderStopped | my-app/src/components/audio.tsx:44-60 | the recorder's stop handler stores the url and the samples |
| Recorder.AudioRecorder.PlayAudio | my-app/src/components/audio.tsx:120-140 | with audio and samples, playing starts and a frame is scheduled; otherwise nothing changes |
| Recorder.AudioRecorder.PlaybackFrame | my-app/src/components/audio.tsx:125-136 | a frame before the end schedules another; one at or past the end sets playing false |
| Recorder.AudioRecorder.StopAudio | my-app/src/components/audio.tsx:142-154 | with the audio element present, playing stops and no frame stays scheduled |
| Recorder.AudioRecorder.ReRecord | my-app/src/components/audio.tsx:156-161 | url, samples and base64 cleared, duration 0, status "none" |
| ResetProxy.Delete | my-app/pages/api/reset/route.ts:5-32 | no (or an empty) backend URL: 500 with the configuration error and no upstream call; else one DELETE to URL + "/reset"; an ok upstream becomes 200 with its body; a non-ok one passes status and body through; a throw from fetch or from parsing becomes 500 with the error and details |
| ResetProxy.ReplyShape | my-app/pages/api/reset/route.ts:9-31 | the only success status the route answers is 200; it forwards the upstream body exactly when that body parsed; every error body it makes is a 500 |
| TransactionUpdate.UpdateTransaction | server/db.py:31-49 | exactly one of success and error, data only with success; a raise gives only the exception error naming trans_num; null or empty data gives only "No rows updated for transaction number: …"; n > 0 rows give "Updated n row(s)." with those rows |
| TransactionUpdate.SuccessMessageCount | server/db.py:44 | the success message's digits read back as the number of rows |
| TransactionUpdate.ApplyUpdate | server/db.py:11-35 | the table keeps its length; at most as many rows come back as the table has |
| TransactionUpdate.UpdateSetsFields | server/db.py:11-35 | matching rows get exactly the given fields and keep every other column; other rows are unchanged |
| TransactionUpdate.UpdatedRowsCount | server/db.py:32-38 | when the fields do not overwrite trans_num: no row comes back exactly when no row matches, and every returned row matches |
| TransactionUpdate.UpdateSucceedsIffMatch | server/db.py:32-46 | when the fields do not overwrite trans_num, the outcome is a success exactly when some row has the trans_num |
| Decimal.NatToString | server/db.py:44 | the decimal rendering of a natural is non-empty digits without a leading zero (except "0") |
| Decimal.ValueOfNatToString | server/db.py:44 | the rendering reads back as the number |
| Decimal.NatToStringOfValue | my-app/src/components/audio.tsx:171 | digits without a leading zero are the rendering of their value |

## Left out

- Prompt texts (server/prompts.py) are opaque inputs. The context message shows the transaction and the user as given strings (`Agent.transactionText`, `Agent.userText`).
- `transaction_details` is documented as a string, but the tools call `.get` on it, which needs a dict. The model keeps it as a string-to-string map for `.get` and as an opaque rendering for the prompt.
- A tool-call fragment whose `function` is None is not modelled: a call's name and arguments are optional strings of the fragment itself, so where the accumulation at server/llm.py line 226 and the dispatch at line 260 would raise AttributeError, the model treats them as absent arguments (appended as "", parsed as `{}`) and an absent name (no tool branch).
- Parsed tool arguments are string-to-string maps. JSON values that are neither objects nor strings (where `args.get` would raise, or a non-string response would print differently) are not modelled.
- `prepare_functions` returns None for modes other than 0 and 1. The model records that the request then carries no tools (`OtherModesHaveNoTools`). The model's own behaviour with no tools is an input like any other stream.
- The LLM stream is a finite sequence of rounds. A turn whose rounds run out before it ends ends `OutOfRounds`; the source would keep asking the model.
- The TypeError from appending to a call whose first fragment had no arguments is the ending `Raised`. What the caller does with the exception is not modelled.
- Streaming, async generators, the Retell/FastAPI setup and `draft_begin_message` are not modelled; yields are an ordered event list.
- `update_trans` and `set_locked` are not defined in server/db.py, so their behaviour is not modelled. They are recorded with their arguments.
- `Object.keys` lists integer-like keys first in ascending order. The model lists every key in insertion order.
- Risk scores are reals. Null or NaN scores, and JavaScript's `null >= 0`, are not modelled.
- Floating-point rounding of amounts, averages and percentages is not modelled. Reals are exact.
- The trend chart's `new Date(a).getTime()` comparator is an abstract rank function on date keys, so invalid dates (NaN) are not modelled. `Dashboard.SortByRank` is a stable insertion sort rather than the engine's sort.
- The admin page's realtime handler reads an unbound `updates` variable and is not modelled. The charts' `updates` props are unused by the aggregations.
- `maybeSingle`'s error when several rows match is the vendor's and is not modelled: a lookup answers the first match.
- The 3000 ms wait in the seed upload, and the upload's trailing `fetchTransactions()` (not awaited), are not modelled.
- `SeedUpload.Backend.InsertCustomer`: a failed insert consumes no id, while a real database sequence may.
- The seed data constants of the page are parameters, not the literal lists.
- The card-number lookup before a card's transactions ignores its error result. A failing lookup is modelled as finding no customer.
- Browser media APIs (MediaRecorder, AudioContext, canvas drawing, animation frames, timers) are not modelled. Ticks, stops and playback progress are method calls.
- `Recorder.AudioRecorder.StopAudio`: the `audioRef.current` guard is modelled as "a recording URL is present", since the `<audio>` element is rendered exactly then.
- The ML scripts and the presentation-only pages are not modelled.
