# Verification models of the Vynkor plugins

The plugins in this repository are small Rust programs that talk over one kernel connection. These Dafny
modules model the parts with the most state, arithmetic or interleaving and prove what they are for, over
every input, every run or every interleaving.

| file | what it models |
|---|---|
| `Text.dfy` | the pieces of Rust's string library the other modules use: searching, splitting, lines, decimal printing |
| `Civil.dfy` | civil dates: day numbers, weekdays, leap years |
| `DateTime.dfy`, `Duration.dfy` | printing and parsing of iCalendar date-times and alarm durations (sections 3.3.5 and 3.3.6 of RFC 5545) |
| `Width.dfy` | where the unbounded integers of these modules are the program's 64-bit ones, and what the day loop sees where they are not |
| `Rrule.dfy`, `RuleMeaning.dfy`, `RruleText.dfy`, `Occurrences.dfy` | recurrence rules: their meaning, their text, their expansion (DAILY, WEEKLY, WEEKLY with BYDAY, MONTHLY with clamped days) and its import window |
| `IcsText.dfy`, `Octets.dfy`, `Folding.dfy` | text escaping, UTF-8 octets, folding by octets and unfolding (section 3.1 of RFC 5545) |
| `Ics.dfy`, `IcsRoundTrip.dfy`, `UidBreak.dfy` | the iCalendar parser, the generator, their round trip, and what becomes of UIDs that are written as they stand |
| `EventText.dfy`, `RuleImport.dfy` | the import seen from the text: what each written property of an event becomes, and the occurrences of a rule that stands in it |
| `Sse.dfy` | the incremental server-sent-events decoder |
| `Mux.dfy` | the loop of the `ai` plugin that owns the connection: pending calls, upstream streams, cancels, timeouts |
| `StreamHandler.dfy` | the handler of one streamed chat: its frames for every upstream event sequence and cancel point |
| `GoalTrace.dfy`, `Transcript.dfy`, `Engine.dfy`, `EngineRuns.dfy` | the agent's goal loop: what a lawful life of a goal guarantees, what the model is told of it, the engine that makes only lawful lives and reaches the kernel and the model only where they permit it, and runs that show where the guarantees end |
| `Embed.dfy`, `EmbedPass.dfy` | the embedding queue of `chats`, interleaved with session deletion and cleanup |
| `Memory.dfy` | the agent's memory index against the vector store |
| `Json.dfy`, `JsonScan.dfy`, `Template.dfy`, `Mask.dfy` | JSON values, the scanner for the first balanced object, payload templates, masking of secrets |

Code that changes state step by step is a class or a method with loops, proved equal to a function of its
inputs or its old state; what the code promises is then proved about that function, usually against a second
definition that looks at one call, one session or one day at a time. What happens between two steps of a
program (another task, a remote call, the clock) is nondeterministic or an arbitrary script. The agent's
engine logs each request to the kernel and each question to the model in the one method that can make it.

## What came out

Most properties hold as documented. Where one does not, the code is kept as it is, a lemma names an input,
and another says exactly when the property holds:

- `occurrences` promises all occurrences in a window, but its cap of 500 also counts those before the window.
  The promise is kept exactly when the rule has at most 500 occurrences up to the end of the window or all of
  them lie before it (`Occurrences.OccurrencesComplete`); a daily event that is 1000 days old yields nothing
  (`Occurrences.OldDailyEventIsLost`).
- Folding backs up over blanks and makes no progress on 71 blanks in a row. It runs forever exactly when the
  line has such a run after its second octet and folding does not panic before it (`Folding.FoldTerminates`);
  a title of 72 blanks is enough to hang the export (`Folding.BlanksDiverge`).
- Folding slices by octets and panics exactly when one of its cuts is inside a character
  (`Folding.FoldPanics`). Without blanks the cuts are at octets 72, 143, 214 and so on
  (`Folding.BlankFreePanics`), so a title of 68 Cyrillic letters is enough (`Folding.LongTextPanics`). ASCII
  never panics. The export is a text exactly when the UID, title and description of each document fold
  (`IcsRoundTrip.ExportSucceeds`).
- The export writes a UID as it stands and the import unescapes it. A list of documents comes back as it was
  exactly when the texts hold no CR, which becomes LF, and no UID holds an LF, or a backslash before its last
  character (`UidBreak.CalendarIsExact`). A UID `a\b` comes back as `ab` (`IcsRoundTrip.BackslashUidIsLost`), so
  an import, which tells events apart by their UID, adds the event a second time. A UID with an LF is written as
  several lines, and no event of the import carries it (`UidBreak.BrokenUidIsLost`); over a whole calendar,
  characters are lost exactly when one of its UIDs is of these two kinds (`UidBreak.UidsAreKept`).
- A printed time stamp is read back exactly for the years 0 to 9999 (`DateTime.DateTimeRoundTrip`); a reminder
  after the start of its event is printed but not read back (`Duration.DurationRoundTrip`).
- The event decoder takes a blank line of two lone CRs as the end of an event, as its comment says, but does
  not split lines at a lone CR, so only payloads of one line survive (`Sse.LoneCrKeepsSingleLines`).
- A monthly expansion gives up after 1200 months. A list of more than 1200 occurrences falls short exactly when
  the rule has more of them (`Rrule.CutIsEnough`); the import asks for 500.
- Day numbers, months and durations are 64-bit. What an expansion computes fits exactly when
  `Rrule.RuleFits` says so (`Rrule.ExpandRrule`): the first day or week must fit, and unless COUNT, UNTIL
  or the cap ends the loop before, the first day, week or month beyond the horizon too, or month 1201 if that comes
  first. Without that the day loop sees wrong instants (`Width.DayLoopIsTrue`): with an interval of 213503982335
  days, 225 rounds in a row fall within the next 90 days (`Width.LongIntervalMisleads`), where the rule has no
  instant (`Width.LongIntervalIsEmpty`). Intervals of up to a million always fit (`Width.ModestRulesFit`). The sum
  of a duration fits exactly when its value does (`Width.DurationFits`).
- The turn that tells the model a result is read back exactly unless the tool's name holds a line break or leaves no
  room in the 8192 characters (`Transcript.ObservationTells`).
- A streamed chat leaves its upstream session open in two cases only, both when the upstream speaks out of turn
  (`StreamHandler.UpstreamIsReleased`, with both cases in `StreamHandler.UpstreamIsLeftOpen`).
- The catalog is loaded again on resume. A tool that has left it is then requested all the same, uncounted
  (`EngineRuns.MissingToolIsRequested`), and only then (`GoalTrace.MissingOnlyAfterApproval`).
- Every return of the engine ends the goal or halts it, with one exception that can be told before the call: an
  approved call whose tool is in the catalog, whose quota is used up or cooling, and whose refusal still fits
  into the transcript (`Engine.Goal.Resume`). A tool limited to one call per goal and called twice is enough
  (`EngineRuns.StrandedGoal`).
- A halt is answered once only if resumes of one goal do not overlap: two approvals that load the same stored
  document make the call twice (`EngineRuns.OverlappingApprovals`).

## Model

| member | source | states |
|---|---|---|
| `Civil.Epoch` | plugins/calendar/src/ics.rs:39-66 | 1 January 1970 is day 0, a Thursday |
| `Civil.TomorrowIsNextDay` | plugins/calendar/src/ics.rs:41-49 | the calendar day after any valid date, negative years included, has the next day number; with `Epoch` this pins every day number down |
| `Civil.DaysFromCivilIncreases` | plugins/calendar/src/ics.rs:41-49 | day numbers are ordered exactly as dates are by year, month, day |
| `Civil.DateRoundTrip` | plugins/calendar/src/ics.rs:41-62 | the conversion back from the day number of any valid date gives that date |
| `Civil.DayRoundTrip` | plugins/calendar/src/ics.rs:41-62 | every integer is the day number of the valid date it converts to |
| `Civil.YearOfEra` | plugins/calendar/src/ics.rs:51-62 | the divisions by 1460, 36524 and 146096 recover the year within a 400-year era from any of its days |
| `Civil.WeekdayAdvances` | plugins/calendar/src/ics.rs:64-66 | the weekday is one of seven and moves on by one, modulo 7, each day |
| `Civil.WeekdayRepeats` | plugins/calendar/src/ics.rs:64-66 | the weekday repeats after any number of whole weeks, forwards and backwards |
| `DateTime.DateTimeRoundTrip` | plugins/calendar/src/ics.rs:88-135 | printing and parsing gives the instant rounded down to the second, or the day, with the same all-day flag, exactly for years 0 to 9999 |
| `DateTime.ParsedInstant` | plugins/calendar/src/ics.rs:88-122 | whatever is accepted denotes a valid date of four-digit year and a time of day; a whole day is reached only with a time part |
| `DateTime.TimeIsOptional` | plugins/calendar/src/ics.rs:88-122 | of any value with at least eight digits: what is accepted, and the instant it denotes, with the hours, minutes and seconds as far as they are written; without a T it is a whole day |
| `DateTime.FewDigitsAreRefused` | plugins/calendar/src/ics.rs:88-122 | fewer than eight digits are an error |
| `Duration.ParseDuration` | plugins/calendar/src/ics.rs:214-245 | the loop reads exactly what the character machine of a duration says, and rejects what it rejects; in unbounded integers, see `Width.DurationFits` |
| `Duration.DurationRoundTrip` | plugins/calendar/src/ics.rs:214-255 | what each 64-bit reminder is read back as: whole seconds before the start, zero within the second after it, nothing later |
| `Duration.DurationIsRead` | plugins/calendar/src/ics.rs:214-245 | every duration that can be written, with any sign and any of its parts, is read as its length; days replace weeks |
| `Duration.OnlyDurationsAreRead` | plugins/calendar/src/ics.rs:214-245 | what is read begins with a P after its sign and holds only digits and units, weeks and days before the T, hours, minutes and seconds after it |
| `Width.DurationFits` | plugins/calendar/src/ics.rs:219-244 | every product and partial sum of a readable duration fits 64 bits exactly when its value does |
| `Width.LongDurationOverflows` | plugins/calendar/src/ics.rs:219-244 | 106751991168 days are read and do not fit |
| `Rrule.Collector.Push` | plugins/calendar/src/ics.rs:300-317 | offering the next candidate keeps the list of the smallest members complete, or ends it at COUNT, UNTIL or the cap |
| `Rrule.ExpandDays` | plugins/calendar/src/ics.rs:319-356 | every interval-th day: exactly the first members of that set, in order; all products and instants fit 64 bits exactly when the start does and the loop stops early or the first day beyond the horizon fits |
| `Rrule.ExpandWeeks` | plugins/calendar/src/ics.rs:330-347 | the listed weekdays of every interval-th week that starts on Monday: exactly the first members, in order; the same of its products and instants, with the first Monday beyond the horizon |
| `Rrule.ExpandMonths` | plugins/calendar/src/ics.rs:357-375 | every interval-th month with the day clamped to the month, without end: exactly the first members, in order, as many as asked for but at most 1200; all products and instants fit 64 bits exactly when the loop stops early or the instant of the first month beyond the horizon, or else of month 1201, fits |
| `Rrule.CutIsEnough` | plugins/calendar/src/ics.rs:357-375 | a list cut at 1200 is the list asked for exactly when no more were asked for or no member is left |
| `Rrule.ExpandRrule` | plugins/calendar/src/ics.rs:277-381 | for every rule text the result is the first members, as many as COUNT and the cap allow, of the instants the rule stands for; of a monthly rule at most 1200; what it computes fits 64 bits exactly when the condition of its loop holds |
| `Width.DayLoopIsTrue` | plugins/calendar/src/ics.rs:320-329 | the day loop, in wrapping 64-bit arithmetic, sees the true product in every round up to the first one beyond the horizon exactly when the products fit |
| `Width.LongIntervalMisleads` | plugins/calendar/src/ics.rs:320-329 | with 213503982335 days, each of the first 225 rounds of that loop sees an instant of the next 90 days that is not in the rule |
| `Width.LongIntervalIsEmpty` | plugins/calendar/src/ics.rs:320-329 | that rule has no instant in those 90 days, and its products do not fit |
| `Width.MonthCountFits` | plugins/calendar/src/ics.rs:357-375 | where a month's instant fits, so does the number of months added to reach it |
| `Width.ModestRulesFit` | plugins/calendar/src/ics.rs:319-381 | for instants within 2^61 ms and an interval of at most a million, every rule fits |
| `RruleText.RuleIsRead` | plugins/calendar/src/ics.rs:261-298 | every rule written out (a frequency, an interval that fits, an end in whole seconds, weekdays) is read back exactly |
| `RruleText.LoosePartIsRead` | plugins/calendar/src/ics.rs:288-298 | what each part of a rule sets, whatever blanks and case it is written in; an interval that is no number or less than 1 counts as 1; other parts set nothing |
| `RruleText.OrdinalsAreIgnored` | plugins/calendar/src/ics.rs:261-298 | weekdays with numbers before them and blanks around them are read as the plain weekdays |
| `RuleImport.CountedIsRead` | plugins/calendar/src/ics.rs:277-298 | a rule written with a COUNT is read exactly, and so is the COUNT |
| `RuleImport.CountIncludesFirst` | plugins/calendar/src/ics.rs:504-532 | a rule with COUNT=n has n occurrences, the start included, or as many as there are; without a COUNT it has all |
| `Rrule.FirstMembersUnique` | plugins/calendar/src/ics.rs:277-381 | that description leaves one possible result |
| `RuleMeaning.RuleMeans` | plugins/calendar/src/ics.rs:319-375 | the instants a rule stands for, by remainders and calendar dates alone: every interval-th day or week; the listed weekdays of every interval-th week from Monday on; or the same day of every interval-th month, its last day where it is shorter; at the same time of day |
| `Occurrences.TailExists` | plugins/calendar/src/ics.rs:504-532 | every rule has a finite list of all its occurrences up to a time, as many as COUNT allows |
| `Occurrences.Occurrences` | plugins/calendar/src/ics.rs:504-532 | the starts in the window of the event and of the first 500 of all its recurrences up to the end of the window |
| `Occurrences.DocumentedAre` | plugins/calendar/src/ics.rs:502-532 | the documented promise, instant by instant: the start and every later occurrence that lies in the window, in order |
| `Occurrences.OccurrencesComplete` | plugins/calendar/src/ics.rs:502-532 | the documented promise of all occurrences is kept exactly when there are at most 500 after the start, or all end before the window |
| `Occurrences.OldDailyEventIsLost` | plugins/calendar/src/ics.rs:502-532 | a daily event 1000 days old loses all of its 91 occurrences in the window |
| `IcsText.EscapeText` | plugins/calendar/src/ics.rs:141-153 | the loop escapes every character as section 3.3.11 of RFC 5545 says |
| `IcsText.UnescapeText` | plugins/calendar/src/ics.rs:155-173 | the loop undoes one escape at a time, left to right |
| `IcsText.EscapeRoundTrip` | plugins/calendar/src/ics.rs:141-173 | unescaping an escaped text gives the text back with every CR as LF: the same text exactly when it has no CR |
| `IcsText.UnescapeKeeps` | plugins/calendar/src/ics.rs:155-173 | a text is its own unescaped form exactly when no backslash stands before its last character |
| `IcsText.EscapeIsOneLine` | plugins/calendar/src/ics.rs:141-153 | an escaped text holds no line break |
| `IcsText.EscapeQuotes` | plugins/calendar/src/ics.rs:141-153 | backslashes, semicolons, commas and line breaks are written after a backslash, every other character as it stands |
| `IcsText.TokensAreRead` | plugins/calendar/src/ics.rs:155-173 | a backslash quotes the character after it, `n` and `N` after one are line breaks, and a last backslash stands for itself |
| `Folding.FoldLine` | plugins/calendar/src/ics.rs:538-569 | for every line the loop writes the segments cut by the specification, panics inside a character, or never returns |
| `Octets.IndexAtCuts` | plugins/calendar/src/ics.rs:543-569 | a slice of the text at an octet exists exactly when that octet does not continue a character, and its octets are the slices of the octets |
| `Octets.Utf8CharIs` | plugins/calendar/src/ics.rs:538-569 | the octets that are counted and cut are those of UTF-8, bit by bit |
| `Folding.FoldTerminates` | plugins/calendar/src/ics.rs:543-569 | folding runs forever exactly when 71 blanks in a row follow the second octet and no earlier cut panics |
| `Folding.BlanksDiverge` | plugins/calendar/src/ics.rs:543-569 | a summary of 72 blanks never folds |
| `Folding.FoldPanics` | plugins/calendar/src/ics.rs:543-569 | folding panics exactly when one of its cuts is before an octet that continues a character |
| `Folding.BlankFreePanics` | plugins/calendar/src/ics.rs:543-569 | without blanks: exactly when octet 72, 143, 214 and so on continues a character |
| `Folding.LongTextPanics` | plugins/calendar/src/ics.rs:543-569 | more than 143 octets of a name and two-octet letters always panic: a title of 68 such letters does |
| `Folding.FoldedLinesAreShort` | plugins/calendar/src/ics.rs:538-569 | every physical line is at most 72 octets of UTF-8, and the segments put together are the line |
| `Folding.UnfoldLines` | plugins/calendar/src/ics.rs:177-188 | the loop joins each continuation to the line before it |
| `Folding.FoldRoundTrip` | plugins/calendar/src/ics.rs:177-188 | unfolding gives exactly the lines that were folded, for lines that hold no LF, do not start with a blank, and fold |
| `Ics.SplitProperty` | plugins/calendar/src/ics.rs:192-206 | the property name, without parameters, and its value, cut at the first colon outside quotes |
| `Ics.CollectEvents` | plugins/calendar/src/ics.rs:392-437 | the loop collects the events and alarms of the line machine |
| `Ics.ParseIcs` | plugins/calendar/src/ics.rs:453-500 | parsing is unfolding, collecting and converting, or the documented error |
| `EventText.LineIsRead` | plugins/calendar/src/ics.rs:192-206 | a line is the property of its name, in any case and with blanks after it, and its value, whatever parameters with quoted colons stand between |
| `EventText.CalendarMeans` | plugins/calendar/src/ics.rs:392-500 | any calendar of written events, their properties in any order and with any alarms, is read: each event with a readable start, in order, with the first property of each name: LOCATION before the description, RRULE as it stands, an end that is not before the start, and the smallest reminder of its alarms |
| `EventText.NoComponentIsRefused` | plugins/calendar/src/ics.rs:392-500 | a text in which no component begins is an error |
| `RuleImport.RuleIsImported` | plugins/calendar/src/ics.rs:439-532 | an event in whose text a rule is written, wherever among its properties, has exactly the occurrences of that rule |
| `Ics.GenerateIcs` | plugins/calendar/src/ics.rs:577-615 | the loop writes every piece of the calendar in order, each property folded; it panics or hangs at the first that does |
| `IcsRoundTrip.ExportSucceeds` | plugins/calendar/src/ics.rs:577-615 | the export is a text exactly when no UID, title or description has 71 blanks in a row or a cut inside a character |
| `IcsRoundTrip.CalendarRoundTrip` | plugins/calendar/src/ics.rs:392-615 | for documents whose texts fold, whose UID holds no LF, whose times are in the years 0 to 9999 and whose reminder is a 64-bit number: parsing the generated calendar gives one event per document, in order, with title and description (a CR as LF), the UID unescaped, the same all-day flag, times rounded down, the end kept when it is not before the start, and the reminder in whole seconds up to the cap |
| `IcsRoundTrip.EventIsReadBack` | plugins/calendar/src/ics.rs:439-500 | the same for one document: each of its properties is found and read back |
| `IcsRoundTrip.ExportIsConforming` | plugins/calendar/src/ics.rs:577-615 | the first lines and the last of every export, the time stamp of each event, and the action of each alarm |
| `IcsRoundTrip.UidsAreOwn` | plugins/calendar/src/ics.rs:583-586 | documents that were not imported share a UID exactly when they share their id; imported ones keep theirs |
| `IcsRoundTrip.BackslashUidIsLost` | plugins/calendar/src/ics.rs:583-586 | every UID with a backslash before its last character comes back shorter |
| `UidBreak.UidsAreKept` | plugins/calendar/src/ics.rs:392-615 | for documents whose texts fold and whose times and reminders are as above, any UIDs: the export is read without error, and the UIDs of all events together hold no more characters than those written, and as many exactly when no UID holds an LF, or a backslash before its last character |
| `UidBreak.CalendarIsExact` | plugins/calendar/src/ics.rs:392-615 | for the same documents: the calendar parses to the documents as they were exactly when no title or description holds a CR, and no UID an LF, or a backslash before its last character |
| `UidBreak.BrokenUidIsLost` | plugins/calendar/src/ics.rs:577-615 | every event that is read from the export of a document whose UID holds an LF has a shorter UID |
| `Sse.FindEventEnd` | plugins/ai/src/sse.rs:51-60 | the scan returns the first place where a separator starts, and its length |
| `Sse.FindIsFirst` | plugins/ai/src/sse.rs:51-60 | which is the first place of CR LF twice, LF twice or CR twice; nothing else is found |
| `Sse.SseDecoder.Feed` | plugins/ai/src/sse.rs:26-46 | the events returned and the bytes left are those of decoding the old buffer and the chunk together; an error exactly when more than 1 MiB is left |
| `Sse.FindIsStable` | plugins/ai/src/sse.rs:51-60 | more input never moves a separator that was found |
| `Sse.DecodeConcat` | plugins/ai/src/sse.rs:26-46 | decoding a stream is decoding a prefix and then what it left with the rest |
| `Sse.ChunkingIndependent` | plugins/ai/src/sse.rs:26-60 | any split of a stream that meets no error gives the events and the leftover of feeding it whole |
| `Sse.FeedAllSucceeds` | plugins/ai/src/sse.rs:42-45 | a split stream meets no error exactly when no prefix of its chunks leaves more than 1 MiB |
| `Sse.PayloadsDelivered` | plugins/ai/src/sse.rs:24-46 | events printed with LF or CRLF, their data lines with or without the space and with any comments or other lines anywhere between them, fed in any chunks: exactly their payloads come out, and nothing for an event without data; no error while each printed event is at most one byte over the limit |
| `Sse.LongEventIsRefused` | plugins/ai/src/sse.rs:42-45 | a longer event cut before its last byte is refused |
| `Sse.LoneCrKeepsSingleLines` | plugins/ai/src/sse.rs:49-60 | with lone CR line ends a payload comes back exactly when it is a single line |
| `Mux.Loop.OnResponse` | plugins/ai/src/main.rs:335-355 | a response goes to the pending call of its id, else it accepts or fails the upstream session of its id, else it is dropped |
| `Mux.Loop.OnEnd` | plugins/ai/src/main.rs:361-379 | a close or abort ends the upstream session of its id, else it cancels the inbound one |
| `Mux.Loop.OnOutbound` | plugins/ai/src/main.rs:388-439 | the request goes out; a call is registered under a fresh id with its deadline, or told its send error; a stream is registered, or taken back on a send error |
| `Mux.SweepPending` | plugins/ai/src/main.rs:446-458 | a sweep removes every call at or past its deadline and tells each of them `Timeout` |
| `Mux.RunLoop` | plugins/ai/src/main.rs:210-464 | the tables, channels and outgoing frames after any sequence of events, pings, deliveries and plain requests included, are those of the event machine |
| `Mux.CallsAreSeparate` | plugins/ai/src/main.rs:335-458 | in every interleaving a call is told exactly the outcome that its own events give it, at most one, and it waits exactly while it has none |
| `Mux.OutcomeHasCause` | plugins/ai/src/main.rs:335-458 | the outcome is the send error, the call's own response, or `Timeout` at a sweep, at least the time-out of the call after it was made, 30 seconds when it names none |
| `Mux.SweepEndsOverdue` | plugins/ai/src/main.rs:446-458 | no call that is so old survives a sweep |
| `Mux.SessionsAreSeparate` | plugins/ai/src/main.rs:335-445 | the handler of an upstream session receives exactly the frames of its own session, in order, up to its end |
| `Mux.SessionGrammar` | plugins/ai/src/outbound.rs:54-64 | acceptances and chunks, then at most one `Done` or `Failed`, and nothing after it |
| `Mux.CancelsAreSeparate` | plugins/ai/src/main.rs:289-379 | a streamed chat is cancelled once, by the first close or abort of its own session before its task exits |
| `Mux.ClosedAtMostOnce` | plugins/ai/src/main.rs:440-444 | a close goes out at most once per upstream session, exactly when its handler asks while it lives |
| `Mux.RepliesAreForwarded` | plugins/ai/src/main.rs:252-387 | every ping is answered, every delivered event acknowledged and every reply of a task sent once, in order, whatever else goes on |
| `Mux.CallsAreAsked` | plugins/ai/src/main.rs:388-439 | in every run the kernel is asked once for each call and each upstream session, with the caller's request, in the order of the events, and for nothing else |
| `Mux.AskedOnce` | plugins/ai/src/main.rs:388-439 | under the id of a call or a session exactly its own request is sent, streamed or not, once |
| `Mux.OthersAreRefused` | plugins/ai/src/main.rs:273-322 | every streamed request for something else than a chat is refused once, in order, and nothing else is |
| `StreamHandler.OnUpstream` | plugins/ai/src/handler.rs:234-261 | what one upstream event makes the relay send, and whether it goes on |
| `StreamHandler.ReadErrorBody` | plugins/ai/src/handler.rs:201-214 | the loop over the body of a reply that is not 2xx stops where its specification does |
| `StreamHandler.HandleStream` | plugins/ai/src/handler.rs:167-283 | the whole handler sends the frames of its specification, closes the upstream session when that says so, and an error of any stage becomes one last error frame |
| `StreamHandler.FrameGrammar` | plugins/ai/src/handler.rs:152-283 | one error; or the acceptance and deltas numbered 0 to k-1, and then the result numbered k and the close, or one error, or (cancelled or still waiting) nothing |
| `StreamHandler.CancelCuts` | plugins/ai/src/handler.rs:228-233 | a cancelled run sends exactly what the events taken before the cancel give; a cancel that comes too late changes nothing |
| `StreamHandler.RelayIsFaithful` | plugins/ai/src/handler.rs:225-263 | without an error the deltas are the parse of the body taken so far, however it was chunked |
| `StreamHandler.FinishedIsParsed` | plugins/ai/src/handler.rs:225-283 | a finished session is a function of the upstream body alone: the texts and the result of parsing its payloads |
| `StreamHandler.ErrorCarriesBody` | plugins/ai/src/handler.rs:201-214 | the error of a reply that is not 2xx names the status and ends in the bytes of the chunks taken, below 64 KiB before the last; it closes the upstream exactly when it reached the limit |
| `StreamHandler.FailureIsReported` | plugins/ai/src/handler.rs:183-267 | an error is the last frame of its session, and says how preparation, opening or the upstream failed |
| `StreamHandler.ClosesWhenNeeded` | plugins/ai/src/handler.rs:183-267 | a session tells the provider to stop only after the upstream was accepted, when it was cancelled or broke on a chunk; of an accepted stream exactly then |
| `StreamHandler.ChunkBreaks` | plugins/ai/src/handler.rs:233-256 | a chunk breaks the relay exactly when it leaves more than 1 MiB without an event's end or the parser rejects a payload, with the error of the first of these |
| `StreamHandler.UpstreamIsReleased` | plugins/ai/src/handler.rs:183-267 | a session that is over has closed its upstream or seen its end, exactly unless the upstream began with a chunk, or was accepted again after a head that is not 2xx and less than 64 KiB of chunks |
| `StreamHandler.UpstreamIsLeftOpen` | plugins/ai/src/handler.rs:183-267 | both cases, with any bytes: the session ends with an error and the upstream is neither closed nor ended |
| `GoalTrace.DispatchIsAllowed` | plugins/agent/src/engine.rs:365-384 | a call is dispatched only right after the model made it, if that run's catalog lists the tool without a confirmation mark, or right after the operator approved exactly that tool and those params; one request, or two when the first outcome of a device asks for a retry |
| `GoalTrace.RequestIsAllowed` | plugins/agent/src/engine.rs:266-384 | the same of every request to the kernel |
| `GoalTrace.HaltIsAnswered` | plugins/agent/src/lib.rs:373-408 | with resumes that do not overlap, the event after a halt is the answer to it; a decline ends the goal with no request since the halt, and an approval is used up by the event after it |
| `GoalTrace.CallIsAnswered` | plugins/agent/src/engine.rs:365-491 | a call of the model or the operator is refused as unknown, halted, or refused by its quota exactly when the catalog lacks the tool, marks it, or the quota is used up; otherwise it is dispatched |
| `GoalTrace.OneCatalog` | plugins/agent/src/engine.rs:457-491 | with one catalog for the whole life every dispatched tool is in it, and those it marks are exactly the ones dispatched by an approval |
| `GoalTrace.RequestsUseCatalog` | plugins/agent/src/engine.rs:457-491 | so every request is for a tool of the catalog, and carries out an approval exactly when the tool is marked |
| `GoalTrace.MissingOnlyAfterApproval` | plugins/agent/src/engine.rs:365-384 | a tool outside the catalog is dispatched only by an approval |
| `EngineRuns.MissingToolIsRequested` | plugins/agent/src/engine.rs:365-384 | for every halted goal, a resume whose catalog lacks the halted tool requests it |
| `GoalTrace.QuotaHolds` | plugins/agent/src/engine.rs:301-324 | each counted dispatch is within `max_per_goal`, and at least `cooldown_ms` after every earlier one of its tool, loop dispatches and approved ones together |
| `GoalTrace.CountIsBounded` | plugins/agent/src/engine.rs:301-324 | with one catalog the count of a limited tool never exceeds its limit |
| `GoalTrace.RequestsAreBounded` | plugins/agent/src/engine.rs:266-324 | with one catalog a limited tool is requested at most `max_per_goal` times, a device at most twice as often |
| `GoalTrace.BudgetHolds` | plugins/agent/src/engine.rs:387-393 | at most `max_steps` model replies, and at most `max_steps` + 2 steps |
| `GoalTrace.QuestionsAreBounded` | plugins/agent/src/engine.rs:387-435 | the model is asked at most `max_steps` + 1 times: once more only for the retry without native tools |
| `GoalTrace.EndsAreFinal` | plugins/agent/src/store.rs:105-111 | nothing happens to a goal after a terminal status |
| `GoalTrace.ReplayStatus` | plugins/agent/src/engine.rs:365-495 | the status in the document, the halted call it names and the final answer are those of the goal's history |
| `GoalTrace.ReplayCounts` | plugins/agent/src/engine.rs:371-490 | `tool_counts` and `tool_last_ms` are the number and the time of the last counted dispatch of each tool |
| `GoalTrace.ReplaySteps` | plugins/agent/src/engine.rs:250-253 | the step log in the document is the history's, numbered from 1 without a gap |
| `GoalTrace.StepsSay` | plugins/agent/src/engine.rs:283-495 | what the step log says of each event: whether a call succeeded, by its last outcome, or why it was not made, and how the goal halted or ended |
| `Engine.WeaveHistory` | plugins/agent/src/engine.rs:198-213 | the loop inserts the pairs between the first message and the rest |
| `Engine.WovenAlternates` | plugins/agent/src/engine.rs:193-213 | what stands at every place of the woven messages: the first message with the first question at its end, then assistant and user in turn, no pair lost, the goal last |
| `Transcript.ObservationTells` | plugins/agent/src/engine.rs:283-299 | the turn with a result reads back: its first line carries the tool's name and `ok` exactly when the outcome is, the rest is the outcome's text, cut where the turn has 8192 characters; all this exactly unless the name holds a line break or leaves no room |
| `Transcript.RefusalTells` | plugins/agent/src/engine.rs:371-486 | a refusal reads back as an error of its tool with its reason |
| `Transcript.TranscriptTells` | plugins/agent/src/engine.rs:233-299 | in every lawful life each reply of the model, each result and each refusal has its own turn, in order, which says it |
| `Transcript.ReasonIsRead` | plugins/agent/src/engine.rs:301-324 | a refusal shows the limit and the calls made, or the rest of the cooldown and its length; that rest is exactly how long the quota stays closed |
| `GoalTrace.RetryIsExact` | plugins/agent/src/engine.rs:255-264 | which failures are tried again: those of a `dev-` tool with a dot in its name whose error says one of four things anywhere |
| `Engine.Goal.PushTurn` | plugins/agent/src/engine.rs:233-243 | the turn is appended in any case; an error exactly when the transcript is over 262144 characters |
| `Engine.Goal.NextStep` | plugins/agent/src/engine.rs:250-253 | the new step is numbered one after the highest |
| `Engine.Goal.CheckQuota` | plugins/agent/src/engine.rs:301-324 | allowed exactly when the dispatches in the goal's history leave room and the cooldown is over at the clock reading; otherwise the exact reason |
| `Engine.Goal.CallTool` | plugins/agent/src/engine.rs:273-281 | the only way to reach the kernel: permitted only for the call being dispatched, once, and again when the first outcome asks for it; logged |
| `Engine.Goal.DispatchAndObserve` | plugins/agent/src/engine.rs:266-299 | one dispatch with all its requests, and one observation turn with the last outcome, cut at 8192 characters; the step is logged exactly when the transcript still fits |
| `Engine.Goal.Chat` | plugins/agent/src/engine.rs:398-435 | the only way to reach the model: permitted only with budget left, native tools only before they were given up; logged |
| `Engine.Goal.Ask` | plugins/agent/src/engine.rs:395-435 | a reply, or the goal ends with an error; after a rejection of native tools they are given up, the catalog is shown once, and the model is asked again |
| `Engine.Goal.CallWithinQuota` | plugins/agent/src/engine.rs:301-324 | the call is made exactly when its quota allows it, and else refused with the reason |
| `Engine.Goal.Obey` | plugins/agent/src/engine.rs:457-492 | an unknown tool is refused, a marked one halts, any other is called exactly when its quota allows it and else refused: the exact turn and events of each case, one step in each; the turn reads back to the outcome or the reason; stuck exactly when the transcript is full |
| `Engine.Goal.Drive` | plugins/agent/src/engine.rs:387-494 | for any replies the loop ends, within the steps left, in a terminal status or a halt |
| `Engine.Goal.DispatchApproved` | plugins/agent/src/engine.rs:365-384 | the approved call is the one stored at the halt; it is made exactly when its tool has left the catalog or its quota allows it; the turn reads back to the outcome or the reason |
| `Engine.Goal.Run` | plugins/agent/src/engine.rs:328-495 | a run extends the history lawfully, with its own catalog, and settles exactly unless the approved call strands; it fails only with a full transcript; native tools are offered where they are wanted until the provider rejects them, and never again |
| `Engine.Goal.RunAndRecord` | plugins/agent/src/lib.rs:349-371 | when the engine fails the goal still ends, as an error with that text; not settled exactly when the approved call strands |
| `Engine.Goal.Resume` | plugins/agent/src/lib.rs:373-408 | only a halted goal can be resumed; a decline ends it without a request; an approval with room in the quota requests the halted call first of all, one without requests nothing; not settled exactly when the old document, catalog, clock reading and transcript strand it |
| `Engine.Goal.EveryRequestIsAllowed` | plugins/agent/src/engine.rs:266-491 | every request in the kernel's log was approved, or made by the model of an unmarked tool |
| `Engine.Goal.LogsAreBounded` | plugins/agent/src/engine.rs:266-491 | the bounds on requests and questions, for the logs themselves |
| `Engine.Goal.TranscriptIsTold` | plugins/agent/src/engine.rs:233-495 | the transcript is the opening messages and then the turns of the trace: every reply, result and refusal of the goal's life is in it, in order, and says what happened |
| `EngineRuns.StrandedGoal` | plugins/agent/src/engine.rs:371-378 | for every marked tool whose name has at most 1000 characters, limited to one call: two calls, two approvals, one request, and a goal neither ended nor waiting |
| `EngineRuns.OverlappingApprovals` | plugins/agent/src/lib.rs:373-408 | for every halted goal whose call is cleared: two overlapping approvals request it twice |
| `Embed.DeadVectorsAreNamed` | plugins/chats/src/embed.rs:73-107 | in every interleaving a vector whose session is not live is named, not yet deleted, in that session's cascade row, or was attempted by the running pass |
| `Embed.KeepInv` | plugins/chats/src/cascade.rs:92-144 | every event keeps the invariant behind it: deletes, landings, requeues, cleanup steps, and a cleanup that finishes after its row has moved on |
| `Embed.RequeueNames` | plugins/chats/src/cascade.rs:24-56 | requeueing names every attempted write of a dead session and forgets none named before |
| `Embed.DeadSessions` | plugins/chats/src/embed.rs:76-101 | the loop groups the attempted writes of dead sessions, each session once, its turns in order |
| `Embed.RequeueDeadSessions` | plugins/chats/src/embed.rs:103-107 | every dead session is requeued with its turns, at the next generation, and no other row changes |
| `Embed.MarkTurns` | plugins/chats/src/embed.rs:63-188 | rejections are counted, the third gives a turn up, and stored turns are marked |
| `Embed.RowsAreCounted` | plugins/chats/src/embed.rs:165-188 | a row waits with at most two rejections, is stored, or is given up after exactly three |
| `Embed.PendingAreFirst` | plugins/chats/src/embed.rs:31-60 | the documents of a pass are the first 64 rows, in order, that are neither stored nor given up and whose session is live and of the full tier |
| `Embed.PassMakesProgress` | plugins/chats/src/embed.rs:176-282 | a pass whose backend answers strictly decreases what the queue can still cost |
| `Embed.QueueOnlyShrinks` | plugins/chats/src/embed.rs:198-282 | nothing but a new turn or a change of tier makes the queue costlier; an outage changes no row |
| `Embed.Drain` | plugins/chats/src/embed.rs:198-282 | a fixed queue drains under any verdicts: every turn ends stored, exactly when a verdict accepted it, or given up after exactly three rejections; each rejection is counted, and no other row is touched |
| `EmbedPass.Lane.EmbedTurns` | plugins/chats/src/embed.rs:198-282 | one pass, with anything else happening at each remote call, ends with every vector of a dead session named; each row gets the fate that the store's answers give it: a stored batch marks every attempted turn and counts nothing, an outage or a missing plugin changes no row, and else each turn's own reply stores it or counts one rejection, the third of which gives it up |
| `EmbedPass.Lane.EndChecked` | plugins/chats/src/embed.rs:271-281 | the closing transactions count, mark and requeue, and keep every invariant |
| `EmbedPass.Lane.OneByOne` | plugins/chats/src/embed.rs:249-268 | the retry judges each document once: good are exactly those whose own reply was `Stored`, bad the rest |
| `Memory.Store.Remember` | plugins/agent/src/memory.rs:206-239 | the index grows by exactly the facts whose write worked, in order, under their session; every stored fact is in the index when the lock is released |
| `Memory.Store.Forget` | plugins/agent/src/memory.rs:243-285 | the answer for every outcome of the two calls; a forgotten id is in neither the store nor the index, although the store is changed before the lock is taken |
| `Memory.Store.Clear` | plugins/agent/src/memory.rs:287-309 | it succeeds exactly when the read and every delete work, empties both and answers with the number of facts it deleted, the others having been forgotten meanwhile; a failure leaves the index as it was |
| `Memory.Store.ForgetSession` | plugins/agent/src/memory.rs:311-357 | it succeeds exactly when the read and every delete of the session work, drops exactly the session's entries and answers with the number of facts it deleted; after a failed delete exactly the entries of the ids deleted before are gone |
| `JsonScan.FirstBalancedObject` | plugins/agent/src/llm.rs:803-833 | the depth, string and escape flags find the end that the scanner's specification does |
| `JsonScan.PrintedObjectIsFound` | plugins/agent/src/llm.rs:802-833 | a printed object, with any strings inside, in the middle of any text without an earlier opening brace, is found whole |
| `Template.InterpolateText` | plugins/automations/src/template.rs:45-59 | the loop replaces the placeholders one after the other |
| `Template.SkipIsSound` | plugins/automations/src/main.rs:170-174 | a template without placeholders renders to itself, so skipping the rewrite is sound |
| `Template.WrittenIsRendered` | plugins/automations/src/template.rs:39-60 | a string written from texts and pointers, unless it is one pointer alone, renders to the texts and the values in order: a string as it stands, a miss as nothing, any other value printed |
| `Template.LonePointer` | plugins/automations/src/template.rs:39-44 | one pointer alone keeps the type of its value, null when it misses, unless it holds an opening brace pair |
| `Template.RenderedInPlace` | plugins/automations/src/template.rs:20-27 | at every place of a template a string is rendered, an array keeps its length, an object its keys, and everything else stays |
| `Mask.MaskKeys` | plugins/agent/src/sessions.rs:112-127 | the recursive walk masks every sensitive member and goes into every other |
| `Mask.MaskShowsNoSecret` | plugins/agent/src/sessions.rs:112-127 | two values mask to the same value exactly when they differ at most under sensitive keys, at any depth |
| `Mask.MaskIsIdempotent` | plugins/agent/src/sessions.rs:112-127 | masking a masked value changes nothing |
| `Mask.MaskKeepsPlaces` | plugins/agent/src/sessions.rs:112-127 | away from sensitive keys the same places exist and hold the masked value of what they held |

## Left out

- Rrule.ExpandRrule: instants are unbounded integers. When no product overflows is stated exactly; the list a loop returns after one has is not modelled beyond the rounds of `Width.LongIntervalMisleads`.
- Duration.ParseDuration: numbers are unbounded integers in the same way; a week count that a later part replaces may overflow unseen.
- IcsRoundTrip.CalendarRoundTrip: what else becomes of an event whose UID holds an LF, or of one outside the years 0 to 9999, is not stated.
- StreamHandler.HandleStream: the reply channel stays open and sequence numbers do not reach 2^32; the provider's stream parser is a parameter, and its errors are values.
- Sse.SseDecoder.Feed: payloads stay bytes; the lossy UTF-8 decoding after the split is not modelled.
- Mux.RunLoop: ids are assumed fresh; the work of a request that is not streamed is its task's, of which only the reply is seen.
- GoalTrace.HaltIsAnswered: resumes of one goal do not overlap. Each request runs as its own task and a resume stores nothing before it makes the call, so overlapping ones would make it twice (`EngineRuns.OverlappingApprovals`).
- Engine.Goal.Run: storage writes succeed. After a failed write an approved call could be made again, because the stored document would still wait for the operator.
- Engine.Goal.CheckQuota: the clock does not go back, and counts and cooldowns stay within their integer types.
- Engine.Goal.Ask: the text of prompts, the filter of the catalog shown to the model and the parsing of replies are parameters or part of the scripts.
- Embed.DeadVectorsAreNamed: a write that lands after its call returned is not covered; the source keeps a daily sweep for it.
- EmbedPass.Lane.EmbedTurns: database transactions succeed; a missing plugin has written nothing.
- Memory.Store.Remember: index writes succeed, the search behind `forget` is a parameter, failed remote calls have no effect, and ids are never used twice.
- Template.RenderText: the lookup of a JSON pointer is a parameter.
- EventText.CalendarMeans: lines that begin or end other components inside an event are covered by `Ics.CollectEvents` only.
- Mask.MaskKeys: the list of sensitive key words is a parameter.
- The recurrence library used for stored events (`expand_rrule` in plugins/calendar/src/lib.rs) and rule validation: an external crate that is not part of this model.
- Session summaries and their vectors (`embed_sessions`): their error path does not requeue, so the invariant of the turn vectors does not apply.
- Reply parsing beyond the object scanner (`<tool_call>` blocks, code fences), regular-expression scrubbing and history clipping.
- Sockets, registration, tokens, request validation, SQL text, full-text search, and every plugin not named above.
