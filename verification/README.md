# A verified model of the research-run server and its streaming client

The server researches a question in sections, turns web pages into claims that quote them, has each
claim judged, writes a report, and streams every step as numbered events to browsers. This project
models that machinery in Dafny and proves what it promises.

How the parts fit:

- **Engine** (`Registry`, `Grounding`, `Verifier`, `Contradictions`, `Section*`, `Engine*`). A section is a
  coroutine whose step is the stretch between two waits; a run is any sequence of actions of the engine and
  its sections, so statements about `RunAll(NewRun(..), actions)` hold under every interleaving, with a crash of any
  section at any moment. Model replies, search results, page contents and new ids are inputs of a step and may be
  anything; ids are only assumed new (`IdsFresh`). `SourceRegistry`, `SectionRun` and `EventEmitter` are the program's
  objects, each method proved equal to the step it takes in the state machine. `ResearchEngine` is the engine's own
  coroutine; its four methods are proved to take the object from any run it shows to that run after the same action.
- **Hub** (`Hub`, `HubDelivery`, `HubEnding`, `HubCancel`, `HubTables`, `HubStatus`, `RunHub`). The per-run event hub: lock, append,
  tables, fan-out, registration, snapshot, replay, dequeue, cancel, timeout, torn writes and the end of the run are
  separate actions, and the state holds the stored log as well as the tables derived from it. `RunHub` holds the classes
  `Hub` and `Subscriber` whose methods are proved to be single actions.
- **Client** (`Sse`, `Wire`, `Reducer`, `Folded`, `StreamClient`, `HookSteps`, `Projection`, `Trust`). Frame splitting, event folding with
  batched report text, the page that reconnects, the projection the server's tables follow, and the trust counts on
  both sides.
- **The whole way** (`PageOfRun`, `ServedRun`, `EngineServed`, `Interrupted`, `EngineInterrupted`): which of the engine's events a hub
  stores, what tables and client show of an engine run behind a hub, and what an interruption can do to any run.
- **Report** (`Report`, `ReportLines`): the entity report as structured lines.
- **Sessions** (`RefreshTokens`, `SessionProtocol`, `SessionSteps`): refresh-token rotation and the pages that refresh, any number of
  them to a cookie jar.
- **Small algorithms**: `JsonScan` (a JSON object in prose) and `RateLimit` (sliding window).

Where a state machine or a fold is the specification of a program, what it does is also said from outside: `SectionSteps`,
`EngineSteps`, `HookSteps` and `SessionSteps` decide each step by what it is given, and `Folded` and `ReportLines` read the
client's state off the log and the report off its lines.

`EngineStream.BothSidesAgree` ties the engine to the readers of its log, and `EngineServed.ServedRunAgrees` takes it all
the way: on every completed run, however it interleaved, behind a hub that nothing interrupts, the server's tables and a
client whose stream has ended show the same outcome.

Where the code and its comments differ, the model follows the code. Some promises hold only under a condition. Each is
stated as an if-and-only-if; the histories named after it are ones in which it fails:

- delivery without gaps: `StreamIsPrefixIff`; `EngineInterrupted.TornWriteSkipsAnEvent` does it to any event of any run;
- the tables are the projection of the log: `TablesMatchLogIff`, `ReplayedSourcesIff`, `ReplayedClaimsIff`;
  `EngineInterrupted.TornWriteMissesTheTable` does it to any source of any run;
- a client shows the stored status: `ShownStatusIff` for every subscriber at every moment, `ClosedStatusIff` after a done
  or error; `EngineInterrupted.DoneThenCancelled` and `EngineInterrupted.TimeoutUntold`;
- a stream that closes was told of the end: `SilentCloseIff`; `EngineInterrupted.ShutdownIsSilent`;
- equal trust counts: `TrustCountsAgreeIff`;
- one session per login: `OneSessionIff`; `RaceMakesTwo`, `OverlappingRotations`;
- a theft signs its user out: `ReuseSignsOut`;
- rotation is not mistaken for theft: `TakenForReuseIff` with its corollaries `NeverTakenForReuse` and
  `OrderlyPagesAreSafe`; `LostResponseIsTakenForReuse`, `LogoutDuringRefreshIsTakenForReuse`, `TwoPagesAreTakenForReuse`.

The report a client shows converges in the program as it is driven (`PageConverges`); the hook alone would lose text if
`retry` were called while text is buffered, which the page never does (`Converges`, `RetryInMidStreamLoses`).

## Model
| member | source | states |
|---|---|---|
| EngineLanguage.EveryLogIsInLanguage | backend/app/core/engine.py:39-147 | under every interleaving and failure the log keeps to the run's event language, and each section's own events are a beginning of the section language |
| EngineLanguage.CompletedLogIsWhole | backend/app/core/engine.py:50-105 | a run that completes has emitted planning, plan, optional wait, researching, a shuffle of complete section traces, writing, report pieces, report and done |
| EngineLanguage.AbortedLogEndsInOneError | backend/app/core/engine.py:106-108 | a run that fails has emitted a beginning of that language and then exactly one error, which is last |
| EngineLanguage.NextLanguage | backend/app/core/engine.py:110-147 | every single action of the engine or of a section keeps the log in the language and each section's trace in the log |
| EngineTrace.ShapesAreTheSections | backend/app/core/engine.py:132-145 | what the run's language says of a section is what the section's own events, picked out of the shuffle, say |
| SectionTrace.StepShape | backend/app/core/researcher.py:157-289 | each step of a section keeps its events to: start, (search (source claim* verdict*)*)*, contradictions, notes, done; each claim cites the source before it and verdicts follow claim by claim |
| SectionTrace.PartialPrefix | backend/app/core/researcher.py:87-94 | the section language is closed under taking beginnings |
| SectionBooks.StepLedger | backend/app/core/researcher.py:229-289 | after each step the events of every kind are exactly what the section holds: claims, verdicts, contradictions, notes, queries, sources, in order |
| SectionBooks.StepRounds | backend/app/core/researcher.py:164-184 | each step keeps: a round without a new source has no claim, and only a round that found one is followed by another |
| SectionBooks.RoundBound | backend/app/core/researcher.py:164-184 | rounds never exceed max(1, max_iters), nor one more than the sources the section added |
| SectionBooks.StepMined | backend/app/core/researcher.py:235-257 | each step keeps: the sources found are the rounds' new ones, and each is mined once, right after it is announced |
| SectionBooks.StepConclusion | backend/app/core/researcher.py:186-209 | each step keeps: contradictions and notes come only at the end, and the notes are the supported claims in order |
| EngineOutcome.EachUrlIsMinedOnce | backend/app/core/researcher.py:232-257 | in every interleaving no url goes through claim extraction twice in the run, new-source counts over all rounds of all sections sum to the registry size, and a completed run has mined every source |
| EngineOutcome.RoundsStop | backend/app/core/researcher.py:164-184 | the adaptive stopping bound for every section of every reachable run |
| EngineOutcome.QueriesAreNew | backend/app/core/researcher.py:224-228 | in the log of every run no section searches a query twice |
| EngineOutcome.ClaimsAreAlignedAndGrounded | backend/app/core/engine.py:74-77 | in every run verdict ids equal claim ids position by position, claim ids are distinct, and each claim cites one registered source and quotes words of that source's page |
| EngineOutcome.NotesAreTheSupportedClaims | backend/app/core/researcher.py:200-207 | a finished section's note events are exactly its supported claims, in order, with their citations |
| EngineOutcome.SectionCountIsItsOwn | backend/app/core/researcher.py:293-302 | with distinct section ids the source count a section announces is the number of sources it added itself |
| EngineFindings.NextFindings | backend/app/core/researcher.py:235-288 | every action keeps: what the sections found is what is registered, claims are grounded, no id is given twice |
| EngineFindings.NoUrlTwice | backend/app/core/sources.py:21-43 | sources that are part of a consistent registry, each counted once, never share a url |
| EngineStream.BothSidesAgree | backend/app/services/run_service.py:467-552 | on every completed run the server's tables and the client show the same status, report, title, trust summary, source count and sources in id order, and the counts the client derives are the engine's summary |
| EngineStream.CompletedLogTells | backend/app/core/engine.py:74-77 | a completed log tells exactly the claims, verdicts and contradictions the engine reports on |
| EngineStream.CompletedLogEnds | backend/app/core/engine.py:94-105 | a completed log ends in one report carrying the run's trust summary and a done with the registry's size, and has neither before |
| EngineStream.LogHasOneSourcePerId | backend/app/core/sources.py:21-43 | in every engine log one source id stands for one source |
| EngineStream.LogHasClaimsFirst | backend/app/core/researcher.py:258-286 | in every engine log claim ids are new when they appear and a verdict comes after its claim |
| EngineStream.DerivedCountsAgree | frontend/components/run/confidence-summary.tsx:11-29 | on every completed run the client's derived trust counts are the server's summary |
| PageOfRun.FinishedSectionIsShown | frontend/lib/useResearchStream.ts:163-239 | of every section that has finished, in any run, and whose id is its own, the page shows exactly the queries it searched, the sources it found and its supported claims as notes, in order |
| EngineSteps.PlanIsTold | backend/app/core/engine.py:55-68 | the plan is told as it is and is what is researched, unless it goes to the user first |
| EngineSteps.UserDecides | backend/app/core/engine.py:66-68 | sections the user sends replace the plan's, an empty list does not |
| EngineSteps.EachSectionStarts | backend/app/core/engine.py:129-143 | one task for each section in order, none of which has done anything |
| EngineSteps.JoinIff | backend/app/core/engine.py:140-147 | writing starts if and only if every section has returned and told all it had, and none has failed |
| EngineSteps.GatheredInOrder | backend/app/core/engine.py:75-77 | claims, verdicts and contradictions are gathered section by section in plan order |
| EngineSteps.ReportIsTold | backend/app/core/engine.py:94-104 | report and done carry the same summary, and carry one if and only if some section has a claim; done counts the registered sources |
| EngineSteps.FailureIsTold | backend/app/core/engine.py:106-108 | an exception is told as one error with its message, and the run then ends without another event |
| EngineSteps.PlanIsResearched | backend/app/core/engine.py:55-74 | without approval every run researches the plan it told, a task for each section in order |
| EngineSteps.FailedSectionFailsRun | backend/app/core/engine.py:136-147 | a run one of whose sections failed never gets as far as writing a report, however it goes on |
| Engine.EventEmitter.Emit | backend/app/core/events.py:33-52 | events are numbered 0, 1, 2, ... in emission order and appended to the sink, as the engine's log grows in the state machine |
| Engine.ResearchEngine.Written | backend/app/core/engine.py:74-104 | from any run the object shows, it shows the run after this action: the last two events carry the summary of the sections' findings gathered in plan order, and the summary only if anything was claimed |
| Engine.ResearchEngine.Launch | backend/app/core/engine.py:129-142 | from any run the object shows, it shows the run after this action: one result slot per section, by its place in the plan |
| Section.SectionRun.NextQuery | backend/app/core/researcher.py:224-230 | the state after the head of the query loop: a round closed, a query skipped, or a new one announced |
| Section.SectionRun.NextPage | backend/app/core/researcher.py:232-248 | the state and the registry after one search result: only a new url yields a source event and leads to extraction |
| Section.SectionRun.Extract | backend/app/core/researcher.py:250-270 | the claims of the page become the events to emit |
| Section.SectionRun.Verify | backend/app/core/researcher.py:271-288 | one verdict per claim joins the round, in the claims' order |
| Section.SectionRun.Reflect | backend/app/core/researcher.py:177-184 | the next round's queries are the reply's unsearched ones, and there is one only if the reply wants more and has any; SectionSteps.AnotherRoundIff is the if-and-only-if |
| Section.SectionRun.Conclude | backend/app/core/researcher.py:186-207 | contradictions over the whole section, then the supported claims as notes |
| Section.SectionRun.Finish | backend/app/core/researcher.py:293-302 | the section's last event with the registry count of its id |
| SectionSteps.StartsWithPlan | backend/app/core/researcher.py:156-163 | a section starts with its planned queries, with its title only when it has none |
| SectionSteps.SearchesIff | backend/app/core/researcher.py:224-230 | a query is searched if and only if it is no blank and was not searched before, and is gone either way |
| SectionSteps.MinesIff | backend/app/core/researcher.py:232-257 | a result is mined if and only if its page has a text and its url is new to the run; the source carries the page's own title, url and snippet under the next number |
| SectionSteps.ReflectsIff | backend/app/core/researcher.py:164-176 | a reflection is asked for if and only if the round brought a new source or a supported claim and is not the last |
| SectionSteps.AnotherRoundIff | backend/app/core/researcher.py:177-184 | another round follows if and only if the reply is there, wants more and has a query that is no blank and unsearched; then exactly those queries are next, in order, and the round is one more; otherwise the section concludes |
| SectionSteps.TellsClaims | backend/app/core/researcher.py:250-270 | the claims told are those extracted from the page under the source just announced, field by field |
| SectionSteps.TellsVerdicts | backend/app/core/researcher.py:271-288 | the verdicts told are the verifier's on those claims, field by field, and both join the round |
| SectionSteps.TellsConclusion | backend/app/core/researcher.py:186-207 | the conclusion tells the contradictions among all the section's claims and then a note for each note kept |
| SectionSteps.NotesTell | backend/app/core/researcher.py:200-207 | the notes are the texts of the claims a supporting verdict names, in order, each with the marks of its sources |
| Section.NoteReads | backend/app/core/researcher.py:204-205 | a note reads as its claim's text followed by the mark of its source |
| Registry.SourceRegistry.Add | backend/app/core/sources.py:21-43 | a known url gets its source back, a new one the next id; the registry stays consistent |
| Registry.SourcesAreFirstSeen | backend/app/core/sources.py:21-49 | whatever is asked in whatever order, the sources are the first-seen requests numbered from 1, and the url map is inverse to the list |
| Registry.OneSourcePerUrl | backend/app/core/sources.py:21-43 | different sources differ in url and in id |
| Grounding.GroundedIff | backend/app/core/claims.py:23-29 | a quote is grounded exactly when the page has a span that differs from it in white space and letter case only, and it is not blank |
| Grounding.NormIdempotent | backend/app/core/claims.py:23-24 | normalising twice is normalising once |
| Grounding.NormReads | backend/app/core/claims.py:23-24 | the normal form is the words of the text in small letters joined by single spaces |
| Grounding.ExtractClaims | backend/app/core/claims.py:32-72 | the claims are the grounded items with a text, in order, each citing the one source under the next new id |
| Grounding.ClaimsAreGrounded | backend/app/core/claims.py:52-71 | every kept claim cites exactly its source, has a text, and its normalised quote is a non-empty part of the normalised page |
| Grounding.KeptIff | backend/app/core/claims.py:52-57 | an item becomes a claim if and only if it is an object with a text and a grounded quote |
| Grounding.ExtractedReads | backend/app/core/claims.py:52-71 | field by field: the k-th claim has the text, quote, entity and attribute of the k-th item that has a text and a grounded quote, the k-th new id and the one source |
| Grounding.BlankPage | backend/app/core/claims.py:42-43 | nothing can be grounded on a blank page, so the early return loses nothing |
| Verifier.VerifyClaims | backend/app/core/verifier.py:27-64 | one verdict per claim in order, the one the reply's last well-formed item gives it, unsupported when there is none |
| Verifier.LastItemDecides | backend/app/core/verifier.py:35-48 | the last well-formed item about a claim decides, whatever else the reply omits, repeats, misspells or invents |
| Verifier.OmittedIsUnsupported | backend/app/core/verifier.py:49-63 | a claim no well-formed item is about is unsupported |
| Verifier.SupportedIff | backend/app/core/verifier.py:35-63 | a claim is supported if and only if the reply's last word on it is "supported" in whatever case |
| Verifier.VerdictReads | backend/app/core/verifier.py:27-64 | the last item that names the claim with one of the four words gives the verdict its word names, its confidence and its rationale; without one the claim is unsupported with confidence zero |
| Verifier.ConfidenceReads | backend/app/core/verifier.py:79-95 | high is support by two sources or more, medium support by fewer or partial support by two, low the rest |
| Findings.LookupsCoincide | backend/app/core/synthesizer.py:160-190 | with distinct ids and aligned verdicts the scan and the dictionary find the claim's own verdict, and never fail |
| Contradictions.DetectContradictions | backend/app/core/contradictions.py:22-56 | the calls are exactly the adjudicated pairs in order, and the result exactly the reported conflicts |
| Contradictions.AdjudicatedExactlyOnce | backend/app/core/contradictions.py:30-42 | every unordered pair of supported claims sharing a non-empty entity and attribute is adjudicated exactly once, and no other pair is |
| Contradictions.ComparableReads | backend/app/core/contradictions.py:32-35 | comparable claims are both supported and share an entity and an attribute, neither blank |
| Contradictions.CallsInOrder | backend/app/core/contradictions.py:32-39 | the calls go group by group, groups in the order of their first claims, pairs in the order of their claims |
| Contradictions.CallCount | backend/app/core/contradictions.py:38-40 | calls total the sum of n(n-1)/2 over the groups |
| Contradictions.ReportedClaims | backend/app/core/contradictions.py:45-55 | each reported contradiction names two different supported claims about one attribute of one entity |
| Contradictions.ConflictIsReported | backend/app/core/contradictions.py:41-55 | every conflict the model finds is reported, an unreadable answer is skipped |
| Contradictions.ReportsRead | backend/app/core/contradictions.py:41-56 | the reports are one for each call that found a conflict, in order, each with its pair, entity, attribute and note under the next new id |
| Report.RenderEntityReport | backend/app/core/synthesizer.py:236-318 | the rendered lines: table, detail per entity, contradictions, appendix, each as ReportLines says it reads; every verdict lookup succeeds |
| Report.BuildComparisonTable | backend/app/core/synthesizer.py:172-216 | the table's rows and cells over supported claims, none when there is nothing to compare |
| Report.EveryClaimIsPlacedOnce | backend/app/core/synthesizer.py:246-302 | whatever the verdicts, every claim is in the detail section, in the appendix in order, or is a supported claim about no entity, as often as it was produced |
| Report.ReportIsExactProjection | backend/app/core/synthesizer.py:160-302 | with distinct ids and aligned verdicts a supported claim about an entity is printed once in detail, under the heading of its own entity, and once in exactly its table cells, any other verdict once in the appendix with that verdict and nowhere else |
| Report.OneRow | backend/app/core/synthesizer.py:187-214 | a supported claim about an entity has exactly one table row to stand in |
| ReportLines.ConflictsAreShown | backend/app/core/synthesizer.py:283-292 | the contradictions printed are exactly those found, in order |
| ReportLines.PartsInOrder | backend/app/core/synthesizer.py:246-303 | table rows come first, then the entities with their details, then contradictions, then what is not supported |
| ReportLines.DetailsRead | backend/app/core/synthesizer.py:269-281 | every detail line shows the label of the last field with its claim's attribute, or the attribute, and the marker of its claim's last verdict and number of sources |
| ReportLines.DetailsInOrder | backend/app/core/synthesizer.py:263-281 | one heading for each entity of the supported claims in first-seen order, and under them the supported claims about it in order |
| ReportLines.RowsInOrder | backend/app/core/synthesizer.py:184-215 | one row for each entity of the supported claims in first-seen order, none without a schema |
| ReportLines.CellReads | backend/app/core/synthesizer.py:202-214 | each cell holds exactly the supported claims about its row's entity and its column's attribute, in order, each with its marker |
| ReportLines.FirstSeenFirst | backend/app/core/synthesizer.py:190-193 | entities stand in the order in which claims name them first |
| ReportLines.AppendixReads | backend/app/core/synthesizer.py:294-303 | the appendix has every claim that is not supported, in order, with its last verdict if it has any |
| Report.StreamMarkdown | backend/app/core/synthesizer.py:154-155 | the streamed pieces make up the report again, all full except perhaps the last |
| Trust.SummarizeConfidence | backend/app/core/synthesizer.py:219-233 | the counts of each confidence level over the claims, by first verdict, and of the contradictions |
| Trust.ServerCounted | backend/app/core/synthesizer.py:219-233 | each count is the number of claims whose first verdict and number of sources give that level |
| Trust.DeriveConfidenceSummary | frontend/components/run/confidence-summary.tsx:11-29 | the client's counts of each level over its claims |
| Trust.ClientCounted | frontend/components/run/confidence-summary.tsx:11-29 | each count is the number of claims whose shown verdict and number of sources give that level |
| Trust.TrustCountsAgreeIff | frontend/components/run/confidence-summary.tsx:11-29 | for any log that tells the engine's lists, the client's counts equal the server's exactly when no partial verdict is on a claim with two or more sources |
| Trust.SingleSourceAgrees | backend/app/core/verifier.py:79-95 | claims that cite one source each are always counted alike |
| Trust.FoldReflects | frontend/lib/useResearchStream.ts:197-217 | the client's claims mirror the engine's, verdict by verdict, as far as the log has told them |
| ServedRun.RowsAreSubmitted | backend/app/services/run_service.py:377-413 | in every hub run each row of the log is an event the engine submitted, a time-out's error or a cancellation |
| ServedRun.CalmLogIsSubmitted | backend/app/services/run_service.py:400-413 | when nothing interrupts a run the log is at every moment a prefix of what the engine submitted, numbered from 0, and once no write is under way it is all of it and the tables are its projection |
| ServedRun.CalmStreamIsWhole | backend/app/services/run_service.py:554-582 | in such a run a stream that ended with done or error has been given the whole log |
| EngineServed.KeysAgree | backend/app/core/researcher.py:235-288 | in the log of every engine run one source, claim or verdict id never stands for two things |
| EngineServed.ServedTablesIff | backend/app/services/run_service.py:467-552 | for every engine run behind a hub, whatever interrupts it, the exact conditions under which the tables are the projection of the log and a replaying client lists the stored sources |
| EngineServed.ServedStatusIff | backend/app/services/run_service.py:539-582 | the same for the status any client of the run shows at any moment |
| EngineServed.CalmLogIsEngineLog | backend/app/services/run_service.py:400-413 | an engine run served without interruption is stored event by event and number by number as the engine emitted it |
| EngineServed.ServedRunAgrees | backend/app/services/run_service.py:265-271 | a completed engine run served without interruption: a client whose stream has ended was given exactly the engine's log, and it and the tables show the same status, report, title, trust summary and sources |
| EngineServed.CompletedCanBeServed | backend/app/services/run_service.py:400-413 | every completed run can be served so |
| EngineServed.PageShowsTheRun | frontend/lib/useResearchStream.ts:495-508 | and a page that has read a stream to its end, through any reconnects, shows the fold of the engine's log |
| EngineInterrupted.TornWriteSkipsAnEvent | backend/app/services/run_service.py:400-413 | at any event of any engine run the time-out can cut its write off between append and fan-out, and a live subscriber that has all before it gets the time-out's error next |
| EngineInterrupted.TornWriteMissesTheTable | backend/app/services/run_service.py:467-502 | any source of any engine run can be cut off before its table: a client that replays the log shows it, the table never has it |
| EngineInterrupted.DoneThenCancelled | backend/app/services/run_service.py:584-607 | any completed engine run can end cancelled: a cancel request that read the row before done was stored leaves the client with the whole log at done and the row at cancelled |
| EngineInterrupted.TimeoutUntold | backend/app/services/run_service.py:343-363 | at any place of any engine run the time-out's error can reach the row and no reader, whose stream then ends with the sentinel at another status |
| EngineInterrupted.ShutdownIsSilent | backend/app/services/run_service.py:609-612 | at any place of any engine run a shutdown closes the streams without a word of the end |
| HubDelivery.NumbersNeverCollide | backend/app/services/run_service.py:377-413 | in every interleaving, torn writes included, event numbers increase along the log and the counter is past them all |
| HubDelivery.GivenInOrder | backend/app/services/run_service.py:554-582 | a subscriber is given log events only, each once, in order, whatever is interrupted |
| HubDelivery.StreamIsPrefixIff | backend/app/services/run_service.py:554-582 | for every subscriber at every moment: what it has been given is a prefix of the log if and only if every row after its snapshot, up to the last number it was given, was fanned out |
| HubDelivery.CaughtUpHasEverything | backend/app/services/run_service.py:554-582 | a live subscriber with an empty queue has every event that reached the fan-out |
| HubDelivery.OneSentinel | backend/app/services/run_service.py:358-361 | each registered subscriber has exactly one sentinel once the run is over and none before |
| HubDelivery.LeftIsOver | backend/app/services/run_service.py:563-582 | a client that goes away is given nothing more and no queue grows for it, whatever comes after |
| HubDelivery.NextOk | backend/app/services/run_service.py:343-607 | every action of writers, subscribers, cancel, timeout and shutdown keeps the delivery invariant |
| HubEnding.NoSilentClose | backend/app/services/run_service.py:343-398 | barring shutdown and a failing final write, a stream that ends by sentinel was given a done, an error or the cancelled status |
| HubEnding.SilentCloseIff | backend/app/services/run_service.py:343-361 | without exception: a stream that ends by sentinel was told of the end if and only if an end lies in its snapshot or was fanned out before the run finished |
| HubEnding.CancelIsFinal | backend/app/services/run_service.py:400-413 | no engine event is ever in the log after a cancelled event |
| HubCancel.OverIsNotCancelled | backend/app/services/run_service.py:584-591 | over every run: if the row says done, error or cancelled whenever a cancel request reads it, no request goes on, the flag is never set and no cancellation is ever written or waits to be |
| HubCancel.OpenIsCancelled | backend/app/services/run_service.py:592-600 | at any other status the request goes on: the flag is set and its event holds the lock or is last in line |
| HubCancel.TimeoutCutsOff | backend/app/services/run_service.py:347-353 | the time-out can come until the engine has returned; the engine's writes are out, the others stay, and the error holds the lock or is last in line |
| HubCancel.WriteEndsFreeTheLock | backend/app/services/run_service.py:393-411 | however a write ends, the lock is free and goes to the first that waits |
| HubCancel.FailedFinal | backend/app/core/engine.py:103-108 | when writing done fails the engine still has its error to report; when writing the error fails it returns with nothing said |
| HubEnding.NextEnding | backend/app/services/run_service.py:343-607 | every action keeps the ending invariant: an ending is on its way or announced before the task finishes |
| HubTables.TablesAreProjected | backend/app/services/run_service.py:467-552 | in every interleaving, interrupted writes included, the tables are the projection of exactly the rows whose write came that far, and every delivered event is among them |
| HubTables.LookupIs | backend/app/db/repositories.py:451-526 | a source, claim or verdict is in its table exactly when a row with its key reached the tables, and with what that row says |
| HubTables.TablesMatchLogIff | backend/app/services/run_service.py:467-552 | over every hub run the modelled tables are the projection of the whole log if and only if each key in the log reached them and for each column the last row that sets it did, or the last row that did says the same |
| HubTables.ReplayedSourcesIff | frontend/lib/useResearchStream.ts:591-599 | a client that replays the log lists the stored sources if and only if every source id in the log reached its table |
| HubTables.ReplayedClaimsIff | backend/app/db/repositories.py:451-526 | its claims and verdicts are the stored ones if and only if every claim and verdict id in the log reached its table |
| HubStatus.ClosedStatusIff | backend/app/services/run_service.py:539-582 | a client whose stream ended with done or error shows the stored status if and only if, from that row on, the last status that reached the run's row is the same one |
| HubStatus.ShownStatusIff | backend/app/services/run_service.py:539-582 | every subscriber at every moment, closed by the sentinel or not, shows the stored status if and only if, from the last row it was given that sets one, the last status that reached the run's row is the same, or none did and the one before is the same |
| HubStatus.TornTerminalIsFirst | backend/app/services/run_service.py:565-570 | a terminal row that was given but never reached the tables was replayed, and none before it is terminal |
| RunHub.Hub.Acquire | backend/app/services/run_service.py:400-408 | taking the lock, reading the flag and allocating a number is one action, first come first served |
| RunHub.Hub.AppendEvent | backend/app/services/run_service.py:467-475 | the append is one action of its own: the row is in the log before the tables know of it |
| RunHub.Hub.ProjectEvent | backend/app/services/run_service.py:476-552 | the tables follow in a later action, by the projection of that event |
| RunHub.Hub.FanOut | backend/app/services/run_service.py:396-413 | the event goes on every registered queue and the lock is released |
| RunHub.Hub.FinishRun | backend/app/services/run_service.py:358-361 | the run is marked finished and every registered queue gets one sentinel |
| RunHub.Hub.Subscribe | backend/app/services/run_service.py:554-562 | registering and checking for the end is one action, so a late subscriber still gets its sentinel |
| RunHub.Hub.LookBeforeCancel | backend/app/services/run_service.py:585-591 | a request goes on exactly when the row read is not done, error or cancelled |
| RunHub.Hub.RequestCancel | backend/app/services/run_service.py:592-600 | the flag is set and the lock asked for in one action, by a request that found the run not over (HubCancel.OverIsNotCancelled, HubCancel.OpenIsCancelled) |
| RunHub.Subscriber.YieldRow | backend/app/services/run_service.py:565-570 | the next row of the snapshot is yielded and remembered |
| RunHub.Subscriber.TakeItem | backend/app/services/run_service.py:571-580 | the next queued item is yielded unless it was replayed already, or ends the stream |
| StreamClient.Converges | frontend/lib/useResearchStream.ts:347-387 | the bare hook, over any reconnects delivering log prefixes, with timers and retries anywhere, equals the plain fold of the longest prefix in every field but the report, and in the report if and only if every retry since the last applied report found the buffer empty |
| StreamClient.NothingLostIff | frontend/lib/useResearchStream.ts:558-564 | no text is missing if and only if every retry since the last applied report found the buffer empty |
| StreamClient.RetryInMidStreamLoses | frontend/lib/useResearchStream.ts:558-564 | a retry called while text is buffered loses it, and a replay does not bring it back |
| StreamClient.PageConverges | frontend/components/run/run-view.tsx:63-96 | the page, which offers the retry only when the connection is in error, always has the plain fold of the longest prefix, report included, through any failures, remounts and reconnects |
| StreamClient.EndToEnd | frontend/lib/useResearchStream.ts:495-508 | a page fed by any subscribers of any hub run without an overtaken torn write always has the fold of a prefix of the stored log |
| StreamClient.Hook.Handle | frontend/lib/useResearchStream.ts:369-387 | one event: skipped if seen, buffered if a delta, otherwise applied after a flush where the report needs it; what applying does to the page is said by Folded |
| StreamClient.Hook.Flush | frontend/lib/useResearchStream.ts:347-357 | the buffered text joins the report and the timer is off |
| StreamClient.Hook.StreamOver | frontend/lib/useResearchStream.ts:507-515 | a stream that ends or breaks is flushed before the connection status says so |
| StreamClient.Hook.DropAndReconnect | frontend/lib/useResearchStream.ts:558-564 | the buffer is dropped, what was seen is kept, and the effect runs again |
| HookSteps.EndIsFlushed | frontend/lib/useResearchStream.ts:369-387 | a report or done not seen before leaves nothing buffered and the timer off; a report replaces the text, done keeps it with what was buffered |
| HookSteps.BufferHasTimer | frontend/lib/useResearchStream.ts:359-379 | in every run short of a cleanup of the effect, buffered text has a timer |
| HookSteps.ConnectionTells | frontend/lib/useResearchStream.ts:480-515 | what the page says of its connection follows the attempt: open while it reads, closed at its end or for a finished run, in error when it fails |
| Reducer.ReportCommutes | frontend/lib/useResearchStream.ts:134-277 | an event other than a report or a delta neither reads nor changes the report text |
| Reducer.FindSection | frontend/lib/useResearchStream.ts:122-132 | the index of the first section with the id, or the length |
| Folded.SectionIsTold | frontend/lib/useResearchStream.ts:122-239 | for every log and section id: searches and notes are those of the log's events with that id in order, sources the first of each id, summary and count those of the last end, title, goal, queries and status as plans and starts say |
| Folded.SectionsAreNamed | frontend/lib/useResearchStream.ts:122-132 | the sections shown are those the log names, each once, in the order of their first naming |
| Folded.RunIsLastSaid | frontend/lib/useResearchStream.ts:136-161 | status, message, brief, plan, title, count, trust summary and error are those of the last event that speaks of them |
| Folded.ConflictsAreTold | frontend/lib/useResearchStream.ts:213-217 | the contradictions shown are the log's, the first of each id, in order |
| Folded.ClaimsAreTold | frontend/lib/useResearchStream.ts:197-201 | the claims shown are the log's, the first of each id, in order |
| Folded.ClaimsAreJudged | frontend/lib/useResearchStream.ts:202-212 | every claim shown has the last verdict the log gives on it after it was claimed, or none |
| Folded.TablesAreTold | backend/app/services/run_service.py:476-552 | after any sequence of events the row holds what was said last, the tables a source as first found, a claim as last told, a verdict as last given |
| Projection.StatusAgrees | backend/app/services/run_service.py:539-552 | for every sequence of events the status and error their projection stores are those their fold shows; which rows are projected and which events a client is given is the hub's part |
| Projection.ReportAgrees | backend/app/db/repositories.py:103-111 | for every sequence of events the folded report is the one their projection stores followed by the deltas since |
| Projection.CompletedAgrees | backend/app/services/run_service.py:265-271 | on a completed log status, report, title and trust summary are the same on both sides |
| Projection.SourcesAgree | frontend/lib/useResearchStream.ts:591-599 | when one id stands for one source, the sources projected from a sequence of events, by id, are the flattened list folded from it |
| Projection.FlattenSources | frontend/lib/useResearchStream.ts:591-599 | first occurrence per id over all sections, in increasing id order |
| Folded.SourceListReads | frontend/lib/useResearchStream.ts:591-599 | whatever the sections hold, the list shows of each id the source that comes first, by increasing id |
| Projection.InOrderMeaning | backend/app/db/repositories.py:157-179 | the list by id has every source once, in strictly increasing id order |
| Projection.ClaimsAgree | backend/app/db/repositories.py:451-526 | when verdicts follow their claims, the claim and verdict tables projected from a sequence of events hold exactly the claims folded from it |
| Sse.SplitSseFrames | frontend/lib/sse.ts:18-27 | the complete frames in order and the rest, which holds no delimiter |
| Sse.SplitChunkInvariant | frontend/lib/sse.ts:18-27 | cutting a stream anywhere, even inside a delimiter, gives the same frames and rest as splitting it whole |
| Sse.NothingLeftToSplit | frontend/lib/sse.ts:22-26 | the rest contains no delimiter |
| Sse.ParseSseData | frontend/lib/sse.ts:34-44 | the joined data lines, trimmed, or nothing |
| Sse.ReadStream | frontend/lib/useResearchStream.ts:495-503 | however the stream is chunked, the payloads handled are those of the whole stream |
| Sse.DecodeEncoded | frontend/lib/sse.ts:18-44 | non-empty trimmed one-line payloads sent with LF LF or CRLF CRLF decode back in order |
| Sse.StreamRoundTrip | frontend/lib/useResearchStream.ts:495-503 | the same through the read loop, for any chunking |
| Sse.ManyLinesDecode | frontend/lib/sse.ts:34-44 | a frame of several data lines, with or without a space, ended by LF or CR LF, carries their texts joined by line feeds and trimmed |
| Sse.CutStreamHandlesPrefix | frontend/lib/useResearchStream.ts:495-503 | a stream cut off anywhere yields a prefix of the payloads, apart from what the last cut frame holds |
| JsonScan.FindObject | backend/app/providers/json_utils.py:22-48 | the scanner's answer is the first balanced block |
| JsonScan.FindBlockIsShortest | backend/app/providers/json_utils.py:22-48 | it starts at the first brace and is the shortest string-aware balanced block, or there is none |
| JsonScan.FindPrintedObject | backend/app/providers/json_utils.py:22-48 | for any JSON object printed with escaped strings (sections 4 and 7 of RFC 8259), after any prefix without a brace and before any suffix, exactly the printed object is found |
| JsonScan.ExtractJson | backend/app/providers/json_utils.py:59-86 | the first candidate, fenced blocks first and then the whole text, that loads as an object |
| JsonScan.ExtractUnfenced | backend/app/providers/json_utils.py:59-86 | a printed object in text without a fence is recovered |
| JsonScan.ExtractFenced | backend/app/providers/json_utils.py:59-86 | a printed object in the first fenced block is recovered |
| JsonScan.FencesInOrder | backend/app/providers/json_utils.py:12-73 | however many fenced parts a text has, the bodies are what stands between the marks of each pair, in order |
| JsonScan.FirstUsableDecides | backend/app/providers/json_utils.py:66-86 | the answer is that of the first text whose first block loads as an object, and there is none without such a text |
| RateLimit.SlidingWindowLimiter.Allow | backend/app/security/ratelimit.py:29-40 | with non-decreasing times a call is allowed exactly when fewer than max allowed hits of its key lie in (now - window, now] |
| RateLimit.RecentCounts | backend/app/security/ratelimit.py:29-40 | what is counted is the number of allowed calls of the key whose time is in the window, its open end left out |
| RateLimit.WindowNeverExceeded | backend/app/security/ratelimit.py:29-40 | no half-open window of that length, wherever it ends, holds more than max allowed hits of a key |
| RateLimit.KeysAreIndependent | backend/app/security/ratelimit.py:29-40 | a history is answered by the rule if and only if, for every key, the calls of that key alone are: a key gets what it would get had no other key called |
| RateLimit.AnswersAreDetermined | backend/app/security/ratelimit.py:29-40 | calls by the same keys at the same times get the same answers |
| RefreshTokens.AuthService.LookUp | backend/app/services/auth_service.py:112-126 | a rotation goes on if and only if the token is known, unrevoked and unexpired, and the family's revocation comes if and only if it is revoked |
| RefreshTokens.AuthService.RevokePresented | backend/app/services/auth_service.py:130 | the presented token is stamped unless it is already, and the rotation goes on either way |
| RefreshTokens.AuthService.StoreNext | backend/app/services/auth_service.py:131 | the new token is stored for the old one's user |
| RefreshTokens.SerialIsRotate | backend/app/services/auth_service.py:112-132 | a rotation with nothing between its database calls is the simple one: a new token exactly when the old one was known, unrevoked and unexpired |
| RefreshTokens.RotateIff | backend/app/services/auth_service.py:112-132 | the simple rotation stores a new token if and only if the old one is known, unrevoked and unexpired and its user in order, and then revokes the old one; a revoked one costs its user every token; else nothing changes |
| RefreshTokens.AuthService.RotateRefresh | backend/app/services/auth_service.py:112-132 | the same of the service object, its database calls one after the other |
| RefreshTokens.LookUpDecides | backend/app/services/auth_service.py:115-126 | which step can follow a lookup, by the row and the clock; the lookup itself stores nothing |
| RefreshTokens.NeverExchanged | backend/app/services/auth_service.py:115-125 | over every history a token presented expired, unknown or revoked is never exchanged, whatever comes after |
| RefreshTokens.StepWrites | backend/app/services/auth_service.py:94-139 | each step writes the new row of a login or rotation and stamps what it revokes, and nothing else |
| RefreshTokens.AuthService.RevokeAllForUser | backend/app/db/repositories.py:444-448 | every unrevoked token of the user is stamped, nothing else changes |
| RefreshTokens.NextSession | backend/app/services/auth_service.py:112-132 | one session per login survives a step if and only if the step is no rotation going on with a token revoked since its lookup while the login's chain is alive without it |
| RefreshTokens.OneSessionIff | backend/app/services/auth_service.py:94-132 | over every history of logins, logouts and overlapping rotations each login keeps a single session at all times if and only if no such step is taken |
| RefreshTokens.OneLiveTokenPerChain | backend/app/services/auth_service.py:94-132 | in every history a login's rotation chain has one owner, and two unrevoked tokens only after such a step |
| RefreshTokens.RaceMakesTwo | backend/app/services/auth_service.py:129-132 | after such a step storing the new tokens gives the login two sessions |
| RefreshTokens.OverlappingRotations | backend/app/services/auth_service.py:112-132 | two rotations of one token that overlap both succeed |
| RefreshTokens.RevocationIsFinal | backend/app/db/repositories.py:438-448 | a revocation is never undone or stamped again |
| RefreshTokens.ReuseSignsOut | backend/app/services/auth_service.py:115-122 | presenting a revoked token leaves its user without an unrevoked token, and whatever follows short of the user's next login keeps it so if and only if no rotation of the user's was past its lookup |
| SessionProtocol.AuthClient.RefreshAccessToken | frontend/lib/auth.ts:32-58 | a caller joins the flight if there is one, otherwise one request is sent |
| SessionProtocol.AuthClient.ResponseArrives | frontend/lib/auth.ts:36-48 | the response sets cookie and access token, and every waiting caller gets the same answer |
| SessionSteps.CallAsks | frontend/lib/auth.ts:32-58 | a request with the jar's cookie is sent if and only if none is pending; a caller joins the one pending or is told what the last one said |
| SessionSteps.LookAnswers | backend/app/api/auth.py:88-104 | what the server does with a request, by its token's row and the clock, and which refusals it answers at once |
| SessionSteps.DeliverTells | frontend/lib/auth.ts:36-48 | a new token becomes the cookie, any other answer leaves it, and every caller waiting is told which, no other |
| SessionSteps.LoseTells | frontend/lib/auth.ts:48-51 | a request that fails tells every caller no, and what the server was doing for it goes on |
| SessionSteps.LogoutRevokes | backend/app/services/auth_service.py:134-137 | the server revokes the token a logout carries and no other |
| SessionProtocol.OneRefreshInFlight | frontend/lib/auth.ts:32-58 | in every run a page waits for at most one refresh, on the wire or at the server, exactly while a promise is pending |
| SessionProtocol.WaitersShareTheAnswer | frontend/lib/auth.ts:32-58 | when the promise settles, after whatever actions, every caller that awaited it is told the same |
| SessionProtocol.NextOk | backend/app/services/auth_service.py:112-132 | until the first reuse every action, each database call of a rotation being one, keeps what server, cookies and messages owe each other, unless it looks a stale token up, and then the reuse branch is reached |
| SessionProtocol.ReuseIffStale | backend/app/services/auth_service.py:112-122 | in every run not taken for theft so far, of any number of pages and cookie jars with rotations overlapping in the server, a step reaches the reuse branch if and only if it looks up a token gone stale |
| SessionProtocol.TakenForReuseIff | backend/app/services/auth_service.py:112-122 | over every whole run the reuse branch is reached if and only if a stale token is looked up at some step, where a token is stale by what happened to the messages that carry it |
| SessionProtocol.NeverTakenForReuse | backend/app/services/auth_service.py:112-122 | while no action makes a token stale the reuse branch is never reached |
| SessionProtocol.OrderlyPagesAreSafe | backend/app/services/auth_service.py:112-122 | pages that do not share a jar, whose rotations and logouts are answered and do not overlap, never reach it |
| SessionProtocol.LostResponseIsTakenForReuse | backend/app/api/auth.py:88-104 | one lost refresh response and a new refresh reach the reuse branch |
| SessionProtocol.LogoutDuringRefreshIsTakenForReuse | backend/app/api/auth.py:107-117 | a logout that overtakes a refresh reaches the reuse branch |
| SessionProtocol.TwoPagesAreTakenForReuse | frontend/lib/auth.ts:32-58 | two pages of one browser that refresh at once reach it, each with its own promise |
| SessionProtocol.TwoPagesBothRotate | backend/app/services/auth_service.py:112-132 | when both tokens are looked up before either is exchanged nothing is noticed and the login has two live tokens |

## Left out
- The legacy research path (verification level off), the narrative report, the executive summary and planning prompts: model-written text with no claims to account for.
- LLM, search and crawl adapters, the fetch and section semaphores and the LLM call cap: they only decide which steps come when, or fail one; every order and every failure is covered.
- Verifier.VerifyClaims: replies whose confidence is not a number raise in the program; here a confidence already is a number. Lower-casing is modelled for ASCII letters only, also in Grounding.GroundedIff: a letter whose lower form is several letters, or depends on its place in a word, is not modelled.
- Grounding.ExtractClaims: entity and attribute come as text or nothing; values of other JSON types, which the program rejects or converts, and the stance field are not modelled.
- JsonScan.ExtractJson: the JSON library is a parameter; the trailing-comma repair is inside it, since the repair also rewrites text inside strings. The printer covers objects, arrays, strings, numbers as opaque tokens, and the constants.
- Report.RenderEntityReport: lines carry claims, levels and verdicts instead of Markdown; fixed headings, cell escaping and the Sources section are not modelled.
- Engine.ResearchEngine.Written: the engine object covers its own coroutine; the interleaving with its sections is proved on the state machine of values beside it.
- Section.SectionRun.NextPage: one search result per step, though several known pages pass without a wait; the model therefore allows more interleavings than the program.
- Hub actions assume a hub created over an empty log: a cancelled run that never started, a process restart and the approval future of a submitted plan are not modelled.
- StreamClient.PageConverges: reconnects are modelled without the hydrate action, which replaces section detail wholesale; the local approve and cancel dispatches are left out, and malformed payloads are ignored before this layer.
- Projection.RunStore.Project: the section and contradiction tables and timestamps are not modelled, and the statements that store one event's claim and its source links are one step.
- SessionProtocol.TakenForReuseIff: access tokens, their expiry and cookie expiry are not modelled; what happens after the first reuse is stated of the server alone (RefreshTokens.ReuseSignsOut).
- RefreshTokens.AuthService.LookUp: hashing is left out, expiry clocks and disabled users are parameters of the steps.
- RateLimit.SlidingWindowLimiter.Allow: times are real numbers.
- Role checks, the vault, OAuth, settings parsing, the command line and all rendering: no state that these properties depend on.
