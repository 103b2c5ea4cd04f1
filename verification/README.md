# sidequest-server agents: a Dafny model

sidequest-server runs a tabletop role-playing game narrated by language models. This project models the
parts of its `sidequest/agents` package that guard money, privacy and prose, and proves what they promise.

* **Cost safety** (`CostSafety`, `CostProtocol`, `DetectorRuns`, `OtherSites`, `NarratorClient`, `IntentRouter`,
  `Pricing`).
  One process-wide ledger is shared by narrator clients and short-lived adapters. A call is checked, awaits the
  model, and is then judged, appended to its baselines and charged in one atomic step. The ledger, the narrator
  client and the router are classes proved against functions on values; `CostProtocol` runs those functions over
  every interleaving of admissions, completions, failures and resets, with event publication allowed to fail.
  In the class methods, `OtherSites` is whatever other sites do to the ledger while a call awaits its model.
* **Second-person rewriting** (`PovWords`, `PovPasses`, `PovReadings`, `PovClause`, `PovSkeleton`, `PovSentence`,
  `PovPassSentences`, `PovOtherSentences`, `PovSwap`). Every regular-expression pass is a scanner in one table;
  `PovReadings` says what each does on texts described by words and whitespace, and the sentence modules run the whole
  gated pipeline on a sentence for each pass. The nested loops over dialogue, sentences and clauses are proved equal to
  a flat list of pieces rewritten one by one.
* **Narration output** (`PublicScrub`, `ResponseSplit`, `NarrationRepair`). The private-content scrubber, the
  patch-fence splitter, the preamble strip and the repair chain against adversarial follow-up replies.
* **Chat history** (`ChatHistory`). A capped buffer against the complete log.
* **Dispatch filters and watcher** (`Dispatch`, `EngagementWatcher`). `MagicWorking` adds the dispatch bank with its
  magic handler, so that what the gate drops and what the watcher reports are held against what an engine would do.
* **A/B gate** (`AbGate`).

`Text` holds character classes and scanning. The classes are a parameter constrained by `Text.Lawful`, so results
hold for any Unicode text that Python's `str` classes describe, not only for ASCII. Dollars, percentages and
latencies are reals. Replies, failures and publication outcomes are inputs, quantified over.

Where code and documentation differ, the model follows the code; a lemma shows an input at which the documented
behaviour fails, and another says exactly when it holds:

* The ledger is described as the one pot every call lands in. A call whose runaway alarm fails to publish is billed
  but never reaches it (`DetectorRuns.UnheardAlarmLosesCall`, `DetectorRuns.BooksAreCompleteIff`).
* `_conjugate` is described as turning a third-person verb into its second-person form. Its suffix rules misread
  "gazes", "ties", "focuses", "echoes" and "quizzes" (`PovWords.GazesIsMisread`,
  `PovWords.ConjugateInvertsInflectionIff`).
* The gate is described as dropping only dispatches that could never engage. It does not look at psionics, so it drops
  disciplines that the handler would have activated (`MagicWorking.PsychicIsGated`, `MagicWorking.InertMagicIff`,
  `MagicWorking.DroppedWouldRunIff`).
* The watcher is described as reporting workings without mechanical backing. A psionic activation leaves no receipt, so
  it is reported although an engine answered it (`MagicWorking.PsychicIsGated`, `MagicWorking.AnsweredIsSeenIff`).

`dafny verify dfyconfig.toml` checks the whole project.

## Model

| member | source | states |
|---|---|---|
| `Pricing.ComputeCost` | sidequest/agents/anthropic_cost.py:93-138 | fails exactly on a model without a pricing entry; a priced call never costs less than nothing |
| `Pricing.PriceList` | sidequest/agents/anthropic_cost.py:39-63 | the dollars a million tokens of each of the six kinds cost at each of the three priced models, and that no other model is priced |
| `Pricing.QuotesDetermine` | sidequest/agents/anthropic_cost.py:130-138 | a model's six prices per million determine the price of every call |
| `Pricing.DollarsAdd` | sidequest/agents/anthropic_cost.py:131-138 | pricing is linear: the price of summed token counts is the sum of the prices, bucket by bucket |
| `CostSafety.SessionCostLedger.CheckCeiling` | sidequest/agents/cost_safety.py:263-270 | refuses exactly the sessions whose total has reached the ceiling, with that total and ceiling, and changes nothing |
| `CostSafety.SessionCostLedger.UpdateCumulative` | sidequest/agents/cost_safety.py:272-325 | the whole new ledger; it returns normally exactly while the new total is below the ceiling; the session becomes announced exactly when the event goes out |
| `CostSafety.SessionCostLedger.RecordCall` | sidequest/agents/cost_safety.py:329-367 | judge on prior observations, then append, then charge; an alarm that cannot be published leaves the ledger as it was; windows stay paired |
| `CostSafety.SessionCostLedger.ResetBaselines` | sidequest/agents/cost_safety.py:376-385 | exactly the named session's adapter windows go; totals, announcements and other sessions stay |
| `CostSafety.SessionCostLedger.InstrumentedTotal` | sidequest/agents/cost_safety.py:371-374 | the sum over all sessions, in whatever order the dictionary is walked |
| `CostSafety.ChargeMovesTotal` | sidequest/agents/cost_safety.py:285-286 | charging any one session moves the instrumented total by exactly that cost |
| `CostProtocol.CumulativeIsBookedSpend` | sidequest/agents/cost_safety.py:285-286 | in every interleaved run a session's total is the sum of its booked calls |
| `CostProtocol.PriceConservation` | sidequest/agents/anthropic_cost.py:100-138 | for a session run on one model, the total after any run is the price of its summed token counts |
| `CostProtocol.InstrumentedTotalIsAllSpend` | sidequest/agents/cost_safety.py:371-374 | after any run the instrumented total is everything booked, over all sessions and sites |
| `CostProtocol.SpentMonotone` | sidequest/agents/cost_safety.py:376-385 | no event, resets included, ever lowers a session's total |
| `CostProtocol.TerminalKill` | sidequest/agents/cost_safety.py:263-270 | once a total reaches the ceiling no later call of that session is admitted, at any site, and the refusal changes nothing |
| `CostProtocol.OvershootBound` | sidequest/agents/llm_factory.py:239-278 | with at most k calls in flight, none booked above c, the total stays below ceiling + k*c, even counting the calls still in flight at c each |
| `CostProtocol.SequentialOvershoot` | sidequest/agents/anthropic_sdk_client.py:434-437 | run one at a time, a booked call leaves the total below the ceiling plus its own cost |
| `CostProtocol.BurstOvershoots` | sidequest/agents/llm_factory.py:239-278 | the dependence on k is real: however low the ceiling, a burst of k calls admitted together leaves the total at k times their cost |
| `CostProtocol.AnnounceOnce` | sidequest/agents/cost_safety.py:288-325 | at most one ceiling event per session in any run, failed publications included; announced exactly when it went out; announced implies at or above the ceiling |
| `CostProtocol.CrossingAlwaysRaises` | sidequest/agents/cost_safety.py:288-325 | a booking raises exactly when it leaves the total at or above the ceiling; it is the typed ceiling error, with the right figures, exactly when the session ends up announced |
| `DetectorRuns.JudgeRefines` | sidequest/agents/cost_safety.py:166-199 | the comparator on bounded windows gives the verdict of a reference that keeps the whole history |
| `DetectorRuns.BaselinesAreMeans` | sidequest/agents/cost_safety.py:166-177 | after warmup the baselines are the plain means of the latest ten calls, clamped |
| `DetectorRuns.CannotTrainIntoSilence` | sidequest/agents/cost_safety.py:171-199 | in every interleaved run a completed call raises the first trigger, in priority order, that holds against the baselines of its own stream's history; these stay under their clamps, so the absolute floors always fire |
| `DetectorRuns.StreamRefinesReference` | sidequest/agents/cost_safety.py:329-385 | in every interleaving a stream's verdicts are those of the reference fed only that stream's calls and resets, and both windows are the last min(10, n) observations since the last reset |
| `DetectorRuns.NonInterference` | sidequest/agents/anthropic_sdk_client.py:882-917 | two runs that show a stream the same calls and resets give it the same verdicts and leave it the same windows, whatever other sessions, callers, clients and ceilings do |
| `DetectorRuns.WindowsStayPaired` | sidequest/agents/cost_safety.py:166-177 | the two windows of a stream exist together with equal lengths between 1 and 10, so testing the cost window decides warmup and no mean divides by zero |
| `DetectorRuns.ShortfallIsLostSpend` | sidequest/agents/cost_safety.py:340-367 | in every run what a session was billed is its total plus the cost of the calls lost to an unpublished alarm |
| `DetectorRuns.BooksAreCompleteIff` | sidequest/agents/cost_safety.py:340-367 | the total equals everything billed if and only if no call that costs something and is a runaway against its own stream's history completes while its alarm cannot be published |
| `DetectorRuns.UnheardAlarmLosesCall` | sidequest/agents/cost_safety.py:340-367 | the failing family is not empty: a first call of 40001 input tokens is billed and the total stays zero |
| `OtherSites.OthersOnlyAdd` | sidequest/agents/cost_safety.py:272-385 | whatever calls other sites record, book or reset on the ledger during an await, no session's total falls |
| `NarratorClient.Drain` | sidequest/agents/anthropic_sdk_client.py:488-574 | for every message stream: the first raise aborts it, otherwise the last terminal message, last model id and last text block are what is remembered |
| `NarratorClient.LastsAre` | sidequest/agents/anthropic_sdk_client.py:488-574 | what the last result, model id and text block of a stream are |
| `NarratorClient.AnthropicSdkClient.Account` | sidequest/agents/anthropic_sdk_client.py:824-917 | narrator accounting, with its own windows and the shared totals, is exactly the protocol's posting at a narrator site |
| `NarratorClient.AnthropicSdkClient.ResetBaselines` | sidequest/agents/anthropic_sdk_client.py:766-822 | drops this client's windows and the ledger's adapter windows for the session, as the protocol's reset |
| `NarratorClient.AnthropicSdkClient.CompleteWithTools` | sidequest/agents/anthropic_sdk_client.py:434-695 | whatever other sites and other turns of this client do during the stream, the turn itself moves the ledger at most once: by the price of the last terminal message, only if the stream ended normally, the model is priced and there is a session, and before any error result is raised; every outcome exactly when its condition on stream, price and posting holds |
| `IntentRouter.IntentRouter.Try` | sidequest/agents/llm_factory.py:204-278 | one attempt: refused exactly at or above the ceiling, then nothing changes; otherwise the ledger is the recording of the priced answer on top of what others did meanwhile, made before the output is read; every outcome exactly when its condition on backend, price, posting, output and validation holds |
| `IntentRouter.IntentRouter.Decompose` | sidequest/agents/intent_router.py:471-593 | for any number of attempts, backend behaviour and ledger activity of others meanwhile: attempt i is made in round i on the ledger the previous one left; the counter is the attempts made; a package is returned exactly when the last attempt validated it, a failure carries its reason; after a crossing every later attempt is refused, books nothing and the call fails; each attempt is prompted with the latest schema error |
| `PovWords.ChangedWordsLookLikeVerbs` | sidequest/agents/pov_swap.py:152-195 | any word the conjugation changes passes the verb test |
| `PovWords.IrregularForms` | sidequest/agents/pov_swap.py:128-171 | an irregular form becomes its second person, keeping a capital |
| `PovWords.LooksLikeVerbIff` | sidequest/agents/pov_swap.py:180-195 | what passes for a verb: the nine irregular forms, and words in a single -s |
| `PovWords.PronounsAndAdverbs` | sidequest/agents/pov_swap.py:198-264 | the words never conjugated, and those that may stand between a lead-in and its verb |
| `PovWords.ConjugateInvertsInflectionIff` | sidequest/agents/pov_swap.py:152-177 | for each of the four regular third-person spellings (-s, -es, -y to -ies, doubled consonant) of a lower-case base, conjugation gives the base back if and only if: -s, not on a base in -s, -ie, -sse, -she, -che, -xe, -ze or spelt like an irregular form; -es, only on -ss, -sh, -ch, -x, -z, "do" and "go"; -ies, on a base longer than "y"; doubled, never |
| `PovWords.GazesIsMisread` | sidequest/agents/pov_swap.py:173-177 | the failing family is not empty: "gazes" becomes "gaz" and "echoes" becomes "echoe" |
| `PovPasses.SentenceStartIff` | sidequest/agents/pov_swap.py:891-937 | the paragraph test and the backward scan amount to one reading of the whitespace before a position |
| `PovPasses.SubjectNameReads` | sidequest/agents/pov_swap.py:455-486 | on any text reading as name, whitespace, word: a longer proper noun is left alone, otherwise the subject is replaced, capitalised exactly at a sentence start, the word conjugated and the gates opened |
| `PovPasses.NamePassNeedsName` | sidequest/agents/pov_swap.py:432-509 | a name pass matches only where the name starts |
| `PovReadings.FragmentIff` | sidequest/agents/pov_swap.py:267-313 | a name is part of a longer proper noun exactly if a capitalised word follows, or one precedes that does not open a sentence |
| `PovReadings.PossessiveNameReads` | sidequest/agents/pov_swap.py:432-448 | the possessive name becomes "your", or "yours" before an ending, capitalised at a sentence start |
| `PovReadings.BareNameReads` | sidequest/agents/pov_swap.py:492-509 | a standalone name that is no fragment becomes "you" |
| `PovReadings.PossessivePronounReads` | sidequest/agents/pov_swap.py:755-775 | the possessive form becomes "your"; "her" exactly where a word follows |
| `PovReadings.ObjectPronounReads` | sidequest/agents/pov_swap.py:804-821 | the object form becomes "you"; "her" exactly where no word follows |
| `PovReadings.SubjectPronounReads` | sidequest/agents/pov_swap.py:776-803 | the subject form becomes "you" and the word after it agrees |
| `PovReadings.ReflexiveReads` | sidequest/agents/pov_swap.py:557-572 | a standalone reflexive becomes "yourself" |
| `PovReadings.AndVerbReads` | sidequest/agents/pov_swap.py:595-633 | after "and" the word agrees if it is a verb and no pronoun |
| `PovReadings.AndTwoReads` | sidequest/agents/pov_swap.py:595-633 | of two words after "and" the first agrees, or the second after an adverb |
| `PovReadings.CommaVerbReads` | sidequest/agents/pov_swap.py:656-701 | after a comma the word agrees, unless it is "and" |
| `PovReadings.ThenVerbReads` | sidequest/agents/pov_swap.py:714-728 | after "then" the word agrees |
| `PovReadings.InterrupterReads` | sidequest/agents/pov_swap.py:521-544 | the verb after an interrupted "You" agrees |
| `PovReadings.InvertedAuxiliaryReads` | sidequest/agents/pov_swap.py:837-852 | an irregular auxiliary before "you" agrees |
| `PovSkeleton.HitKeepsSkeleton` | sidequest/agents/pov_swap.py:432-852 | no match of any of the twelve kinds of pass adds, drops or reorders punctuation outside words, whitespace, apostrophes and the name |
| `PovClause.Substitute` | sidequest/agents/pov_swap.py:448-509 | one left-to-right, non-overlapping substitution on the text as it was when the pass began, with counts and gate flags accumulated |
| `PovClause.RewriteClause` | sidequest/agents/pov_swap.py:382-852 | the flag-driven pass sequence computes the specification: name passes decide a plan, the plan runs, questions agree their auxiliary |
| `PovClause.ClauseHonest` | sidequest/agents/pov_swap.py:432-852 | a clause with count zero is unchanged across all passes |
| `PovClause.ClauseWithoutName` | sidequest/agents/pov_swap.py:402-408 | a clause that does not contain the name is returned as it is, whatever pronouns it holds |
| `PovSentence.SimpleSentence` | sidequest/agents/pov_swap.py:382-852 | the whole pipeline on "Name verb tail" yields "You verb' tail" with the verb conjugated and the tail copied, for any tail without the name, a pronoun form, "and", "then", a comma or a question mark: every gated pass is let through and none disturbs the result |
| `PovSentence.PlanIff` | sidequest/agents/pov_swap.py:511-822 | which gate lets which pass through |
| `PovSentence.PlanIs` | sidequest/agents/pov_swap.py:511-822 | the order of the passes after a swapped subject |
| `PovPassSentences.ReflexiveSentence` | sidequest/agents/pov_swap.py:382-852 | the whole pipeline on "Name verb himself rest": the reflexive becomes "yourself" |
| `PovPassSentences.PossessiveSentence` | sidequest/agents/pov_swap.py:382-852 | "Name presses her palm" becomes "You press your palm", for every name, verb, noun and quiet rest |
| `PovPassSentences.ObjectSentence` | sidequest/agents/pov_swap.py:382-852 | the object form after the verb becomes "you" |
| `PovPassSentences.SubjectSentence` | sidequest/agents/pov_swap.py:382-852 | the subject form after the verb becomes "you" and its own verb agrees |
| `PovPassSentences.AndSentence` | sidequest/agents/pov_swap.py:382-852 | "Name turns and smiles" becomes "You turn and smile" |
| `PovPassSentences.ThenSentence` | sidequest/agents/pov_swap.py:382-852 | "Name waits then leaps" becomes "You wait then leap" |
| `PovOtherSentences.CommaSentence` | sidequest/agents/pov_swap.py:382-852 | "Name turns, smiles" becomes "You turn, smile" |
| `PovOtherSentences.PossessiveNameSentence` | sidequest/agents/pov_swap.py:382-852 | "Name's sword gleams" becomes "Your sword gleams" |
| `PovOtherSentences.InterruptedSentence` | sidequest/agents/pov_swap.py:382-852 | "Name, smiling, opens" becomes "You, smiling, open" |
| `PovOtherSentences.AddressedSentence` | sidequest/agents/pov_swap.py:382-852 | a name after another word becomes "you", and in a question, and only there, an irregular auxiliary before it agrees |
| `PovSwap.RewriteSentence` | sidequest/agents/pov_swap.py:855-888 | the loop over semicolon-separated clauses computes the piecewise specification |
| `PovSwap.SwapToSecondPerson` | sidequest/agents/pov_swap.py:940-1007 | fails exactly on an empty name or unsupported pronouns; otherwise the nested loops compute the piecewise specification |
| `PovSwap.ExtractSpokenLines` | sidequest/agents/pov_swap.py:336-355 | the trimmed, non-empty contents of the quoted spans, in order |
| `PovSwap.PiecesTile` | sidequest/agents/pov_swap.py:316-379 | the dialogue, sentence and clause cuts concatenate back to the text |
| `PovSwap.PiecesAreCut` | sidequest/agents/pov_swap.py:316-379 | clauses hold no semicolon and are marked as opening their sentence exactly when none stands before them; spoken pieces run from one quote to the next |
| `PovSwap.SentenceEndIs` | sidequest/agents/pov_swap.py:358-379 | a sentence ends past the whitespace after its first terminator that has some, or at the end of the prose |
| `PovSwap.OneClauseText` | sidequest/agents/pov_swap.py:940-1007 | a text of one clause is rewritten as that clause, at the start of its sentence |
| `PovSwap.ClauseLocality` | sidequest/agents/pov_swap.py:855-888 | dialogue, and clauses without the name, come out identical with count zero, whatever their siblings did; the output is the concatenation of the pieces' images |
| `PovSwap.FixedPoint` | sidequest/agents/pov_swap.py:983-1000 | a text none of whose clauses holds the name is returned unchanged with count zero |
| `PovSwap.HonestCount` | sidequest/agents/pov_swap.py:961-965 | a swap count of zero means the text is unchanged |
| `PovSwap.SwapKeepsSkeleton` | sidequest/agents/pov_swap.py:983-1000 | rewriting keeps every guarded character of the text, in order |
| `PovSwap.DialogueInvariance` | sidequest/agents/pov_swap.py:316-355 | for every text, unmatched quotes included, and every name without a double quote, the spoken lines after rewriting are those before |
| `PublicScrub.Scrub` | sidequest/agents/orchestrator.py:1183-1262 | the loops compute the published prose and the report |
| `PublicScrub.AsideNeverPublished` | sidequest/agents/orchestrator.py:1215-1223 | what is published depends on the text in front of the aside alone, and without private segments is that text, trimmed |
| `PublicScrub.ScrubExact` | sidequest/agents/orchestrator.py:1230-1261 | for any prose, aside and segments: degraded exactly when every sentence in front of the aside leaks, and then that text is published; otherwise re-splitting the published prose gives exactly the sentences in front of the aside that do not leak, in order |
| `PublicScrub.ScrubGuarantee` | sidequest/agents/orchestrator.py:1179-1262 | unless degraded, no sentence of the published prose has a token overlap of one half or more with a private segment |
| `PublicScrub.ScrubKeepsContent` | sidequest/agents/orchestrator.py:1252-1261 | the published prose is empty exactly when the text in front of the aside is blank |
| `PublicScrub.SplitAtIff` | sidequest/agents/orchestrator.py:1133 | where the sentence pattern cuts, character by character |
| `PublicScrub.RunsIff` | sidequest/agents/orchestrator.py:1134 | the tokens of a text are its maximal runs of letters and digits |
| `PublicScrub.PovWordsCarryNothing` | sidequest/agents/orchestrator.py:1135-1180 | person and function words carry no overlap, so a copy differing only in person scores as the same text |
| `PublicScrub.OtherWordsCount` | sidequest/agents/orchestrator.py:1179-1180 | every other token counts |
| `PublicScrub.SentencesOfTrimmed` | sidequest/agents/orchestrator.py:1133 | trimming a text trims its sentences and moves no cut |
| `PublicScrub.TokensOfTrimmed` | sidequest/agents/orchestrator.py:1179-1180 | surrounding whitespace carries no overlap tokens |
| `ResponseSplit.BlockFromIff` | sidequest/agents/orchestrator.py:1085 | the fence scan matches exactly where the pattern has some way to match |
| `ResponseSplit.FenceRoundTrip` | sidequest/agents/orchestrator.py:1038-1098 | for prose and body free of triple backticks, printing and splitting returns the trimmed prose and hands the parser exactly the trimmed body |
| `ResponseSplit.StripsAtFirstFence` | sidequest/agents/orchestrator.py:1077-1098 | stripping keeps the trimmed text before the first fence, with either label or none, or everything |
| `ResponseSplit.PlainResponse` | sidequest/agents/orchestrator.py:1038-1098 | a response without triple backticks is all prose and no patch |
| `ResponseSplit.PatchThenJson` | sidequest/agents/orchestrator.py:1046-1074 | the patch comes from the first game_patch block if it parses, else from the first json block |
| `ResponseSplit.JsonAlone` | sidequest/agents/orchestrator.py:1060-1074 | without a game_patch block, from the first json block |
| `ResponseSplit.StripPreamble` | sidequest/agents/narration_hygiene.py:118-167 | strips exactly when a telling rule within its window, or else the first sentence end after a leading marker, has something after it, and cuts there; returns a suffix of its input and never blanks non-blank prose |
| `NarrationRepair.RecoverEmptyProse` | sidequest/agents/orchestrator.py:3491-3528 | only blank prose of a tooling turn that acted is replaced, and only by a reply with content |
| `NarrationRepair.GuardEmptyNarration` | sidequest/agents/orchestrator.py:3440-3464 | narration is never blank afterwards; blank prose becomes the degraded stall and other prose is untouched |
| `NarrationRepair.RepairFabricatedRoll` | sidequest/agents/orchestrator.py:3584-3626 | a fabricated roll is replaced exactly when the client can rewrite and the rewrite is non-blank and clean |
| `NarrationRepair.RunRepairs` | sidequest/agents/orchestrator.py:3380-3404 | for every first result and follow-up reply: the exact final narration and degraded flag; narration ends non-blank; exactly when a fabricated roll survives |
| `ChatHistory.CapStep` | sidequest/agents/ollama_client.py:206-219 | truncating after each append is truncating the whole log once |
| `ChatHistory.BoundedRefinesComplete` | sidequest/agents/ollama_client.py:144-176 | in every interleaving of new, resumed, answered and failed sends, each stored history is one truncation of the session's complete log |
| `ChatHistory.CapHolds` | sidequest/agents/ollama_client.py:206-219 | a truncation is the leading system message and the latest 64 others |
| `ChatHistory.OllamaClient.StartNew` | sidequest/agents/ollama_client.py:144-151 | opens a fresh session's log and sends its truncation; an unknown model changes nothing |
| `ChatHistory.OllamaClient.StartResumed` | sidequest/agents/ollama_client.py:152-171 | appends the user message to the named session only and sends the truncation of the complete log; unknown sessions change nothing |
| `ChatHistory.OllamaClient.Finish` | sidequest/agents/ollama_client.py:172-176 | a reply is appended, a failure leaves the user message in place; stored histories stay truncations of the logs |
| `Dispatch.RunGate` | sidequest/agents/dispatch_precondition_gate.py:161-210 | the filtered package and the drops in traversal order; kept are exactly the dispatches of registered subsystems, respectively those whose snapshot fields are there; directives, players and participants stay; a gate that drops nothing returns its input |
| `Dispatch.Redact` | sidequest/agents/prompt_redaction.py:27-93 | kept are exactly the dispatches and directives not marked for redaction, removed exactly the marked ones, player by player and then from cross-player actions |
| `Dispatch.FilterConserves` | sidequest/agents/dispatch_precondition_gate.py:174-202 | kept and dropped dispatches weave back into the original list; nothing is lost, added or reordered |
| `Dispatch.DirectivesConserved` | sidequest/agents/prompt_redaction.py:45-50 | the same of the narrator directives the redactor splits |
| `Dispatch.FiltersCommute` | sidequest/agents/dispatch_precondition_gate.py:288-329 | the two gates and the redactor commute pairwise on packages and are idempotent |
| `Dispatch.FilterKeepsKeysUnique` | sidequest/agents/dispatch_precondition_gate.py:166-173 | unique idempotency keys stay unique |
| `Dispatch.AllOwnedFiltered` | sidequest/agents/dispatch_engagement_watcher.py:474-490 | filtering a package filters the watcher's flat traversal, keeping owners and order |
| `Dispatch.AllOwnedIff` | sidequest/agents/dispatch_engagement_watcher.py:474-490 | every dispatch is visited, a player's with the player and a cross-player one with nobody |
| `Dispatch.TraversalOrder` | sidequest/agents/dispatch_engagement_watcher.py:484-490 | players first, then cross-player actions |
| `EngagementWatcher.Detect` | sidequest/agents/dispatch_engagement_watcher.py:498-542 | one mismatch per dispatch without engagement evidence, in traversal order; no package, none |
| `EngagementWatcher.EngagedIff` | sidequest/agents/dispatch_engagement_watcher.py:185-446 | what counts as engagement, subsystem by subsystem, in the fields of snapshot and dispatch |
| `EngagementWatcher.RecordedIff` | sidequest/agents/dispatch_engagement_watcher.py:200-311 | acts and workings need this turn's record |
| `EngagementWatcher.MalformedIff` | sidequest/agents/dispatch_engagement_watcher.py:173-182 | malformed evidence names exactly the missing parameter |
| `EngagementWatcher.EvidenceIsTrue` | sidequest/agents/dispatch_engagement_watcher.py:185-446 | evidence tells the truth about snapshot and dispatch |
| `EngagementWatcher.MismatchTells` | sidequest/agents/dispatch_engagement_watcher.py:524-542 | the mismatches are exactly one per dispatch without engagement, with its subsystem, key, shown parameter and evidence |
| `EngagementWatcher.GatingAgreesWithWatcher` | sidequest/agents/dispatch_engagement_watcher.py:498-542 | on a fixed snapshot, watching the gated package finds exactly the original mismatches less those of the gated subsystems |
| `EngagementWatcher.ReportedIff` | sidequest/agents/dispatch_engagement_watcher.py:524-542 | keys being unique, the watcher reports a dispatch exactly when its own witness finds no engagement, whatever else the package holds |
| `MagicWorking.RunBank` | sidequest/agents/subsystems/__init__.py:381-477 | the bank hands the magic handler, in order, the first dispatch of each key if it is confident enough |
| `MagicWorking.RunsIff` | sidequest/agents/subsystems/__init__.py:381-441 | what the bank runs: the confident dispatches whose key no earlier one has |
| `MagicWorking.AnsweredIff` | sidequest/agents/subsystems/magic_working.py:668-707 | which engine answers which working, in the fields of pack, snapshot and dispatch |
| `MagicWorking.BankMarks` | sidequest/agents/subsystems/magic_working.py:644-707 | after any bank run an actor is on record exactly if it was before, or an engine that writes receipts answered one of its workings at the surfaces the turn began with |
| `MagicWorking.WatcherReadsReceipts` | sidequest/agents/dispatch_engagement_watcher.py:200-237 | after the turn a working counts as engaged if and only if its actor was on record or such an engine answered a working of that actor |
| `MagicWorking.AnsweredIsSeenIff` | sidequest/agents/dispatch_engagement_watcher.py:203-221 | a working an engine answered counts as engaged if and only if that engine is not psionics |
| `MagicWorking.BankKeepsBacked` | sidequest/agents/subsystems/magic_working.py:275-284 | in every bank run, receipts of a turn come only with their surface on the snapshot |
| `MagicWorking.DroppedWasCertain` | sidequest/agents/dispatch_precondition_gate.py:79-127 | every clue, witnessed act or working the gate drops from a package would have been reported by the watcher after the bank ran what was kept |
| `MagicWorking.DroppedWouldRunIff` | sidequest/agents/dispatch_precondition_gate.py:91-127 | a dropped working would have been answered by the handler if and only if the psionic surface is present and it names a psychic and a known discipline |
| `MagicWorking.InertMagicIff` | sidequest/agents/dispatch_precondition_gate.py:91-127 | where the gate calls magic inert, no working whatever could have engaged if and only if no psychic can act |
| `MagicWorking.PsychicIsGated` | sidequest/agents/subsystems/magic_working.py:673-687 | a concrete psychic, pack and discipline: the gate drops it, the handler would have activated it, and the watcher would have reported it all the same |
| `AbGate.LatencyPercentiles` | sidequest/agents/ab_eval_harness.py:411-426 | fails exactly on an empty sample; otherwise the two nearest-rank percentiles, in order |
| `AbGate.PercentileRank` | sidequest/agents/ab_eval_harness.py:420-424 | a percentile is a measured value; at least a share q of the values is at most it and a smaller share is below it |
| `AbGate.PercentileUnique` | sidequest/agents/ab_eval_harness.py:420-424 | those two counts determine the percentile |
| `AbGate.PercentileWithin` | sidequest/agents/ab_eval_harness.py:420-424 | a percentile meets a budget exactly when that share of the values does |
| `AbGate.PerType` | sidequest/agents/ab_eval_harness.py:829-840 | each type's tally counts the captures naming it and those of them that agreed, in whatever order the types are walked |
| `AbGate.TallyCounts` | sidequest/agents/ab_eval_harness.py:829-840 | a tally is the number of captures naming the type and of those agreeing |
| `AbGate.AgreesIff` | sidequest/agents/ab_eval_harness.py:434-453 | two sides agree exactly when both are valid, name the same subsystems and seat the same confrontations |
| `AbGate.TallyBounds` | sidequest/agents/ab_eval_harness.py:829-840 | agreed <= total <= n for every type, and no type agrees more often than the corpus |
| `AbGate.GoNoGo` | sidequest/agents/ab_eval_harness.py:558-589 | GO exactly when no reason is listed; each reason exactly when its threshold fails; no adjudications means the raw agreement |
| `AbGate.GoIff` | sidequest/agents/ab_eval_harness.py:558-589 | GO in terms of the captures: enough agree or were adjudicated for the local model, enough are valid, and 95 in 100 came within the budget |
| `AbGate.KinderAdjudicationKeepsGo` | sidequest/agents/ab_eval_harness.py:543-589 | adjudicating more disagreements for the local model never turns GO into NO-GO |

## Left out

- Environment parsing of the ceiling, not-a-number and infinite values, and floating-point rounding: one ceiling, real arithmetic.
- Transports, prompts, spans and logs: replies, failures and publication outcomes of the ceiling and runaway events are inputs; other events are taken to publish normally, the usage event of a narrator turn included.
- `reset_for_tests`, which clears the ledger on purpose.
- Regular-expression vocabularies of the private-aside line, the fabricated-roll patterns, the preamble markers and the reasoning tells: each is a parameter giving where or whether it matches.
- JSON parsing and package validation: functions given as parameters.
- `IntentRouter.IntentRouter.Decompose`: the prompt is the schema error it is extended with, not its text; spans and latencies are not modelled.
- `MagicWorking.RunBank`: takes the dispatches in the order the topological sort gives them; other subsystems' handlers, and what an engine does beyond its receipt, are not modelled, and workings are taken to consume no surface.
- `EngagementWatcher.Detect`: evidence is a structured value instead of the message text.
- `PovSwap.SwapToSecondPerson`: no claim that the result is good English, nor that a possessive name inside a longer name is preserved; context-dependent lower-casing (final sigma) is one character's lower-case form.
- `PublicScrub.Scrub`: the telemetry event is not modelled.
- Freeform-pronoun projection, model routing, verbosity caps, hp bands, perception rewriting, the lethality arbiter and the working set of NPCs: small total functions.
- Prompt assembly, alembic migrations, scripts and content audits.
