# Anti-Scam Agent: the honeypot core in Dafny

This project models the core of a honeypot agent that talks to scammers. The
agent has four parts, and each has its own module:

- **Models** (`models.dfy`): the request and session records. This covers the
  input checks on a `MessageRequest` (whitespace normalisation, the session-id
  pattern and the Pydantic length constraints), the extracted-entities and
  bank-account records, the session record and the Scam-Triad score.
- **Detector** (`detector.dfy`): the hybrid scam detector. The rule pass scans
  the keyword table in order, adds the four signal families and turns the
  score into a confidence. The decision policy then either returns the rule
  result, blends it with an LLM classification, or promotes any detected
  pattern to a scam at confidence 0.6.
- **Extractor** (`extractor.dfy`): the intelligence extractor. It builds the
  regex findings into entities, merges them with the LLM's entities,
  validates them (UPI id, Indian phone number, bank account with IFSC) and
  removes repeated account numbers.
- **Orchestrator** (`orchestrator.dfy`): the conversation orchestrator. It
  holds the phase state machine, persona selection, intelligence gaps, the
  response templates and fallbacks, and a `Session` class. Its methods update
  the persona, history, intelligence, phase and metrics in place, as
  `generate_response` and `update_session_state` do to the session dictionary.

Three small support modules define shared pieces:

- `wrappers.dfy`: `Option` and `Result`.
- `strings.dfy`: the character classes, `lower`/`upper`, the `strip` family,
  `split` and substring search.
- `seqs.dfy`: duplicate freedom, `list(set(xs))` and filtered comprehensions.

Confidences are `real`. The rule score is kept in integer hundredths
(30, 20, 25, 15, 10), and the confidence is that score over 100, capped at 1.
The regex engines are not modelled. The model takes as inputs:

- whether each regex family of the detector matched;
- the `findall` lists and bank-name hits of the extractor;
- the outcome of the generative-model calls.

The plain-literal tests are written out as substring searches on the
ASCII-lowercased message: the keyword table and the sensitive-data terms.

The session-id check and the three entity validators are modelled twice: as
written (`Models.ValidateSessionIdAsWritten`, `Extractor.ValidateUpiAsWritten`,
`Extractor.ValidatePhoneAsWritten`, `Extractor.ValidateBankAccountAsWritten`)
and as their comments and patterns intend (the members without the suffix).
The pipeline members take the checks as a parameter, so both behaviours are
stated and compared:

- `Models.NewMessageRequest` takes the session-id check;
- `Extractor.Validated`, `Extractor.ValidateIntelligence` and
  `Extractor.ExtractIntelligence` take a `Validators` record;
- `Extractor.ValidateBankAccounts` takes the account check.

`Extractor.AsWrittenChecks` and passing `ValidateSessionIdAsWritten` give what
the program does. `Extractor.IntendedChecks` and `ValidateSessionId` give the
corrected behaviour. Where the intent stated in the source and the code
disagree, the as-written members follow the code:

- The comment "Remove +91 or 0 prefix" (agent/extractor.py:318) intends a
  prefix, but `_validate_phone` removes the first `0` anywhere in the number.
- When the keyword score plus urgency reaches exactly 0.5, the verdict is not
  a scam.
- A persona is chosen on the first `generate_response` call, even for a
  message that is not a scam.
- The merge also removes repeated amounts.

## Model

| member | source | states |
|---|---|---|
| Models.WordEnd | agent/models.py:30 | the first word of a string ends at its first whitespace character, after at least one character |
| Models.Words | agent/models.py:30 | `str.split()` yields non-empty words without whitespace |
| Models.WordEndOfWord | agent/models.py:30 | a word followed by whitespace or nothing is split exactly at its end |
| Models.WordsOfWordThen | agent/models.py:30 | splitting a word followed by whitespace yields that word, then the split of the rest |
| Models.WordsOfJoin | agent/models.py:30 | `' '.join(ws).split() == ws` for any list of words (round trip) |
| Models.JoinSingleSpaced | agent/models.py:30 | joining words with single spaces gives text with no leading, trailing or doubled whitespace |
| Models.SanitizeMessage | agent/models.py:22-31 | the sanitised message is single-spaced, has the same words as the input and is no longer |
| Models.JoinNoLonger | agent/models.py:30 | re-joining the words of a string never makes it longer |
| Models.SanitizeIdempotent | agent/models.py:22-31 | sanitising twice is the same as sanitising once |
| Models.ValidateSessionIdAsWritten | agent/models.py:33-40 | the pattern check as written: on success the value is returned unchanged |
| Models.SessionIdTrailingNewline | agent/models.py:38 | the check as written accepts `"abc\n"`, a value with a character outside the allowed class |
| Models.ValidateSessionId | agent/models.py:18-40 | accepted iff 1 to 100 characters, all letters, digits, `_` or `-`; with a valid length the error is the validator's message |
| Models.SessionIdChecksAgree | agent/models.py:33-40 | for values without a final newline, the corrected check and the check as written agree |
| Models.NewMessageRequest | agent/models.py:16-40 | for a given session-id check: a request is built iff both fields pass their checks; it then carries the sanitised message; otherwise the error lists exactly the failing fields |
| Models.RequestTrailingNewline | agent/models.py:16-40 | with the check as written a request is built for session id `"abc\n"`; with the intended check it fails on `session_id` alone |
| Models.BlankMessageAccepted | agent/models.py:19-31 | an all-whitespace message passes the length check and is sanitised to the empty string |
| Models.BlankHasNoWords | agent/models.py:30 | a string of whitespace has no words |
| Models.Total | agent/models.py:100-103 | for scores inside their field bounds, the total lies between 0 and 10 |
| Models.ToIndicators | agent/models.py:110-121 | each indicator appears iff its score passes its threshold; there are no duplicates and only the four names |
| Models.ToIndicatorsOrdered | agent/models.py:110-121 | the indicators come in the order the checks are written |
| Models.ScamTriadHasTwoIndicators | agent/models.py:93-121 | a triad that scores as a scam (total over 7) raises an urgency or authority indicator, an emotion or financial one, and at least two in all |
| Models.NewSessionState | agent/models.py:199-210 | a new session state carries the given session id |
| Models.NewSessionStateIsClean | agent/models.py:199-210 | a new session state is in `initial_contact`, has no persona, no detection, no history, no metrics and no intelligence |
| Extractor.ValidateUpiAsWritten | agent/extractor.py:294-314 | the check as written accepts every handle the corrected check accepts |
| Extractor.ValidateUpi | agent/extractor.py:294-314 | accepted iff there is exactly one `@`, the part before it matches the local-part class, and at least three characters follow it |
| Extractor.UpiPatternAccepted | agent/extractor.py:294-314 | any valid local part followed by `@` and at least three letters is accepted |
| Extractor.UpiShortDomainRejected | agent/extractor.py:308-311 | a domain shorter than three characters is rejected |
| Extractor.UpiAcceptedExample | agent/extractor.py:294-314 | `scammer@paytm` is accepted |
| Extractor.UpiRejectedExample | agent/extractor.py:308-311 | `scammer@pa` is rejected |
| Extractor.UpiTrailingNewline | agent/extractor.py:304-306 | the check as written accepts the local part `"abc\n"`; the corrected check rejects it |
| Extractor.UpiChecksAgree | agent/extractor.py:294-314 | on every handle without a newline, the check as written and the corrected check agree |
| Extractor.RemoveCountryCode | agent/extractor.py:319 | removing every `+91` never lengthens the number, and leaves it unchanged when there is no `+` |
| Extractor.RemoveFirstSpec | agent/extractor.py:320 | `replace('0', '', 1)` deletes the first `0` wherever it is, and changes nothing when there is none |
| Extractor.ValidatePhoneAsWritten | agent/extractor.py:316-325 | a number accepted as written has at least ten characters, since both removals only delete |
| Extractor.PhoneAsWrittenRejectsZero | agent/extractor.py:316-325 | as written, any ten-character number containing a `0` is rejected |
| Extractor.PhoneAsWrittenWithoutZero | agent/extractor.py:316-325 | as written, a number with no `+` and no `0` is accepted iff it has ten characters and starts with 6 to 9 |
| Extractor.PhoneAsWrittenRejectsTestNumber | agent/extractor.py:316-325 | as written, `9876543210` is rejected |
| Extractor.StripPhonePrefix | agent/extractor.py:316-325 | stripping the prefix leaves a suffix of the number |
| Extractor.StripPhonePrefixOfShape | agent/extractor.py:318 | a mobile number, bare or after `+91` or `0`, strips back to itself |
| Extractor.ShapeOfStripPhonePrefix | agent/extractor.py:318-322 | when the stripped number is a mobile number, the input has one of the three shapes |
| Extractor.StripPhonePrefixShape | agent/extractor.py:318-322 | stripping one prefix leaves a mobile number iff the input has one of the three shapes |
| Extractor.ValidatePhone | agent/extractor.py:316-325 | corrected: accepted iff the number is ten characters starting with 6 to 9, bare, after `+91` or after `0`; an accepted number has 10 to 13 characters |
| Extractor.PhonePatternAccepted | agent/extractor.py:316-325 | ten digits starting 6 to 9 are accepted bare, with `+91` and with a leading `0` |
| Extractor.PhoneChecksAgree | agent/extractor.py:316-325 | on numbers with no `+` and no `0`, the corrected check and the check as written agree |
| Extractor.PhoneTestNumber | agent/extractor.py:316-325 | the module's own test number is accepted by the corrected check and rejected by the check as written |
| Extractor.ValidateBankAccountAsWritten | agent/extractor.py:327-342 | the check as written accepts every record the corrected check accepts, and only records whose number has 9 to 18 digits |
| Extractor.ValidateBankAccount | agent/extractor.py:327-342 | corrected: accepted iff the number has 9 to 18 digits and the IFSC is missing, empty or of the form four letters, `0`, six alphanumerics |
| Extractor.BankAccountExamples | agent/extractor.py:327-342 | a full SBI record and an empty IFSC are accepted; a bad IFSC and a missing number are rejected |
| Extractor.IfscTrailingNewline | agent/extractor.py:338-340 | the check as written accepts an IFSC with a final newline; the corrected check does not |
| Extractor.BankChecksAgree | agent/extractor.py:327-342 | on every record whose IFSC has no newline, the check as written and the corrected check agree |
| Extractor.BankRank | agent/extractor.py:33-42 | every bank has a position in the bank-pattern table |
| Extractor.FirstBankFrom | agent/extractor.py:139-149 | from a table position on, returns the earliest matched bank, or None iff none is matched there |
| Extractor.DetectBankName | agent/extractor.py:139-149 | `unknown` when no pattern matches; otherwise the upper-cased key of the first matching bank in table order |
| Extractor.BankNameExamples | agent/extractor.py:139-149 | no match gives `unknown`; SBI wins over Paytm and GPay over Kotak by table order |
| Extractor.RegexEntitiesAccounts | agent/extractor.py:122-137 | one account per account-number match, each with the first IFSC match (if any) and the detected bank name |
| Extractor.ExtractWithRegex | agent/extractor.py:89-137 | the loop builds exactly the regex entities of the findings |
| Extractor.KeepFirstByKeeps | agent/extractor.py:240-248 | every kept account passes the test and its number was not already seen |
| Extractor.KeepFirstByDistinct | agent/extractor.py:240-248 | kept account numbers are pairwise distinct |
| Extractor.KeepFirstBySub | agent/extractor.py:240-248 | the kept accounts are a sub-multiset of the input |
| Extractor.KeepFirstBySubseq | agent/extractor.py:240-248 | the kept accounts keep their relative order in the input |
| Extractor.KeepFirstByNumbers | agent/extractor.py:240-248 | the kept numbers are exactly the numbers of passing accounts, minus those already seen |
| Extractor.KeepFirstBySpec | agent/extractor.py:240-248 | the five properties above together |
| Extractor.KeepFirstByKeepsFirst | agent/extractor.py:240-248 | a passing account whose number is new and appears in no earlier passing account is kept |
| Extractor.KeepFirstByOfDistinct | agent/extractor.py:240-248 | a list that already passes and has distinct new numbers is kept whole |
| Extractor.Merged | agent/extractor.py:207-250 | each string kind is duplicate-free with the union of both sources; accounts have distinct non-empty numbers, come from the inputs in their relative order (regex entries, then LLM entries), and cover every number either source gave |
| Extractor.MergedKeepsFirst | agent/extractor.py:240-248 | the first account carrying a given non-empty number is the one merged |
| Extractor.KeepFirstByStep | agent/extractor.py:240-248 | one step of the first-occurrence scan |
| Extractor.MergeStep | agent/extractor.py:240-248 | the merge loop's invariant survives one step, whether or not the account is appended |
| Extractor.MergeBankAccounts | agent/extractor.py:240-248 | the loop keeps the first account per non-empty number |
| Extractor.MergeIntelligence | agent/extractor.py:207-250 | the method computes the merged entities |
| Extractor.Validated | agent/extractor.py:252-292 | for given checks: UPI ids and phones are a subsequence of the input, and each value is kept exactly as often as it occurs if it passes, never if it fails; accounts keep their input order and are valid with distinct numbers covering every valid number; amounts are unchanged; URLs and emails are deduplicated |
| Extractor.ValidatedIdempotent | agent/extractor.py:252-292 | validating validated data changes nothing but the order of URLs and emails |
| Extractor.ValidatedKeepsFirst | agent/extractor.py:277-285 | the first valid account carrying a number survives validation |
| Extractor.ValidatedTestPhone | agent/extractor.py:272-275 | the program's checks drop the phone number of its own test message; the intended checks keep it |
| Seqs.FilterSubseq | agent/extractor.py:265-267 | a filtered list keeps the order of its input |
| Seqs.FilterCount | agent/extractor.py:265-267 | a value that passes occurs in the filtered list as often as in the input; one that fails does not occur |
| Extractor.FilterLoop | agent/extractor.py:266-275 | the validation loop keeps exactly the passing items, in order |
| Extractor.ValidateBankAccounts | agent/extractor.py:277-285 | for a given account check, the loop over `seen_accounts` keeps the first valid account per number |
| Extractor.NumberSetSnoc | agent/extractor.py:284 | appending an account adds exactly its number to the set of kept numbers |
| Extractor.ValidateStepKept | agent/extractor.py:278-284 | a step that keeps a valid entry with a new number preserves the loop invariant |
| Extractor.ValidateStepSkipped | agent/extractor.py:278-284 | a step that skips an entry preserves the loop invariant |
| Extractor.SeenNumbers | agent/extractor.py:281-282 | a number is in the list of seen numbers iff it is the number of a kept account |
| Extractor.ValidateIntelligence | agent/extractor.py:252-292 | the method computes the validated entities for the checks it is given |
| Extractor.ExtractIntelligence | agent/extractor.py:52-87 | for given checks, the result is the validated merge of the regex entities and the LLM entities; without an LLM result, the merge is with empty entities |
| Detector.CategoryIndex | agent/detector.py:21-42 | every category has a position in the keyword table |
| Detector.Weight | agent/detector.py:137-171 | every pattern adds a positive score |
| Detector.CategoryNamesDistinct | agent/detector.py:21-42 | category names are distinct, and none is `unknown` |
| Detector.PatternNamesDistinct | agent/detector.py:136-170 | distinct patterns have distinct names |
| Detector.MatchedUpToMembers | agent/detector.py:133-139 | the categories scanned so far that matched are all hits, from the scanned prefix |
| Detector.MatchedUpToComplete | agent/detector.py:133-139 | every hit in the scanned prefix is recorded |
| Detector.MatchedUpToOrdered | agent/detector.py:133-139 | recorded categories are in table order |
| Detector.MatchedUpToSpec | agent/detector.py:133-139 | the three properties above together |
| Detector.KeywordPatterns | agent/detector.py:136 | one `keywords_<category>` pattern per matched category, in order |
| Detector.Names | agent/detector.py:136-170 | the pattern names, one per pattern |
| Detector.Confidence | agent/detector.py:174 | `min(score, 1.0)`: in [0, 1], equal to the score below the cap and 1 above it |
| Detector.RuleResultOf | agent/detector.py:173-182 | confidence in [0, 1]; a scam iff the confidence exceeds 0.5; reasoning is `Rule-based detection` |
| Detector.RuleResult | agent/detector.py:123-182 | the rule result of a message has confidence in [0, 1] and is a scam iff the confidence exceeds 0.5 |
| Detector.SumWeightsConcat | agent/detector.py:130-171 | the score is additive over pattern lists |
| Detector.SumWeightsKeywords | agent/detector.py:137 | each matched category adds 0.3 |
| Detector.SignalPatternsWeight | agent/detector.py:141-171 | the signal patterns add exactly the signal part of the score |
| Detector.ScoreIsSumOfWeights | agent/detector.py:130-171 | the score is the sum of the weights of the detected patterns |
| Detector.SumWeightsPositive | agent/detector.py:130-171 | the score is positive iff some pattern was detected |
| Detector.AppendSignal | agent/detector.py:141-171 | appending a signal keeps the signals in rank order |
| Detector.SignalPatternsRanked | agent/detector.py:141-171 | signals come in the order urgency, sensitive data, URL, phone |
| Detector.PatternsKeywords | agent/detector.py:133-139 | the keyword pattern of a category is detected iff that category matched |
| Detector.PatternsSignals | agent/detector.py:141-171 | each signal pattern is detected iff its family matched |
| Detector.NoSignalInKeywords | agent/detector.py:136-170 | keyword patterns and signal patterns never coincide |
| Detector.PatternsOrdered | agent/detector.py:133-171 | detected patterns are in table order, then signal order |
| Detector.RankedNamesNoDup | agent/detector.py:136-170 | patterns in rank order have distinct names |
| Detector.RuleResultOfSpec | agent/detector.py:123-182 | the patterns are the detected ones without duplicates; confidence is the capped weight sum, positive iff a pattern fired; the type is `general` or the last matched category |
| Detector.MatchedPatterns | agent/detector.py:133-139 | after the scan, a category's pattern is present iff the category matched |
| Detector.RuleResultPatterns | agent/detector.py:123-182 | for a message, a keyword pattern is reported iff one of the category's keywords occurs in the lower-cased message |
| Detector.MatchedType | agent/detector.py:129-178 | the type is `general` iff nothing matched; otherwise it is the matched category latest in table order |
| Detector.RuleResultType | agent/detector.py:123-182 | the same, stated for a message and its keyword occurrences |
| Detector.KeywordPatternsAppend | agent/detector.py:136 | recording one more category appends its keyword pattern |
| Detector.TypeSoFarFinal | agent/detector.py:129-178 | the running type is `unknown` iff no category matched; otherwise it is the final type |
| Detector.CategoryStep | agent/detector.py:133-139 | one step of the category scan |
| Detector.CategoryPass | agent/detector.py:133-139 | the loop yields the keyword patterns of the matched categories, 0.3 per hit, and the last matched category |
| Detector.SignalPass | agent/detector.py:141-171 | the signal checks yield the signal patterns and their score |
| Detector.RuleBasedDetection | agent/detector.py:123-182 | the method computes the rule result of the message |
| Detector.Decide | agent/detector.py:74-121 | patterns are always the rule's; above 0.3 the rule result is returned; between 0.1 and 0.3 with a client, the blend 0.4·rule + 0.6·LLM, with the LLM's type and reasoning; otherwise any pattern is promoted to a scam at least 0.6; confidence stays in [0, 1] |
| Detector.Detect | agent/detector.py:74-121 | the method applies the decision policy to the rule result |
| Detector.VerdictWithoutClient | agent/detector.py:74-121 | without a client, a message is a scam iff some pattern fired and the score is not in (0.3, 0.5] |
| Detector.KeywordAloneIsScam | agent/detector.py:92-119 | one keyword category alone becomes a scam at confidence 0.6 |
| Detector.KeywordWithUrgencyIsNotScam | agent/detector.py:92-94 | one keyword category plus urgency scores 0.5, is returned as is and is not a scam |
| Detector.BankRuleResult | agent/detector.py:123-182 | bank keywords, urgency and a URL give a scam at 0.65 with the three pattern names |
| Detector.BankMessageScenario | agent/detector.py:74-94 | any message with that profile is a bank-impersonation scam at 0.65, whatever the LLM says |
| Detector.GreetingScenario | agent/detector.py:74-121 | a message with no pattern is not a scam, type `general`, confidence 0 |
| Detector.BankTestMessageMentionsKyc | agent/detector.py:261 | the module's bank test message matches the bank-impersonation keywords |
| Orchestrator.ParsePhase | agent/orchestrator.py:23-30 | a parsed phase has the given value |
| Orchestrator.ParsePhaseName | agent/orchestrator.py:23-30 | every phase's value parses back to it (round trip) |
| Orchestrator.NewSessionStartsInitial | agent/models.py:203 | a new session's phase parses to initial contact |
| Orchestrator.NextPhaseForward | agent/orchestrator.py:341-373 | a transition stays put or moves one phase forward; closing and scam-detected never move |
| Orchestrator.TransitionsFire | agent/orchestrator.py:341-373 | each transition fires exactly under its written condition, including the three closing rules |
| Orchestrator.ClosingNeedsTwelveTurns | agent/orchestrator.py:358-373 | closing needs at least twelve turns and a UPI id or a bank account |
| Orchestrator.PhaseCadence | agent/orchestrator.py:341-373 | with a scam detected at once, turns 1 to 5 reach trust, playing dumb twice, then extraction |
| Orchestrator.SelectPersona | agent/orchestrator.py:161-174 | the persona is a known key: `anxious_professional` for bank impersonation, `small_business_owner` for investment, otherwise `retired_professional` |
| Orchestrator.GetIntelligenceGaps | agent/orchestrator.py:176-197 | each gap is set iff its list is empty; the priority is the first gap in the order UPI, bank, phone, URL, else backup |
| Orchestrator.Goals | agent/orchestrator.py:217-224 | the UPI goal is present iff it is needed, and first; the bank goal iff needed |
| Orchestrator.GoalsText | agent/orchestrator.py:217-224 | the goal text is the no-goal line iff neither UPI nor bank is needed |
| Orchestrator.StripQuotes | agent/orchestrator.py:253-262 | one pair of surrounding quotes is removed; a lone quote becomes empty; anything else is unchanged |
| Orchestrator.StripQuotesOfQuoted | agent/orchestrator.py:253-262 | stripping a quoted text gives the text back (round trip) |
| Orchestrator.CleanGenerated | agent/orchestrator.py:253-262 | cleaning never lengthens the generated text |
| Orchestrator.PoolSize | agent/orchestrator.py:268-306 | every template pool has at least three lines |
| Orchestrator.FallbackLine | agent/orchestrator.py:90-96 | every phase but scam-detected has its own fallback line |
| Orchestrator.TemplatePool | agent/orchestrator.py:268-306 | playing dumb uses the confused pool; extraction uses the pool of the first gap among UPI, bank and phone, else backup; other phases use none |
| Orchestrator.TemplateBasedResponse | agent/orchestrator.py:268-308 | a pool phase gives a line of its pool; other phases give their fallback line; only scam-detected gives none (the lookup raises) |
| Orchestrator.EveryTemplateReachable | agent/orchestrator.py:268-306 | every line of the chosen pool can be picked |
| Orchestrator.TemplateIgnoresUrl | agent/orchestrator.py:268-306 | the template choice does not depend on the URL gap |
| Orchestrator.FallbackFor | agent/orchestrator.py:379-384 | a parsed phase other than scam-detected gets its fallback line; any other value gets the default line |
| Orchestrator.GetFallbackResponse | agent/orchestrator.py:379-384 | the fallback reply keeps the phase value it was given |
| Orchestrator.RaisedResponseFallsBack | agent/orchestrator.py:379-384 | the response step raises only for a scam in the scam-detected phase, and the fallback for that phase answers with the default line and keeps the phase |
| Orchestrator.FallbackAgreesWithTemplate | agent/orchestrator.py:268-308 | outside the pool phases, the template and the fallback reply agree |
| Orchestrator.ModelReply | agent/orchestrator.py:140-151 | the model's text is used iff it returned, the persona is a known key and the phase has a strategy; it is then cleaned |
| Orchestrator.Respond | agent/orchestrator.py:115-159 | the reply keeps the phase; a non-scam gets the not-a-scam line; a scam gets the cleaned model text or else the template; only scam-detected without model text raises |
| Orchestrator.SelectedPersonaHasModelBranch | agent/orchestrator.py:207-208 | every selectable persona has a prompt entry, so the model's text is used |
| Orchestrator.MergeStrings | agent/orchestrator.py:336-339 | an empty delta leaves the list as is; otherwise the result is duplicate-free with the union of old and new |
| Orchestrator.AccountNumbers | agent/orchestrator.py:332 | the stored account numbers, one per account |
| Orchestrator.NewAccountsSpec | agent/orchestrator.py:333-335 | appended accounts have numbers not stored before, and every such account of the delta is appended with all its copies |
| Orchestrator.NewAccountsSnoc | agent/orchestrator.py:333-335 | one more delta account is appended iff its number is new |
| Orchestrator.MergeAccounts | agent/orchestrator.py:330-335 | stored accounts stay in front, unchanged; an empty delta changes nothing |
| Orchestrator.MergeAccountsSnapshot | agent/orchestrator.py:330-335 | a delta account is kept with all its copies iff its number was not stored before the call |
| Orchestrator.RepeatedNewNumberKeptTwice | agent/orchestrator.py:330-335 | two delta accounts with the same new number are both appended |
| Orchestrator.Session.constructor | agent/models.py:199-210 | the session holds exactly the given fields |
| Orchestrator.Session.FromState | agent/models.py:199-210 | a session built from a state record holds its fields, with the persona key present |
| Orchestrator.Session.GenerateResponse | agent/orchestrator.py:115-159 | the persona is chosen on the first call only; the reply is the response policy applied with the new persona |
| Orchestrator.Session.MergeBankAccounts | agent/orchestrator.py:330-335 | only the bank accounts change, to the merged list |
| Orchestrator.Session.AdvancePhase | agent/orchestrator.py:341-373 | the new phase is the transition of the old one |
| Orchestrator.Session.UpdateSessionState | agent/orchestrator.py:310-377 | the agent turn is appended, the delta merged, the phase advanced on the new turn count, and `turn_count` recorded |
| Orchestrator.MergeDeltaSpec | agent/orchestrator.py:325-339 | each of the five string kinds is unchanged by an empty delta, and otherwise duplicate-free with the union of stored and new; accounts are unchanged by an empty delta, and the stored accounts stay in front |
| Orchestrator.MergeStringsKeepsNonEmpty | agent/orchestrator.py:336-339 | merging into a non-empty list of strings leaves it non-empty |
| Orchestrator.MergeKeepsKnownKinds | agent/orchestrator.py:325-339 | every string kind that was non-empty stays non-empty, and the account list never shrinks |

## Left out

- The LLM calls are left out: the prompts, the client set-up, the JSON parsing in `_extract_with_llm` and `_llm_detection`, and the prompt history text. Their outcomes are inputs: `Option<Entities>`, `Option<LlmVerdict>` and `Generation`.
- The regular-expression engines are left out. The detector's urgency, URL and phone searches, the extractor's `findall` lists and its bank-name searches are inputs, because a regex engine is outside the core.
- `Strings.Lower` and `Strings.AllDigits` are ASCII only. Python's `lower()` and `isdigit()` are Unicode-aware.
- Detector.Decide: when urgency and a phone number are the only patterns, Python's `0.2 + 0.1` is 0.30000000000000004, which passes the `> 0.3` test and returns the rule result unchanged. The model keeps exact hundredths, so 0.3 does not pass, and it blends with a client or else promotes to a scam at 0.6.
- Detector.VerdictWithoutClient: inherits that one divergence; for an urgency-plus-phone message the source says not a scam.
- Detector.Detect: inherits that one divergence. The blended confidence is also computed in exact reals, not floats.
- `random.choice` is an index `pick`, taken modulo the pool size, because randomness is an input.
- `list(set(xs))` is modelled in first-occurrence order. Its real order is unspecified, so contracts state only duplicate freedom and the element set.
- Logging, the clock and timestamps are left out. Agent turns carry no timestamp, as in the source.
- main.py is left out: the web framework, concurrency (`asyncio.gather`), session storage, and the `scam_metadata` caching. `RaisedResponseFallsBack` states the one fallback it relies on.
- The response models and legacy models of models.py are left out (Forensics, ResponseMetadata, AgentResponse and the legacy event and response), because they only shape output. So are `BankAccount.confidence` and `DetectionResult`'s field bounds.
- Extractor.ValidateBankAccount: an account number that is `None` or not a string is treated as the empty string and rejected, where Python would raise a TypeError on `len(None)`; an absent key gives `''` through `get('account_number', '')` (agent/extractor.py:329), which is rejected exactly as in the model.
- Malformed LLM entities are left out. A JSON `null` in place of a list (for example `"upi_ids": null`) makes `_merge_intelligence` raise a TypeError at agent/extractor.py:225, outside the try at agent/extractor.py:72-75. Non-string list elements are also left out. In the model every list is a list, and its elements are strings or account records.
- Orchestrator.Session.FromState: requires a phase value that is one of the enum's values. Other strings reach the `FALLBACK_RESPONSES` lookups and the transition chain only as not-equal comparisons, which is not modelled.
- The Scam-Triad score is modelled on its own, because nothing else in the core calls it.

## Findings

Each corrected member is the one `Extractor.IntendedChecks` (or the session-id check passed to `Models.NewMessageRequest`) supplies to the pipeline. `Extractor.ValidatedTestPhone` and `Models.RequestTrailingNewline` show the pipeline under both choices.

| source | as written | input that shows it | evidently intended | confidence | as-written member | corrected member |
|---|---|---|---|---|---|---|
| agent/models.py:38 | `re.match(r'^[a-zA-Z0-9_-]+$', v)` lets `$` match before a final newline | session id `"abc\n"` is accepted | only letters, digits, `_` and `-` | not executed | Models.SessionIdTrailingNewline | Models.ValidateSessionId |
| agent/extractor.py:304-306 | the UPI local-part pattern ends in `$` under `re.match` | `"abc\n@paytm"` is accepted | the local part holds only its character class | not executed | Extractor.UpiTrailingNewline | Extractor.ValidateUpi |
| agent/extractor.py:338-340 | the IFSC pattern ends in `$` under `re.match` | IFSC `"SBIN0001234\n"` is accepted | exactly eleven characters of the IFSC form | not executed | Extractor.IfscTrailingNewline | Extractor.ValidateBankAccount |
| agent/extractor.py:319-320 | `replace('0', '', 1)` deletes the first `0` anywhere in the number | `"9876543210"` (the module's own test number) is rejected | remove only a leading trunk `0` | not executed | Extractor.PhoneAsWrittenRejectsTestNumber | Extractor.ValidatePhone |
