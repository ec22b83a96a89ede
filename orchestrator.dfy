/**
 * The conversation orchestrator: the phase state machine, the persona and
 * template policies, and the session record that `generate_response` and
 * `update_session_state` change in place.
 *
 * The generative model is an input: `Generation` says whether there is a
 * model and what its call produced. `random.choice` is an index `pick` into
 * the pool, taken modulo the pool's size.
 */
module Orchestrator {
  import opened Wrappers
  import opened Strings
  import opened Seqs
  import opened Models
  import Detector

  // ---------------------------------------------------------------------------
  // Phases
  // ---------------------------------------------------------------------------

  datatype Phase = InitialContact | ScamDetected | BuildingTrust | PlayingDumb | ExtractingIntel | Closing

  /** The value of each `ConversationPhase` member. */
  function PhaseName(p: Phase): string {
    match p
    case InitialContact => "initial_contact"
    case ScamDetected => "scam_detected"
    case BuildingTrust => "building_trust"
    case PlayingDumb => "playing_dumb"
    case ExtractingIntel => "extracting_intel"
    case Closing => "closing"
  }

  /** `ConversationPhase(s)`: the member with value `s`, if there is one. */
  function ParsePhase(s: string): (r: Option<Phase>)
    ensures r.Some? ==> PhaseName(r.value) == s
  {
    if s == "initial_contact" then Some(InitialContact)
    else if s == "scam_detected" then Some(ScamDetected)
    else if s == "building_trust" then Some(BuildingTrust)
    else if s == "playing_dumb" then Some(PlayingDumb)
    else if s == "extracting_intel" then Some(ExtractingIntel)
    else if s == "closing" then Some(Closing)
    else None
  }

  /** Every member's value parses back to the member. */
  lemma ParsePhaseName(p: Phase)
    ensures ParsePhase(PhaseName(p)) == Some(p)
  {
  }

  /** A new `SessionState` starts in the initial-contact phase. */
  lemma NewSessionStartsInitial(id: string)
    ensures ParsePhase(NewSessionState(id).currentPhase) == Some(InitialContact)
  {
  }

  /** The forward order of the main chain; `ScamDetected` is not on it. */
  function Successor(p: Phase): Option<Phase> {
    match p
    case InitialContact => Some(BuildingTrust)
    case BuildingTrust => Some(PlayingDumb)
    case PlayingDumb => Some(ExtractingIntel)
    case ExtractingIntel => Some(Closing)
    case ScamDetected => None
    case Closing => None
  }

  /** The position on the main chain, `ScamDetected` sharing the first. */
  function Rank(p: Phase): nat {
    match p
    case InitialContact => 0
    case ScamDetected => 0
    case BuildingTrust => 1
    case PlayingDumb => 2
    case ExtractingIntel => 3
    case Closing => 4
  }

  /** The closing rule: great intelligence early, good intelligence later, any payment detail late. */
  predicate ShouldClose(intel: Entities, turns: nat) {
    var hasUpi := |intel.upiIds| > 0;
    var hasBank := |intel.bankAccounts| > 0;
    var hasPhone := |intel.phoneNumbers| > 0;
    var hasMultiple := |intel.upiIds| + |intel.bankAccounts| >= 2;
    || (hasMultiple && hasPhone && turns >= 12)
    || (hasMultiple && turns >= 14)
    || ((hasUpi || hasBank) && turns >= 18)
  }

  /** The phase-transition `elif` chain of `update_session_state`. */
  function NextPhase(p: Phase, scamDetected: bool, turns: nat, intel: Entities): Phase {
    if p == InitialContact && scamDetected then BuildingTrust
    else if p == BuildingTrust && turns >= 4 then PlayingDumb
    else if p == PlayingDumb && turns >= 7 then ExtractingIntel
    else if p == ExtractingIntel && ShouldClose(intel, turns) then Closing
    else p
  }

  /** One update moves at most one step, and only forward along the chain. */
  lemma NextPhaseForward(p: Phase, scamDetected: bool, turns: nat, intel: Entities)
    ensures var q := NextPhase(p, scamDetected, turns, intel);
      (q == p || Successor(p) == Some(q)) && Rank(p) <= Rank(q) <= Rank(p) + 1
    ensures p == Closing || p == ScamDetected ==> NextPhase(p, scamDetected, turns, intel) == p
  {
  }

  /** When each transition fires. */
  lemma TransitionsFire(scamDetected: bool, turns: nat, intel: Entities)
    ensures NextPhase(InitialContact, scamDetected, turns, intel) == BuildingTrust <==> scamDetected
    ensures NextPhase(BuildingTrust, scamDetected, turns, intel) == PlayingDumb <==> turns >= 4
    ensures NextPhase(PlayingDumb, scamDetected, turns, intel) == ExtractingIntel <==> turns >= 7
    ensures NextPhase(ExtractingIntel, scamDetected, turns, intel) == Closing <==>
      var multiple := |intel.upiIds| + |intel.bankAccounts| >= 2;
      || (multiple && |intel.phoneNumbers| > 0 && turns >= 12)
      || (multiple && turns >= 14)
      || ((|intel.upiIds| > 0 || |intel.bankAccounts| > 0) && turns >= 18)
  {
  }

  /** Closing needs at least twelve turns and some payment detail. */
  lemma ClosingNeedsTwelveTurns(scamDetected: bool, turns: nat, intel: Entities)
    requires NextPhase(ExtractingIntel, scamDetected, turns, intel) == Closing
    ensures turns >= 12 && (|intel.upiIds| > 0 || |intel.bankAccounts| > 0)
  {
  }

  /**
   * The phase after `n` agent turns of a session whose scam was detected at
   * the first message, with the history growing by two per turn (the
   * scammer's message, then the agent's).
   */
  function PhaseAfterTurns(n: nat, intel: Entities): Phase {
    if n == 0 then InitialContact
    else NextPhase(PhaseAfterTurns(n - 1, intel), true, 2 * n, intel)
  }

  /** At that cadence intelligence gathering starts at the fourth agent turn, and closing at the sixth at the earliest. */
  lemma PhaseCadence(intel: Entities)
    ensures PhaseAfterTurns(1, intel) == BuildingTrust
    ensures PhaseAfterTurns(2, intel) == PlayingDumb
    ensures PhaseAfterTurns(3, intel) == PlayingDumb
    ensures PhaseAfterTurns(4, intel) == ExtractingIntel
    ensures PhaseAfterTurns(5, intel) == ExtractingIntel
  {
    assert PhaseAfterTurns(1, intel) == BuildingTrust;
    assert PhaseAfterTurns(2, intel) == PlayingDumb;
    assert PhaseAfterTurns(3, intel) == PlayingDumb;
    assert PhaseAfterTurns(4, intel) == ExtractingIntel;
  }

  // ---------------------------------------------------------------------------
  // Personas, gaps and goals
  // ---------------------------------------------------------------------------

  /** The keys of `PERSONAS`. */
  const PersonaKeys: seq<string> := ["retired_professional", "small_business_owner", "anxious_professional"]

  /** `_select_persona` on the detection's `scam_type`. */
  function SelectPersona(scamType: string): (p: string)
    ensures p in PersonaKeys
    ensures scamType == "bank_impersonation" ==> p == "anxious_professional"
    ensures scamType == "investment" ==> p == "small_business_owner"
    ensures scamType != "bank_impersonation" && scamType != "investment" ==> p == "retired_professional"
  {
    if scamType == "bank_impersonation" then "anxious_professional"
    else if scamType == "lottery" then "retired_professional"
    else if scamType == "investment" then "small_business_owner"
    else if scamType == "courier" then "retired_professional"
    else "retired_professional"
  }

  /** Which detail the agent should ask for next. */
  datatype Priority = AskUpi | AskBank | AskPhone | AskUrl | AskBackup

  datatype Gaps = Gaps(needsUpi: bool, needsBank: bool, needsUrl: bool, needsPhone: bool, priority: Priority)

  /** `_get_intelligence_gaps`: a kind is needed when none is known; the first needed kind is the priority. */
  function GetIntelligenceGaps(intel: Entities): (g: Gaps)
    ensures g.needsUpi <==> |intel.upiIds| == 0
    ensures g.needsBank <==> |intel.bankAccounts| == 0
    ensures g.needsUrl <==> |intel.urls| == 0
    ensures g.needsPhone <==> |intel.phoneNumbers| == 0
    ensures g.priority == AskUpi <==> g.needsUpi
    ensures g.priority == AskBank <==> !g.needsUpi && g.needsBank
    ensures g.priority == AskPhone <==> !g.needsUpi && !g.needsBank && g.needsPhone
    ensures g.priority == AskUrl <==> !g.needsUpi && !g.needsBank && !g.needsPhone && g.needsUrl
    ensures g.priority == AskBackup <==> !g.needsUpi && !g.needsBank && !g.needsPhone && !g.needsUrl
  {
    var upi := |intel.upiIds| == 0;
    var bank := |intel.bankAccounts| == 0;
    var url := |intel.urls| == 0;
    var phone := |intel.phoneNumbers| == 0;
    var priority :=
      if upi then AskUpi
      else if bank then AskBank
      else if phone then AskPhone
      else if url then AskUrl
      else AskBackup;
    Gaps(upi, bank, url, phone, priority)
  }

  const UpiGoal := "Get the scammer's UPI ID"
  const BankGoal := "Get the scammer's bank account number and IFSC code"
  const NoGoals := "Continue engaging naturally"

  /** The goal list of the prompt: UPI first, then bank, each only while it is needed. */
  function Goals(g: Gaps): (r: seq<string>)
    ensures UpiGoal in r <==> g.needsUpi
    ensures BankGoal in r <==> g.needsBank
    ensures |r| <= 2 && NoDup(r)
    ensures g.needsUpi ==> r[0] == UpiGoal
  {
    assert |UpiGoal| != |BankGoal|;
    (if g.needsUpi then [UpiGoal] else []) + (if g.needsBank then [BankGoal] else [])
  }

  /** `", ".join(goals)` for at most two goals, or the default text when there are none. */
  function GoalsText(g: Gaps): (r: string)
    ensures r == NoGoals <==> !g.needsUpi && !g.needsBank
    ensures g.needsUpi ==> StartsWith(r, UpiGoal)
    ensures g.needsBank && !g.needsUpi ==> r == BankGoal
  {
    var goals := Goals(g);
    assert NoGoals[0] != UpiGoal[0] && NoGoals[0] != BankGoal[0];
    if goals == [] then NoGoals
    else if |goals| == 1 then goals[0]
    else
      var r := goals[0] + ", " + goals[1];
      assert r[0] == UpiGoal[0];
      assert r[..|UpiGoal|] == UpiGoal;
      r
  }

  // ---------------------------------------------------------------------------
  // Generated text and templates
  // ---------------------------------------------------------------------------

  /** `message[1:-1]` when the message both starts and ends with a double quote. */
  function StripQuotes(m: string): (r: string)
    ensures |m| >= 2 && m[0] == '"' && m[|m| - 1] == '"' ==> r == m[1..|m| - 1]
    ensures m == "\"" ==> r == ""
    ensures !(|m| >= 1 && m[0] == '"' && m[|m| - 1] == '"') ==> r == m
  {
    if |m| >= 1 && m[0] == '"' && m[|m| - 1] == '"' then
      (if |m| >= 2 then m[1..|m| - 1] else "")
    else m
  }

  /** Stripping removes exactly one pair of surrounding quotes. */
  lemma StripQuotesOfQuoted(x: string)
    ensures StripQuotes("\"" + x + "\"") == x
  {
    var m := "\"" + x + "\"";
    assert m[1..|m| - 1] == x;
  }

  /** The cleanup of the model's reply: `text.strip()`, then the quotes. */
  function CleanGenerated(text: string): (r: string)
    ensures |r| <= |text|
  {
    var s := Strip(text);
    StripQuotes(s)
  }

  /** The template pools that `random.choice` draws from. */
  datatype Pool = UpiPool | BankPool | PhonePool | BackupPool | ConfusedPool

  function PoolSize(pool: Pool): (n: nat)
    ensures n >= 3
  {
    if pool == PhonePool then 3 else 4
  }

  /**
   * The fixed lines the agent can send: a template of a pool, the fallback
   * line of a phase, the line for a message that is not a scam, and the
   * last-resort default.
   */
  datatype Line = PoolLine(pool: Pool, index: nat) | PhaseLine(phase: Phase) | NotScamLine | DefaultLine

  /** Lines that exist: the index is inside the pool, and the scam-detected phase has no fallback line. */
  predicate ValidLine(l: Line) {
    match l
    case PoolLine(pool, index) => index < PoolSize(pool)
    case PhaseLine(p) => p != ScamDetected
    case _ => true
  }

  /** The text of each line, as written in the templates, `FALLBACK_RESPONSES` and `generate_response`. */
  function LineText(l: Line): string
    requires ValidLine(l)
  {
    match l
    case PoolLine(UpiPool, k) =>
      if k == 0 then "I'm ready to send the payment. What's your UPI ID? I need to type it exactly."
      else if k == 1 then "My app is asking for a UPI ID. Can you type it out for me letter by letter?"
      else if k == 2 then "Okay I understand. What's your UPI ID? And do you have a phone number in case there's a problem?"
      else "I have my phone ready. What UPI ID should I send to? Also, what if it doesn't work?"
    case PoolLine(BankPool, k) =>
      if k == 0 then "My UPI has a daily limit. Can I transfer to your bank account? What's the account number and IFSC?"
      else if k == 1 then "The UPI isn't working. Do you have a bank account number and IFSC? Also your phone number?"
      else if k == 2 then "What's your account number and IFSC code? Can you also give me a contact number?"
      else "I'll do a bank transfer. What are the details? And do you have a backup account just in case?"
    case PoolLine(PhonePool, k) =>
      if k == 0 then "What's your phone number? I want to call you if there's any issue."
      else if k == 1 then "Can you give me a contact number? Just in case something goes wrong."
      else "Do you have a phone number I can save? My friend told me to always get a contact."
    case PoolLine(BackupPool, k) =>
      if k == 0 then "What if that payment method doesn't work? Do you have a backup UPI or account?"
      else if k == 1 then "Just to be safe, can you give me another payment option in case this fails?"
      else if k == 2 then "My friend told me to always have a backup. Do you have another UPI ID or account number?"
      else "Can you also give me your phone number? Just in case I have questions later."
    case PoolLine(ConfusedPool, k) =>
      if k == 0 then "I'm not very good with technology. Can you explain this step by step?"
      else if k == 1 then "Sorry, I didn't quite understand. Can you say that again more slowly?"
      else if k == 2 then "Wait, which button do I press? I'm looking at my phone now but I'm confused."
      else "I'm a bit confused. Can you walk me through exactly what I need to do?"
    case PhaseLine(InitialContact) => "Hello? Who is this?"
    case PhaseLine(BuildingTrust) => "I'm concerned about this. Can you explain what's happening?"
    case PhaseLine(PlayingDumb) => "Sorry, I didn't quite understand that. Can you explain again?"
    case PhaseLine(ExtractingIntel) => "Okay, I'm ready to do this. What information do you need from me?"
    case PhaseLine(Closing) => "Let me think about this and get back to you."
    case NotScamLine => "I'm sorry, I don't understand. Are you trying to reach someone?"
    case DefaultLine => "I'm having trouble understanding. Can you repeat that?"
  }

  /** `FALLBACK_RESPONSES[phase]`; the scam-detected phase has no entry. */
  function FallbackLine(p: Phase): (r: Option<Line>)
    ensures r.None? <==> p == ScamDetected
    ensures r.Some? ==> ValidLine(r.value) && r.value == PhaseLine(p)
  {
    if p == ScamDetected then None else Some(PhaseLine(p))
  }

  /** The pool a phase draws from: by the first gap among UPI, bank and phone while extracting, the confused lines while playing dumb. */
  function TemplatePool(p: Phase, g: Gaps): (r: Option<Pool>)
    ensures r.Some? <==> p == ExtractingIntel || p == PlayingDumb
    ensures p == PlayingDumb ==> r == Some(ConfusedPool)
    ensures p == ExtractingIntel ==>
      r == Some(if g.needsUpi then UpiPool else if g.needsBank then BankPool
                else if g.needsPhone then PhonePool else BackupPool)
  {
    if p == ExtractingIntel then
      if g.needsUpi then Some(UpiPool)
      else if g.needsBank then Some(BankPool)
      else if g.needsPhone then Some(PhonePool)
      else Some(BackupPool)
    else if p == PlayingDumb then Some(ConfusedPool)
    else None
  }

  /**
   * `_template_based_response` with `random.choice` as the index `pick`; None
   * is the `KeyError` the fallback table raises for the scam-detected phase.
   */
  function TemplateBasedResponse(p: Phase, g: Gaps, pick: nat): (r: Option<Line>)
    ensures r.Some? ==> ValidLine(r.value)
    ensures TemplatePool(p, g).Some? ==> r.Some? && r.value.PoolLine? && r.value.pool == TemplatePool(p, g).value
    ensures TemplatePool(p, g).None? ==> r == FallbackLine(p)
    ensures r.None? <==> p == ScamDetected
  {
    match TemplatePool(p, g)
    case Some(pool) => Some(PoolLine(pool, pick % PoolSize(pool)))
    case None => FallbackLine(p)
  }

  /** Every line of the chosen pool is the response for some pick. */
  lemma EveryTemplateReachable(p: Phase, g: Gaps, k: nat)
    requires TemplatePool(p, g).Some? && k < PoolSize(TemplatePool(p, g).value)
    ensures TemplateBasedResponse(p, g, k) == Some(PoolLine(TemplatePool(p, g).value, k))
  {
  }

  /** Whether the URL is known never changes the template. */
  lemma TemplateIgnoresUrl(p: Phase, g: Gaps, pick: nat, needsUrl: bool)
    ensures TemplateBasedResponse(p, g.(needsUrl := needsUrl), pick) == TemplateBasedResponse(p, g, pick)
  {
  }

  /** The response dictionary: message and phase. */
  datatype Reply = Reply(message: string, phase: string)

  /** The line `get_fallback_response` sends for a phase value: its fallback line, or the default. */
  function FallbackFor(phase: string): (l: Line)
    ensures ValidLine(l)
    ensures ParsePhase(phase).Some? && ParsePhase(phase) != Some(ScamDetected) ==> l == PhaseLine(ParsePhase(phase).value)
    ensures ParsePhase(phase).None? || ParsePhase(phase) == Some(ScamDetected) ==> l == DefaultLine
  {
    match ParsePhase(phase)
    case Some(p) => FallbackLine(p).GetOr(DefaultLine)
    case None => DefaultLine
  }

  /** `get_fallback_response`: the phase's fallback line, or the default for any other phase value. */
  function GetFallbackResponse(phase: string): (r: Reply)
    ensures r.phase == phase && r.message == LineText(FallbackFor(phase))
  {
    Reply(LineText(FallbackFor(phase)), phase)
  }

  /**
   * `generate_response` raises only in the scam-detected phase (it has no
   * template); the caller then falls back to `get_fallback_response` of that
   * phase, which answers with the default line and keeps the phase value.
   */
  lemma RaisedResponseFallsBack(p: Phase, persona: Option<string>, intel: Entities,
                                detection: Detector.DetectionResult, gen: Generation, pick: nat)
    requires Respond(p, persona, intel, detection, gen, pick).None?
    ensures p == ScamDetected && detection.isScam
    ensures GetFallbackResponse(PhaseName(p)) == Reply(LineText(DefaultLine), PhaseName(p))
  {
  }

  /** Outside the pool phases, the template and the last-resort fallback agree. */
  lemma FallbackAgreesWithTemplate(p: Phase, g: Gaps, pick: nat)
    requires p != ExtractingIntel && p != PlayingDumb && p != ScamDetected
    ensures TemplateBasedResponse(p, g, pick) == Some(FallbackFor(PhaseName(p)))
  {
    ParsePhaseName(p);
  }

  // ---------------------------------------------------------------------------
  // generate_response
  // ---------------------------------------------------------------------------

  /** The generative model: absent, failing, or returning a text. */
  datatype Generation = NoModel | ModelFails | ModelReturns(text: string)

  /** A session key that may be absent. */
  datatype Slot<T> = Missing | Present(value: T)

  /**
   * The model branch: it answers only when there is a model that returns,
   * the persona is a key of `PERSONAS` and the phase has a strategy;
   * otherwise the exception is caught and the template is used.
   */
  function ModelReply(persona: Option<string>, p: Phase, gen: Generation): (r: Option<string>)
    ensures r.Some? <==> gen.ModelReturns? && persona.Some? && persona.value in PersonaKeys && p != ScamDetected
    ensures r.Some? ==> r.value == CleanGenerated(gen.text)
  {
    if gen.ModelReturns? && persona.Some? && persona.value in PersonaKeys && p != ScamDetected then
      Some(CleanGenerated(gen.text))
    else None
  }

  /** What `generate_response` returns, None standing for the exception it lets through. */
  function Respond(p: Phase, persona: Option<string>, intel: Entities, detection: Detector.DetectionResult,
                   gen: Generation, pick: nat): (r: Option<Reply>)
    ensures r.Some? ==> r.value.phase == PhaseName(p)
    ensures !detection.isScam ==> r == Some(Reply(LineText(NotScamLine), PhaseName(p)))
    ensures r.None? <==> detection.isScam && p == ScamDetected
    ensures detection.isScam && ModelReply(persona, p, gen).Some? ==>
      r == Some(Reply(CleanGenerated(gen.text), PhaseName(p)))
    ensures detection.isScam && ModelReply(persona, p, gen).None? && r.Some? ==>
      r.value.message == LineText(TemplateBasedResponse(p, GetIntelligenceGaps(intel), pick).value)
  {
    if !detection.isScam then Some(Reply(LineText(NotScamLine), PhaseName(p)))
    else
      match ModelReply(persona, p, gen)
      case Some(m) => Some(Reply(m, PhaseName(p)))
      case None =>
        match TemplateBasedResponse(p, GetIntelligenceGaps(intel), pick)
        case Some(l) => Some(Reply(LineText(l), PhaseName(p)))
        case None => None
  }

  /** A persona chosen on the first call is always known, so the model branch can answer. */
  lemma SelectedPersonaHasModelBranch(scamType: string, p: Phase, text: string)
    requires p != ScamDetected
    ensures ModelReply(Some(SelectPersona(scamType)), p, ModelReturns(text)) == Some(CleanGenerated(text))
  {
  }

  /** Merging a delta into stored intelligence, kind by kind. */
  function MergeStrings(existing: seq<string>, delta: seq<string>): (r: seq<string>)
    ensures delta == [] ==> r == existing
    ensures delta != [] ==> NoDup(r) && Elems(r) == Elems(existing) + Elems(delta)
  {
    if delta == [] then existing
    else
      assert Elems(existing + delta) == Elems(existing) + Elems(delta);
      Dedup(existing + delta)
  }

  function AccountNumbers(accs: seq<BankAccount>): (ns: seq<Option<string>>)
    ensures |ns| == |accs| && forall i :: 0 <= i < |accs| ==> ns[i] == accs[i].accountNumber
  {
    seq(|accs|, i requires 0 <= i < |accs| => accs[i].accountNumber)
  }

  /** The delta's accounts whose number is not among `numbers`, in order. */
  function NewAccounts(numbers: seq<Option<string>>, delta: seq<BankAccount>): seq<BankAccount>
    decreases |delta|
  {
    if delta == [] then []
    else
      var rest := NewAccounts(numbers, delta[1..]);
      if delta[0].accountNumber !in numbers then [delta[0]] + rest else rest
  }

  /** Only accounts with numbers outside `numbers` are kept, and each such account with all its copies. */
  lemma {:induction false} NewAccountsSpec(numbers: seq<Option<string>>, delta: seq<BankAccount>)
    ensures var r := NewAccounts(numbers, delta);
      && (forall i :: 0 <= i < |r| ==> r[i].accountNumber !in numbers)
      && multiset(r) <= multiset(delta)
      && (forall a: BankAccount :: a.accountNumber !in numbers ==> multiset(r)[a] == multiset(delta)[a])
    decreases |delta|
  {
    if delta != [] {
      assert delta == [delta[0]] + delta[1..];
      NewAccountsSpec(numbers, delta[1..]);
    }
  }

  lemma {:induction false} NewAccountsSnoc(numbers: seq<Option<string>>, delta: seq<BankAccount>, a: BankAccount)
    ensures NewAccounts(numbers, delta + [a])
         == NewAccounts(numbers, delta) + (if a.accountNumber !in numbers then [a] else [])
    decreases |delta|
  {
    if delta == [] {
      assert [] + [a] == [a];
      assert [a][1..] == [];
    } else {
      assert (delta + [a])[0] == delta[0];
      assert (delta + [a])[1..] == delta[1..] + [a];
      NewAccountsSnoc(numbers, delta[1..], a);
    }
  }

  /** The bank-account merge: the delta's accounts with numbers new to the stored list, checked against a snapshot. */
  function MergeAccounts(existing: seq<BankAccount>, delta: seq<BankAccount>): (r: seq<BankAccount>)
    ensures |r| >= |existing| && r[..|existing|] == existing
    ensures delta == [] ==> r == existing
  {
    existing + NewAccounts(AccountNumbers(existing), delta)
  }

  /** The intelligence after `update_session_state` has merged `delta` into `stored`. */
  function MergeDelta(stored: Entities, delta: Entities): Entities {
    Entities(
      MergeStrings(stored.upiIds, delta.upiIds),
      MergeAccounts(stored.bankAccounts, delta.bankAccounts),
      MergeStrings(stored.urls, delta.urls),
      MergeStrings(stored.phoneNumbers, delta.phoneNumbers),
      MergeStrings(stored.amounts, delta.amounts),
      MergeStrings(stored.emails, delta.emails))
  }

  /**
   * A delta account is appended exactly when its number is new to the stored
   * list, and all its copies are then kept: the check is against the numbers
   * as they were before the call, not as the list grows.
   */
  lemma MergeAccountsSnapshot(existing: seq<BankAccount>, delta: seq<BankAccount>, a: BankAccount)
    requires a in delta
    ensures a.accountNumber !in AccountNumbers(existing) ==>
      multiset(MergeAccounts(existing, delta))[a] == multiset(existing)[a] + multiset(delta)[a]
    ensures a.accountNumber in AccountNumbers(existing) ==>
      multiset(MergeAccounts(existing, delta))[a] == multiset(existing)[a]
  {
    var ns := AccountNumbers(existing);
    var added := NewAccounts(ns, delta);
    NewAccountsSpec(ns, delta);
    assert multiset(existing + added) == multiset(existing) + multiset(added);
    if a.accountNumber in ns {
      assert a !in added;
    }
  }

  /** Two delta entries sharing a number that is new are both appended. */
  lemma RepeatedNewNumberKeptTwice()
    ensures var a := BankAccount(Some("123456789"), None, None);
      var b := BankAccount(Some("123456789"), Some("SBIN0001234"), None);
      MergeAccounts([], [a, b]) == [a, b]
  {
    var a := BankAccount(Some("123456789"), None, None);
    var b := BankAccount(Some("123456789"), Some("SBIN0001234"), None);
    assert [a, b][1..] == [b];
    assert [b][1..] == [];
  }

  // ---------------------------------------------------------------------------
  // The session record
  // ---------------------------------------------------------------------------

  /**
   * The session dictionary as the orchestrator sees it. `persona` is a
   * `Slot` because `generate_response` asks whether the key is present at
   * all; the stored value may still be None.
   */
  class Session {
    var phase: Phase
    var persona: Slot<Option<string>>
    var scamDetected: bool
    var history: seq<Turn>
    var intelligence: Entities
    var metrics: map<string, int>

    constructor (phase: Phase, persona: Slot<Option<string>>, scamDetected: bool, history: seq<Turn>,
                 intelligence: Entities, metrics: map<string, int>)
      ensures this.phase == phase && this.persona == persona && this.scamDetected == scamDetected
      ensures this.history == history && this.intelligence == intelligence && this.metrics == metrics
    {
      this.phase := phase;
      this.persona := persona;
      this.scamDetected := scamDetected;
      this.history := history;
      this.intelligence := intelligence;
      this.metrics := metrics;
    }

    /** A session created from a `SessionState` record: its dictionary always has the key `persona`. */
    constructor FromState(s: SessionState)
      requires ParsePhase(s.currentPhase).Some?
      ensures phase == ParsePhase(s.currentPhase).value && persona == Present(s.persona)
      ensures scamDetected == s.scamDetected && history == s.history
      ensures intelligence == s.intelligence && metrics == s.metrics
    {
      phase := ParsePhase(s.currentPhase).value;
      persona := Present(s.persona);
      scamDetected := s.scamDetected;
      history := s.history;
      intelligence := s.intelligence;
      metrics := s.metrics;
    }

    /**
     * `generate_response`: chooses a persona only when the key is absent,
     * then answers the way `Respond` says.
     */
    method GenerateResponse(detection: Detector.DetectionResult, gen: Generation, pick: nat)
      returns (r: Option<Reply>)
      modifies this`persona
      ensures persona == if old(persona).Missing? then Present(Some(SelectPersona(detection.scamType)))
                         else old(persona)
      ensures r == Respond(phase, persona.value, intelligence, detection, gen, pick)
    {
      if persona.Missing? {
        persona := Present(Some(SelectPersona(detection.scamType)));
      }
      var current := PhaseName(phase);
      if !detection.isScam {
        return Some(Reply(LineText(NotScamLine), current));
      }
      var gaps := GetIntelligenceGaps(intelligence);
      var generated := ModelReply(persona.value, phase, gen);
      if generated.Some? {
        return Some(Reply(generated.value, current));
      }
      var template := TemplateBasedResponse(phase, gaps, pick);
      if template.None? {
        return None;
      }
      r := Some(Reply(LineText(template.value), current));
    }

    /** The bank-account step of the merge: append each delta account whose number the snapshot lacks. */
    method MergeBankAccounts(delta: seq<BankAccount>)
      modifies this`intelligence
      ensures intelligence == old(intelligence).(bankAccounts := MergeAccounts(old(intelligence).bankAccounts, delta))
    {
      var existing := intelligence.bankAccounts;
      var numbers := AccountNumbers(existing);
      var i := 0;
      while i < |delta|
        invariant 0 <= i <= |delta|
        invariant intelligence == old(intelligence)
        invariant existing == old(intelligence).bankAccounts + NewAccounts(numbers, delta[..i])
      {
        NewAccountsSnoc(numbers, delta[..i], delta[i]);
        assert delta[..i + 1] == delta[..i] + [delta[i]];
        if delta[i].accountNumber !in numbers {
          existing := existing + [delta[i]];
        }
        i := i + 1;
      }
      assert delta[..i] == delta;
      intelligence := intelligence.(bankAccounts := existing);
    }

    /** The transition `elif` chain: at most one step, on the history length and the merged intelligence. */
    method AdvancePhase(turnCount: nat)
      modifies this`phase
      ensures phase == NextPhase(old(phase), scamDetected, turnCount, intelligence)
    {
      if phase == InitialContact && scamDetected {
        phase := BuildingTrust;
      } else if phase == BuildingTrust && turnCount >= 4 {
        phase := PlayingDumb;
      } else if phase == PlayingDumb && turnCount >= 7 {
        phase := ExtractingIntel;
      } else if phase == ExtractingIntel {
        var hasUpi := |intelligence.upiIds| > 0;
        var hasBank := |intelligence.bankAccounts| > 0;
        var hasPhone := |intelligence.phoneNumbers| > 0;
        var hasMultiple := |intelligence.upiIds| + |intelligence.bankAccounts| >= 2;
        if hasMultiple && hasPhone && turnCount >= 12 {
          phase := Closing;
        } else if hasMultiple && turnCount >= 14 {
          phase := Closing;
        } else if (hasUpi || hasBank) && turnCount >= 18 {
          phase := Closing;
        }
      }
    }

    /**
     * `update_session_state`: appends the agent's turn, merges the delta,
     * takes at most one phase step on the new history length and records it
     * as the turn count.
     */
    method UpdateSessionState(delta: Entities, response: Reply)
      modifies this`history, this`intelligence, this`phase, this`metrics
      ensures history == old(history) + [Turn(Agent, response.message, None)]
      ensures intelligence == MergeDelta(old(intelligence), delta)
      ensures phase == NextPhase(old(phase), scamDetected, |history|, intelligence)
      ensures metrics == old(metrics)["turn_count" := |history|]
    {
      history := history + [Turn(Agent, response.message, None)];
      intelligence := intelligence.(upiIds := MergeStrings(intelligence.upiIds, delta.upiIds));
      MergeBankAccounts(delta.bankAccounts);
      intelligence := intelligence.(urls := MergeStrings(intelligence.urls, delta.urls));
      intelligence := intelligence.(phoneNumbers := MergeStrings(intelligence.phoneNumbers, delta.phoneNumbers));
      intelligence := intelligence.(amounts := MergeStrings(intelligence.amounts, delta.amounts));
      intelligence := intelligence.(emails := MergeStrings(intelligence.emails, delta.emails));
      var turnCount := |history|;
      AdvancePhase(turnCount);
      metrics := metrics["turn_count" := turnCount];
    }
  }

  /**
   * What one update does to the stored intelligence: empty kinds are left
   * alone, string kinds end duplicate-free with the union of stored and new, and
   * the stored accounts stay a prefix.
   */
  lemma MergeDeltaSpec(stored: Entities, delta: Entities)
    ensures var m := MergeDelta(stored, delta);
      && MergedKind(stored.upiIds, delta.upiIds, m.upiIds)
      && MergedKind(stored.urls, delta.urls, m.urls)
      && MergedKind(stored.phoneNumbers, delta.phoneNumbers, m.phoneNumbers)
      && MergedKind(stored.amounts, delta.amounts, m.amounts)
      && MergedKind(stored.emails, delta.emails, m.emails)
      && (delta.bankAccounts == [] ==> m.bankAccounts == stored.bankAccounts)
      && m.bankAccounts[..|stored.bankAccounts|] == stored.bankAccounts
  {
  }

  /**
   * One string kind after the merge: untouched when the delta is empty,
   * otherwise duplicate-free with the union of the stored and new values.
   */
  predicate MergedKind(stored: seq<string>, delta: seq<string>, m: seq<string>) {
    && (delta == [] ==> m == stored)
    && (delta != [] ==> NoDup(m) && Elems(m) == Elems(stored) + Elems(delta))
  }

  /** Merging into a non-empty list of strings leaves it non-empty. */
  lemma MergeStringsKeepsNonEmpty(existing: seq<string>, delta: seq<string>)
    requires |existing| > 0
    ensures |MergeStrings(existing, delta)| > 0
  {
    if delta != [] {
      assert existing[0] in Elems(MergeStrings(existing, delta));
    }
  }

  /** No kind of intelligence already held is lost by a merge; the account list never shrinks. */
  lemma MergeKeepsKnownKinds(stored: Entities, delta: Entities)
    ensures var m := MergeDelta(stored, delta);
      && (|stored.upiIds| > 0 ==> |m.upiIds| > 0)
      && (|stored.urls| > 0 ==> |m.urls| > 0)
      && (|stored.phoneNumbers| > 0 ==> |m.phoneNumbers| > 0)
      && (|stored.amounts| > 0 ==> |m.amounts| > 0)
      && (|stored.emails| > 0 ==> |m.emails| > 0)
      && |m.bankAccounts| >= |stored.bankAccounts|
  {
    if |stored.upiIds| > 0 { MergeStringsKeepsNonEmpty(stored.upiIds, delta.upiIds); }
    if |stored.urls| > 0 { MergeStringsKeepsNonEmpty(stored.urls, delta.urls); }
    if |stored.phoneNumbers| > 0 { MergeStringsKeepsNonEmpty(stored.phoneNumbers, delta.phoneNumbers); }
    if |stored.amounts| > 0 { MergeStringsKeepsNonEmpty(stored.amounts, delta.amounts); }
    if |stored.emails| > 0 { MergeStringsKeepsNonEmpty(stored.emails, delta.emails); }
  }
}
