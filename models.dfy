/**
 * The shared value layer of the honeypot: request validation (whitespace
 * normalisation of the message, the session-id alphabet), the Scam-Triad
 * score, and the records for extracted intelligence and session state with
 * their defaults.
 */
module Models {
  import opened Wrappers
  import opened Strings
  import opened Seqs

  // ---------------------------------------------------------------------------
  // Whitespace normalisation: `' '.join(v.split())`
  // ---------------------------------------------------------------------------

  /** A word of `str.split()`: non-empty and free of whitespace. */
  predicate IsWord(w: string) {
    w != [] && NoSpace(w)
  }

  /** Length of the longest whitespace-free prefix of `s`. */
  function WordEnd(s: string): (k: nat)
    ensures k <= |s| && NoSpace(s[..k]) && (k == |s| || IsSpace(s[k]))
    ensures s != [] && !IsSpace(s[0]) ==> k >= 1
    decreases |s|
  {
    if s == [] || IsSpace(s[0]) then 0
    else
      var k := WordEnd(s[1..]);
      assert s[..k + 1] == [s[0]] + s[1..][..k];
      k + 1
  }

  /** Python's `s.split()` with no argument: the maximal runs of non-whitespace. */
  function Words(s: string): (ws: seq<string>)
    ensures forall i :: 0 <= i < |ws| ==> IsWord(ws[i])
    decreases |s|
  {
    if s == [] then []
    else if IsSpace(s[0]) then Words(s[1..])
    else
      var k := WordEnd(s);
      [s[..k]] + Words(s[k..])
  }

  /** Python's `' '.join(ws)`. */
  function Join(ws: seq<string>): string {
    if ws == [] then ""
    else if |ws| == 1 then ws[0]
    else ws[0] + " " + Join(ws[1..])
  }

  /**
   * A single-spaced string: no leading or trailing whitespace, and every
   * whitespace character is a plain space between two non-whitespace ones.
   */
  predicate SingleSpaced(r: string) {
    && (r == [] || (!IsSpace(r[0]) && !IsSpace(r[|r| - 1])))
    && forall i :: 0 <= i < |r| && IsSpace(r[i]) ==>
         r[i] == ' ' && 0 < i < |r| - 1 && !IsSpace(r[i - 1]) && !IsSpace(r[i + 1])
  }

  lemma {:induction false} WordEndOfWord(w: string, rest: string)
    requires NoSpace(w)
    requires rest == [] || IsSpace(rest[0])
    ensures WordEnd(w + rest) == |w|
    decreases |w|
  {
    if w != [] {
      assert (w + rest)[1..] == w[1..] + rest;
      WordEndOfWord(w[1..], rest);
    } else {
      assert w + rest == rest;
    }
  }

  /** A word followed by whitespace (or nothing) splits off as the first word. */
  lemma WordsOfWordThen(w: string, rest: string)
    requires IsWord(w)
    requires rest == [] || IsSpace(rest[0])
    ensures Words(w + rest) == [w] + Words(rest)
  {
    WordEndOfWord(w, rest);
    assert (w + rest)[..|w|] == w;
    assert (w + rest)[|w|..] == rest;
  }

  /** Splitting a join of words gives the words back. */
  lemma {:induction false} WordsOfJoin(ws: seq<string>)
    requires forall i :: 0 <= i < |ws| ==> IsWord(ws[i])
    ensures Words(Join(ws)) == ws
  {
    if |ws| == 1 {
      WordsOfWordThen(ws[0], []);
      assert ws[0] + [] == ws[0];
    } else if |ws| > 1 {
      var rest := " " + Join(ws[1..]);
      assert Join(ws) == ws[0] + rest;
      WordsOfWordThen(ws[0], rest);
      assert rest[1..] == Join(ws[1..]);
      WordsOfJoin(ws[1..]);
    }
  }

  /** A join of words is single-spaced, and non-empty when there is a word. */
  lemma {:induction false} JoinSingleSpaced(ws: seq<string>)
    requires forall i :: 0 <= i < |ws| ==> IsWord(ws[i])
    ensures SingleSpaced(Join(ws))
    ensures ws != [] ==> Join(ws) != [] && Join(ws)[0] == ws[0][0]
  {
    if |ws| > 1 {
      var w, j := ws[0], Join(ws[1..]);
      JoinSingleSpaced(ws[1..]);
      var r := w + " " + j;
      assert r == Join(ws);
      assert IsWord(w) && j != [] && !IsSpace(j[0]) && !IsSpace(j[|j| - 1]);
      forall i | 0 <= i < |w| ensures r[i] == w[i] && !IsSpace(r[i]) { }
      forall i | |w| <= i < |r| && IsSpace(r[i])
        ensures r[i] == ' ' && 0 < i < |r| - 1 && !IsSpace(r[i - 1]) && !IsSpace(r[i + 1])
      {
        if i > |w| {
          assert r[i] == j[i - |w| - 1];
          assert r[i - 1] == (if i - 1 == |w| then ' ' else j[i - |w| - 2]);
          assert r[i + 1] == j[i - |w|];
        } else {
          assert r[i - 1] == w[|w| - 1];
          assert r[i + 1] == j[0];
        }
      }
      assert r[|r| - 1] == j[|j| - 1];
    }
  }

  /**
   * `MessageRequest.sanitize_message`: the result is single-spaced and has the
   * same sequence of whitespace-free words as the input.
   */
  function SanitizeMessage(v: string): (r: string)
    ensures SingleSpaced(r)
    ensures Words(r) == Words(v)
    ensures |r| <= |v|
  {
    var ws := Words(v);
    JoinSingleSpaced(ws);
    WordsOfJoin(ws);
    JoinNoLonger(v);
    Join(ws)
  }

  /** Joining the words with single spaces never lengthens the text. */
  lemma {:induction false} JoinNoLonger(v: string)
    ensures |Join(Words(v))| <= |v|
    decreases |v|
  {
    if v != [] {
      if IsSpace(v[0]) {
        JoinNoLonger(v[1..]);
      } else {
        var k := WordEnd(v);
        var rest := Words(v[k..]);
        assert Words(v) == [v[..k]] + rest;
        if rest != [] {
          // a further word needs at least one whitespace character before it
          assert v[k..][1..] == v[k + 1..];
          assert rest == Words(v[k + 1..]);
          JoinNoLonger(v[k + 1..]);
          assert Join(Words(v)) == v[..k] + " " + Join(rest);
        } else {
          assert Join(Words(v)) == v[..k];
        }
      }
    }
  }

  /** Sanitising twice is sanitising once. */
  lemma SanitizeIdempotent(v: string)
    ensures SanitizeMessage(SanitizeMessage(v)) == SanitizeMessage(v)
  {
    WordsOfJoin(Words(v));
  }

  // ---------------------------------------------------------------------------
  // Session ids: `^[a-zA-Z0-9_-]+$` under `re.match`
  // ---------------------------------------------------------------------------

  predicate SessionIdChar(c: char) {
    IsAlnum(c) || c == '_' || c == '-'
  }

  predicate AllSessionIdChars(s: string) {
    forall i :: 0 <= i < |s| ==> SessionIdChar(s[i])
  }

  const SessionIdError := "Session ID must be alphanumeric with hyphens/underscores only"

  /**
   * `validate_session_id` as written: Python's `$` also matches just before a
   * final newline, so one trailing "\n" after an otherwise valid id passes.
   */
  function ValidateSessionIdAsWritten(v: string): (r: Result<string, string>)
    ensures r.Success? ==> r.value == v
  {
    if !(1 <= |v| <= 100) then Failure("length")
    else if (|v| >= 1 && AllSessionIdChars(v))
         || (|v| >= 2 && v[|v| - 1] == '\n' && AllSessionIdChars(v[..|v| - 1]))
    then Success(v)
    else Failure(SessionIdError)
  }

  /** The id "abc\n" is accepted as written although it contains a newline. */
  lemma SessionIdTrailingNewline()
    ensures ValidateSessionIdAsWritten("abc\n").Success?
    ensures !AllSessionIdChars("abc\n")
  {
    assert "abc\n"[..3] == "abc";
    assert !SessionIdChar("abc\n"[3]);
  }

  /**
   * The session-id check as intended: 1 to 100 characters (the field's
   * length bounds, checked first) all drawn from `[a-zA-Z0-9_-]`.
   */
  function ValidateSessionId(v: string): (r: Result<string, string>)
    ensures r.Success? <==> 1 <= |v| <= 100 && AllSessionIdChars(v)
    ensures r.Success? ==> r.value == v
    ensures r.Failure? && 1 <= |v| <= 100 ==> r.error == SessionIdError
  {
    if !(1 <= |v| <= 100) then Failure("length")
    else if AllSessionIdChars(v) then Success(v)
    else Failure(SessionIdError)
  }

  /** The intended check and the one as written differ only on a trailing newline. */
  lemma SessionIdChecksAgree(v: string)
    requires v == [] || v[|v| - 1] != '\n'
    ensures ValidateSessionId(v) == ValidateSessionIdAsWritten(v)
  {
  }

  // ---------------------------------------------------------------------------
  // MessageRequest
  // ---------------------------------------------------------------------------

  datatype MessageRequest = MessageRequest(sessionId: string, message: string, timestamp: Option<string>)

  /**
   * Building a `MessageRequest` with the session-id check `idCheck`: the length
   * bounds of both fields are checked on the raw input, then the validators
   * run; the failure lists the failing fields in declaration order.
   * `ValidateSessionIdAsWritten` gives the program's behaviour.
   */
  function NewMessageRequest(idCheck: string -> Result<string, string>, sessionId: string, message: string,
                             timestamp: Option<string>): (r: Result<MessageRequest, seq<string>>)
    ensures r.Success? <==> idCheck(sessionId).Success? && 1 <= |message| <= 5000
    ensures r.Success? ==> r.value == MessageRequest(sessionId, SanitizeMessage(message), timestamp)
    ensures r.Failure? ==>
      && ("session_id" in r.error <==> idCheck(sessionId).Failure?)
      && ("message" in r.error <==> !(1 <= |message| <= 5000))
  {
    var idOk := idCheck(sessionId).Success?;
    var msgOk := 1 <= |message| <= 5000;
    if idOk && msgOk then Success(MessageRequest(sessionId, SanitizeMessage(message), timestamp))
    else Failure((if idOk then [] else ["session_id"]) + (if msgOk then [] else ["message"]))
  }

  /** The program builds a request for the session id "abc\n"; the intended check refuses it. */
  lemma RequestTrailingNewline(message: string)
    requires 1 <= |message| <= 5000
    ensures NewMessageRequest(ValidateSessionIdAsWritten, "abc\n", message, None).Success?
    ensures NewMessageRequest(ValidateSessionId, "abc\n", message, None) == Failure(["session_id"])
  {
    SessionIdTrailingNewline();
    assert ValidateSessionId("abc\n").Failure?;
    var noMessageError: seq<string> := [];
    assert ["session_id"] + noMessageError == ["session_id"];
  }

  /**
   * The length bound is met by the raw text, so a message of whitespace only
   * is accepted and sanitised to the empty string.
   */
  lemma {:induction false} BlankMessageAccepted(idCheck: string -> Result<string, string>, sessionId: string,
                                                message: string)
    requires idCheck(sessionId).Success?
    requires 1 <= |message| <= 5000 && forall i :: 0 <= i < |message| ==> IsSpace(message[i])
    ensures NewMessageRequest(idCheck, sessionId, message, None) == Success(MessageRequest(sessionId, "", None))
  {
    BlankHasNoWords(message);
  }

  lemma {:induction false} BlankHasNoWords(s: string)
    requires forall i :: 0 <= i < |s| ==> IsSpace(s[i])
    ensures Words(s) == []
    decreases |s|
  {
    if s != [] {
      BlankHasNoWords(s[1..]);
    }
  }

  // ---------------------------------------------------------------------------
  // Scam-Triad score
  // ---------------------------------------------------------------------------

  datatype TriadScore = TriadScore(urgency: real, authority: real, emotion: real, financial: real) {

    /** The field bounds the record enforces: 0..3, 0..3, 0..2, 0..2. */
    predicate InBounds() {
      && 0.0 <= urgency <= 3.0 && 0.0 <= authority <= 3.0
      && 0.0 <= emotion <= 2.0 && 0.0 <= financial <= 2.0
    }
  }

  const DefaultTriad := TriadScore(0.0, 0.0, 0.0, 0.0)

  /** `total`: out of 10 for a score within its bounds. */
  function Total(t: TriadScore): (r: real)
    ensures t.InBounds() ==> 0.0 <= r <= 10.0
  {
    t.urgency + t.authority + t.emotion + t.financial
  }

  /** `is_scam`: the total exceeds 7. */
  predicate TriadIsScam(t: TriadScore) {
    Total(t) > 7.0
  }

  const Indicators: seq<string> :=
    ["urgency_tactics", "authority_impersonation", "emotional_manipulation", "financial_request"]

  /** Position of an indicator name in `Indicators` (4 for any other string). */
  function IndicatorRank(s: string): nat {
    if s == Indicators[0] then 0
    else if s == Indicators[1] then 1
    else if s == Indicators[2] then 2
    else if s == Indicators[3] then 3
    else 4
  }

  /**
   * `to_indicators`: each indicator is listed exactly when its field passes
   * its threshold, at most once, in the order of `Indicators`.
   */
  function ToIndicators(t: TriadScore): (r: seq<string>)
    ensures NoDup(r)
    ensures Indicators[0] in r <==> t.urgency > 1.0
    ensures Indicators[1] in r <==> t.authority > 1.0
    ensures Indicators[2] in r <==> t.emotion > 0.5
    ensures Indicators[3] in r <==> t.financial > 0.5
    ensures forall x :: x in r ==> x in Indicators
  {
    (if t.urgency > 1.0 then [Indicators[0]] else [])
    + (if t.authority > 1.0 then [Indicators[1]] else [])
    + (if t.emotion > 0.5 then [Indicators[2]] else [])
    + (if t.financial > 0.5 then [Indicators[3]] else [])
  }

  /** The indicators come out in the order of `Indicators`. */
  lemma ToIndicatorsOrdered(t: TriadScore)
    ensures forall i, j :: 0 <= i < j < |ToIndicators(t)| ==>
      IndicatorRank(ToIndicators(t)[i]) < IndicatorRank(ToIndicators(t)[j])
  {
  }

  /**
   * A Triad verdict of scam always comes with a pressure indicator (urgency or
   * authority) and a manipulation indicator (emotion or financial request).
   */
  lemma ScamTriadHasTwoIndicators(t: TriadScore)
    requires t.InBounds() && TriadIsScam(t)
    ensures Indicators[0] in ToIndicators(t) || Indicators[1] in ToIndicators(t)
    ensures Indicators[2] in ToIndicators(t) || Indicators[3] in ToIndicators(t)
    ensures |ToIndicators(t)| >= 2
  {
  }

  // ---------------------------------------------------------------------------
  // Extracted intelligence and session records
  // ---------------------------------------------------------------------------

  /**
   * A bank-account entry as it travels between the extractor and the
   * session: every key may be absent or `None`.
   */
  datatype BankAccount = BankAccount(accountNumber: Option<string>, ifsc: Option<string>, bankName: Option<string>)

  datatype Entities = Entities(
    upiIds: seq<string>,
    bankAccounts: seq<BankAccount>,
    urls: seq<string>,
    phoneNumbers: seq<string>,
    amounts: seq<string>,
    emails: seq<string>)

  /** `ExtractedEntities()`: all six lists empty. */
  const EmptyEntities := Entities([], [], [], [], [], [])

  datatype Role = Scammer | Agent

  datatype Turn = Turn(role: Role, message: string, timestamp: Option<string>)

  datatype SessionState = SessionState(
    sessionId: string,
    currentPhase: string,
    persona: Option<string>,
    scamDetected: bool,
    history: seq<Turn>,
    intelligence: Entities,
    metrics: map<string, int>)

  /** `SessionState(session_id=id)`: the record's defaults. */
  function NewSessionState(id: string): (s: SessionState)
    ensures s.sessionId == id
  {
    SessionState(id, "initial_contact", None, false, [], EmptyEntities, map[])
  }

  /** A fresh record starts clean: no history, no intelligence, no verdict, no persona. */
  lemma NewSessionStateIsClean(id: string)
    ensures var s := NewSessionState(id);
      && s.currentPhase == "initial_contact" && s.persona == None && !s.scamDetected
      && s.history == [] && s.metrics == map[]
      && s.intelligence.upiIds == [] && s.intelligence.bankAccounts == []
      && s.intelligence.urls == [] && s.intelligence.phoneNumbers == []
      && s.intelligence.amounts == [] && s.intelligence.emails == []
  {
  }
}
