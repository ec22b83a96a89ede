/**
 * The scam detector: the rule-based score over five signal families and the
 * layered decision policy that may consult a language model.
 *
 * Keyword and sensitive-data checks are substring tests on the lowered
 * message. The urgency, URL and phone checks are regular expressions; which
 * of them hit is the input `RegexHits`. The score is kept in integer
 * hundredths, and the model's answer, when there is a client, is the input
 * `LlmVerdict`.
 */
module Detector {
  import opened Wrappers
  import opened Strings
  import opened Seqs

  // ---------------------------------------------------------------------------
  // Tables
  // ---------------------------------------------------------------------------

  datatype Category = BankImpersonation | Lottery | Courier | TaxRefund | Investment

  /** The iteration order of `SCAM_KEYWORDS`. */
  const CategoryTable: seq<Category> := [BankImpersonation, Lottery, Courier, TaxRefund, Investment]

  function CategoryName(c: Category): string {
    match c
    case BankImpersonation => "bank_impersonation"
    case Lottery => "lottery"
    case Courier => "courier"
    case TaxRefund => "tax_refund"
    case Investment => "investment"
  }

  /** Position of a category in the table. */
  function CategoryIndex(c: Category): (i: nat)
    ensures i < |CategoryTable| && CategoryTable[i] == c
  {
    match c
    case BankImpersonation => 0
    case Lottery => 1
    case Courier => 2
    case TaxRefund => 3
    case Investment => 4
  }

  function CategoryKeywords(c: Category): seq<string> {
    match c
    case BankImpersonation =>
      ["kyc", "account blocked", "verify account", "update kyc",
       "suspend account", "bank verification", "rbi", "reserve bank"]
    case Lottery =>
      ["congratulations", "lottery", "prize", "winner", "jackpot",
       "lucky draw", "won", "claim prize"]
    case Courier =>
      ["fedex", "dhl", "courier", "parcel", "package", "customs",
       "clearance fee", "delivery pending"]
    case TaxRefund =>
      ["tax refund", "income tax", "gst refund", "refund pending",
       "tax department", "refund amount"]
    case Investment =>
      ["investment opportunity", "guaranteed returns", "profit",
       "trading", "crypto", "bitcoin", "stock market tip"]
  }

  /** `SENSITIVE_DATA_REQUESTS`: patterns without metacharacters, so substring tests. */
  const SensitiveTerms: seq<string> :=
    ["otp", "password", "pin", "cvv", "card number", "account number", "aadhar", "pan card"]

  /** Some term of `terms` occurs in `text`: `any(t in text for t in terms)`. */
  predicate AnyIn(text: string, terms: seq<string>) {
    exists k :: 0 <= k < |terms| && Contains(text, terms[k])
  }

  predicate CategoryMatches(c: Category, lowered: string) {
    AnyIn(lowered, CategoryKeywords(c))
  }

  /** Which regular-expression families hit: urgency (on the lowered message), URL and phone. */
  datatype RegexHits = RegexHits(urgency: bool, url: bool, phone: bool)

  /** The detector's result dictionary. */
  datatype DetectionResult = DetectionResult(
    isScam: bool,
    scamType: string,
    confidence: real,
    detectedPatterns: seq<string>,
    reasoning: string)

  /** The entries of `detected_patterns`. */
  datatype Pattern = Keywords(category: Category) | UrgencyTactics | SensitiveDataRequest | ContainsUrl | ContainsPhone

  function PatternName(p: Pattern): string {
    match p
    case Keywords(c) => "keywords_" + CategoryName(c)
    case UrgencyTactics => "urgency_tactics"
    case SensitiveDataRequest => "sensitive_data_request"
    case ContainsUrl => "contains_url"
    case ContainsPhone => "contains_phone"
  }

  /** What each pattern adds to the score, in hundredths. */
  function Weight(p: Pattern): (w: nat)
    ensures w > 0
  {
    match p
    case Keywords(_) => 30
    case UrgencyTactics => 20
    case SensitiveDataRequest => 25
    case ContainsUrl => 15
    case ContainsPhone => 10
  }

  /** The position a pattern takes in the list: categories in table order, then the four signals. */
  function PatternRank(p: Pattern): nat {
    match p
    case Keywords(c) => CategoryIndex(c)
    case UrgencyTactics => 5
    case SensitiveDataRequest => 6
    case ContainsUrl => 7
    case ContainsPhone => 8
  }

  /** Category names are distinct, and none of them is "unknown". */
  lemma CategoryNamesDistinct(a: Category, b: Category)
    ensures a != b ==> CategoryName(a) != CategoryName(b)
    ensures CategoryName(a) != "unknown"
  {
    assert CategoryName(a)[0] != 'u';
    if a != b {
      assert CategoryName(a)[0] != CategoryName(b)[0] || |CategoryName(a)| != |CategoryName(b)|;
    }
  }

  /** Distinct patterns have distinct names. */
  lemma PatternNamesDistinct(p: Pattern, q: Pattern)
    ensures p != q ==> PatternName(p) != PatternName(q)
  {
    if p != q {
      if p.Keywords? && q.Keywords? {
        assert PatternName(p)[9..] == CategoryName(p.category);
        assert PatternName(q)[9..] == CategoryName(q.category);
        CategoryNamesDistinct(p.category, q.category);
      } else {
        assert PatternName(p)[0] != PatternName(q)[0] || |PatternName(p)| != |PatternName(q)|;
      }
    }
  }

  // ---------------------------------------------------------------------------
  // The rule-based result as a specification
  // ---------------------------------------------------------------------------

  /** Which categories have a keyword in the lowered message. */
  function CategoryHits(lowered: string): Category -> bool {
    c => CategoryMatches(c, lowered)
  }

  /** The categories among the first `n` of the table that `hit`, in table order. */
  function MatchedUpTo(hit: Category -> bool, n: nat): seq<Category>
    requires n <= |CategoryTable|
  {
    if n == 0 then []
    else
      var c := CategoryTable[n - 1];
      MatchedUpTo(hit, n - 1) + (if hit(c) then [c] else [])
  }

  /** Each category in `MatchedUpTo(hit, n)` hits and lies among the first `n`. */
  lemma {:induction false} MatchedUpToMembers(hit: Category -> bool, n: nat)
    requires n <= |CategoryTable|
    ensures forall i :: 0 <= i < |MatchedUpTo(hit, n)| ==>
      hit(MatchedUpTo(hit, n)[i]) && CategoryIndex(MatchedUpTo(hit, n)[i]) < n
  {
    if n > 0 {
      MatchedUpToMembers(hit, n - 1);
      var prev := MatchedUpTo(hit, n - 1);
      var c := CategoryTable[n - 1];
      assert CategoryIndex(c) == n - 1;
      var cs := prev + (if hit(c) then [c] else []);
      assert forall i :: 0 <= i < |prev| ==> cs[i] == prev[i];
    }
  }

  /** Every category among the first `n` that hits is in `MatchedUpTo(hit, n)`. */
  lemma {:induction false} MatchedUpToComplete(hit: Category -> bool, n: nat)
    requires n <= |CategoryTable|
    ensures forall c :: CategoryIndex(c) < n && hit(c) ==> c in MatchedUpTo(hit, n)
  {
    if n > 0 {
      MatchedUpToComplete(hit, n - 1);
      var prev := MatchedUpTo(hit, n - 1);
      var c := CategoryTable[n - 1];
      assert MatchedUpTo(hit, n) == prev + (if hit(c) then [c] else []);
      forall d | CategoryIndex(d) < n && hit(d)
        ensures d in MatchedUpTo(hit, n)
      {
        if CategoryIndex(d) == n - 1 {
          assert d == c;
        } else {
          assert d in prev;
        }
      }
    }
  }

  /** `MatchedUpTo(hit, n)` is in table order, so without repeats. */
  lemma {:induction false} MatchedUpToOrdered(hit: Category -> bool, n: nat)
    requires n <= |CategoryTable|
    ensures forall i, j :: 0 <= i < j < |MatchedUpTo(hit, n)| ==>
      CategoryIndex(MatchedUpTo(hit, n)[i]) < CategoryIndex(MatchedUpTo(hit, n)[j])
  {
    if n > 0 {
      MatchedUpToOrdered(hit, n - 1);
      MatchedUpToMembers(hit, n - 1);
      var prev := MatchedUpTo(hit, n - 1);
      var c := CategoryTable[n - 1];
      assert CategoryIndex(c) == n - 1;
      var cs := prev + (if hit(c) then [c] else []);
      assert forall i :: 0 <= i < |prev| ==> cs[i] == prev[i];
    }
  }

  /**
   * `MatchedUpTo(hit, n)` holds exactly the categories among the first `n`
   * that hit, each once, in table order.
   */
  lemma MatchedUpToSpec(hit: Category -> bool, n: nat)
    requires n <= |CategoryTable|
    ensures var cs := MatchedUpTo(hit, n);
      && (forall i :: 0 <= i < |cs| ==> hit(cs[i]) && CategoryIndex(cs[i]) < n)
      && (forall c :: CategoryIndex(c) < n && hit(c) ==> c in cs)
      && (forall i, j :: 0 <= i < j < |cs| ==> CategoryIndex(cs[i]) < CategoryIndex(cs[j]))
  {
    MatchedUpToMembers(hit, n);
    MatchedUpToComplete(hit, n);
    MatchedUpToOrdered(hit, n);
  }

  function Matched(hit: Category -> bool): seq<Category> {
    MatchedUpTo(hit, |CategoryTable|)
  }

  function KeywordPatterns(cs: seq<Category>): (ps: seq<Pattern>)
    ensures |ps| == |cs| && forall i :: 0 <= i < |cs| ==> ps[i] == Keywords(cs[i])
  {
    seq(|cs|, i requires 0 <= i < |cs| => Keywords(cs[i]))
  }

  function Opt(b: bool, p: Pattern): seq<Pattern> {
    if b then [p] else []
  }

  /** The four signal patterns that hit, in their fixed order. */
  function SignalPatterns(sensitive: bool, hits: RegexHits): seq<Pattern> {
    Opt(hits.urgency, UrgencyTactics) + Opt(sensitive, SensitiveDataRequest)
    + Opt(hits.url, ContainsUrl) + Opt(hits.phone, ContainsPhone)
  }

  /** The detected patterns, given the matched categories and the signal hits. */
  function Patterns(cs: seq<Category>, sensitive: bool, hits: RegexHits): seq<Pattern> {
    KeywordPatterns(cs) + SignalPatterns(sensitive, hits)
  }

  function Names(ps: seq<Pattern>): (r: seq<string>)
    ensures |r| == |ps| && forall i :: 0 <= i < |ps| ==> r[i] == PatternName(ps[i])
  {
    seq(|ps|, i requires 0 <= i < |ps| => PatternName(ps[i]))
  }

  /** The score in hundredths, as the loop accumulates it. */
  function Score(cs: seq<Category>, sensitive: bool, hits: RegexHits): nat {
    30 * |cs|
    + (if hits.urgency then 20 else 0)
    + (if sensitive then 25 else 0)
    + (if hits.url then 15 else 0)
    + (if hits.phone then 10 else 0)
  }

  function Min(a: int, b: int): int { if a <= b then a else b }
  function MaxReal(a: real, b: real): real { if a >= b then a else b }

  /** `min(score, 1.0)` with the score in hundredths. */
  function Confidence(score: nat): (c: real)
    ensures 0.0 <= c <= 1.0
    ensures score <= 100 ==> c * 100.0 == score as real
    ensures score >= 100 ==> c == 1.0
  {
    Min(score, 100) as real / 100.0
  }

  /** `scam_type`: the last matched category in table order, or "general". */
  function ScamType(cs: seq<Category>): string {
    if cs == [] then "general" else CategoryName(cs[|cs| - 1])
  }

  /** The rule-based result for given matched categories and signal hits. */
  function RuleResultOf(cs: seq<Category>, sensitive: bool, hits: RegexHits): (r: DetectionResult)
    ensures 0.0 <= r.confidence <= 1.0
    ensures r.isScam <==> r.confidence > 0.5
    ensures r.reasoning == "Rule-based detection"
  {
    var c := Confidence(Score(cs, sensitive, hits));
    DetectionResult(c > 0.5, ScamType(cs), c, Names(Patterns(cs, sensitive, hits)), "Rule-based detection")
  }

  /** `_rule_based_detection` as a function of the message and the regex hits. */
  function RuleResult(message: string, hits: RegexHits): (r: DetectionResult)
    ensures 0.0 <= r.confidence <= 1.0
    ensures r.isScam <==> r.confidence > 0.5
  {
    var lowered := Lower(message);
    RuleResultOf(Matched(CategoryHits(lowered)), AnyIn(lowered, SensitiveTerms), hits)
  }

  // ---------------------------------------------------------------------------
  // Properties of the rule-based result
  // ---------------------------------------------------------------------------

  function SumWeights(ps: seq<Pattern>): nat {
    if ps == [] then 0 else Weight(ps[0]) + SumWeights(ps[1..])
  }

  lemma {:induction false} SumWeightsConcat(a: seq<Pattern>, b: seq<Pattern>)
    ensures SumWeights(a + b) == SumWeights(a) + SumWeights(b)
    decreases |a|
  {
    if a == [] {
      assert a + b == b;
    } else {
      assert (a + b)[0] == a[0];
      assert (a + b)[1..] == a[1..] + b;
      SumWeightsConcat(a[1..], b);
    }
  }

  lemma {:induction false} SumWeightsKeywords(cs: seq<Category>)
    ensures SumWeights(KeywordPatterns(cs)) == 30 * |cs|
    decreases |cs|
  {
    if cs != [] {
      assert KeywordPatterns(cs)[1..] == KeywordPatterns(cs[1..]);
      SumWeightsKeywords(cs[1..]);
    }
  }

  /** The signal patterns weigh what the four signal checks add to the score. */
  lemma SignalPatternsWeight(sensitive: bool, hits: RegexHits)
    ensures SumWeights(SignalPatterns(sensitive, hits)) == Score([], sensitive, hits)
  {
    var u := Opt(hits.urgency, UrgencyTactics);
    var s := Opt(sensitive, SensitiveDataRequest);
    var l := Opt(hits.url, ContainsUrl);
    var p := Opt(hits.phone, ContainsPhone);
    SumWeightsConcat(u, s);
    SumWeightsConcat(u + s, l);
    SumWeightsConcat(u + s + l, p);
  }

  /** The score is the sum of the weights of the detected patterns. */
  lemma ScoreIsSumOfWeights(cs: seq<Category>, sensitive: bool, hits: RegexHits)
    ensures Score(cs, sensitive, hits) == SumWeights(Patterns(cs, sensitive, hits))
  {
    SumWeightsKeywords(cs);
    SignalPatternsWeight(sensitive, hits);
    SumWeightsConcat(KeywordPatterns(cs), SignalPatterns(sensitive, hits));
  }

  lemma {:induction false} SumWeightsPositive(ps: seq<Pattern>)
    ensures SumWeights(ps) > 0 <==> ps != []
  {
  }

  /** Signal patterns only, strictly increasing in rank, every rank in `5..r`. */
  predicate SignalsBelow(ps: seq<Pattern>, r: nat) {
    && (forall i :: 0 <= i < |ps| ==> !ps[i].Keywords? && |CategoryTable| <= PatternRank(ps[i]) < r)
    && (forall i, j :: 0 <= i < j < |ps| ==> PatternRank(ps[i]) < PatternRank(ps[j]))
  }

  lemma AppendSignal(ps: seq<Pattern>, b: bool, p: Pattern)
    requires !p.Keywords? && SignalsBelow(ps, PatternRank(p))
    ensures SignalsBelow(ps + Opt(b, p), PatternRank(p) + 1)
  {
  }

  /** The signal patterns come after every category, in their fixed order. */
  lemma SignalPatternsRanked(sensitive: bool, hits: RegexHits)
    ensures SignalsBelow(SignalPatterns(sensitive, hits), 9)
  {
    var a := Opt(hits.urgency, UrgencyTactics);
    var b := a + Opt(sensitive, SensitiveDataRequest);
    var c := b + Opt(hits.url, ContainsUrl);
    assert SignalsBelow(c, 8) by {
      assert SignalsBelow(b, 7) by {
        assert SignalsBelow(a, 6) by {
          AppendSignal([], hits.urgency, UrgencyTactics);
          assert [] + a == a;
        }
        AppendSignal(a, sensitive, SensitiveDataRequest);
      }
      AppendSignal(b, hits.url, ContainsUrl);
    }
    AppendSignal(c, hits.phone, ContainsPhone);
  }

  /** `keywords_<cat>` is detected exactly for the matched categories. */
  lemma PatternsKeywords(cs: seq<Category>, sensitive: bool, hits: RegexHits, c: Category)
    ensures Keywords(c) in Patterns(cs, sensitive, hits) <==> c in cs
  {
    var k := KeywordPatterns(cs);
    var g := SignalPatterns(sensitive, hits);
    var ps := k + g;
    SignalPatternsRanked(sensitive, hits);
    if c in cs {
      var i :| 0 <= i < |cs| && cs[i] == c;
      assert ps[i] == k[i];
    }
    if Keywords(c) in ps {
      var i :| 0 <= i < |ps| && ps[i] == Keywords(c);
      assert i < |k|;
      assert cs[i] == c;
    }
  }

  /** Each signal pattern is detected exactly when its family hit. */
  lemma PatternsSignals(cs: seq<Category>, sensitive: bool, hits: RegexHits)
    ensures var ps := Patterns(cs, sensitive, hits);
      && (UrgencyTactics in ps <==> hits.urgency)
      && (SensitiveDataRequest in ps <==> sensitive)
      && (ContainsUrl in ps <==> hits.url)
      && (ContainsPhone in ps <==> hits.phone)
  {
    var k := KeywordPatterns(cs);
    NoSignalInKeywords(cs, UrgencyTactics);
    NoSignalInKeywords(cs, SensitiveDataRequest);
    NoSignalInKeywords(cs, ContainsUrl);
    NoSignalInKeywords(cs, ContainsPhone);
  }

  lemma NoSignalInKeywords(cs: seq<Category>, p: Pattern)
    requires !p.Keywords?
    ensures p !in KeywordPatterns(cs)
  {
  }

  /** Categories in table order give patterns strictly ordered by `PatternRank`. */
  lemma PatternsOrdered(cs: seq<Category>, sensitive: bool, hits: RegexHits)
    requires forall i, j :: 0 <= i < j < |cs| ==> CategoryIndex(cs[i]) < CategoryIndex(cs[j])
    ensures var ps := Patterns(cs, sensitive, hits);
      forall i, j :: 0 <= i < j < |ps| ==> PatternRank(ps[i]) < PatternRank(ps[j])
  {
    var k := KeywordPatterns(cs);
    var g := SignalPatterns(sensitive, hits);
    var ps := k + g;
    SignalPatternsRanked(sensitive, hits);
    forall i, j | 0 <= i < j < |ps| ensures PatternRank(ps[i]) < PatternRank(ps[j]) {
      if j < |k| {
        assert ps[i] == Keywords(cs[i]) && ps[j] == Keywords(cs[j]);
      } else if i < |k| {
        assert ps[i] == Keywords(cs[i]) && ps[j] == g[j - |k|];
      } else {
        assert ps[i] == g[i - |k|] && ps[j] == g[j - |k|];
      }
    }
  }

  /** Patterns ordered strictly by rank hold no duplicates, nor do their names. */
  lemma RankedNamesNoDup(ps: seq<Pattern>)
    requires forall i, j :: 0 <= i < j < |ps| ==> PatternRank(ps[i]) < PatternRank(ps[j])
    ensures NoDup(Names(ps))
  {
    var ns := Names(ps);
    forall i, j | 0 <= i < j < |ns| ensures ns[i] != ns[j] {
      PatternNamesDistinct(ps[i], ps[j]);
    }
  }

  /**
   * The properties of the rule-based result for categories in table order:
   * confidence is the capped sum of the detected patterns' weights, the
   * pattern names are duplicate-free, there are patterns exactly when the
   * confidence is positive, and the type is the last category or "general".
   */
  lemma RuleResultOfSpec(cs: seq<Category>, sensitive: bool, hits: RegexHits)
    requires forall i, j :: 0 <= i < j < |cs| ==> CategoryIndex(cs[i]) < CategoryIndex(cs[j])
    ensures var r := RuleResultOf(cs, sensitive, hits); var ps := Patterns(cs, sensitive, hits);
      && r.detectedPatterns == Names(ps)
      && r.confidence == Confidence(SumWeights(ps))
      && NoDup(r.detectedPatterns)
      && (r.detectedPatterns != [] <==> r.confidence > 0.0)
      && (cs == [] ==> r.scamType == "general")
      && (cs != [] ==> r.scamType == CategoryName(cs[|cs| - 1])
                       && forall i :: 0 <= i < |cs| ==> CategoryIndex(cs[i]) <= CategoryIndex(cs[|cs| - 1]))
  {
    var ps := Patterns(cs, sensitive, hits);
    ScoreIsSumOfWeights(cs, sensitive, hits);
    SumWeightsPositive(ps);
    PatternsOrdered(cs, sensitive, hits);
    RankedNamesNoDup(ps);
    if cs != [] {
      forall i | 0 <= i < |cs| ensures CategoryIndex(cs[i]) <= CategoryIndex(cs[|cs| - 1]) {
        if i < |cs| - 1 {
          assert CategoryIndex(cs[i]) < CategoryIndex(cs[|cs| - 1]);
        }
      }
    }
  }

  /** The matched categories' patterns: duplicate-free names, and `keywords_<cat>` exactly for a hit. */
  lemma MatchedPatterns(hit: Category -> bool, sensitive: bool, hits: RegexHits, c: Category)
    ensures var ps := Patterns(Matched(hit), sensitive, hits);
      NoDup(Names(ps)) && (Keywords(c) in ps <==> hit(c))
  {
    var cs := Matched(hit);
    MatchedUpToSpec(hit, |CategoryTable|);
    PatternsOrdered(cs, sensitive, hits);
    RankedNamesNoDup(Patterns(cs, sensitive, hits));
    PatternsKeywords(cs, sensitive, hits, c);
  }

  /**
   * On a message: the detected patterns name the categories whose keywords
   * occur in the lowered message, and no name is listed twice.
   */
  lemma RuleResultPatterns(message: string, hits: RegexHits, c: Category)
    ensures var r := RuleResult(message, hits); var lowered := Lower(message);
      var ps := Patterns(Matched(CategoryHits(lowered)), AnyIn(lowered, SensitiveTerms), hits);
      && r.detectedPatterns == Names(ps)
      && NoDup(r.detectedPatterns)
      && (Keywords(c) in ps <==> CategoryMatches(c, lowered))
  {
    var lowered := Lower(message);
    var hit := CategoryHits(lowered);
    MatchedPatterns(hit, AnyIn(lowered, SensitiveTerms), hits, c);
    assert hit(c) == CategoryMatches(c, lowered);
  }

  /** The type is "general" exactly when nothing hits, else the hit category latest in the table. */
  lemma MatchedType(hit: Category -> bool)
    ensures var t := ScamType(Matched(hit));
      && (t == "general" <==> forall c :: !hit(c))
      && (t != "general" ==>
            exists c :: hit(c) && t == CategoryName(c) && forall d :: hit(d) ==> CategoryIndex(d) <= CategoryIndex(c))
  {
    var cs := Matched(hit);
    MatchedUpToSpec(hit, |CategoryTable|);
    if cs != [] {
      var c := cs[|cs| - 1];
      CategoryNamesDistinct(c, c);
      forall d | hit(d) ensures CategoryIndex(d) <= CategoryIndex(c) {
        var i :| 0 <= i < |cs| && cs[i] == d;
        if i < |cs| - 1 {
          assert CategoryIndex(cs[i]) < CategoryIndex(cs[|cs| - 1]);
        }
      }
    }
  }

  /**
   * On a message: the type is "general" exactly when no category matches, and
   * otherwise the name of the matching category latest in the table.
   */
  lemma RuleResultType(message: string, hits: RegexHits)
    ensures var r := RuleResult(message, hits); var lowered := Lower(message);
      && (r.scamType == "general" <==> forall c :: !CategoryMatches(c, lowered))
      && (r.scamType != "general" ==>
            exists c :: CategoryMatches(c, lowered) && r.scamType == CategoryName(c)
                        && forall d :: CategoryMatches(d, lowered) ==> CategoryIndex(d) <= CategoryIndex(c))
  {
    var lowered := Lower(message);
    var hit := CategoryHits(lowered);
    MatchedType(hit);
    assert forall c :: hit(c) == CategoryMatches(c, lowered);
  }

  // ---------------------------------------------------------------------------
  // The accumulator loop
  // ---------------------------------------------------------------------------

  lemma KeywordPatternsAppend(ms: seq<Category>, c: Category)
    ensures KeywordPatterns(ms + [c]) == KeywordPatterns(ms) + [Keywords(c)]
  {
  }

  /** The `scam_type` variable during the category pass: "unknown" until a category matches. */
  function TypeSoFar(ms: seq<Category>): string {
    if ms == [] then "unknown" else CategoryName(ms[|ms| - 1])
  }

  /** "unknown" is left exactly when nothing matched; otherwise it is the final type. */
  lemma TypeSoFarFinal(ms: seq<Category>)
    ensures TypeSoFar(ms) == "unknown" <==> ms == []
    ensures ms != [] ==> TypeSoFar(ms) == ScamType(ms)
  {
    if ms != [] {
      CategoryNamesDistinct(ms[|ms| - 1], ms[|ms| - 1]);
    }
  }

  /** What one iteration of the category pass adds when category `i` hits, and that nothing changes otherwise. */
  lemma CategoryStep(hit: Category -> bool, i: nat, ms: seq<Category>)
    requires i < |CategoryTable| && ms == MatchedUpTo(hit, i)
    ensures hit(CategoryTable[i]) ==> MatchedUpTo(hit, i + 1) == ms + [CategoryTable[i]]
    ensures !hit(CategoryTable[i]) ==> MatchedUpTo(hit, i + 1) == ms
    ensures KeywordPatterns(ms + [CategoryTable[i]]) == KeywordPatterns(ms) + [Keywords(CategoryTable[i])]
    ensures TypeSoFar(ms + [CategoryTable[i]]) == CategoryName(CategoryTable[i])
  {
    KeywordPatternsAppend(ms, CategoryTable[i]);
  }

  /**
   * The loop of `_rule_based_detection` over `SCAM_KEYWORDS`; `hit` is the
   * keyword test on the lowered message (`CategoryHits`).
   */
  method CategoryPass(hit: Category -> bool) returns (patterns: seq<Pattern>, scamType: string, score: nat)
    ensures patterns == KeywordPatterns(Matched(hit))
    ensures score == 30 * |Matched(hit)|
    ensures scamType == TypeSoFar(Matched(hit))
  {
    patterns := [];
    scamType := "unknown";
    score := 0;
    ghost var ms: seq<Category> := [];
    var i := 0;
    while i < |CategoryTable|
      invariant 0 <= i <= |CategoryTable|
      invariant ms == MatchedUpTo(hit, i)
      invariant patterns == KeywordPatterns(ms)
      invariant score == 30 * |ms|
      invariant scamType == TypeSoFar(ms)
    {
      var category := CategoryTable[i];
      CategoryStep(hit, i, ms);
      if hit(category) {
        patterns := patterns + [Keywords(category)];
        score := score + 30;
        scamType := CategoryName(category);
        ms := ms + [category];
      }
      i := i + 1;
    }
  }

  /** The four signal checks of `_rule_based_detection`, in their order, with the score they add. */
  method SignalPass(sensitive: bool, hits: RegexHits) returns (signals: seq<Pattern>, added: nat)
    ensures signals == SignalPatterns(sensitive, hits)
    ensures added == Score([], sensitive, hits)
  {
    signals := [];
    added := 0;
    if hits.urgency {
      signals := signals + [UrgencyTactics];
      added := added + 20;
    }
    if sensitive {
      signals := signals + [SensitiveDataRequest];
      added := added + 25;
    }
    if hits.url {
      signals := signals + [ContainsUrl];
      added := added + 15;
    }
    if hits.phone {
      signals := signals + [ContainsPhone];
      added := added + 10;
    }
  }

  /** `_rule_based_detection`: the pass over the categories, then the four signals. */
  method RuleBasedDetection(message: string, hits: RegexHits) returns (r: DetectionResult)
    ensures r == RuleResult(message, hits)
  {
    var lowered := Lower(message);
    var patterns, scamType, score := CategoryPass(CategoryHits(lowered));
    ghost var ms := Matched(CategoryHits(lowered));
    var sensitive := AnyIn(lowered, SensitiveTerms);
    var signals, added := SignalPass(sensitive, hits);
    score := score + added;
    assert patterns + signals == Patterns(ms, sensitive, hits);
    assert score == Score(ms, sensitive, hits);
    TypeSoFarFinal(ms);
    var confidence := Confidence(score);
    r := DetectionResult(confidence > 0.5, if scamType != "unknown" then scamType else "general",
                         confidence, Names(patterns + signals), "Rule-based detection");
  }

  // ---------------------------------------------------------------------------
  // Decision policy
  // ---------------------------------------------------------------------------

  /**
   * What the model call yields when it is made: its type, confidence and
   * reasoning (a failed call yields "unknown", 0.0 and an error text).
   */
  datatype LlmVerdict = LlmVerdict(scamType: string, confidence: real, reasoning: string)

  /**
   * The policy of `detect`, with `llm` None when there is no client: above 0.3
   * the rule result stands; above 0.1 with a client the confidences are
   * blended 0.4/0.6; otherwise any pattern makes it a scam with confidence at
   * least 0.6.
   */
  function Decide(rule: DetectionResult, llm: Option<LlmVerdict>): (r: DetectionResult)
    ensures r.detectedPatterns == rule.detectedPatterns
    ensures rule.confidence > 0.3 ==> r == rule
    ensures rule.confidence <= 0.3 && (llm.None? || rule.confidence <= 0.1) ==>
      r == if rule.detectedPatterns == [] then rule
           else rule.(isScam := true, confidence := MaxReal(rule.confidence, 0.6))
    ensures llm.Some? && 0.1 < rule.confidence <= 0.3 ==>
      && r.confidence == 0.4 * rule.confidence + 0.6 * llm.value.confidence
      && r.isScam == (r.confidence > 0.5)
      && r.scamType == llm.value.scamType && r.reasoning == llm.value.reasoning
    ensures 0.0 <= rule.confidence <= 1.0 && (llm.Some? ==> 0.0 <= llm.value.confidence <= 1.0)
      ==> 0.0 <= r.confidence <= 1.0
  {
    if rule.confidence > 0.3 then rule
    else if llm.Some? && rule.confidence > 0.1 then
      var blended := rule.confidence * 0.4 + llm.value.confidence * 0.6;
      DetectionResult(blended > 0.5, llm.value.scamType, blended, rule.detectedPatterns, llm.value.reasoning)
    else if rule.detectedPatterns != [] then
      rule.(isScam := true, confidence := MaxReal(rule.confidence, 0.6))
    else rule
  }

  /** `detect`. */
  method Detect(message: string, hits: RegexHits, llm: Option<LlmVerdict>) returns (r: DetectionResult)
    ensures r == Decide(RuleResult(message, hits), llm)
  {
    var rule := RuleBasedDetection(message, hits);
    r := Decide(rule, llm);
  }

  // ---------------------------------------------------------------------------
  // Consequences
  // ---------------------------------------------------------------------------

  /**
   * Without a client the verdict is a scam exactly when some pattern was
   * detected and the score is not in (30, 50] hundredths.
   */
  lemma VerdictWithoutClient(cs: seq<Category>, sensitive: bool, hits: RegexHits)
    ensures var score := Score(cs, sensitive, hits);
      Decide(RuleResultOf(cs, sensitive, hits), None).isScam <==> score > 0 && !(30 < score <= 50)
  {
    var r := RuleResultOf(cs, sensitive, hits);
    var ps := Patterns(cs, sensitive, hits);
    ScoreIsSumOfWeights(cs, sensitive, hits);
    SumWeightsPositive(ps);
    var score := Score(cs, sensitive, hits);
    if score <= 100 {
      assert r.confidence * 100.0 == score as real;
    }
  }

  /** One matched category and nothing else: a scam at confidence 0.6 without a client. */
  lemma KeywordAloneIsScam(c: Category)
    ensures var r := Decide(RuleResultOf([c], false, RegexHits(false, false, false)), None);
      r.isScam && r.confidence == 0.6 && r.scamType == CategoryName(c)
      && r.detectedPatterns == ["keywords_" + CategoryName(c)]
  {
    assert Patterns([c], false, RegexHits(false, false, false)) == [Keywords(c)];
  }

  /**
   * One matched category plus urgency scores 0.5, which is above 0.3, so the
   * rule result stands and is not a scam, whatever the model would say.
   */
  lemma KeywordWithUrgencyIsNotScam(c: Category, llm: Option<LlmVerdict>)
    ensures var r := Decide(RuleResultOf([c], false, RegexHits(true, false, false)), llm);
      !r.isScam && r.confidence == 0.5 && r.scamType == CategoryName(c)
      && r.detectedPatterns == ["keywords_" + CategoryName(c), "urgency_tactics"]
  {
    assert Patterns([c], false, RegexHits(true, false, false)) == [Keywords(c), UrgencyTactics];
  }

  /** Bank impersonation with urgency and a URL scores 65 hundredths. */
  lemma BankRuleResult()
    ensures RuleResultOf([BankImpersonation], false, RegexHits(true, true, false))
         == DetectionResult(true, "bank_impersonation", 0.65,
                            ["keywords_bank_impersonation", "urgency_tactics", "contains_url"],
                            "Rule-based detection")
  {
    var hits := RegexHits(true, true, false);
    var ps := Patterns([BankImpersonation], false, hits);
    assert ps == [Keywords(BankImpersonation), UrgencyTactics, ContainsUrl];
    assert PatternName(Keywords(BankImpersonation)) == "keywords_bank_impersonation";
    assert Names(ps) == ["keywords_bank_impersonation", "urgency_tactics", "contains_url"];
    assert Score([BankImpersonation], false, hits) == 65;
  }

  /**
   * A message whose only category is bank impersonation, with urgency and a
   * URL but no sensitive term or phone number, as in the first test message:
   * a scam at 0.65 whatever the model would say.
   */
  lemma BankMessageScenario(message: string, llm: Option<LlmVerdict>)
    requires Matched(CategoryHits(Lower(message))) == [BankImpersonation]
    requires !AnyIn(Lower(message), SensitiveTerms)
    ensures Decide(RuleResult(message, RegexHits(true, true, false)), llm)
         == DetectionResult(true, "bank_impersonation", 0.65,
                            ["keywords_bank_impersonation", "urgency_tactics", "contains_url"],
                            "Rule-based detection")
  {
    BankRuleResult();
  }

  /** A message matching nothing: no patterns, confidence 0, not a scam. */
  lemma GreetingScenario(message: string, llm: Option<LlmVerdict>)
    requires Matched(CategoryHits(Lower(message))) == [] && !AnyIn(Lower(message), SensitiveTerms)
    ensures Decide(RuleResult(message, RegexHits(false, false, false)), llm)
         == DetectionResult(false, "general", 0.0, [], "Rule-based detection")
  {
    assert Patterns([], false, RegexHits(false, false, false)) == [];
  }

  const BankTestMessage := "Your SBI account will be blocked within 24 hours. Update KYC immediately: http://fake-sbi.com"

  /** The first test message does contain a bank-impersonation keyword ("kyc", at position 57). */
  lemma BankTestMessageMentionsKyc()
    ensures CategoryMatches(BankImpersonation, Lower(BankTestMessage))
  {
    var lowered := Lower(BankTestMessage);
    assert BankTestMessage[57] == 'K' && BankTestMessage[58] == 'Y' && BankTestMessage[59] == 'C';
    assert lowered[57] == 'k' && lowered[58] == 'y' && lowered[59] == 'c';
    assert lowered[57..60] == "kyc";
    ContainsAt(lowered, "kyc", 57);
    assert CategoryKeywords(BankImpersonation)[0] == "kyc";
  }
}
