/**
 * The intelligence extractor: validators for UPI handles, phone numbers and
 * bank accounts, the bank-name lookup, the pairing of account numbers with an
 * IFSC code, and the merge and validate passes over extracted entities.
 *
 * The regular expressions of the extraction step are not evaluated here: their
 * `findall` results (and which bank-name patterns match the lowered message)
 * are the input `RegexFindings`.
 */
module Extractor {
  import opened Wrappers
  import opened Strings
  import opened Seqs
  import opened Models

  // ---------------------------------------------------------------------------
  // UPI handles
  // ---------------------------------------------------------------------------

  /** A character of the handle's local part, `[a-zA-Z0-9._-]`. */
  predicate UpiLocalChar(c: char) {
    IsAlnum(c) || c == '.' || c == '_' || c == '-'
  }

  predicate UpiLocal(s: string) {
    s != [] && forall i :: 0 <= i < |s| ==> UpiLocalChar(s[i])
  }

  /**
   * `_validate_upi` as written: the local part is checked with
   * `re.match('^[a-zA-Z0-9._-]+$')`, whose `$` also matches before one final
   * newline.
   */
  function ValidateUpiAsWritten(upi: string): (r: bool)
    ensures ValidateUpi(upi) ==> r
  {
    if '@' !in upi then false
    else
      var parts := SplitOn(upi, '@');
      if |parts| != 2 then false
      else
        var username, bank := parts[0], parts[1];
        (UpiLocal(username)
         || (|username| >= 2 && username[|username| - 1] == '\n' && UpiLocal(username[..|username| - 1])))
        && |bank| >= 3
  }

  /**
   * `_validate_upi` as intended: exactly one '@', a non-empty local part over
   * `[a-zA-Z0-9._-]` before it and at least three characters after it.
   */
  function ValidateUpi(upi: string): (r: bool)
    ensures r <==>
      '@' in upi &&
      var i := IndexOf(upi, '@');
      '@' !in upi[i + 1..] && UpiLocal(upi[..i]) && |upi| - i - 1 >= 3
  {
    if '@' !in upi then false
    else
      var parts := SplitOn(upi, '@');
      SplitOnTwoParts(upi, '@');
      if |parts| != 2 then false
      else UpiLocal(parts[0]) && |parts[1]| >= 3
  }

  /** Without a newline in the handle, the check as written is the intended one. */
  lemma UpiChecksAgree(s: string)
    requires '\n' !in s
    ensures ValidateUpi(s) == ValidateUpiAsWritten(s)
  {
    if '@' in s {
      var parts := SplitOn(s, '@');
      SplitOnTwoParts(s, '@');
      if |parts| == 2 && |parts[0]| >= 2 {
        assert parts[0] == s[..IndexOf(s, '@')];
        assert parts[0][|parts[0]| - 1] in s;
      }
    }
  }

  /** Every handle of the extraction pattern's shape (local part, '@', 3+ letters) is accepted. */
  lemma UpiPatternAccepted(local: string, domain: string)
    requires UpiLocal(local)
    requires |domain| >= 3 && forall i :: 0 <= i < |domain| ==> IsLetter(domain[i])
    ensures ValidateUpi(local + "@" + domain)
  {
    var s := local + "@" + domain;
    assert s[|local|] == '@';
    assert '@' !in local;
    assert s[..|local|] == local;
    var i := IndexOf(s, '@');
    assert i == |local|;
    assert s[i + 1..] == domain;
  }

  /** A handle whose domain has fewer than three characters is rejected. */
  lemma UpiShortDomainRejected(local: string, domain: string)
    requires '@' !in local && |domain| < 3
    ensures !ValidateUpi(local + "@" + domain)
  {
    var s := local + "@" + domain;
    assert s[|local|] == '@';
    assert s[..|local|] == local;
    assert IndexOf(s, '@') == |local|;
  }

  lemma UpiAcceptedExample()
    ensures ValidateUpi("scammer@paytm")
  {
    UpiPatternAccepted("scammer", "paytm");
    assert "scammer" + "@" + "paytm" == "scammer@paytm";
  }

  lemma UpiRejectedExample()
    ensures !ValidateUpi("scammer@pa")
  {
    UpiShortDomainRejected("scammer", "pa");
    assert "scammer" + "@" + "pa" == "scammer@pa";
  }

  /** A local part ending in a newline passes as written but not as intended. */
  lemma UpiTrailingNewline()
    ensures ValidateUpiAsWritten("abc\n@paytm")
    ensures !ValidateUpi("abc\n@paytm")
  {
    var s := "abc\n@paytm";
    assert s[4] == '@' && s[..4] == "abc\n" && s[5..] == "paytm";
    assert '@' !in s[..4] && '@' !in s[5..];
    assert IndexOf(s, '@') == 4;
    SplitOnTwoParts(s, '@');
    assert SplitOn(s, '@') == ["abc\n", "paytm"];
    assert "abc\n"[..3] == "abc";
    assert !UpiLocalChar("abc\n"[3]);
  }

  // ---------------------------------------------------------------------------
  // Phone numbers
  // ---------------------------------------------------------------------------

  predicate MobileLead(c: char) { '6' <= c <= '9' }

  /** `s.replace('+91', '')`: every non-overlapping occurrence, scanning left to right. */
  function RemoveCountryCode(s: string): (r: string)
    ensures |r| <= |s|
    ensures '+' !in s ==> r == s
    decreases |s|
  {
    if StartsWith(s, "+91") then RemoveCountryCode(s[3..])
    else if s == [] then []
    else
      assert s == [s[0]] + s[1..];
      [s[0]] + RemoveCountryCode(s[1..])
  }

  /** `s.replace(c, '', 1)`. */
  function RemoveFirst(s: string, c: char): string
    decreases |s|
  {
    if s == [] then []
    else if s[0] == c then s[1..]
    else [s[0]] + RemoveFirst(s[1..], c)
  }

  /** `RemoveFirst` removes the first occurrence of `c`, and changes nothing without one. */
  lemma {:induction false} RemoveFirstSpec(s: string, c: char)
    ensures c !in s ==> RemoveFirst(s, c) == s
    ensures c in s ==> RemoveFirst(s, c) == s[..IndexOf(s, c)] + s[IndexOf(s, c) + 1..]
    decreases |s|
  {
    if s != [] && s[0] != c {
      var t := s[1..];
      assert s == [s[0]] + t;
      RemoveFirstSpec(t, c);
      if c in s {
        assert c in t;
        var k := IndexOf(t, c);
        assert IndexOf(s, c) == k + 1;
        assert s[..k + 1] == [s[0]] + t[..k];
        assert s[k + 2..] == t[k + 1..];
      }
    }
  }

  /**
   * `_validate_phone` as written: every "+91" is removed and then the first
   * '0' anywhere in the string, and ten characters starting with 6-9 must
   * remain. Digits are not checked.
   */
  function ValidatePhoneAsWritten(phone: string): (r: bool)
    ensures r ==> |phone| >= 10
  {
    RemoveFirstSpec(RemoveCountryCode(phone), '0');
    var clean := RemoveFirst(RemoveCountryCode(phone), '0');
    |clean| == 10 && MobileLead(clean[0])
  }

  /** As written, a ten-character number without '+' that contains a '0' always loses it. */
  lemma PhoneAsWrittenRejectsZero(s: string)
    requires '+' !in s && '0' in s && |s| == 10
    ensures !ValidatePhoneAsWritten(s)
  {
    RemoveFirstSpec(s, '0');
  }

  /** As written, strings without '+' or '0' are exactly the ten-character ones starting with 6-9. */
  lemma PhoneAsWrittenWithoutZero(s: string)
    requires '+' !in s && '0' !in s
    ensures ValidatePhoneAsWritten(s) <==> |s| == 10 && MobileLead(s[0])
  {
    RemoveFirstSpec(s, '0');
  }

  /** The mobile number of the module's own test message is rejected as written. */
  lemma PhoneAsWrittenRejectsTestNumber()
    ensures !ValidatePhoneAsWritten("9876543210")
  {
    var s := "9876543210";
    assert s[9] == '0';
    assert forall i :: 0 <= i < |s| ==> s[i] != '+';
    PhoneAsWrittenRejectsZero(s);
  }

  /** The optional "+91" or "0" prefix, removed once from the front. */
  function StripPhonePrefix(s: string): (r: string)
    ensures |r| <= |s| && r == s[|s| - |r|..]
  {
    if StartsWith(s, "+91") then s[3..]
    else if StartsWith(s, "0") then s[1..]
    else s
  }

  /** The three shapes of an Indian mobile number: ten characters from 6-9, bare or after "+91" or "0". */
  ghost predicate PhoneShape(phone: string) {
    exists d :: |d| == 10 && MobileLead(d[0]) && (phone == d || phone == "+91" + d || phone == "0" + d)
  }

  /** A mobile number with any of its three prefixes strips back to itself. */
  lemma StripPhonePrefixOfShape(d: string)
    requires |d| == 10 && MobileLead(d[0])
    ensures StripPhonePrefix(d) == d && StripPhonePrefix("+91" + d) == d && StripPhonePrefix("0" + d) == d
  {
    assert ("+91" + d)[..3] == "+91" && ("+91" + d)[3..] == d;
    assert ("0" + d)[..1] == "0" && ("0" + d)[1..] == d;
    assert !StartsWith(d, "+91") && !StartsWith(d, "0");
    assert !StartsWith("0" + d, "+91");
  }

  /** What is left after stripping, when it is a mobile number, witnesses the shape. */
  lemma ShapeOfStripPhonePrefix(phone: string)
    requires var p := StripPhonePrefix(phone); |p| == 10 && MobileLead(p[0])
    ensures PhoneShape(phone)
  {
    var p := StripPhonePrefix(phone);
    if StartsWith(phone, "+91") {
      assert phone == "+91" + p;
    } else if StartsWith(phone, "0") {
      assert phone == "0" + p;
    } else {
      assert phone == p;
    }
  }

  /** Stripping one prefix leaves a mobile number exactly when the input has one of the three shapes. */
  lemma StripPhonePrefixShape(phone: string)
    ensures (var p := StripPhonePrefix(phone); |p| == 10 && MobileLead(p[0])) <==> PhoneShape(phone)
  {
    var p := StripPhonePrefix(phone);
    if |p| == 10 && MobileLead(p[0]) {
      ShapeOfStripPhonePrefix(phone);
    }
    if PhoneShape(phone) {
      var d :| |d| == 10 && MobileLead(d[0]) && (phone == d || phone == "+91" + d || phone == "0" + d);
      StripPhonePrefixOfShape(d);
    }
  }

  /**
   * `_validate_phone` as intended: after an optional leading "+91" or "0",
   * ten characters starting with 6-9.
   */
  function ValidatePhone(phone: string): (r: bool)
    ensures r ==> 10 <= |phone| <= 13
    ensures r <==> PhoneShape(phone)
  {
    StripPhonePrefixShape(phone);
    var p := StripPhonePrefix(phone);
    |p| == 10 && MobileLead(p[0])
  }

  /** Every match of the phone pattern's three shapes is accepted. */
  lemma PhonePatternAccepted(d: string)
    requires |d| == 10 && MobileLead(d[0])
    ensures ValidatePhone(d) && ValidatePhone("+91" + d) && ValidatePhone("0" + d)
  {
    assert ("+91" + d)[..3] == "+91" && ("+91" + d)[3..] == d;
    assert ("0" + d)[..1] == "0" && ("0" + d)[1..] == d;
    assert !StartsWith(d, "+91") && !StartsWith(d, "0");
    assert !StartsWith("0" + d, "+91");
  }

  /** Where neither form can strip anything, the two checks agree. */
  lemma PhoneChecksAgree(s: string)
    requires '+' !in s && '0' !in s
    ensures ValidatePhone(s) == ValidatePhoneAsWritten(s)
  {
    RemoveFirstSpec(s, '0');
    if |s| >= 1 {
      assert s[0] != '+' && s[0] != '0';
    }
  }

  lemma PhoneTestNumber()
    ensures ValidatePhone("9876543210") && !ValidatePhoneAsWritten("9876543210")
  {
    PhonePatternAccepted("9876543210");
    PhoneAsWrittenRejectsTestNumber();
  }

  // ---------------------------------------------------------------------------
  // Bank accounts
  // ---------------------------------------------------------------------------

  /** `^[A-Z]{4}0[A-Z0-9]{6}$` matched in full, without a trailing newline. */
  predicate IfscShape(x: string) {
    && |x| == 11
    && (forall i :: 0 <= i < 4 ==> IsUpper(x[i]))
    && x[4] == '0'
    && (forall i :: 5 <= i < 11 ==> IsUpper(x[i]) || IsDigit(x[i]))
  }

  /** The account number, with an absent one read as the empty string. */
  function Num(a: BankAccount): string {
    a.accountNumber.GetOr("")
  }

  /** The entry carries a non-empty account number. */
  predicate HasNumber(a: BankAccount) {
    Num(a) != ""
  }

  /**
   * `_validate_bank_account` as written: with `re.match` and `$`, an IFSC code
   * followed by one newline also passes.
   */
  function ValidateBankAccountAsWritten(a: BankAccount): (r: bool)
    ensures ValidateBankAccount(a) ==> r
    ensures r ==> 9 <= |Num(a)| <= 18 && AllDigits(Num(a))
  {
    var acc := Num(a);
    && 9 <= |acc| <= 18 && AllDigits(acc)
    && (a.ifsc.None? || a.ifsc.value == ""
        || IfscShape(a.ifsc.value)
        || (|a.ifsc.value| == 12 && a.ifsc.value[11] == '\n' && IfscShape(a.ifsc.value[..11])))
  }

  /**
   * `_validate_bank_account` as intended: an account number of 9 to 18 digits,
   * and an IFSC code, when one is given and non-empty, of the exact shape.
   */
  function ValidateBankAccount(a: BankAccount): (r: bool)
    ensures r <==> 9 <= |Num(a)| <= 18 && AllDigits(Num(a))
                   && (a.ifsc.None? || a.ifsc.value == [] || IfscShape(a.ifsc.value))
  {
    var acc := Num(a);
    && 9 <= |acc| <= 18 && AllDigits(acc)
    && (a.ifsc.None? || a.ifsc.value == "" || IfscShape(a.ifsc.value))
  }

  lemma BankAccountExamples()
    ensures ValidateBankAccount(BankAccount(Some("1234567890123"), Some("SBIN0001234"), Some("SBI")))
    ensures !ValidateBankAccount(BankAccount(Some("1234567890123"), Some("1234ABCDE1"), None))
    ensures !ValidateBankAccount(BankAccount(None, None, None))
    ensures ValidateBankAccount(BankAccount(Some("1234567890123"), Some(""), None))
  {
    var x := "SBIN0001234";
    assert IsUpper(x[0]) && IsUpper(x[1]) && IsUpper(x[2]) && IsUpper(x[3]) && x[4] == '0';
    assert IsDigit(x[5]) && IsDigit(x[6]) && IsDigit(x[7]) && IsDigit(x[8]) && IsDigit(x[9]) && IsDigit(x[10]);
    assert IfscShape(x);
    var n := "1234567890123";
    assert forall i :: 0 <= i < |n| ==> IsDigit(n[i]);
  }

  /** An IFSC code followed by a newline passes as written but not as intended. */
  /** Without a newline in the IFSC code, the check as written is the intended one. */
  lemma BankChecksAgree(a: BankAccount)
    requires a.ifsc.Some? ==> '\n' !in a.ifsc.value
    ensures ValidateBankAccount(a) == ValidateBankAccountAsWritten(a)
  {
    if a.ifsc.Some? && |a.ifsc.value| == 12 {
      assert a.ifsc.value[11] in a.ifsc.value;
    }
  }

  lemma IfscTrailingNewline()
    ensures var a := BankAccount(Some("1234567890123"), Some("SBIN0001234\n"), None);
      ValidateBankAccountAsWritten(a) && !ValidateBankAccount(a)
  {
    var x := "SBIN0001234\n";
    assert x[..11] == "SBIN0001234";
    BankAccountExamples();
    var n := "1234567890123";
    assert forall i :: 0 <= i < |n| ==> IsDigit(n[i]);
  }

  // ---------------------------------------------------------------------------
  // Bank-name lookup
  // ---------------------------------------------------------------------------

  /** The keys of `BANK_PATTERNS`. */
  datatype Bank = Sbi | Hdfc | Icici | Axis | Paytm | PhonePe | GPay | Kotak

  /** The table's iteration order. */
  const BankTable: seq<Bank> := [Sbi, Hdfc, Icici, Axis, Paytm, PhonePe, GPay, Kotak]

  function BankKey(b: Bank): string {
    match b
    case Sbi => "sbi"
    case Hdfc => "hdfc"
    case Icici => "icici"
    case Axis => "axis"
    case Paytm => "paytm"
    case PhonePe => "phonepe"
    case GPay => "gpay"
    case Kotak => "kotak"
  }

  /** Position of a bank in the table. */
  function BankRank(b: Bank): (i: nat)
    ensures i < |BankTable| && BankTable[i] == b
  {
    match b
    case Sbi => 0
    case Hdfc => 1
    case Icici => 2
    case Axis => 3
    case Paytm => 4
    case PhonePe => 5
    case GPay => 6
    case Kotak => 7
  }

  /** The first bank of the table, from position `from` on, that is in `matched`. */
  function FirstBankFrom(matched: set<Bank>, from: nat): (r: Option<Bank>)
    requires from <= |BankTable|
    ensures r.None? <==> forall b :: b in matched ==> BankRank(b) < from
    ensures r.Some? ==>
      (r.value in matched && BankRank(r.value) >= from
       && forall b :: b in matched && BankRank(b) >= from ==> BankRank(r.value) <= BankRank(b))
    decreases |BankTable| - from
  {
    if from == |BankTable| then None
    else if BankTable[from] in matched then
      assert BankRank(BankTable[from]) == from;
      Some(BankTable[from])
    else FirstBankFrom(matched, from + 1)
  }

  /**
   * `_detect_bank_name`, given the banks whose pattern matches the lowered
   * message: the upper-cased key of the first such bank in table order, or
   * "unknown" when none matches.
   */
  function DetectBankName(matched: set<Bank>): (r: string)
    ensures matched == {} ==> r == "unknown"
    ensures matched != {} ==>
      exists b :: (b in matched && r == Upper(BankKey(b))
                   && forall c :: c in matched ==> BankRank(b) <= BankRank(c))
  {
    match FirstBankFrom(matched, 0)
    case None => "unknown"
    case Some(b) => Upper(BankKey(b))
  }

  lemma BankNameExamples()
    ensures DetectBankName({}) == "unknown"
    ensures DetectBankName({Paytm, Sbi}) == "SBI"
    ensures DetectBankName({Kotak, GPay}) == "GPAY"
  {
    assert FirstBankFrom({Paytm, Sbi}, 0) == Some(Sbi);
    assert Upper("sbi") == "SBI";
    assert FirstBankFrom({Kotak, GPay}, 0) == Some(GPay);
    assert Upper("gpay") == "GPAY";
  }

  // ---------------------------------------------------------------------------
  // Regex extraction with the matches as input
  // ---------------------------------------------------------------------------

  /** The `findall` results of the extraction patterns on one message. */
  datatype RegexFindings = RegexFindings(
    upiMatches: seq<string>,
    phoneMatches: seq<string>,
    urlMatches: seq<string>,
    amountMatches: seq<string>,
    emailMatches: seq<string>,
    accountMatches: seq<string>,
    ifscMatches: seq<string>,
    banksMentioned: set<Bank>)

  predicate HasAt(s: string) { '@' in s }

  function FirstIfsc(f: RegexFindings): Option<string> {
    if f.ifscMatches == [] then None else Some(f.ifscMatches[0])
  }

  /** The entry built for one account-number match. */
  function AccountEntry(f: RegexFindings, acc: string): BankAccount {
    BankAccount(Some(acc), FirstIfsc(f), Some(DetectBankName(f.banksMentioned)))
  }

  /** What `_extract_with_regex` returns for the given matches. */
  function RegexEntities(f: RegexFindings): Entities {
    Entities(
      Filter(HasAt, f.upiMatches),
      seq(|f.accountMatches|, i requires 0 <= i < |f.accountMatches| => AccountEntry(f, f.accountMatches[i])),
      f.urlMatches, f.phoneMatches, f.amountMatches, f.emailMatches)
  }

  /**
   * Every account-number match yields one entry, in order, all sharing the
   * first IFSC match (or none) and the detected bank name.
   */
  lemma RegexEntitiesAccounts(f: RegexFindings)
    ensures var e := RegexEntities(f);
      && |e.bankAccounts| == |f.accountMatches|
      && forall i :: 0 <= i < |e.bankAccounts| ==>
        && e.bankAccounts[i].accountNumber == Some(f.accountMatches[i])
        && e.bankAccounts[i].ifsc == (if f.ifscMatches == [] then None else Some(f.ifscMatches[0]))
        && e.bankAccounts[i].bankName == Some(DetectBankName(f.banksMentioned))
  {
  }

  /**
   * `_extract_with_regex`: every account-number match yields one entry, in
   * order, all sharing the first IFSC match (or none) and the detected bank
   * name; the other kinds are the matches themselves, UPI matches filtered on '@'.
   */
  method ExtractWithRegex(f: RegexFindings) returns (e: Entities)
    ensures e == RegexEntities(f)
  {
    var accounts: seq<BankAccount> := [];
    var i := 0;
    while i < |f.accountMatches|
      invariant 0 <= i <= |f.accountMatches|
      invariant |accounts| == i
      invariant forall k :: 0 <= k < i ==> accounts[k] == AccountEntry(f, f.accountMatches[k])
    {
      var entry := AccountEntry(f, f.accountMatches[i]);
      accounts := accounts + [entry];
      i := i + 1;
    }
    e := Entities(Filter(HasAt, f.upiMatches), accounts, f.urlMatches, f.phoneMatches,
                  f.amountMatches, f.emailMatches);
  }

  // ---------------------------------------------------------------------------
  // First entry per account number
  // ---------------------------------------------------------------------------

  /** The account numbers of a list of entries. */
  function NumberSet(accs: seq<BankAccount>): set<string> {
    set a | a in accs :: Num(a)
  }

  /** No two entries share an account number. */
  predicate DistinctNumbers(accs: seq<BankAccount>) {
    forall i, j :: 0 <= i < j < |accs| ==> Num(accs[i]) != Num(accs[j])
  }

  /**
   * The entries that pass `keep`, each the first of its account number, and
   * none with a number in `seen`.
   */
  function KeepFirstBy(keep: BankAccount -> bool, accs: seq<BankAccount>, seen: set<string>)
    : seq<BankAccount>
    decreases |accs|
  {
    if accs == [] then []
    else
      var a := accs[0];
      if keep(a) && Num(a) !in seen then [a] + KeepFirstBy(keep, accs[1..], seen + {Num(a)})
      else KeepFirstBy(keep, accs[1..], seen)
  }

  /** Every kept entry passes `keep` and has a number outside `seen`. */
  lemma {:induction false} KeepFirstByKeeps(keep: BankAccount -> bool, accs: seq<BankAccount>, seen: set<string>)
    ensures forall i :: 0 <= i < |KeepFirstBy(keep, accs, seen)| ==>
      keep(KeepFirstBy(keep, accs, seen)[i]) && Num(KeepFirstBy(keep, accs, seen)[i]) !in seen
    decreases |accs|
  {
    if accs != [] {
      var a := accs[0];
      if keep(a) && Num(a) !in seen {
        KeepFirstByKeeps(keep, accs[1..], seen + {Num(a)});
      } else {
        KeepFirstByKeeps(keep, accs[1..], seen);
      }
    }
  }

  /** No account number is kept twice. */
  lemma {:induction false} KeepFirstByDistinct(keep: BankAccount -> bool, accs: seq<BankAccount>, seen: set<string>)
    ensures DistinctNumbers(KeepFirstBy(keep, accs, seen))
    decreases |accs|
  {
    if accs != [] {
      var a := accs[0];
      if keep(a) && Num(a) !in seen {
        var rest := KeepFirstBy(keep, accs[1..], seen + {Num(a)});
        KeepFirstByDistinct(keep, accs[1..], seen + {Num(a)});
        KeepFirstByKeeps(keep, accs[1..], seen + {Num(a)});
        assert forall j :: 0 <= j < |rest| ==> Num(rest[j]) != Num(a);
        assert forall j :: 0 < j < |[a] + rest| ==> ([a] + rest)[j] == rest[j - 1];
      } else {
        KeepFirstByDistinct(keep, accs[1..], seen);
      }
    }
  }

  /** The kept entries are drawn from `accs`. */
  lemma {:induction false} KeepFirstBySub(keep: BankAccount -> bool, accs: seq<BankAccount>, seen: set<string>)
    ensures multiset(KeepFirstBy(keep, accs, seen)) <= multiset(accs)
    decreases |accs|
  {
    if accs != [] {
      var a := accs[0];
      assert accs == [a] + accs[1..];
      if keep(a) && Num(a) !in seen {
        KeepFirstBySub(keep, accs[1..], seen + {Num(a)});
      } else {
        KeepFirstBySub(keep, accs[1..], seen);
      }
    }
  }

  /** The kept entries keep their order in `accs`. */
  lemma {:induction false} KeepFirstBySubseq(keep: BankAccount -> bool, accs: seq<BankAccount>, seen: set<string>)
    ensures Subseq(KeepFirstBy(keep, accs, seen), accs)
    decreases |accs|
  {
    if accs != [] {
      var a := accs[0];
      if keep(a) && Num(a) !in seen {
        KeepFirstBySubseq(keep, accs[1..], seen + {Num(a)});
        assert KeepFirstBy(keep, accs, seen)[1..] == KeepFirstBy(keep, accs[1..], seen + {Num(a)});
      } else {
        KeepFirstBySubseq(keep, accs[1..], seen);
      }
    }
  }

  /** Every passing number outside `seen` is kept. */
  lemma {:induction false} KeepFirstByNumbers(keep: BankAccount -> bool, accs: seq<BankAccount>, seen: set<string>)
    ensures NumberSet(KeepFirstBy(keep, accs, seen)) == (set a | a in accs && keep(a) :: Num(a)) - seen
    decreases |accs|
  {
    if accs != [] {
      var a := accs[0];
      var tail := accs[1..];
      assert accs == [a] + tail;
      assert (set b | b in accs && keep(b) :: Num(b))
          == (if keep(a) then {Num(a)} else {}) + (set b | b in tail && keep(b) :: Num(b));
      if keep(a) && Num(a) !in seen {
        var rest := KeepFirstBy(keep, tail, seen + {Num(a)});
        KeepFirstByNumbers(keep, tail, seen + {Num(a)});
        assert NumberSet([a] + rest) == {Num(a)} + NumberSet(rest);
      } else {
        KeepFirstByNumbers(keep, tail, seen);
      }
    }
  }

  /**
   * What `KeepFirstBy` keeps: entries that pass `keep`, no number twice and
   * none from `seen`, drawn from `accs`, covering every passing number.
   */
  lemma KeepFirstBySpec(keep: BankAccount -> bool, accs: seq<BankAccount>, seen: set<string>)
    ensures var r := KeepFirstBy(keep, accs, seen);
      && (forall i :: 0 <= i < |r| ==> keep(r[i]) && Num(r[i]) !in seen)
      && DistinctNumbers(r)
      && multiset(r) <= multiset(accs)
      && Subseq(r, accs)
      && NumberSet(r) == (set a | a in accs && keep(a) :: Num(a)) - seen
  {
    KeepFirstBySubseq(keep, accs, seen);
    KeepFirstByKeeps(keep, accs, seen);
    KeepFirstByDistinct(keep, accs, seen);
    KeepFirstBySub(keep, accs, seen);
    KeepFirstByNumbers(keep, accs, seen);
  }

  /**
   * An entry that passes `keep`, whose number is not in `seen` and is the
   * first passing entry with that number, is kept.
   */
  lemma {:induction false} KeepFirstByKeepsFirst(keep: BankAccount -> bool, accs: seq<BankAccount>,
                                                   seen: set<string>, i: nat)
    requires i < |accs| && keep(accs[i]) && Num(accs[i]) !in seen
    requires forall j :: 0 <= j < i ==> !(keep(accs[j]) && Num(accs[j]) == Num(accs[i]))
    ensures accs[i] in KeepFirstBy(keep, accs, seen)
    decreases |accs|
  {
    var a := accs[0];
    if i > 0 {
      var seen' := if keep(a) && Num(a) !in seen then seen + {Num(a)} else seen;
      assert accs[1..][i - 1] == accs[i];
      KeepFirstByKeepsFirst(keep, accs[1..], seen', i - 1);
    }
  }

  /** A list that already passes `keep` with distinct numbers comes back unchanged. */
  lemma {:induction false} KeepFirstByOfDistinct(keep: BankAccount -> bool, accs: seq<BankAccount>,
                                                   seen: set<string>)
    requires forall i :: 0 <= i < |accs| ==> keep(accs[i]) && Num(accs[i]) !in seen
    requires DistinctNumbers(accs)
    ensures KeepFirstBy(keep, accs, seen) == accs
    decreases |accs|
  {
    if accs != [] {
      var a := accs[0];
      forall i | 0 <= i < |accs[1..]|
        ensures keep(accs[1..][i]) && Num(accs[1..][i]) !in seen + {Num(a)}
      {
        assert accs[1..][i] == accs[i + 1];
      }
      KeepFirstByOfDistinct(keep, accs[1..], seen + {Num(a)});
    }
  }

  // ---------------------------------------------------------------------------
  // Merge
  // ---------------------------------------------------------------------------

  /** `_merge_intelligence`: union of each scalar kind, first bank entry per number. */
  function Merged(regex: Entities, llm: Entities): (m: Entities)
    ensures NoDup(m.upiIds) && Elems(m.upiIds) == Elems(regex.upiIds) + Elems(llm.upiIds)
    ensures NoDup(m.phoneNumbers) && Elems(m.phoneNumbers) == Elems(regex.phoneNumbers) + Elems(llm.phoneNumbers)
    ensures NoDup(m.urls) && Elems(m.urls) == Elems(regex.urls) + Elems(llm.urls)
    ensures NoDup(m.amounts) && Elems(m.amounts) == Elems(regex.amounts) + Elems(llm.amounts)
    ensures NoDup(m.emails) && Elems(m.emails) == Elems(regex.emails) + Elems(llm.emails)
    ensures DistinctNumbers(m.bankAccounts)
    ensures forall i :: 0 <= i < |m.bankAccounts| ==> HasNumber(m.bankAccounts[i])
    ensures multiset(m.bankAccounts) <= multiset(regex.bankAccounts + llm.bankAccounts)
    ensures Subseq(m.bankAccounts, regex.bankAccounts + llm.bankAccounts)
    ensures NumberSet(m.bankAccounts)
         == set a | a in regex.bankAccounts + llm.bankAccounts && HasNumber(a) :: Num(a)
  {
    ElemsConcat(regex.upiIds, llm.upiIds);
    ElemsConcat(regex.phoneNumbers, llm.phoneNumbers);
    ElemsConcat(regex.urls, llm.urls);
    ElemsConcat(regex.amounts, llm.amounts);
    ElemsConcat(regex.emails, llm.emails);
    KeepFirstBySpec(HasNumber, regex.bankAccounts + llm.bankAccounts, {});
    Entities(
      Dedup(regex.upiIds + llm.upiIds),
      KeepFirstBy(HasNumber, regex.bankAccounts + llm.bankAccounts, {}),
      Dedup(regex.urls + llm.urls),
      Dedup(regex.phoneNumbers + llm.phoneNumbers),
      Dedup(regex.amounts + llm.amounts),
      Dedup(regex.emails + llm.emails))
  }

  lemma ElemsConcat<T>(a: seq<T>, b: seq<T>)
    ensures Elems(a + b) == Elems(a) + Elems(b)
  {
  }

  /**
   * In the merged bank list, an entry with a non-empty number survives when
   * no earlier entry (regex entries first, then the model's) has its number.
   */
  lemma MergedKeepsFirst(regex: Entities, llm: Entities, i: nat)
    requires var all := regex.bankAccounts + llm.bankAccounts;
      i < |all| && HasNumber(all[i])
      && forall j :: 0 <= j < i ==> Num(all[j]) != Num(all[i])
    ensures (regex.bankAccounts + llm.bankAccounts)[i] in Merged(regex, llm).bankAccounts
  {
    KeepFirstByKeepsFirst(HasNumber, regex.bankAccounts + llm.bankAccounts, {}, i);
  }

  /** One step of `KeepFirstBy`. */
  lemma KeepFirstByStep(keep: BankAccount -> bool, accs: seq<BankAccount>, i: nat, seen: set<string>)
    requires i < |accs|
    ensures KeepFirstBy(keep, accs[i..], seen)
         == if keep(accs[i]) && Num(accs[i]) !in seen
            then [accs[i]] + KeepFirstBy(keep, accs[i + 1..], seen + {Num(accs[i])})
            else KeepFirstBy(keep, accs[i + 1..], seen)
  {
    assert accs[i..][0] == accs[i] && accs[i..][1..] == accs[i + 1..];
  }

  /** One iteration of the loop below keeps its invariant. */
  lemma MergeStep(all: seq<BankAccount>, i: nat, seen: set<string>, accounts: seq<BankAccount>)
    requires i < |all|
    requires accounts + KeepFirstBy(HasNumber, all[i..], seen) == KeepFirstBy(HasNumber, all, {})
    ensures Num(all[i]) != "" && Num(all[i]) !in seen ==>
      (accounts + [all[i]]) + KeepFirstBy(HasNumber, all[i + 1..], seen + {Num(all[i])})
        == KeepFirstBy(HasNumber, all, {})
    ensures !(Num(all[i]) != "" && Num(all[i]) !in seen) ==>
      accounts + KeepFirstBy(HasNumber, all[i + 1..], seen) == KeepFirstBy(HasNumber, all, {})
  {
    KeepFirstByStep(HasNumber, all, i, seen);
    if Num(all[i]) != "" && Num(all[i]) !in seen {
      var rest := KeepFirstBy(HasNumber, all[i + 1..], seen + {Num(all[i])});
      assert KeepFirstBy(HasNumber, all[i..], seen) == [all[i]] + rest;
      assert accounts + ([all[i]] + rest) == (accounts + [all[i]]) + rest;
    } else {
      assert KeepFirstBy(HasNumber, all[i..], seen) == KeepFirstBy(HasNumber, all[i + 1..], seen);
    }
  }

  /** The loop of `_merge_intelligence` over bank accounts, with its set of seen numbers. */
  method MergeBankAccounts(all: seq<BankAccount>) returns (accounts: seq<BankAccount>)
    ensures accounts == KeepFirstBy(HasNumber, all, {})
  {
    accounts := [];
    var seen: set<string> := {};
    var i := 0;
    while i < |all|
      invariant 0 <= i <= |all|
      invariant accounts + KeepFirstBy(HasNumber, all[i..], seen) == KeepFirstBy(HasNumber, all, {})
    {
      var acc := all[i];
      MergeStep(all, i, seen, accounts);
      var accNum := Num(acc);
      if accNum != "" && accNum !in seen {
        accounts := accounts + [acc];
        seen := seen + {accNum};
      }
      i := i + 1;
    }
    assert all[i..] == [];
  }

  /** `_merge_intelligence`. */
  method MergeIntelligence(regex: Entities, llm: Entities) returns (m: Entities)
    ensures m == Merged(regex, llm)
  {
    var accounts := MergeBankAccounts(regex.bankAccounts + llm.bankAccounts);
    m := Entities(
      Dedup(regex.upiIds + llm.upiIds), accounts, Dedup(regex.urls + llm.urls),
      Dedup(regex.phoneNumbers + llm.phoneNumbers), Dedup(regex.amounts + llm.amounts),
      Dedup(regex.emails + llm.emails));
  }

  // ---------------------------------------------------------------------------
  // Validate
  // ---------------------------------------------------------------------------

  /** The three checks `_validate_intelligence` applies. */
  datatype Validators = Validators(upi: string -> bool, phone: string -> bool, bank: BankAccount -> bool)

  /** `_validate_upi`, `_validate_phone` and `_validate_bank_account` as the program runs them. */
  const AsWrittenChecks := Validators(ValidateUpiAsWritten, ValidatePhoneAsWritten, ValidateBankAccountAsWritten)

  /** The same three checks with the intended patterns. */
  const IntendedChecks := Validators(ValidateUpi, ValidatePhone, ValidateBankAccount)

  /**
   * `_validate_intelligence` over the checks `vs`: UPI handles and phones
   * filtered in order, the first valid entry per account number, urls and
   * emails deduplicated, amounts untouched. `AsWrittenChecks` gives the
   * program's behaviour.
   */
  function Validated(vs: Validators, d: Entities): (v: Entities)
    ensures multiset(v.upiIds) <= multiset(d.upiIds)
    ensures forall i :: 0 <= i < |v.upiIds| ==> vs.upi(v.upiIds[i])
    ensures forall x :: x in d.upiIds && vs.upi(x) ==> x in v.upiIds
    ensures Subseq(v.upiIds, d.upiIds)
    ensures forall x :: multiset(v.upiIds)[x] == if vs.upi(x) then multiset(d.upiIds)[x] else 0
    ensures multiset(v.phoneNumbers) <= multiset(d.phoneNumbers)
    ensures forall i :: 0 <= i < |v.phoneNumbers| ==> vs.phone(v.phoneNumbers[i])
    ensures forall x :: x in d.phoneNumbers && vs.phone(x) ==> x in v.phoneNumbers
    ensures Subseq(v.phoneNumbers, d.phoneNumbers)
    ensures forall x :: multiset(v.phoneNumbers)[x] == if vs.phone(x) then multiset(d.phoneNumbers)[x] else 0
    ensures multiset(v.bankAccounts) <= multiset(d.bankAccounts)
    ensures Subseq(v.bankAccounts, d.bankAccounts)
    ensures forall i :: 0 <= i < |v.bankAccounts| ==> vs.bank(v.bankAccounts[i])
    ensures DistinctNumbers(v.bankAccounts)
    ensures NumberSet(v.bankAccounts) == set a | a in d.bankAccounts && vs.bank(a) :: Num(a)
    ensures v.amounts == d.amounts
    ensures NoDup(v.urls) && Elems(v.urls) == Elems(d.urls) && multiset(v.urls) <= multiset(d.urls)
    ensures NoDup(v.emails) && Elems(v.emails) == Elems(d.emails) && multiset(v.emails) <= multiset(d.emails)
  {
    KeepFirstBySpec(vs.bank, d.bankAccounts, {});
    FilterSubseq(vs.upi, d.upiIds);
    FilterCount(vs.upi, d.upiIds);
    FilterSubseq(vs.phone, d.phoneNumbers);
    FilterCount(vs.phone, d.phoneNumbers);
    Entities(
      Filter(vs.upi, d.upiIds),
      KeepFirstBy(vs.bank, d.bankAccounts, {}),
      Dedup(d.urls),
      Filter(vs.phone, d.phoneNumbers),
      d.amounts,
      Dedup(d.emails))
  }

  /**
   * Validating a validated result changes nothing: the same lists of UPI
   * handles, phones, bank accounts and amounts, and the same url and email sets.
   */
  lemma ValidatedIdempotent(vs: Validators, d: Entities)
    ensures var v := Validated(vs, d); var w := Validated(vs, v);
      && w.upiIds == v.upiIds && w.phoneNumbers == v.phoneNumbers
      && w.bankAccounts == v.bankAccounts && w.amounts == v.amounts
      && Elems(w.urls) == Elems(v.urls) && Elems(w.emails) == Elems(v.emails)
  {
    var v := Validated(vs, d);
    FilterIdempotent(vs.upi, d.upiIds);
    FilterIdempotent(vs.phone, d.phoneNumbers);
    KeepFirstByOfDistinct(vs.bank, v.bankAccounts, {});
  }

  /** The first valid entry per account number is the one kept. */
  lemma ValidatedKeepsFirst(vs: Validators, d: Entities, i: nat)
    requires i < |d.bankAccounts| && vs.bank(d.bankAccounts[i])
    requires forall j :: 0 <= j < i ==>
      !(vs.bank(d.bankAccounts[j]) && Num(d.bankAccounts[j]) == Num(d.bankAccounts[i]))
    ensures d.bankAccounts[i] in Validated(vs, d).bankAccounts
  {
    KeepFirstByKeepsFirst(vs.bank, d.bankAccounts, {}, i);
  }

  /**
   * The program drops the phone number of its own test message, which the
   * intended check keeps.
   */
  lemma ValidatedTestPhone(d: Entities)
    requires "9876543210" in d.phoneNumbers
    ensures "9876543210" !in Validated(AsWrittenChecks, d).phoneNumbers
    ensures "9876543210" in Validated(IntendedChecks, d).phoneNumbers
  {
    PhoneTestNumber();
  }

  /** `[x for x in s if keep(x)]` written as the loop that appends. */
  method FilterLoop(keep: string -> bool, s: seq<string>) returns (r: seq<string>)
    ensures r == Filter(keep, s)
  {
    r := [];
    var i := 0;
    while i < |s|
      invariant 0 <= i <= |s|
      invariant r + Filter(keep, s[i..]) == Filter(keep, s)
    {
      assert s[i..] == [s[i]] + s[i + 1..];
      if keep(s[i]) {
        r := r + [s[i]];
      }
      i := i + 1;
    }
    assert s[i..] == [];
  }

  lemma NumberSetSnoc(accounts: seq<BankAccount>, a: BankAccount)
    ensures NumberSet(accounts + [a]) == NumberSet(accounts) + {Num(a)}
  {
    assert forall b :: b in accounts + [a] <==> b in accounts || b == a;
  }

  /** A step of the bank-account loop of `_validate_intelligence` that keeps the entry. */
  lemma ValidateStepKept(valid: BankAccount -> bool, accs: seq<BankAccount>, i: nat, accounts: seq<BankAccount>)
    requires i < |accs| && valid(accs[i]) && Num(accs[i]) !in NumberSet(accounts)
    requires accounts + KeepFirstBy(valid, accs[i..], NumberSet(accounts)) == KeepFirstBy(valid, accs, {})
    ensures (accounts + [accs[i]]) + KeepFirstBy(valid, accs[i + 1..], NumberSet(accounts + [accs[i]]))
         == KeepFirstBy(valid, accs, {})
  {
    var acc := accs[i];
    var seen := NumberSet(accounts);
    KeepFirstByStep(valid, accs, i, seen);
    var rest := KeepFirstBy(valid, accs[i + 1..], seen + {Num(acc)});
    assert KeepFirstBy(valid, accs[i..], seen) == [acc] + rest;
    assert accounts + ([acc] + rest) == (accounts + [acc]) + rest;
    NumberSetSnoc(accounts, acc);
  }

  /** A step of the bank-account loop of `_validate_intelligence` that skips the entry. */
  lemma ValidateStepSkipped(valid: BankAccount -> bool, accs: seq<BankAccount>, i: nat, accounts: seq<BankAccount>)
    requires i < |accs| && !(valid(accs[i]) && Num(accs[i]) !in NumberSet(accounts))
    requires accounts + KeepFirstBy(valid, accs[i..], NumberSet(accounts)) == KeepFirstBy(valid, accs, {})
    ensures accounts + KeepFirstBy(valid, accs[i + 1..], NumberSet(accounts)) == KeepFirstBy(valid, accs, {})
  {
    KeepFirstByStep(valid, accs, i, NumberSet(accounts));
  }

  /**
   * The bank-account loop of `_validate_intelligence`: a valid entry is kept
   * when its number is not among the numbers of the entries kept so far.
   */
  method ValidateBankAccounts(valid: BankAccount -> bool, accs: seq<BankAccount>) returns (accounts: seq<BankAccount>)
    ensures accounts == KeepFirstBy(valid, accs, {})
  {
    accounts := [];
    var i := 0;
    assert NumberSet(accounts) == {} && accs[i..] == accs;
    while i < |accs|
      invariant 0 <= i <= |accs|
      invariant accounts + KeepFirstBy(valid, accs[i..], NumberSet(accounts))
             == KeepFirstBy(valid, accs, {})
    {
      var acc := accs[i];
      var seenNumbers := seq(|accounts|, k requires 0 <= k < |accounts| => Num(accounts[k]));
      SeenNumbers(accounts, seenNumbers, Num(acc));
      if valid(acc) && Num(acc) !in seenNumbers {
        ValidateStepKept(valid, accs, i, accounts);
        accounts := accounts + [acc];
      } else {
        ValidateStepSkipped(valid, accs, i, accounts);
      }
      i := i + 1;
    }
    assert accs[i..] == [];
  }

  lemma SeenNumbers(accounts: seq<BankAccount>, numbers: seq<string>, n: string)
    requires |numbers| == |accounts| && forall k :: 0 <= k < |accounts| ==> numbers[k] == Num(accounts[k])
    ensures n in numbers <==> n in NumberSet(accounts)
  {
    if n in NumberSet(accounts) {
      var b :| b in accounts && Num(b) == n;
      var k :| 0 <= k < |accounts| && accounts[k] == b;
      assert numbers[k] == n;
    }
  }

  /** `_validate_intelligence`. */
  method ValidateIntelligence(vs: Validators, d: Entities) returns (v: Entities)
    ensures v == Validated(vs, d)
  {
    var upis := FilterLoop(vs.upi, d.upiIds);
    var phones := FilterLoop(vs.phone, d.phoneNumbers);
    var accounts := ValidateBankAccounts(vs.bank, d.bankAccounts);
    v := Entities(upis, accounts, Dedup(d.urls), phones, d.amounts, Dedup(d.emails));
  }

  // ---------------------------------------------------------------------------
  // The whole extraction step
  // ---------------------------------------------------------------------------

  /**
   * `extract_intelligence`: regex entities merged with the model's entities
   * (`None` when there is no client or the call failed, read as `{}`), then
   * validated with the checks `vs`.
   */
  method ExtractIntelligence(vs: Validators, f: RegexFindings, llm: Option<Entities>) returns (v: Entities)
    ensures v == Validated(vs, Merged(RegexEntities(f), llm.GetOr(EmptyEntities)))
    ensures llm.None? ==> v == Validated(vs, Merged(RegexEntities(f), EmptyEntities))
  {
    var regex := ExtractWithRegex(f);
    var combined := MergeIntelligence(regex, llm.GetOr(EmptyEntities));
    v := ValidateIntelligence(vs, combined);
  }
}
