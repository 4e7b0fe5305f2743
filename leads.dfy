/**
 * The lead-field rules shared by the three lead forms and the two handlers:
 * the name, phone and email checks, the order in which they are applied, and
 * the WhatsApp contact link built from the phone number.
 */
module Leads {
  import opened Text

  datatype FieldError = NameRequired | PhoneInvalid | EmailInvalid

  /** The outcome of a validation chain: every rule passed, or the first one that failed. */
  datatype Check = Pass | Fail(error: FieldError)

  /** One link of a validation chain: whether the field is accepted, and what to report if not. */
  datatype Rule = Rule(accepted: bool, error: FieldError)

  /** The rules are tried in order and the first one that rejects is the only one reported. */
  function FirstFailure(rules: seq<Rule>): (r: Check)
    ensures r == Pass <==> forall i :: 0 <= i < |rules| ==> rules[i].accepted
  {
    if rules == [] then Pass
    else if !rules[0].accepted then Fail(rules[0].error)
    else
      assert forall i :: 1 <= i < |rules| ==> rules[1..][i - 1] == rules[i];
      FirstFailure(rules[1..])
  }

  /** A reported failure is the error of a rule that rejects, with every earlier rule accepting. */
  lemma {:induction false} FirstFailureIsFirst(rules: seq<Rule>)
    ensures FirstFailure(rules).Fail? ==>
              exists i :: 0 <= i < |rules| && FailsFirstAt(rules, i) && rules[i].error == FirstFailure(rules).error
  {
    if rules != [] {
      if !rules[0].accepted {
        assert FailsFirstAt(rules, 0);
      } else if FirstFailure(rules[1..]).Fail? {
        FirstFailureIsFirst(rules[1..]);
        var i :| 0 <= i < |rules[1..]| && FailsFirstAt(rules[1..], i) && rules[1..][i].error == FirstFailure(rules[1..]).error;
        assert FailsFirstAt(rules, i + 1);
      }
    }
  }

  /** Rule `i` rejects and every rule before it accepts. */
  predicate FailsFirstAt(rules: seq<Rule>, i: nat) {
    i < |rules| && !rules[i].accepted && forall j :: 0 <= j < i ==> rules[j].accepted
  }

  // --- the individual field rules -------------------------------------------

  /** A name is accepted when it is not all whitespace: `name.trim()` is non-empty. */
  predicate NameAccepted(name: string) {
    Trim(name) != ""
  }

  /** The handler's spelling of the name rule: `!name || name.trim().length === 0` rejects. */
  predicate ServerNameAccepted(name: string) {
    name != "" && |Trim(name)| != 0
  }

  /**
   * The forms' phone rule: `!phone.trim() || phone.length < 10` rejects, so the
   * length is that of the UNTRIMMED string, separators and padding included.
   */
  predicate ClientPhoneAccepted(phone: string) {
    Trim(phone) != "" && !(|phone| < 10)
  }

  /** The handler's phone rule: `!phone || phone.trim().length < 10` rejects. */
  predicate ServerPhoneAccepted(phone: string) {
    phone != "" && !(|Trim(phone)| < 10)
  }

  /** `[^\s@]`: neither whitespace nor `@`. */
  predicate Plain(c: char) {
    !IsSpace(c) && c != '@'
  }

  predicate AllPlain(t: string) {
    forall k :: 0 <= k < |t| ==> Plain(t[k])
  }

  /**
   * What `/^[^\s@]+@[^\s@]+\.[^\s@]+$/` matches, segment by segment: `s` splits
   * at an `@` (position i) and a later `.` (position j) into three non-empty runs
   * of characters that are neither whitespace nor `@`.
   */
  ghost predicate MatchesEmailRegex(s: string) {
    exists i, j :: SplitsAsEmail(s, i, j)
  }

  ghost predicate SplitsAsEmail(s: string, i: nat, j: nat) {
    0 < i && i + 1 < j && j + 1 < |s| && s[i] == '@' && s[j] == '.'
    && AllPlain(s[..i]) && AllPlain(s[i + 1..j]) && AllPlain(s[j + 1..])
  }

  /**
   * The email shape stated directly: no whitespace anywhere, exactly one `@`,
   * with something before it, and after it a `.` with something on both sides.
   */
  predicate IsEmailShaped(s: string) {
    (forall k :: 0 <= k < |s| ==> !IsSpace(s[k]))
    && exists a :: 0 < a < |s| && OnlyAtSignAt(s, a) && HasInnerDot(s[a + 1..])
  }

  predicate OnlyAtSignAt(s: string, a: nat) {
    a < |s| && s[a] == '@' && forall k :: 0 <= k < |s| && k != a ==> s[k] != '@'
  }

  /** Some `.` that is neither the first nor the last character. */
  predicate HasInnerDot(d: string) {
    exists k :: 0 < k < |d| - 1 && d[k] == '.'
  }

  /** The direct statement of the shape and the regular expression accept the same strings. */
  lemma EmailShapeIsRegex(s: string)
    ensures IsEmailShaped(s) <==> MatchesEmailRegex(s)
  {
    if IsEmailShaped(s) {
      var a: nat :| 0 < a < |s| && OnlyAtSignAt(s, a) && HasInnerDot(s[a + 1..]);
      var d := s[a + 1..];
      var k :| 0 < k < |d| - 1 && d[k] == '.';
      var j := a + 1 + k;
      assert s[j] == '.';
      forall t | 0 <= t < |s| && t != a ensures Plain(s[t]) { }
      assert AllPlain(s[..a]);
      assert AllPlain(s[a + 1..j]);
      assert AllPlain(s[j + 1..]);
      assert SplitsAsEmail(s, a, j);
    }
    if MatchesEmailRegex(s) {
      var i: nat, j: nat :| SplitsAsEmail(s, i, j);
      forall t | 0 <= t < |s| ensures !IsSpace(s[t]) && (t != i ==> s[t] != '@') {
        if t < i {
          assert s[..i][t] == s[t];
        } else if i < t < j {
          assert s[i + 1..j][t - (i + 1)] == s[t];
        } else if j < t {
          assert s[j + 1..][t - (j + 1)] == s[t];
        }
      }
      assert OnlyAtSignAt(s, i);
      assert s[i + 1..][j - (i + 1)] == '.';
      assert HasInnerDot(s[i + 1..]);
    }
  }

  /** `!email || !regex.test(email)` rejects; the empty string never matches anyway. */
  predicate EmailAccepted(email: string) {
    email != "" && IsEmailShaped(email)
  }

  // --- the validation chains ------------------------------------------------

  /** FirstFailure unrolled on a chain of three rules. */
  lemma FirstFailureOfThree(a: Rule, b: Rule, c: Rule)
    ensures FirstFailure([a, b, c]) ==
      if !a.accepted then Fail(a.error) else if !b.accepted then Fail(b.error)
      else if !c.accepted then Fail(c.error) else Pass
  {
    assert [a, b, c][1..] == [b, c];
    assert [b, c][1..] == [c];
    assert [c][1..] == [];
    assert FirstFailure([c]) == if !c.accepted then Fail(c.error) else FirstFailure([]);
  }

  /**
   * The forms' chain, identical in the three client copies: name, then phone
   * (untrimmed length), then email; only the first failure is reported.
   */
  function ClientValidate(name: string, phone: string, email: string): (r: Check)
    ensures r == Fail(NameRequired) <==> !NameAccepted(name)
    ensures r == Fail(PhoneInvalid) <==> NameAccepted(name) && !ClientPhoneAccepted(phone)
    ensures r == Fail(EmailInvalid) <==> NameAccepted(name) && ClientPhoneAccepted(phone) && !EmailAccepted(email)
    ensures r == Pass <==> NameAccepted(name) && ClientPhoneAccepted(phone) && EmailAccepted(email)
  {
    var name', phone', email' := Rule(NameAccepted(name), NameRequired), Rule(ClientPhoneAccepted(phone), PhoneInvalid),
                                 Rule(EmailAccepted(email), EmailInvalid);
    FirstFailureOfThree(name', phone', email');
    FirstFailure([name', phone', email'])
  }

  /** The lead handler's chain: same order, but the phone length is measured after trimming. */
  function ServerValidate(name: string, phone: string, email: string): (r: Check)
    ensures r == Fail(NameRequired) <==> !ServerNameAccepted(name)
    ensures r == Fail(PhoneInvalid) <==> ServerNameAccepted(name) && !ServerPhoneAccepted(phone)
    ensures r == Fail(EmailInvalid) <==> ServerNameAccepted(name) && ServerPhoneAccepted(phone) && !EmailAccepted(email)
    ensures r == Pass <==> ServerNameAccepted(name) && ServerPhoneAccepted(phone) && EmailAccepted(email)
  {
    var name', phone', email' := Rule(ServerNameAccepted(name), NameRequired), Rule(ServerPhoneAccepted(phone), PhoneInvalid),
                                 Rule(EmailAccepted(email), EmailInvalid);
    FirstFailureOfThree(name', phone', email');
    FirstFailure([name', phone', email'])
  }

  /** The two spellings of the name rule agree on every string. */
  lemma NameRulesAgree(name: string)
    ensures ServerNameAccepted(name) <==> NameAccepted(name)
  {
  }

  /** A phone the handler accepts is one the forms accept too. */
  lemma ServerPhoneImpliesClient(phone: string)
    ensures ServerPhoneAccepted(phone) ==> ClientPhoneAccepted(phone)
  {
  }

  /** Padding lets a short number through the forms but not through the handler. */
  lemma PaddedPhoneSeparatesRules(p: string)
    requires p == "  12345678  "
    ensures ClientPhoneAccepted(p)
    ensures !ServerPhoneAccepted(p)
  {
    var core := "12345678";
    assert p == "  " + core + "  ";
    TrimPadded("  ", core, "  ");
  }

  /**
   * The only disagreement between the forms and the handler: the handler reports
   * a phone failure for a number the forms let through. Otherwise they agree.
   */
  lemma ClientServerDrift(name: string, phone: string, email: string)
    ensures ServerValidate(name, phone, email) == Pass ==> ClientValidate(name, phone, email) == Pass
    ensures ServerValidate(name, phone, email) != ClientValidate(name, phone, email) ==>
              ServerValidate(name, phone, email) == Fail(PhoneInvalid) && ClientPhoneAccepted(phone)
  {
    ServerPhoneImpliesClient(phone);
    NameRulesAgree(name);
  }

  /** The phone lengths the repository's own tests check. */
  lemma PhoneExamples()
    ensures ClientPhoneAccepted("08012345678")
    ensures !ClientPhoneAccepted("0801234")
  {
    assert "08012345678"[0] == '0' && !IsSpace('0');
  }

  /** The addresses src/test/emailjs.test.ts checks, plus three edge cases of the pattern. */
  lemma EmailExamples()
    ensures EmailAccepted("test@example.com")
    ensures EmailAccepted("a@b.co")
    ensures !EmailAccepted("notanemail")
    ensures !EmailAccepted("")
    ensures !EmailAccepted("a@b")
  {
    var good := "test@example.com";
    assert OnlyAtSignAt(good, 4);
    assert good[5..][7] == '.';
    var short := "a@b.co";
    assert OnlyAtSignAt(short, 1);
    assert short[2..][1] == '.';
  }

  // --- the WhatsApp link ------------------------------------------------------

  const WhatsAppPrefix := "https://wa.me/"

  /** `https://wa.me/${phone.replace(/\D/g, '')}`: the prefix, then the phone's digits in order. */
  function WhatsAppLink(phone: string): (r: string)
    ensures |WhatsAppPrefix| <= |r| && r[..|WhatsAppPrefix|] == WhatsAppPrefix
    ensures r[|WhatsAppPrefix|..] == DigitsOnly(phone)
  {
    WhatsAppPrefix + DigitsOnly(phone)
  }

  /** The link for a digit-only phone ends in the phone itself. */
  lemma WhatsAppLinkOfDigits(phone: string)
    requires AllDigits(phone)
    ensures WhatsAppLink(phone) == WhatsAppPrefix + phone
  {
    DigitsOnlyFixedIff(phone);
  }

  /** The repository's own test cases: a plain number is kept, a `+` and dashes are dropped. */
  lemma WhatsAppLinkExamples(plain: string, dashed: string)
    requires plain == "08012345678" && dashed == "+234-801-234-5678"
    ensures WhatsAppLink(plain) == "https://wa.me/08012345678"
    ensures WhatsAppLink(dashed) == "https://wa.me/2348012345678"
  {
    WhatsAppLinkOfDigits(plain);
    SeparatedNumberDigits(dashed);
  }
}
