/**
 * One-time codes for e-mail verification: generation, storage in the
 * key-value cache (reached over its REST interface) and delivery by mail, as
 * in backend/src/services/email.rs and its older twin backend/src/auth/email.rs.
 * The cache, the mail transport and the random source are outside the model:
 * their outcomes are parameters, and the class keeps the cache entries and
 * the mails handed to the transport.
 */
module OtpMail {
  import opened Wrappers
  import opened Text
  import V = Validation

  type Digit = d: int | 0 <= d < 10

  const OtpLength := 6
  /** The `ex` field stored with every code: 300 seconds (5 minutes). */
  const OtpExpirySeconds := 300

  /** `generate_otp`: six independent draws from 0..10, each rendered as one
      decimal character. */
  function GenerateOtp(draws: seq<Digit>): (otp: string)
    requires |draws| == OtpLength
    ensures |otp| == OtpLength && AllDigits(otp)
    ensures forall i :: 0 <= i < OtpLength ==> otp[i] as int - '0' as int == draws[i]
  {
    seq(OtpLength, i requires 0 <= i < OtpLength => DigitChar(draws[i]))
  }

  /** Every six-digit string is some draw's code and no two draws share one,
      so all 10^6 codes are reachable and distinct draws never collide. */
  lemma GenerateOtpBijective(otp: string, a: seq<Digit>, b: seq<Digit>)
    requires |a| == OtpLength && |b| == OtpLength
    ensures GenerateOtp(a) == GenerateOtp(b) ==> a == b
    ensures |otp| == OtpLength && AllDigits(otp) ==>
      GenerateOtp(seq(OtpLength, i requires 0 <= i < OtpLength && IsAsciiDigit(otp[i]) => otp[i] as int - '0' as int)) == otp
  {
    if GenerateOtp(a) == GenerateOtp(b) {
      assert forall i :: 0 <= i < OtpLength ==> a[i] == GenerateOtp(a)[i] as int - '0' as int;
    }
  }

  /** The key a code is stored under: "otp:" and the whole address, which
      is the key the cache sees when the address is escaped into the request
      path. */
  function OtpKey(email: string): (key: string)
    ensures |key| == 4 + |email| && key[4..] == email
  {
    "otp:" + email
  }

  /** Distinct addresses get distinct keys, so no address can overwrite or
      verify against another's code. */
  lemma OtpKeyInjective(a: string, b: string)
    ensures OtpKey(a) == OtpKey(b) ==> a == b
  {
    if OtpKey(a) == OtpKey(b) { assert a == OtpKey(a)[4..]; }
  }

  /** The part of a URL path segment the server receives: a '?' starts the
      query and a '#' the fragment, which is never sent. */
  function PathPart(s: string): (p: string)
    ensures |p| <= |s| && p == s[..|p|]
    ensures forall i :: 0 <= i < |p| ==> p[i] != '?' && p[i] != '#'
    ensures |p| < |s| ==> s[|p|] == '?' || s[|p|] == '#'
  {
    if s == [] || s[0] == '?' || s[0] == '#' then [] else [s[0]] + PathPart(s[1..])
  }

  /** The key the cache receives as written: the address is pasted into the
      request URL without escaping, so the key ends at its first '?' or '#'. */
  function OtpKeyAsWritten(email: string): string {
    PathPart("otp:" + email)
  }

  /** Two distinct addresses that the e-mail pattern accepts share one cache
      key as written ("otp:a"), so a code sent to one overwrites the other's
      and verifies for both. */
  lemma UnescapedKeysCollide()
    ensures V.ValidEmail("a#1@host") && V.ValidEmail("a#2@host")
    ensures OtpKeyAsWritten("a#1@host") == OtpKeyAsWritten("a#2@host") == "otp:a"
    ensures OtpKey("a#1@host") != OtpKey("a#2@host")
  {
    FragmentAddress('1');
    FragmentAddress('2');
    assert "a#1@host"[2] != "a#2@host"[2];
  }

  /** "a#" + c + "@host" is accepted by the pattern, and its key as written
      stops at the '#'. */
  lemma FragmentAddress(c: char)
    requires IsAsciiDigit(c)
    ensures V.ValidEmail(['a', '#', c, '@', 'h', 'o', 's', 't'])
    ensures OtpKeyAsWritten(['a', '#', c, '@', 'h', 'o', 's', 't']) == "otp:a"
  {
    var s := ['a', '#', c, '@', 'h', 'o', 's', 't'];
    assert V.FindChar(s[3..], '@') == Some(0);
    assert V.FindChar(s[2..], '@') == Some(1);
    assert V.FindChar(s[1..], '@') == Some(2);
    assert V.FindChar(s, '@') == Some(3);
    assert s[..3] == ['a', '#', c];
    assert s[4..] == "host";
    HostIsDomain();
    var key := "otp:" + s;
    assert key[5] == '#';
    assert PathPart(key[5..]) == [];
    assert PathPart(key[4..]) == "a";
    assert PathPart(key[3..]) == ":a";
    assert PathPart(key[2..]) == "p:a";
    assert PathPart(key[1..]) == "tp:a";
  }

  /** "host" is a one-label domain. */
  lemma HostIsDomain()
    ensures V.DomainOk("host")
  {
    assert V.FindChar("t", '.') == None;
    assert V.FindChar("st", '.') == None;
    assert V.FindChar("ost", '.') == None;
    assert V.FindChar("host", '.') == None;
    assert V.SplitOnDot("host") == ["host"];
    assert V.MatchLabel("host");
  }

  /** The JSON document posted to the cache: `{"value": code, "ex": 300}`. */
  datatype Entry = Entry(value: string, ex: nat)

  /** What the POST to the cache's `set` endpoint comes to: the cache took the
      entry, it answered with an HTTP error status (which `send` does not turn
      into an error), or the request never reached it. */
  datatype StoreReply = Stored | Rejected | Unreachable

  /** The ways the GET of `verify_otp` can go wrong before a stored code is
      found: no answer, a body that is not JSON, no string `result` (a missing
      key answers `null`), a `result` that is not JSON, no string `value`. */
  datatype LookupFault = RequestFailed | BodyNotJson | NoResultString | ResultNotJson | NoValueString

  datatype SendError = CacheUnreachable | InvalidRecipient | TransportFailed

  /** The error of a failed `send_otp`: the first step that failed. */
  function SendFailure(store: StoreReply, isMailbox: bool): SendError {
    if store == Unreachable then CacheUnreachable else if !isMailbox then InvalidRecipient else TransportFailed
  }

  /** The two mail layouts: the HTML page of services/email.rs, whose one
      placeholder holds the code, and the plain text of auth/email.rs. */
  datatype Body = OtpPage(code: string) | PlainText(text: string)

  datatype Mail = Mail(to: string, subject: string, body: Body)

  /** Which of the two revisions of the service this is. */
  datatype Revision = HtmlMail | TextMail

  /** The mail `send_otp` builds for `code`. */
  function OtpMessage(revision: Revision, to: string, code: string): (m: Mail)
    ensures m.to == to
    ensures revision == HtmlMail ==> m.body == OtpPage(code) && m.subject == "Verify Your Email - LinkSphere"
    ensures revision == TextMail ==>
      m.subject == "Email Verification Code" && m.body.PlainText? &&
      m.body.text == "Your verification code is: " + code + "\n\nThis code will expire in 5 minutes."
  {
    match revision
    case HtmlMail => Mail(to, "Verify Your Email - LinkSphere", OtpPage(code))
    case TextMail =>
      Mail(to, "Email Verification Code", PlainText("Your verification code is: " + code + "\n\nThis code will expire in 5 minutes."))
  }

  /** The code a mail carries. */
  function CodeOf(m: Mail): string {
    match m.body
    case OtpPage(code) => code
    case PlainText(text) =>
      if |text| >= 27 + OtpLength then text[27..27 + OtpLength] else ""
  }

  /** In both layouts the code can be read back from the mail. */
  lemma CodeOfOtpMessage(revision: Revision, to: string, code: string)
    requires |code| == OtpLength
    ensures CodeOf(OtpMessage(revision, to, code)) == code
  {
    if revision == TextMail {
      var text := OtpMessage(revision, to, code).body.text;
      assert text[27..27 + OtpLength] == code;
    }
  }

  class EmailService {
    const revision: Revision
    /** Cache entries by key. */
    var cache: map<string, Entry>
    /** Mails accepted by the transport, oldest first. */
    var outbox: seq<Mail>

    constructor (revision: Revision)
      ensures this.revision == revision && cache == map[] && outbox == []
    {
      this.revision := revision;
      cache := map[];
      outbox := [];
    }

    /** `send_otp`.  `draws` is the random source, `store` the cache's answer,
        `isMailbox` the address parser and `delivered` the transport's answer.
        The code is written to the cache before the mail is built, so a mail
        failure leaves a stored code behind. */
    method SendOtp(email: string, draws: seq<Digit>, store: StoreReply,
                   isMailbox: string -> bool, delivered: bool)
      returns (r: Result<(), SendError>)
      requires |draws| == OtpLength
      modifies this
      ensures store == Unreachable ==> r == Err(CacheUnreachable) && cache == old(cache) && outbox == old(outbox)
      ensures store == Stored ==> cache == old(cache)[OtpKey(email) := Entry(GenerateOtp(draws), OtpExpirySeconds)]
      ensures store != Stored ==> cache == old(cache)
      ensures store != Unreachable && !isMailbox(email) ==> r == Err(InvalidRecipient) && outbox == old(outbox)
      ensures store != Unreachable && isMailbox(email) && !delivered ==> r == Err(TransportFailed) && outbox == old(outbox)
      ensures r.Ok? <==> store != Unreachable && isMailbox(email) && delivered
      ensures r.Err? ==> r.error == SendFailure(store, isMailbox(email)) && outbox == old(outbox)
      ensures r.Ok? ==> outbox == old(outbox) + [OtpMessage(revision, email, GenerateOtp(draws))]
    {
      var otp := GenerateOtp(draws);
      if store == Unreachable {
        return Err(CacheUnreachable);
      }
      if store == Stored {
        cache := cache[OtpKey(email) := Entry(otp, OtpExpirySeconds)];
      }
      if !isMailbox(email) {
        return Err(InvalidRecipient);
      }
      if !delivered {
        return Err(TransportFailed);
      }
      outbox := outbox + [OtpMessage(revision, email, otp)];
      r := Ok(());
    }

    /** `verify_otp`: true exactly when the lookup succeeds and the stored
        code equals the submitted one; every failure reads as a mismatch. */
    function VerifyOtp(email: string, otp: string, fault: Option<LookupFault>): (ok: bool)
      reads this
      ensures ok <==> fault.None? && OtpKey(email) in cache && cache[OtpKey(email)].value == otp
    {
      match fault
      case Some(_) => false
      case None => OtpKey(email) in cache && cache[OtpKey(email)].value == otp
    }
  }

  /** The round trip: after a send that stored its code, that code verifies
      for that address, no other code does, and the codes of other addresses
      are untouched. */
  method SendThenVerify(service: EmailService, email: string, other: string, draws: seq<Digit>,
                        isMailbox: string -> bool, delivered: bool, guess: string)
    returns (sent: bool, wrong: bool, otherBefore: bool, otherAfter: bool)
    requires |draws| == OtpLength
    requires other != email
    modifies service
    ensures sent
    ensures wrong <==> guess == GenerateOtp(draws)
    ensures otherBefore == otherAfter
  {
    otherBefore := service.VerifyOtp(other, guess, None);
    var _ := service.SendOtp(email, draws, Stored, isMailbox, delivered);
    sent := service.VerifyOtp(email, GenerateOtp(draws), None);
    wrong := service.VerifyOtp(email, guess, None);
    OtpKeyInjective(email, other);
    otherAfter := service.VerifyOtp(other, guess, None);
  }

  /** A new send replaces the previous code for the address: the old code
      stops verifying unless the draws happened to repeat it. */
  method ResendReplacesCode(service: EmailService, email: string, first: seq<Digit>, second: seq<Digit>,
                            isMailbox: string -> bool)
    returns (oldStillValid: bool)
    requires |first| == OtpLength && |second| == OtpLength
    modifies service
    ensures oldStillValid <==> first == second
  {
    var _ := service.SendOtp(email, first, Stored, isMailbox, true);
    var _ := service.SendOtp(email, second, Stored, isMailbox, true);
    GenerateOtpBijective("", first, second);
    oldStillValid := service.VerifyOtp(email, GenerateOtp(first), None);
  }
}
