/**
 * The post-install script: check the credentials, list the mailer settings with the
 * password masked, and send one test email by creating a contact, creating an email and
 * asking the platform to send that email to that contact. The three calls stop at the
 * first falsy result; the script's exit status does not depend on them.
 */
module PostInstall {
  import opened Wrappers
  import opened Json
  import opened Remote
  import opened Environment
  import Text

  /** The recipient: `EMAIL_ADDRESS`, else `TEST_EMAIL_RECIPIENT`, else a fixed address. */
  function Recipient(env: Env): (r: string)
    ensures "EMAIL_ADDRESS" in env ==> r == env["EMAIL_ADDRESS"]
    ensures "EMAIL_ADDRESS" !in env && "TEST_EMAIL_RECIPIENT" in env ==> r == env["TEST_EMAIL_RECIPIENT"]
    ensures "EMAIL_ADDRESS" !in env && "TEST_EMAIL_RECIPIENT" !in env ==> r == "test@example.com"
  {
    GetenvOr(env, "EMAIL_ADDRESS", GetenvOr(env, "TEST_EMAIL_RECIPIENT", "test@example.com"))
  }

  function Mobile(env: Env): (r: string)
    ensures "MOBILE_NUMBER" in env ==> r == env["MOBILE_NUMBER"]
    ensures "MOBILE_NUMBER" !in env ==> r == "+5511999999999"
  {
    GetenvOr(env, "MOBILE_NUMBER", "+5511999999999")
  }

  function ContactData(email: string, mobile: string): Json
  {
    JObj([("firstname", JStr("Adilson")), ("lastname", JStr("Jardim")), ("email", JStr(email)), ("mobile", JStr(mobile))])
  }

  /** The test email; its content stands for the HTML body, which is not modelled. */
  const TEST_EMAIL_DATA: Json := JObj([
    ("name", JStr("Test SendGrid Configuration")),
    ("subject", JStr("Test Email via SendGrid")),
    ("content", JStr("<SendGrid test email body>")),
    ("isPublished", JBool(true))
  ])

  function SendData(emailId: Json, contactId: Json): Json
  {
    JObj([("email", emailId), ("contact", contactId)])
  }

  function SendRequest(emailResult: Option<Json>, contactResult: Option<Json>): Request
  {
    Request(SendEmail, Some(SendData(CreatedId(emailResult, Email), CreatedId(contactResult, Contact))))
  }

  /**
   * `send_test_email` with the contact and email payloads as parameters: the new state and
   * whether it reported success.
   */
  function TestEmailRun(n: Net, contact: Json, email: Json): (Net, bool)
  {
    var (n1, e1) := Send(n, Request(New(Contact), Some(contact)));
    var contactResult := ResultOf(e1);
    if !OptTruthy(contactResult) then (n1, false)
    else
      var (n2, e2) := Send(n1, Request(New(Email), Some(email)));
      var emailResult := ResultOf(e2);
      if !OptTruthy(emailResult) then (n2, false)
      else
        var (n3, e3) := Send(n2, SendRequest(emailResult, contactResult));
        (n3, OptTruthy(ResultOf(e3)))
  }

  /** The calls one run of `TestEmailRun` made. */
  function Calls(before: Net, after: Net): seq<Exchange>
  {
    if |before.transcript| <= |after.transcript| then after.transcript[|before.transcript|..] else []
  }

  /**
   * The calls are made in order: create the contact, create the email, send; a falsy
   * result ends the sequence with no later call, and success is reported exactly when
   * all three results are truthy. The send carries the ids read from the first two.
   */
  lemma TestEmailCalls(n: Net, contact: Json, email: Json)
    ensures var (n', sent) := TestEmailRun(n, contact, email);
            var xs := Calls(n, n');
            n'.transcript[..|n.transcript|] == n.transcript
            && n'.outages == n.outages && n'.platform == n.platform
            && 1 <= |xs| <= 3
            && xs[0].request == Request(New(Contact), Some(contact))
            && (|xs| == 1 <==> !OptTruthy(ResultOf(xs[0])))
            && (|xs| >= 2 ==> xs[1].request == Request(New(Email), Some(email))
                              && (|xs| == 2 <==> !OptTruthy(ResultOf(xs[1]))))
            && (|xs| == 3 ==> xs[2].request == SendRequest(ResultOf(xs[1]), ResultOf(xs[0])))
            && (sent <==> |xs| == 3 && OptTruthy(ResultOf(xs[2])))
  {
    var (n1, e1) := Send(n, Request(New(Contact), Some(contact)));
    assert n1.transcript[|n.transcript|..] == [e1];
    if OptTruthy(ResultOf(e1)) {
      var (n2, e2) := Send(n1, Request(New(Email), Some(email)));
      assert n2.transcript[|n.transcript|..] == [e1, e2];
      if OptTruthy(ResultOf(e2)) {
        var (n3, e3) := Send(n2, SendRequest(ResultOf(e2), ResultOf(e1)));
        assert n3.transcript[|n.transcript|..] == [e1, e2, e3];
      }
    }
  }

  /**
   * Against the platform model with no outage in the three calls, the test email is sent:
   * one contact and one email are created, and the send names exactly those two records.
   */
  lemma TestEmailServed(n: Net, contact: seq<(string, Json)>, email: seq<(string, Json)>)
    requires n.platform == Serve
    requires forall i :: |n.transcript| <= i < |n.transcript| + 3 ==> i !in n.outages
    ensures var (n', sent) := TestEmailRun(n, JObj(contact), JObj(email));
            var id := n.store.nextId;
            sent
            && Table(n'.store, Contact) == Table(n.store, Contact) + [Record(id, contact, [])]
            && Table(n'.store, Email) == Table(n.store, Email) + [Record(id + 1, email, [])]
            && Calls(n, n')[2].request == Request(SendEmail, Some(SendData(JInt(id + 1), JInt(id))))
  {
    var (n1, e1) := Send(n, Request(New(Contact), Some(JObj(contact))));
    ServedCreate(n, Contact, contact);
    var (n2, e2) := Send(n1, Request(New(Email), Some(JObj(email))));
    ServedCreate(n1, Email, email);
    ServedSend(n2, SendRequest(ResultOf(e2), ResultOf(e1)).payload);
    TestEmailCalls(n, JObj(contact), JObj(email));
  }

  /** `main`: exit status 1 without the credentials, before any call; otherwise 0 whatever the send gave. */
  function PostInstallRun(env: Env, n: Net): (r: (Net, int))
    ensures !HasCredentials(env) ==> r == (n, 1)
    ensures HasCredentials(env) ==> r.1 == 0 && r.0 == TestEmailRun(n, ContactData(Recipient(env), Mobile(env)), TEST_EMAIL_DATA).0
  {
    if !HasCredentials(env) then (n, 1)
    else (TestEmailRun(n, ContactData(Recipient(env), Mobile(env)), TEST_EMAIL_DATA).0, 0)
  }

  /** The mailer settings in the script's order: the key shown, and the variable it is read from. */
  const EMAIL_CONFIG_KEYS: seq<(string, string)> := [
    ("mailer_from_name", "MAUTIC_MAILER_FROM_NAME"),
    ("mailer_from_email", "MAUTIC_MAILER_FROM_EMAIL"),
    ("mailer_transport", "MAUTIC_MAILER_TRANSPORT"),
    ("mailer_host", "MAUTIC_MAILER_HOST"),
    ("mailer_port", "MAUTIC_MAILER_PORT"),
    ("mailer_user", "MAUTIC_MAILER_USER"),
    ("mailer_password", "MAUTIC_MAILER_PASSWORD"),
    ("mailer_encryption", "MAUTIC_MAILER_ENCRYPTION"),
    ("mailer_auth_mode", "MAUTIC_MAILER_AUTH_MODE")
  ]

  const PASSWORD_INDEX: nat := 6

  /** The mailer settings, in the script's order: each key shown with the value of its variable. */
  function EmailConfig(env: Env): seq<(string, Option<string>)>
  {
    seq(|EMAIL_CONFIG_KEYS|, i requires 0 <= i < |EMAIL_CONFIG_KEYS| => (EMAIL_CONFIG_KEYS[i].0, Getenv(env, EMAIL_CONFIG_KEYS[i].1)))
  }

  /** A value is hidden when it is set and its key mentions a password in any letter case. */
  predicate Hidden(key: string, value: Option<string>)
  {
    value.Some? && Text.Contains(Text.LowerAscii(key), "password")
  }

  /** The text printed for one setting: stars for a hidden value, `None` for an unset one. */
  function ShownValue(key: string, value: Option<string>): (shown: string)
    ensures Hidden(key, value) ==> |shown| == |value.value| && forall i :: 0 <= i < |shown| ==> shown[i] == '*'
    ensures !Hidden(key, value) && value.Some? ==> shown == value.value
    ensures value.None? ==> shown == "None"
  {
    if Hidden(key, value) then Text.Repeat('*', |value.value|)
    else match value case Some(v) => v case None => "None"
  }

  /** A key spelled without `w` in either case never counts as a password key. */
  lemma NotPasswordKey(key: string)
    requires 'w' !in key && 'W' !in key
    ensures !Text.Contains(Text.LowerAscii(key), "password")
  {
    var lower := Text.LowerAscii(key);
    assert forall i :: 0 <= i < |key| ==> lower[i] != 'w';
    if Text.Contains(lower, "password") {
      Text.ContainsChar(lower, "password", 'w');
    }
  }

  lemma PasswordKey(key: string)
    requires key == "mailer_password"
    ensures Text.Contains(Text.LowerAscii(key), "password")
  {
    var lower := Text.LowerAscii(key);
    assert lower[7..] == "password";
    Text.ContainsAt(lower, "password", 7);
  }

  lemma OtherKeys(i: nat)
    requires i < |EMAIL_CONFIG_KEYS| && i != PASSWORD_INDEX
    ensures !Text.Contains(Text.LowerAscii(EMAIL_CONFIG_KEYS[i].0), "password")
  {
    var key := EMAIL_CONFIG_KEYS[i].0;
    if i == 0 { assert key == "mailer_from_name"; }
    else if i == 1 { assert key == "mailer_from_email"; }
    else if i == 2 { assert key == "mailer_transport"; }
    else if i == 3 { assert key == "mailer_host"; }
    else if i == 4 { assert key == "mailer_port"; }
    else if i == 5 { assert key == "mailer_user"; }
    else if i == 7 { assert key == "mailer_encryption"; }
    else { assert key == "mailer_auth_mode"; }
    NotPasswordKey(key);
  }

  /** Of the mailer settings only the password is hidden, and only when it is set. */
  lemma OnlyPasswordHidden(env: Env)
    ensures var c := EmailConfig(env);
            forall i :: 0 <= i < |c| ==> (Hidden(c[i].0, c[i].1) <==> i == PASSWORD_INDEX && c[i].1.Some?)
  {
    var c := EmailConfig(env);
    PasswordKey(EMAIL_CONFIG_KEYS[PASSWORD_INDEX].0);
    forall i | 0 <= i < |c|
      ensures Hidden(c[i].0, c[i].1) <==> i == PASSWORD_INDEX && c[i].1.Some?
    {
      assert c[i].0 == EMAIL_CONFIG_KEYS[i].0;
      if i != PASSWORD_INDEX {
        OtherKeys(i);
      }
    }
  }

  method SendTestEmail(remote: Remote, contact: Json, email: Json) returns (sent: bool)
    modifies remote
    ensures (remote.State(), sent) == TestEmailRun(old(remote.State()), contact, email)
  {
    var contactResult := MakeApiRequest(remote, Request(New(Contact), Some(contact)));
    if !OptTruthy(contactResult) {
      return false;
    }
    var emailResult := MakeApiRequest(remote, Request(New(Email), Some(email)));
    if !OptTruthy(emailResult) {
      return false;
    }
    var sendResult := MakeApiRequest(remote, SendRequest(emailResult, contactResult));
    if !OptTruthy(sendResult) {
      return false;
    }
    return true;
  }

  method PostInstallConfiguration(env: Env, remote: Remote) returns (exitCode: int)
    modifies remote
    ensures (remote.State(), exitCode) == PostInstallRun(env, old(remote.State()))
  {
    if !HasCredentials(env) {
      return 1;
    }
    var _ := SendTestEmail(remote, ContactData(Recipient(env), Mobile(env)), TEST_EMAIL_DATA);
    return 0;
  }
}
