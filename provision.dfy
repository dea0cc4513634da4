/**
 * The creation script: a fixed chain of ten calls that creates the custom field, the
 * campaign, the tag, three emails, three campaign events and the form, threading the
 * ids it reads from earlier responses into later payloads. It stops at the first failed
 * creation; a failed event add does not stop it. It never looks for existing resources.
 */
module Provision {
  import opened Wrappers
  import opened Json
  import opened Remote
  import opened Environment
  import Text

  /** The number of calls in a complete run. */
  const STEPS: nat := 10

  /** The select options shared by the custom field and the form's profession field. */
  const PROFESSION_OPTIONS: Json := JArr([
    JObj([("label", JStr("Educação Física")), ("value", JStr("educacao_fisica"))]),
    JObj([("label", JStr("Fisioterapia")), ("value", JStr("fisioterapia"))]),
    JObj([("label", JStr("Medicina Esportiva")), ("value", JStr("medicina_esportiva"))]),
    JObj([("label", JStr("Medicina")), ("value", JStr("medicina"))]),
    JObj([("label", JStr("Empreendedor")), ("value", JStr("empreendedor"))]),
    JObj([("label", JStr("Outro")), ("value", JStr("outro"))])
  ])

  const PROFESSION_FIELD: Json := JObj([
    ("label", JStr("Profissão")),
    ("alias", JStr("profissao")),
    ("type", JStr("select")),
    ("group", JStr("core")),
    ("object", JStr("contact")),
    ("properties", JObj([("list", PROFESSION_OPTIONS)]))
  ])

  const CAMPAIGN_DATA: Json := JObj([
    ("name", JStr("LancamentoSemente1")),
    ("description", JStr("Campanha de lançamento para captura de leads")),
    ("category", JStr("default")),
    ("isPublished", JBool(true))
  ])

  const TAG_DATA: Json := JObj([("tag", JStr("Semente1"))])

  /** An email payload; `content` stands for the email's HTML body, which is not modelled. */
  function EmailData(name: string, subject: string, content: string): Json
  {
    JObj([("name", JStr(name)), ("subject", JStr(subject)), ("content", JStr(content)), ("isPublished", JBool(true))])
  }

  /** The welcome sequence, day 0 to day 2. */
  const EMAIL1_DATA: Json := EmailData("Bem-vindo ao Método Superare - D+0", "Bem-vindo ao Método Superare! 🌟", "<welcome email body, D+0>")
  const EMAIL2_DATA: Json := EmailData("Método Superare - Fundamentos - D+1", "Os 3 Pilares do Método Superare 📚", "<fundamentals email body, D+1>")
  const EMAIL3_DATA: Json := EmailData("Método Superare - Aplicação Prática - D+2", "Como Aplicar o Método Superare na Prática 🚀", "<practice email body, D+2>")

  /** The campaign event that sends email `emailId` after `delay` days. */
  function EventPayload(delay: nat, emailId: Json): Json
  {
    JObj([
      ("name", JStr("Send email (D+" + Text.NatToString(delay) + ")")),
      ("type", JStr("email.send")),
      ("properties", JObj([("email", emailId), ("send_delay", JInt(delay))]))
    ])
  }

  const FORM_FIELDS: Json := JArr([
    JObj([("label", JStr("Nome")), ("type", JStr("text")), ("alias", JStr("firstname")),
          ("isRequired", JBool(true)), ("validationMessage", JStr("O campo Nome é obrigatório."))]),
    JObj([("label", JStr("Email")), ("type", JStr("email")), ("alias", JStr("email")),
          ("isRequired", JBool(true)), ("validationMessage", JStr("Por favor, insira um email válido."))]),
    JObj([("label", JStr("Código do País")), ("type", JStr("text")), ("alias", JStr("country_code")),
          ("isRequired", JBool(true)), ("properties", JObj([("maxLength", JInt(4))])),
          ("validationMessage", JStr("O código do país é obrigatório (ex: +55, +1, +44)."))]),
    JObj([("label", JStr("Celular")), ("type", JStr("tel")), ("alias", JStr("mobile")),
          ("isRequired", JBool(true)), ("validationMessage", JStr("O campo Celular é obrigatório."))]),
    JObj([("label", JStr("Área de Atuação")), ("type", JStr("select")), ("alias", JStr("profissao")),
          ("isRequired", JBool(true)), ("properties", JObj([("list", PROFESSION_OPTIONS)])),
          ("validationMessage", JStr("Por favor, selecione sua área de atuação."))])
  ])

  /** The form's two actions: add the submitter to the campaign, and tag them. */
  function FormActions(campaignId: Json): Json
  {
    JArr([
      JObj([("name", JStr("Add to campaign")), ("type", JStr("campaign.add")),
            ("properties", JObj([("campaign", campaignId)]))]),
      JObj([("name", JStr("Add tag")), ("type", JStr("contact.addtag")),
            ("properties", JObj([("tags", JArr([JStr("Semente1")]))]))])
    ])
  }

  function FormPayload(campaignId: Json): Json
  {
    JObj([
      ("name", JStr("LeadLandingPageForm")),
      ("alias", JStr("leadlandingpageform")),
      ("formType", JStr("campaign")),
      ("isPublished", JBool(true)),
      ("fields", FORM_FIELDS),
      ("actions", FormActions(campaignId))
    ])
  }

  /**
   * The request bodies of a run: the fixed creation payloads, and the builders of the
   * event payload (from the delay and the email id) and of the form payload (from the
   * campaign id). The plan and the properties proved about it hold whatever these are;
   * `PAYLOADS` are the script's own.
   */
  datatype Payloads = Payloads(field: Json, campaign: Json, tag: Json,
                               email1: Json, email2: Json, email3: Json,
                               event: (nat, Json) -> Json, form: Json -> Json)

  const PAYLOADS: Payloads :=
    Payloads(PROFESSION_FIELD, CAMPAIGN_DATA, TAG_DATA, EMAIL1_DATA, EMAIL2_DATA, EMAIL3_DATA, EventPayload, FormPayload)

  /**
   * The request of the next call, given the results of the calls so far: steps 0-5
   * create the field, campaign, tag and emails; 6-8 add one event per email to the
   * campaign; 9 creates the form.
   */
  function PlannedRequest(p: Payloads, results: seq<Option<Json>>): Request
    requires |results| < STEPS
  {
    var i := |results|;
    if i == 0 then Request(New(Field), Some(p.field))
    else if i == 1 then Request(New(Campaign), Some(p.campaign))
    else if i == 2 then Request(New(Tag), Some(p.tag))
    else if i == 3 then Request(New(Email), Some(p.email1))
    else if i == 4 then Request(New(Email), Some(p.email2))
    else if i == 5 then Request(New(Email), Some(p.email3))
    else if i < 9 then
      Request(AddEvent(CreatedId(results[1], Campaign)), Some(p.event(i - 6, CreatedId(results[i - 3], Email))))
    else Request(New(Form), Some(p.form(CreatedId(results[1], Campaign))))
  }

  /** Every step but the event adds ends the script with exit status 1 when its result is falsy. */
  predicate FailFast(i: nat)
  {
    !(6 <= i < 9)
  }

  /** The run from the call after `results`: the final state and the exit status. */
  function ProvisionFrom(n: Net, p: Payloads, results: seq<Option<Json>>): (Net, int)
    requires |results| <= STEPS
    decreases STEPS - |results|
  {
    if |results| == STEPS then (n, 0)
    else
      var (n1, e) := Send(n, PlannedRequest(p, results));
      var r := ResultOf(e);
      if FailFast(|results|) && !OptTruthy(r) then (n1, 1)
      else ProvisionFrom(n1, p, results + [r])
  }

  /** The whole script: the credential checks, then the run. */
  function CreationRun(env: Env, n: Net): (Net, int)
  {
    if !HasCredentials(env) then (n, 1) else ProvisionFrom(n, PAYLOADS, [])
  }

  /**
   * One call of the run, with the stop rule that follows it. Here and in the steps below,
   * `p` holds the request bodies; the script's top level passes its own `PAYLOADS`.
   */
  method Perform(remote: Remote, p: Payloads, req: Request, ghost results: seq<Option<Json>>, ghost outcome: (Net, int))
    returns (result: Option<Json>)
    requires |results| < STEPS && req == PlannedRequest(p, results)
    requires outcome == ProvisionFrom(remote.State(), p, results)
    modifies remote
    ensures remote.State() == Send(old(remote.State()), req).0
    ensures result == ResultOf(Send(old(remote.State()), req).1)
    ensures FailFast(|results|) && !OptTruthy(result) ==> outcome == (remote.State(), 1)
    ensures !(FailFast(|results|) && !OptTruthy(result)) ==> outcome == ProvisionFrom(remote.State(), p, results + [result])
  {
    result := MakeApiRequest(remote, req);
  }

  /**
   * Steps 1 to 3 of the script: the custom field, the campaign and the tag, each checked
   * before the next; `failed` when one of them came back falsy.
   */
  method CreateBasics(remote: Remote, p: Payloads, ghost outcome: (Net, int))
    returns (failed: bool, campaignId: Json, ghost results: seq<Option<Json>>)
    requires outcome == ProvisionFrom(remote.State(), p, [])
    modifies remote
    ensures failed ==> outcome == (remote.State(), 1)
    ensures !failed ==> |results| == 3 && outcome == ProvisionFrom(remote.State(), p, results)
    ensures !failed ==> campaignId == CreatedId(results[1], Campaign)
  {
    campaignId, results := JNull, [];
    var professionResult := Perform(remote, p, Request(New(Field), Some(p.field)), results, outcome);
    if !OptTruthy(professionResult) {
      return true, campaignId, results;
    }
    var profissaoFieldId := CreatedId(professionResult, Field);

    results := results + [professionResult];
    var campaignResult := Perform(remote, p, Request(New(Campaign), Some(p.campaign)), results, outcome);
    if !OptTruthy(campaignResult) {
      return true, campaignId, results;
    }
    campaignId := CreatedId(campaignResult, Campaign);

    results := results + [campaignResult];
    var tagResult := Perform(remote, p, Request(New(Tag), Some(p.tag)), results, outcome);
    if !OptTruthy(tagResult) {
      return true, campaignId, results;
    }
    var tagId := CreatedId(tagResult, Tag);

    results := results + [tagResult];
    failed := false;
  }

  /**
   * Steps 2.5 to 2.7 of the script: the three emails of the sequence, each checked before
   * the next; `failed` when one of them came back falsy.
   */
  method CreateEmails(remote: Remote, p: Payloads, ghost outcome: (Net, int), ghost before: seq<Option<Json>>)
    returns (failed: bool, campaignEmails: seq<Json>, ghost results: seq<Option<Json>>)
    requires |before| == 3 && outcome == ProvisionFrom(remote.State(), p, before)
    modifies remote
    ensures failed ==> outcome == (remote.State(), 1)
    ensures !failed ==> |results| == 6 && results[..3] == before && outcome == ProvisionFrom(remote.State(), p, results)
    ensures !failed ==> |campaignEmails| == 3
    ensures !failed ==> forall k :: 0 <= k < 3 ==> campaignEmails[k] == CreatedId(results[3 + k], Email)
  {
    campaignEmails, results := [], before;
    var email1Result := Perform(remote, p, Request(New(Email), Some(p.email1)), results, outcome);
    if !OptTruthy(email1Result) {
      return true, campaignEmails, results;
    }
    var email1Id := CreatedId(email1Result, Email);

    results := results + [email1Result];
    var email2Result := Perform(remote, p, Request(New(Email), Some(p.email2)), results, outcome);
    if !OptTruthy(email2Result) {
      return true, campaignEmails, results;
    }
    var email2Id := CreatedId(email2Result, Email);

    results := results + [email2Result];
    var email3Result := Perform(remote, p, Request(New(Email), Some(p.email3)), results, outcome);
    if !OptTruthy(email3Result) {
      return true, campaignEmails, results;
    }
    var email3Id := CreatedId(email3Result, Email);

    results := results + [email3Result];
    assert results[3] == email1Result && results[4] == email2Result && results[5] == email3Result;
    campaignEmails := [email1Id, email2Id, email3Id];
    failed := false;
  }

  /** The request the events step sends for email `delay`, given the ids it holds. */
  lemma EventRequest(p: Payloads, results: seq<Option<Json>>, delay: nat)
    requires |results| == 6 + delay && delay < 3
    ensures PlannedRequest(p, results)
            == Request(AddEvent(CreatedId(results[1], Campaign)), Some(p.event(delay, CreatedId(results[3 + delay], Email))))
  {
  }

  /**
   * Step 4 of the script: one campaign event per email, sending email `delay` after
   * `delay` days. A failed add is not checked and does not stop the run.
   */
  method AddEmailEvents(remote: Remote, p: Payloads, ghost outcome: (Net, int), ghost before: seq<Option<Json>>,
                        campaignId: Json, campaignEmails: seq<Json>)
    returns (ghost results: seq<Option<Json>>)
    requires |before| == 6 && outcome == ProvisionFrom(remote.State(), p, before)
    requires campaignId == CreatedId(before[1], Campaign)
    requires |campaignEmails| == 3
    requires forall k :: 0 <= k < 3 ==> campaignEmails[k] == CreatedId(before[3 + k], Email)
    modifies remote
    ensures |results| == 9 && results[..6] == before && outcome == ProvisionFrom(remote.State(), p, results)
  {
    results := before;
    for delay := 0 to 3
      invariant |results| == 6 + delay && results[..6] == before
      invariant outcome == ProvisionFrom(remote.State(), p, results)
    {
      EventRequest(p, results, delay);
      var emailActionResult := Perform(remote, p, Request(AddEvent(campaignId), Some(p.event(delay, campaignEmails[delay]))),
                                       results, outcome);
      results := results + [emailActionResult];
    }
  }

  /** The script's top level. */
  method CreatePreConfiguredData(env: Env, remote: Remote) returns (exitCode: int)
    modifies remote
    ensures (remote.State(), exitCode) == CreationRun(env, old(remote.State()))
  {
    if !HasCredentials(env) {
      return 1;
    }
    ghost var outcome := ProvisionFrom(remote.State(), PAYLOADS, []);
    var failed, campaignId, results := CreateBasics(remote, PAYLOADS, outcome);
    if failed {
      return 1;
    }
    var campaignEmails;
    failed, campaignEmails, results := CreateEmails(remote, PAYLOADS, outcome, results);
    if failed {
      return 1;
    }

    results := AddEmailEvents(remote, PAYLOADS, outcome, results, campaignId, campaignEmails);

    exitCode := CreateForm(remote, PAYLOADS, outcome, results, campaignId);
  }

  /** Step 5 of the script: the form, whose campaign action names the new campaign. */
  method CreateForm(remote: Remote, p: Payloads, ghost outcome: (Net, int), ghost results: seq<Option<Json>>, campaignId: Json)
    returns (exitCode: int)
    requires |results| == 9 && outcome == ProvisionFrom(remote.State(), p, results)
    requires campaignId == CreatedId(results[1], Campaign)
    modifies remote
    ensures outcome == (remote.State(), exitCode)
  {
    var formResult := Perform(remote, p, Request(New(Form), Some(p.form(campaignId))), results, outcome);
    if !OptTruthy(formResult) {
      return 1;
    }
    var formId := CreatedId(formResult, Form);
    return 0;
  }
}
