/**
 * The stand-alone form script: work out the platform's base URL from the environment,
 * post one campaign form to `<base>/api/forms/new`, and report the outcome, where only
 * status 201 counts as a created form.
 */
module FormScript {
  import opened Wrappers
  import opened Json
  import opened Remote
  import opened Environment
  import Provision

  /** The value `MAUTIC_URL` falls back to; it also marks the URL as still to be built. */
  const PLACEHOLDER_URL: string := "https://your-mautic-instance.com"

  /** A port that is written into the URL: set, and neither 80 nor 443, whatever the protocol. */
  predicate ShownPort(port: string)
  {
    port != "" && port != "80" && port != "443"
  }

  /**
   * The base URL. An explicitly set `MAUTIC_URL` other than the placeholder is kept; so is
   * the placeholder when the host is `localhost` (its default). Otherwise the URL is
   * `protocol://host`, with `:port` appended for a shown port.
   */
  function BaseUrl(env: Env): (url: string)
    ensures GetenvOr(env, "MAUTIC_URL", PLACEHOLDER_URL) != PLACEHOLDER_URL ==> url == env["MAUTIC_URL"]
    ensures (GetenvOr(env, "MAUTIC_URL", PLACEHOLDER_URL) == PLACEHOLDER_URL
             && GetenvOr(env, "MAUTIC_HOST", "localhost") == "localhost") ==> url == PLACEHOLDER_URL
    ensures (GetenvOr(env, "MAUTIC_URL", PLACEHOLDER_URL) == PLACEHOLDER_URL
             && GetenvOr(env, "MAUTIC_HOST", "localhost") != "localhost") ==>
              var authority := GetenvOr(env, "MAUTIC_PROTOCOL", "http") + "://" + GetenvOr(env, "MAUTIC_HOST", "localhost");
              var port := GetenvOr(env, "MAUTIC_PORT", "8001");
              (ShownPort(port) ==> url == authority + ":" + port) && (!ShownPort(port) ==> url == authority)
  {
    var url := GetenvOr(env, "MAUTIC_URL", PLACEHOLDER_URL);
    var host := GetenvOr(env, "MAUTIC_HOST", "localhost");
    var port := GetenvOr(env, "MAUTIC_PORT", "8001");
    var protocol := GetenvOr(env, "MAUTIC_PROTOCOL", "http");
    if url != PLACEHOLDER_URL || host == "localhost" then url
    else if ShownPort(port) then protocol + "://" + host + ":" + port
    else protocol + "://" + host
  }

  /** The module-level code that settles `MAUTIC_URL`. */
  method MauticUrl(env: Env) returns (url: string)
    ensures url == BaseUrl(env)
  {
    url := GetenvOr(env, "MAUTIC_URL", PLACEHOLDER_URL);
    if url == PLACEHOLDER_URL {
      var host := GetenvOr(env, "MAUTIC_HOST", "localhost");
      var port := GetenvOr(env, "MAUTIC_PORT", "8001");
      var protocol := GetenvOr(env, "MAUTIC_PROTOCOL", "http");
      if host != "localhost" {
        url := protocol + "://" + host;
        if port != "" && port != "80" && port != "443" {
          url := url + ":" + port;
        }
      }
    }
  }

  const FORMS_NEW_PATH: string := "/api/forms/new"

  /**
   * The address the form is posted to: an explicit `MAUTIC_URL` followed by the forms
   * path, or else the address built from protocol, host and shown port.
   */
  function FormAddress(env: Env): (address: string)
    ensures GetenvOr(env, "MAUTIC_URL", PLACEHOLDER_URL) != PLACEHOLDER_URL ==>
              address == env["MAUTIC_URL"] + "/api/forms/new"
    ensures (GetenvOr(env, "MAUTIC_URL", PLACEHOLDER_URL) == PLACEHOLDER_URL
             && GetenvOr(env, "MAUTIC_HOST", "localhost") == "localhost") ==>
              address == "https://your-mautic-instance.com/api/forms/new"
    ensures (GetenvOr(env, "MAUTIC_URL", PLACEHOLDER_URL) == PLACEHOLDER_URL
             && GetenvOr(env, "MAUTIC_HOST", "localhost") != "localhost") ==>
              var authority := GetenvOr(env, "MAUTIC_PROTOCOL", "http") + "://" + GetenvOr(env, "MAUTIC_HOST", "localhost");
              var port := GetenvOr(env, "MAUTIC_PORT", "8001");
              (ShownPort(port) ==> address == authority + ":" + port + "/api/forms/new")
              && (!ShownPort(port) ==> address == authority + "/api/forms/new")
  {
    BaseUrl(env) + FORMS_NEW_PATH
  }

  const INTEREST_FORM_FIELDS: Json := JArr([
    JObj([("label", JStr("Email")), ("type", JStr("email")), ("alias", JStr("email")),
          ("isRequired", JBool(true)), ("validationMessage", JStr("Por favor, insira um email válido."))]),
    JObj([("label", JStr("Nome")), ("type", JStr("text")), ("alias", JStr("nome")),
          ("isRequired", JBool(true)), ("validationMessage", JStr("O campo Nome é obrigatório."))]),
    JObj([("label", JStr("DDD")), ("type", JStr("text")), ("alias", JStr("ddd")),
          ("isRequired", JBool(true)), ("properties", JObj([("maxLength", JInt(3))])),
          ("validationMessage", JStr("O campo DDD é obrigatório."))]),
    JObj([("label", JStr("Celular")), ("type", JStr("tel")), ("alias", JStr("celular")),
          ("isRequired", JBool(true)), ("validationMessage", JStr("O campo Celular é obrigatório."))]),
    JObj([("label", JStr("Área de Atuação")), ("type", JStr("select")), ("alias", JStr("area_de_atuacao")),
          ("isRequired", JBool(true)), ("properties", JObj([("list", Provision.PROFESSION_OPTIONS)])),
          ("validationMessage", JStr("Por favor, selecione sua área de atuação."))])
  ])

  const INTEREST_FORM_ATTRS: seq<(string, Json)> := [
    ("name", JStr("FormInteresse1")),
    ("alias", JStr("forminteresse1")),
    ("formType", JStr("campaign")),
    ("fields", INTEREST_FORM_FIELDS)
  ]

  const FORM_REQUEST: Request := Request(New(Form), Some(JObj(INTEREST_FORM_ATTRS)))

  /** What the script reports. */
  datatype FormOutcome =
    | Created(details: Json)        // status 201 and a JSON body, which is printed
    | CreationError(status: int)    // any other status that does not raise
    | HttpError(status: int)        // `raise_for_status` raised
    | RequestFailed                 // no response, or a 201 whose body does not parse

  /** The script's reading of the one response it gets. */
  function ClassifyFormResponse(response: Option<HttpResponse>): (r: FormOutcome)
    ensures r.Created? <==> response.Some? && response.value.status == 201 && response.value.body.Some?
    ensures r.Created? ==> r.details == response.value.body.value
    ensures r.CreationError? <==> response.Some? && response.value.status != 201 && !RaisesForStatus(response.value.status)
    ensures r.CreationError? || r.HttpError? ==> response.Some? && r.status == response.value.status
    ensures r.HttpError? <==> response.Some? && RaisesForStatus(response.value.status)
  {
    match response
    case None => RequestFailed
    case Some(resp) =>
      if RaisesForStatus(resp.status) then HttpError(resp.status)
      else if resp.status == 201 then
        (match resp.body case Some(j) => Created(j) case None => RequestFailed)
      else CreationError(resp.status)
  }

  /** The script: one request to create the form, and the outcome it reports. */
  function FormRun(n: Net): (Net, FormOutcome)
  {
    var (n', e) := Send(n, FORM_REQUEST);
    (n', ClassifyFormResponse(e.response))
  }

  /** Against the platform model with no outage, the form is created and reported as created. */
  lemma FormRunServed(n: Net)
    requires n.platform == Serve && |n.transcript| !in n.outages
    ensures var (n', outcome) := FormRun(n);
            outcome == Created(Single(Form, Record(n.store.nextId, INTEREST_FORM_ATTRS, [])))
            && Table(n'.store, Form) == Table(n.store, Form) + [Record(n.store.nextId, INTEREST_FORM_ATTRS, [])]
  {
    ServeNew(n.store, Form, INTEREST_FORM_ATTRS);
  }

  /**
   * The script: settle the base URL, post the form to `<base>/api/forms/new`, and classify
   * the response. `endpoint` is the address the form is posted to.
   */
  method CreateMauticForm(env: Env, remote: Remote) returns (endpoint: string, outcome: FormOutcome)
    modifies remote
    ensures endpoint == FormAddress(env)
    ensures (remote.State(), outcome) == FormRun(old(remote.State()))
  {
    var mauticUrl := MauticUrl(env);
    endpoint := mauticUrl + FORMS_NEW_PATH;
    var response := remote.Call(FORM_REQUEST);
    outcome := ClassifyFormResponse(response);
  }
}
