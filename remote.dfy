/**
 * The remote marketing platform and the client that talks to it.
 *
 * The platform's data is a `Store`: one table per resource kind, records in creation
 * order, ids drawn from a counter. A `Net` adds the transcript of every exchange so far,
 * the set of call indices at which the transport fails (the request never reaches the
 * platform and the client gets no response), and the platform itself as a function from
 * a store and a request to the new store and the response. The scripts' properties hold
 * for any platform; `Serve` is a model of the real one, used where a property depends on
 * what the platform answers. The class `Remote` holds the same state and is what the
 * scripts call.
 */
module Remote {
  import opened Wrappers
  import opened Json
  import Text

  datatype Kind = Field | Campaign | Tag | Email | Form | Contact

  /** The endpoints under `<MAUTIC_URL>/api/` that the scripts use. */
  datatype Endpoint =
    | Listing(kind: Kind)           // GET fields/contact, campaigns, tags, emails, forms
    | New(kind: Kind)               // POST fields/contact/new, campaigns/new, tags/new, emails/new, forms/new, contacts/new
    | Remove(kind: Kind, id: Json)  // DELETE fields/contact/{id}/delete, emails/{id}/delete, ...
    | AddEvent(campaign: Json)      // POST campaigns/{id}/events/add
    | SendEmail                     // POST emails/send

  datatype Request = Request(endpoint: Endpoint, payload: Option<Json>)

  /** An HTTP response; `body` is `None` when the text is empty or is not JSON. */
  datatype HttpResponse = HttpResponse(status: int, body: Option<Json>)

  /** One call: what was sent and what came back (`None`: the transport failed). */
  datatype Exchange = Exchange(request: Request, response: Option<HttpResponse>)

  datatype Record = Record(id: nat, attrs: seq<(string, Json)>, events: seq<Json>)

  datatype Store = Store(tables: map<Kind, seq<Record>>, nextId: nat)

  /** How a platform answers one request: its new store and its response. */
  type Platform = (Store, Request) -> (Store, HttpResponse)

  datatype Net = Net(store: Store, transcript: seq<Exchange>, outages: set<nat>, platform: Platform)

  /** `response.raise_for_status()` raises for client and server errors. */
  predicate RaisesForStatus(status: int)
  {
    400 <= status < 600
  }

  /**
   * The result rule of `make_api_request`: `None` when the request raised (transport
   * failure, an error status, a body that is not JSON) or the body is empty; otherwise
   * the parsed body, where JSON `null` parses to Python's `None`.
   */
  function ApiResult(response: Option<HttpResponse>): (r: Option<Json>)
    ensures response.None? ==> r.None?
    ensures response.Some? && RaisesForStatus(response.value.status) ==> r.None?
    ensures response.Some? && response.value.body.None? ==> r.None?
    ensures r.Some? <==> response.Some? && !RaisesForStatus(response.value.status)
                         && response.value.body.Some? && response.value.body.value != JNull
    ensures r.Some? ==> r == response.value.body
  {
    match response
    case None => None
    case Some(resp) =>
      if RaisesForStatus(resp.status) then None
      else match resp.body
        case None => None
        case Some(j) => if j == JNull then None else Some(j)
  }

  /** The key under which a single record of each kind is wrapped. */
  function Singular(k: Kind): string
  {
    match k
    case Field => "field"
    case Campaign => "campaign"
    case Tag => "tag"
    case Email => "email"
    case Form => "form"
    case Contact => "contact"
  }

  /** The key under which a listing of each kind is wrapped. */
  function Plural(k: Kind): string
  {
    match k
    case Field => "fields"
    case Campaign => "campaigns"
    case Tag => "tags"
    case Email => "emails"
    case Form => "forms"
    case Contact => "contacts"
  }

  function Table(s: Store, k: Kind): seq<Record>
  {
    if k in s.tables then s.tables[k] else []
  }

  function WithTable(s: Store, k: Kind, t: seq<Record>): Store
  {
    s.(tables := s.tables[k := t])
  }

  function WithoutKey(entries: seq<(string, Json)>, key: string): seq<(string, Json)>
  {
    if entries == [] then []
    else if entries[0].0 == key then WithoutKey(entries[1..], key)
    else [entries[0]] + WithoutKey(entries[1..], key)
  }

  /** A record as the platform renders it: its id, then its stored attributes. */
  function RecordJson(r: Record): Json
  {
    JObj([("id", JInt(r.id))] + WithoutKey(r.attrs, "id"))
  }

  lemma {:induction false} LookupWithoutKey(entries: seq<(string, Json)>, key: string, other: string)
    requires other != key
    ensures Lookup(WithoutKey(entries, key), other) == Lookup(entries, other)
    decreases |entries|
  {
    if entries != [] {
      LookupWithoutKey(entries[1..], key, other);
      if entries[0].0 != key {
        assert ([entries[0]] + WithoutKey(entries[1..], key))[1..] == WithoutKey(entries[1..], key);
      }
    }
  }

  /** What `record.get(a)` sees in the rendering: the id under "id", otherwise the stored attribute. */
  lemma RenderedAttr(r: Record, a: string)
    ensures Get(RecordJson(r), a) == (if a == "id" then JInt(r.id) else OrNull(Lookup(r.attrs, a)))
  {
    if a != "id" {
      LookupWithoutKey(r.attrs, "id", a);
      assert ([("id", JInt(r.id))] + WithoutKey(r.attrs, "id"))[1..] == WithoutKey(r.attrs, "id");
    }
  }

  function RecordsJson(t: seq<Record>): (js: seq<Json>)
    ensures |js| == |t|
    ensures forall i :: 0 <= i < |t| ==> js[i] == RecordJson(t[i])
  {
    if t == [] then [] else [RecordJson(t[0])] + RecordsJson(t[1..])
  }

  /** Fields are listed as a mapping keyed by id; the other kinds as a sequence. */
  function KeyedById(t: seq<Record>): (es: seq<(string, Json)>)
    ensures |es| == |t|
    ensures forall i :: 0 <= i < |t| ==> es[i] == (Text.NatToString(t[i].id), RecordJson(t[i]))
  {
    if t == [] then [] else [(Text.NatToString(t[0].id), RecordJson(t[0]))] + KeyedById(t[1..])
  }

  function ListingBody(k: Kind, t: seq<Record>): Json
  {
    if k == Field then JObj([("total", JInt(|t|)), ("fields", JObj(KeyedById(t)))])
    else JObj([("total", JInt(|t|)), (Plural(k), JArr(RecordsJson(t)))])
  }

  /** Position of the record whose id is `id`. */
  function IndexOfId(t: seq<Record>, id: Json): (r: Option<nat>)
    ensures r.Some? ==> r.value < |t| && id == JInt(t[r.value].id)
    ensures r.None? ==> forall i :: 0 <= i < |t| ==> id != JInt(t[i].id)
  {
    if t == [] then None
    else if id == JInt(t[0].id) then Some(0)
    else match IndexOfId(t[1..], id)
      case None => None
      case Some(i) => Some(i + 1)
  }

  function Single(k: Kind, r: Record): Json
  {
    JObj([(Singular(k), RecordJson(r))])
  }

  /** A model of the platform: its answer to one request, and its new store. */
  function Serve(s: Store, req: Request): (Store, HttpResponse)
  {
    match req.endpoint
    case Listing(k) => (s, HttpResponse(200, Some(ListingBody(k, Table(s, k)))))
    case New(k) =>
      (match req.payload
       case Some(JObj(attrs)) =>
         var r := Record(s.nextId, attrs, []);
         (WithTable(s, k, Table(s, k) + [r]).(nextId := s.nextId + 1), HttpResponse(201, Some(Single(k, r))))
       case _ => (s, HttpResponse(400, None)))
    case Remove(k, id) =>
      (match IndexOfId(Table(s, k), id)
       case Some(i) =>
         var t := Table(s, k);
         (WithTable(s, k, t[..i] + t[i + 1..]), HttpResponse(200, Some(Single(k, t[i]))))
       case None => (s, HttpResponse(404, None)))
    case AddEvent(cid) =>
      (match (IndexOfId(Table(s, Campaign), cid), req.payload)
       case (Some(i), Some(p)) =>
         var t := Table(s, Campaign);
         var c := t[i].(events := t[i].events + [p]);
         (WithTable(s, Campaign, t[i := c]), HttpResponse(200, Some(JObj([("event", p)]))))
       case _ => (s, HttpResponse(404, None)))
    case SendEmail => (s, HttpResponse(200, Some(JObj([("success", JBool(true))]))))
  }

  /**
   * A creation with an object payload stores a new record under the next id, touches no
   * other table, and answers with that record, whose id is what the scripts read back.
   */
  lemma ServeNew(s: Store, k: Kind, attrs: seq<(string, Json)>)
    ensures var r := Record(s.nextId, attrs, []);
            var (s', resp) := Serve(s, Request(New(k), Some(JObj(attrs))));
            s'.nextId == s.nextId + 1
            && Table(s', k) == Table(s, k) + [r]
            && (forall k' :: k' != k ==> Table(s', k') == Table(s, k'))
            && resp == HttpResponse(201, Some(Single(k, r)))
            && OptTruthy(ApiResult(Some(resp)))
            && CreatedId(ApiResult(Some(resp)), k) == JInt(s.nextId)
  {
    RenderedAttr(Record(s.nextId, attrs, []), "id");
  }

  /** Ids in a table are distinct and below `bound`. */
  predicate ValidTable(t: seq<Record>, bound: nat)
  {
    (forall i :: 0 <= i < |t| ==> t[i].id < bound)
    && (forall i, j :: 0 <= i < j < |t| ==> t[i].id != t[j].id)
  }

  /** The platform's own guarantee on ids: distinct within a table and below the counter. */
  predicate ValidStore(s: Store)
  {
    forall k :: ValidTable(Table(s, k), s.nextId)
  }

  lemma ReplaceTableValid(s: Store, k: Kind, t: seq<Record>, bound: nat)
    requires ValidStore(s) && s.nextId <= bound && ValidTable(t, bound)
    ensures ValidStore(WithTable(s, k, t).(nextId := bound))
  {
    var s' := WithTable(s, k, t).(nextId := bound);
    forall k' ensures ValidTable(Table(s', k'), bound) {
      if k' != k {
        assert Table(s', k') == Table(s, k');
        assert ValidTable(Table(s, k'), s.nextId);
      }
    }
  }

  /** In a table with distinct ids, a record's id finds that record. */
  lemma {:induction false} IndexOfIdUnique(t: seq<Record>, i: nat, bound: nat)
    requires ValidTable(t, bound) && i < |t|
    ensures IndexOfId(t, JInt(t[i].id)) == Some(i)
    decreases |t|
  {
    if i > 0 {
      assert ValidTable(t[1..], bound) by {
        assert forall a :: 0 <= a < |t| - 1 ==> t[1..][a] == t[a + 1];
      }
      IndexOfIdUnique(t[1..], i - 1, bound);
      assert t[1..][i - 1] == t[i];
    }
  }

  /** On a valid store, deleting a record by its id removes that record, and only it, from its table. */
  lemma ServeRemove(s: Store, k: Kind, i: nat, payload: Option<Json>)
    requires ValidStore(s) && i < |Table(s, k)|
    ensures var t := Table(s, k);
            Table(Serve(s, Request(Remove(k, JInt(t[i].id)), payload)).0, k) == t[..i] + t[i + 1..]
  {
    assert ValidTable(Table(s, k), s.nextId);
    IndexOfIdUnique(Table(s, k), i, s.nextId);
  }

  /** Every request keeps the platform's ids valid. */
  lemma ServeKeepsValid(s: Store, req: Request)
    requires ValidStore(s)
    ensures ValidStore(Serve(s, req).0)
  {
    match req.endpoint
    case Listing(k) =>
    case New(k) =>
      if req.payload.Some? && req.payload.value.JObj? {
        NewKeepsValid(s, k, req.payload.value.entries);
      }
    case Remove(k, id) =>
      if IndexOfId(Table(s, k), id).Some? {
        RemoveKeepsValid(s, k, IndexOfId(Table(s, k), id).value);
      }
    case AddEvent(cid) =>
      if IndexOfId(Table(s, Campaign), cid).Some? && req.payload.Some? {
        AddEventKeepsValid(s, IndexOfId(Table(s, Campaign), cid).value, req.payload.value);
      }
    case SendEmail =>
  }

  /** A call to the platform model, failed or served, keeps the store's ids valid. */
  lemma SendKeepsValid(n: Net, req: Request)
    requires n.platform == Serve && ValidStore(n.store)
    ensures ValidStore(Send(n, req).0.store)
  {
    if |n.transcript| !in n.outages {
      ServeKeepsValid(n.store, req);
    }
  }

  lemma NewKeepsValid(s: Store, k: Kind, attrs: seq<(string, Json)>)
    requires ValidStore(s)
    ensures ValidStore(WithTable(s, k, Table(s, k) + [Record(s.nextId, attrs, [])]).(nextId := s.nextId + 1))
  {
    var t := Table(s, k);
    assert ValidTable(t, s.nextId);
    var t' := t + [Record(s.nextId, attrs, [])];
    assert forall i :: 0 <= i < |t| ==> t'[i] == t[i];
    ReplaceTableValid(s, k, t', s.nextId + 1);
  }

  lemma RemoveKeepsValid(s: Store, k: Kind, i: nat)
    requires ValidStore(s) && i < |Table(s, k)|
    ensures ValidStore(WithTable(s, k, Table(s, k)[..i] + Table(s, k)[i + 1..]))
  {
    var t := Table(s, k);
    assert ValidTable(t, s.nextId);
    var t' := t[..i] + t[i + 1..];
    assert forall a :: 0 <= a < |t'| ==> t'[a] == (if a < i then t[a] else t[a + 1]);
    ReplaceTableValid(s, k, t', s.nextId);
    assert WithTable(s, k, t').(nextId := s.nextId) == WithTable(s, k, t');
  }

  lemma AddEventKeepsValid(s: Store, i: nat, p: Json)
    requires ValidStore(s) && i < |Table(s, Campaign)|
    ensures var t := Table(s, Campaign);
            ValidStore(WithTable(s, Campaign, t[i := t[i].(events := t[i].events + [p])]))
  {
    var t := Table(s, Campaign);
    assert ValidTable(t, s.nextId);
    var t' := t[i := t[i].(events := t[i].events + [p])];
    ReplaceTableValid(s, Campaign, t', s.nextId);
    assert WithTable(s, Campaign, t').(nextId := s.nextId) == WithTable(s, Campaign, t');
  }

  /** One call over the network: it fails at the indices in `outages`, otherwise the platform serves it. */
  function Send(n: Net, req: Request): (r: (Net, Exchange))
    ensures r.0.transcript == n.transcript + [r.1]
    ensures r.0.outages == n.outages
    ensures r.0.platform == n.platform
    ensures r.1.request == req
  {
    if |n.transcript| in n.outages then
      var e := Exchange(req, None);
      (n.(transcript := n.transcript + [e]), e)
    else
      var (s, resp) := n.platform(n.store, req);
      var e := Exchange(req, Some(resp));
      (n.(store := s, transcript := n.transcript + [e]), e)
  }

  /** What the script's helper returns for an exchange. */
  function ResultOf(e: Exchange): Option<Json>
  {
    ApiResult(e.response)
  }

  /** `result.get(<kind>, {}).get('id')`: the id of the record a creation returned. */
  function CreatedId(result: Option<Json>, k: Kind): Json
  {
    Get(Get(OrNull(result), Singular(k)), "id")
  }

  /**
   * The id a creation returned is the `id` inside the record under the kind's singular
   * key; a missing result, or a response without that key, gives null.
   */
  lemma CreatedIdOf(result: Option<Json>, k: Kind)
    ensures result.None? ==> CreatedId(result, k) == JNull
    ensures forall entries, inner, v ::
              (result == Some(JObj(entries)) && Lookup(entries, Singular(k)) == Some(JObj(inner))
               && Lookup(inner, "id") == Some(v)) ==> CreatedId(result, k) == v
    ensures forall entries :: result == Some(JObj(entries)) && Lookup(entries, Singular(k)).None? ==> CreatedId(result, k) == JNull
  {
  }

  class Remote {
    var store: Store
    var transcript: seq<Exchange>
    const outages: set<nat>
    const platform: Platform

    constructor (initial: Store, outages: set<nat>, platform: Platform)
      ensures State() == Net(initial, [], outages, platform)
    {
      store := initial;
      transcript := [];
      this.outages := outages;
      this.platform := platform;
    }

    function State(): Net
      reads this
    {
      Net(store, transcript, outages, platform)
    }

    /** Issue one request; `None` when the transport fails. */
    method Call(req: Request) returns (response: Option<HttpResponse>)
      modifies this
      ensures Send(old(State()), req) == (State(), Exchange(req, response))
    {
      if |transcript| in outages {
        response := None;
      } else {
        var (s, resp) := platform(store, req);
        store := s;
        response := Some(resp);
      }
      transcript := transcript + [Exchange(req, response)];
    }
  }

  /** The scripts' `make_api_request`: one call, its response reduced by `ApiResult`. */
  method MakeApiRequest(remote: Remote, req: Request) returns (result: Option<Json>)
    modifies remote
    ensures remote.State() == Send(old(remote.State()), req).0
    ensures result == ResultOf(Send(old(remote.State()), req).1)
  {
    var response := remote.Call(req);
    result := ApiResult(response);
  }

  /** A served creation with the transport up adds its record and reads back its id. */
  lemma ServedCreate(n: Net, k: Kind, attrs: seq<(string, Json)>)
    requires n.platform == Serve && |n.transcript| !in n.outages
    ensures var (n1, e) := Send(n, Request(New(k), Some(JObj(attrs))));
            n1.store.nextId == n.store.nextId + 1
            && Table(n1.store, k) == Table(n.store, k) + [Record(n.store.nextId, attrs, [])]
            && (forall k' :: k' != k ==> Table(n1.store, k') == Table(n.store, k'))
            && OptTruthy(ResultOf(e)) && CreatedId(ResultOf(e), k) == JInt(n.store.nextId)
  {
    ServeNew(n.store, k, attrs);
  }

  /** A served send with the transport up changes nothing stored and reports success. */
  lemma ServedSend(n: Net, payload: Option<Json>)
    requires n.platform == Serve && |n.transcript| !in n.outages
    ensures var (n1, e) := Send(n, Request(SendEmail, payload));
            n1.store == n.store && OptTruthy(ResultOf(e))
  {
  }
}
