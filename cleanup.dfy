/**
 * The teardown script: resolve each provisioned resource by its natural key and delete
 * it when found. Every step is attempted; a failed lookup reads as "absent" and a
 * failed delete does not stop the later steps.
 */
module Cleanup {
  import opened Wrappers
  import opened Json
  import opened Remote
  import opened Environment

  const CUSTOM_FIELD_ALIAS: string := "profissao"
  const EMAIL_NAMES: seq<string> := [
    "Bem-vindo ao Método Superare - D+0",
    "Método Superare - Fundamentos - D+1",
    "Método Superare - Aplicação Prática - D+2"
  ]
  const CAMPAIGN_NAME: string := "LancamentoSemente1"
  const TAG_NAME: string := "Semente1"
  const FORM_NAME: string := "LeadLandingPageForm"

  function ListRequest(k: Kind): Request
  {
    Request(Listing(k), None)
  }

  function DeleteRequest(k: Kind, id: Json): Request
  {
    Request(Remove(k, id), None)
  }

  /** `item.get(attr) == key`: exact, case-sensitive equality with a string. */
  predicate Matches(item: Json, attr: string, key: string)
  {
    Get(item, attr) == JStr(key)
  }

  /** Position of the first matching item. */
  function FirstIndex(items: seq<Json>, attr: string, key: string): (r: Option<nat>)
    ensures r.Some? ==> r.value < |items| && Matches(items[r.value], attr, key)
    ensures r.Some? ==> forall j :: 0 <= j < r.value ==> !Matches(items[j], attr, key)
    ensures r.None? <==> forall j :: 0 <= j < |items| ==> !Matches(items[j], attr, key)
  {
    if items == [] then None
    else if Matches(items[0], attr, key) then Some(0)
    else match FirstIndex(items[1..], attr, key)
      case None => None
      case Some(i) => Some(i + 1)
  }

  /** The id of the first matching item; `None` when nothing matches. */
  function FirstMatchId(items: seq<Json>, attr: string, key: string): (id: Json)
    ensures (forall j :: 0 <= j < |items| ==> !Matches(items[j], attr, key)) ==> id == JNull
    ensures forall i :: (0 <= i < |items| && Matches(items[i], attr, key)
              && (forall j :: 0 <= j < i ==> !Matches(items[j], attr, key))) ==> id == Get(items[i], "id")
  {
    match FirstIndex(items, attr, key)
    case Some(k) =>
      assert forall i :: (0 <= i < |items| && Matches(items[i], attr, key)
        && (forall j :: 0 <= j < i ==> !Matches(items[j], attr, key))) ==> i == k;
      Get(items[k], "id")
    case None => JNull
  }

  /** `response[collection]` for a truthy response holding `collection` as a list. */
  function Listed(listing: Option<Json>, collection: string): Option<seq<Json>>
  {
    if OptTruthy(listing) && listing.value.JObj? then
      match Lookup(listing.value.entries, collection)
      case Some(JArr(items)) => Some(items)
      case _ => None
    else None
  }

  /** `response['fields'].values()` for a truthy response holding a `fields` mapping. */
  function FieldValues(listing: Option<Json>): Option<seq<Json>>
  {
    if OptTruthy(listing) && listing.value.JObj? then
      match Lookup(listing.value.entries, "fields")
      case Some(JObj(entries)) => Some(Values(entries))
      case _ => None
    else None
  }

  /**
   * `get_email_id_by_name`, `get_campaign_id_by_name`, `get_tag_id_by_name` and
   * `get_form_id_by_name` after their listing call: the id of the first listed element
   * whose `attr` equals `key`.
   */
  function IdByName(listing: Option<Json>, collection: string, attr: string, key: string): (id: Json)
    ensures listing.None? ==> id == JNull
    ensures Listed(listing, collection).None? ==> id == JNull
    ensures forall items :: (Listed(listing, collection) == Some(items)
              && (forall j :: 0 <= j < |items| ==> !Matches(items[j], attr, key))) ==> id == JNull
    ensures forall items, i :: Listed(listing, collection) == Some(items) && 0 <= i < |items|
              && Matches(items[i], attr, key) && (forall j :: 0 <= j < i ==> !Matches(items[j], attr, key))
              ==> id == Get(items[i], "id")
  {
    match Listed(listing, collection)
    case Some(items) => FirstMatchId(items, attr, key)
    case None => JNull
  }

  /** The field lookup: the id of the first value of the `fields` mapping whose `alias` is `alias`. */
  function FieldIdByAlias(listing: Option<Json>, alias: string): (id: Json)
  {
    match FieldValues(listing)
    case Some(values) => FirstMatchId(values, "alias", alias)
    case None => JNull
  }

  /** The loop over the listed fields, which stops at the first field with the wanted alias. */
  method FindFieldId(fieldsResponse: Option<Json>) returns (fieldId: Json)
    ensures fieldId == FieldIdByAlias(fieldsResponse, CUSTOM_FIELD_ALIAS)
    ensures FieldValues(fieldsResponse).None? ==> fieldId == JNull
    ensures forall values, i :: FieldValues(fieldsResponse) == Some(values) && 0 <= i < |values|
              && Matches(values[i], "alias", CUSTOM_FIELD_ALIAS)
              && (forall j :: 0 <= j < i ==> !Matches(values[j], "alias", CUSTOM_FIELD_ALIAS))
              ==> fieldId == Get(values[i], "id")
  {
    fieldId := JNull;
    if FieldValues(fieldsResponse).Some? {
      var values := FieldValues(fieldsResponse).value;
      var i := 0;
      while i < |values|
        invariant 0 <= i <= |values|
        invariant fieldId == JNull
        invariant forall j :: 0 <= j < i ==> !Matches(values[j], "alias", CUSTOM_FIELD_ALIAS)
      {
        if Get(values[i], "alias") == JStr(CUSTOM_FIELD_ALIAS) {
          fieldId := Get(values[i], "id");
          break;
        }
        i := i + 1;
      }
    }
  }

  /** A resource to tear down: its kind and its natural key. */
  datatype Probe = Probe(kind: Kind, key: string)

  /** The attribute holding the natural key: `alias` for fields, `tag` for tags, `name` otherwise. */
  function KeyAttr(k: Kind): string
  {
    match k
    case Field => "alias"
    case Tag => "tag"
    case _ => "name"
  }

  /** One step per name, all of the same kind, in list order. */
  function NamedProbes(kind: Kind, names: seq<string>): seq<Probe>
  {
    seq(|names|, i requires 0 <= i < |names| => Probe(kind, names[i]))
  }

  const FIELD_PROBE := Probe(Field, CUSTOM_FIELD_ALIAS)
  const CAMPAIGN_PROBE := Probe(Campaign, CAMPAIGN_NAME)
  const TAG_PROBE := Probe(Tag, TAG_NAME)
  const FORM_PROBE := Probe(Form, FORM_NAME)

  /** The teardown steps in script order: field, the three emails, campaign, tag, form. */
  const PROBES: seq<Probe> :=
    [FIELD_PROBE] + NamedProbes(Email, EMAIL_NAMES) + [CAMPAIGN_PROBE, TAG_PROBE, FORM_PROBE]

  /** The id a probe's lookup yields from its listing result. */
  function Resolve(p: Probe, listing: Option<Json>): Json
  {
    if p.kind == Field then FieldIdByAlias(listing, p.key)
    else IdByName(listing, Plural(p.kind), KeyAttr(p.kind), p.key)
  }

  /** One teardown step: list, look up, and delete only when a truthy id was found. */
  function ProbeStep(n: Net, p: Probe): Net
  {
    var (n1, listed) := Send(n, ListRequest(p.kind));
    var id := Resolve(p, ResultOf(listed));
    if Truthy(id) then Send(n1, DeleteRequest(p.kind, id)).0 else n1
  }

  /** The state after running the given teardown steps in order. */
  function TeardownFrom(n: Net, probes: seq<Probe>): Net
    decreases |probes|
  {
    if probes == [] then n
    else ProbeStep(TeardownFrom(n, probes[..|probes| - 1]), probes[|probes| - 1])
  }

  /** The whole script: the credential check, then every teardown step; it exits 0 once it gets going. */
  function CleanupRun(env: Env, n: Net): (Net, int)
  {
    if !HasCredentials(env) then (n, 1) else (TeardownFrom(n, PROBES), 0)
  }

  /** Running one more step extends the teardown by that step. */
  lemma TeardownAppend(n: Net, ps: seq<Probe>, p: Probe)
    ensures TeardownFrom(n, ps + [p]) == ProbeStep(TeardownFrom(n, ps), p)
  {
    assert (ps + [p])[..|ps|] == ps;
  }

  /** A lookup function followed by its listing call. */
  method GetIdByName(remote: Remote, kind: Kind, name: string) returns (id: Json)
    modifies remote
    ensures remote.State() == Send(old(remote.State()), ListRequest(kind)).0
    ensures id == IdByName(ResultOf(Send(old(remote.State()), ListRequest(kind)).1), Plural(kind), KeyAttr(kind), name)
  {
    var response := MakeApiRequest(remote, ListRequest(kind));
    id := IdByName(response, Plural(kind), KeyAttr(kind), name);
  }

  /** The custom-field section: list fields, find the alias, delete when found. */
  method DeleteCustomField(remote: Remote)
    modifies remote
    ensures remote.State() == ProbeStep(old(remote.State()), FIELD_PROBE)
  {
    var fieldsResponse := MakeApiRequest(remote, ListRequest(Field));
    var fieldId := FindFieldId(fieldsResponse);
    if Truthy(fieldId) {
      var delResult := MakeApiRequest(remote, DeleteRequest(Field, fieldId));
    }
  }

  /** The section repeated for each email, the campaign, the tag and the form. */
  method DeleteByName(remote: Remote, kind: Kind, name: string)
    requires kind != Field
    modifies remote
    ensures remote.State() == ProbeStep(old(remote.State()), Probe(kind, name))
  {
    var id := GetIdByName(remote, kind, name);
    if Truthy(id) {
      var delResult := MakeApiRequest(remote, DeleteRequest(kind, id));
    }
  }

  /** Running steps `ps` and then steps `qs` is running `ps + qs`. */
  lemma {:induction false} TeardownSplit(n: Net, ps: seq<Probe>, qs: seq<Probe>)
    ensures TeardownFrom(n, ps + qs) == TeardownFrom(TeardownFrom(n, ps), qs)
    decreases |qs|
  {
    if qs == [] {
      assert ps + qs == ps;
    } else {
      var front := qs[..|qs| - 1];
      TeardownSplit(n, ps, front);
      assert (ps + qs)[..|ps + qs| - 1] == ps + front;
    }
  }

  /** One step, a run of steps and three more steps make up the teardown of them all. */
  lemma TeardownSections(p0: Probe, es: seq<Probe>, p4: Probe, p5: Probe, p6: Probe,
                         n0: Net, n1: Net, n4: Net, n5: Net, n6: Net, n7: Net)
    requires n1 == ProbeStep(n0, p0)
    requires n4 == TeardownFrom(n1, es)
    requires n5 == ProbeStep(n4, p4)
    requires n6 == ProbeStep(n5, p5)
    requires n7 == ProbeStep(n6, p6)
    ensures n7 == TeardownFrom(n0, [p0] + es + [p4, p5, p6])
  {
    TeardownAppend(n0, [], p0);
    assert [] + [p0] == [p0];
    TeardownSplit(n0, [p0], es);
    var ys := [p0] + es;
    TeardownAppend(n0, ys, p4);
    TeardownAppend(n0, ys + [p4], p5);
    TeardownAppend(n0, ys + [p4] + [p5], p6);
    SnocThree(ys, p4, p5, p6);
  }

  lemma SnocThree(ys: seq<Probe>, a: Probe, b: Probe, c: Probe)
    ensures ys + [a] + [b] + [c] == ys + [a, b, c]
  {
  }

  /** A loop of sections, one per name, over resources of one kind. */
  method DeleteEachByName(remote: Remote, kind: Kind, names: seq<string>)
    requires kind != Field
    modifies remote
    ensures remote.State() == TeardownFrom(old(remote.State()), NamedProbes(kind, names))
  {
    ghost var n0 := remote.State();
    ghost var ps := NamedProbes(kind, names);
    for i := 0 to |names|
      invariant remote.State() == TeardownFrom(n0, ps[..i])
    {
      DeleteByName(remote, kind, names[i]);
      assert ps[..i + 1] == ps[..i] + [ps[i]];
      TeardownAppend(n0, ps[..i], ps[i]);
    }
    assert ps[..|names|] == ps;
  }

  /** The script's entry point. */
  method CleanupPreConfiguredData(env: Env, remote: Remote) returns (exitCode: int)
    modifies remote
    ensures (remote.State(), exitCode) == CleanupRun(env, old(remote.State()))
  {
    if !HasCredentials(env) {
      return 1;
    }
    ghost var n0 := remote.State();
    DeleteCustomField(remote);
    ghost var n1 := remote.State();
    DeleteEachByName(remote, Email, EMAIL_NAMES);
    ghost var n4 := remote.State();
    DeleteByName(remote, Campaign, CAMPAIGN_NAME);
    ghost var n5 := remote.State();
    DeleteByName(remote, Tag, TAG_NAME);
    ghost var n6 := remote.State();
    DeleteByName(remote, Form, FORM_NAME);
    TeardownSections(FIELD_PROBE, NamedProbes(Email, EMAIL_NAMES), CAMPAIGN_PROBE, TAG_PROBE, FORM_PROBE,
                     n0, n1, n4, n5, n6, remote.State());
    return 0;
  }
}
