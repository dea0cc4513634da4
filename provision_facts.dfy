/**
 * What the creation script sends, stated over its request transcript: the calls follow
 * the fixed plan, each request computed from the results before it; the run stops at
 * the first falsy creation and nowhere else. The run lemmas hold for any payloads.
 */
module ProvisionFacts {
  import opened Wrappers
  import opened Json
  import opened Remote
  import opened Environment
  import opened Provision

  /** The results the script saw for a run of exchanges. */
  function Results(xs: seq<Exchange>): seq<Option<Json>>
  {
    seq(|xs|, i requires 0 <= i < |xs| => ResultOf(xs[i]))
  }

  /** A falsy result at a fail-fast step ends the run with exit status 1. */
  predicate Stops(i: nat, r: Option<Json>)
  {
    FailFast(i) && !OptTruthy(r)
  }

  /** Each request of `xs` is the planned one for the results before it. */
  predicate FollowsPlan(p: Payloads, results: seq<Option<Json>>, xs: seq<Exchange>)
    decreases |xs|
  {
    |results| + |xs| <= STEPS
    && (xs != [] ==> xs[0].request == PlannedRequest(p, results) && FollowsPlan(p, results + [ResultOf(xs[0])], xs[1..]))
  }

  /**
   * The stop rule over `xs`: no call but the last is a stop, the status is 1 exactly
   * when the last call is a stop, and a run that does not stop goes through to the last
   * step with status 0.
   */
  predicate EndsAtStop(results: seq<Option<Json>>, xs: seq<Exchange>, code: int)
  {
    |results| + |xs| <= STEPS
    && (forall i :: 0 <= i < |xs| - 1 ==> !Stops(|results| + i, ResultOf(xs[i])))
    && (code == 1 <==> xs != [] && Stops(|results| + |xs| - 1, ResultOf(xs[|xs| - 1])))
    && (code != 1 ==> code == 0 && |results| + |xs| == STEPS)
  }

  /** A transcript that continues `pre` with `x` splits after `pre` into `x` and the rest. */
  lemma SuffixSplit(s: seq<Exchange>, pre: seq<Exchange>, x: Exchange)
    requires |pre| < |s| && s[..|pre| + 1] == pre + [x]
    ensures s[|pre|..] == [x] + s[|pre| + 1..]
    ensures s[|pre|..][0] == x && s[|pre|..][1..] == s[|pre| + 1..]
  {
    assert s[|pre|] == s[..|pre| + 1][|pre|];
  }

  /** The run only appends to the transcript, over the same transport and platform. */
  lemma {:induction false} ProvisionExtends(n: Net, p: Payloads, results: seq<Option<Json>>)
    requires |results| <= STEPS
    ensures var m := ProvisionFrom(n, p, results).0;
      && m.outages == n.outages && m.platform == n.platform
      && |n.transcript| <= |m.transcript|
      && m.transcript[..|n.transcript|] == n.transcript
    decreases STEPS - |results|
  {
    if |results| < STEPS {
      var (n1, e) := Send(n, PlannedRequest(p, results));
      if !Stops(|results|, ResultOf(e)) {
        ProvisionExtends(n1, p, results + [ResultOf(e)]);
        var m := ProvisionFrom(n, p, results).0;
        assert m.transcript[..|n1.transcript|][..|n.transcript|] == n.transcript;
      }
    }
  }

  /** The run from any point sends the planned requests, whatever the platform answers. */
  lemma {:induction false} ProvisionPlan(n: Net, p: Payloads, results: seq<Option<Json>>)
    requires |results| <= STEPS
    ensures var m := ProvisionFrom(n, p, results).0;
      |n.transcript| <= |m.transcript| && FollowsPlan(p, results, m.transcript[|n.transcript|..])
    decreases STEPS - |results|
  {
    ProvisionExtends(n, p, results);
    if |results| < STEPS {
      var (n1, e) := Send(n, PlannedRequest(p, results));
      var r := ResultOf(e);
      var m := ProvisionFrom(n, p, results).0;
      var xs := m.transcript[|n.transcript|..];
      if Stops(|results|, r) {
        assert xs == [e];
      } else {
        ProvisionPlan(n1, p, results + [r]);
        ProvisionExtends(n1, p, results + [r]);
        SuffixSplit(m.transcript, n.transcript, e);
      }
    }
  }

  /** The `i`-th request of a planned run, from the results before it. */
  lemma {:induction false} PlanAt(p: Payloads, results: seq<Option<Json>>, xs: seq<Exchange>, i: nat)
    requires FollowsPlan(p, results, xs) && i < |xs|
    ensures |results| + i < STEPS && xs[i].request == PlannedRequest(p, results + Results(xs[..i]))
    decreases i
  {
    if i == 0 {
      assert results + Results(xs[..0]) == results;
    } else {
      PlanAt(p, results + [ResultOf(xs[0])], xs[1..], i - 1);
      ResultsShift(results, xs, i);
    }
  }

  lemma ResultsShift(results: seq<Option<Json>>, xs: seq<Exchange>, i: nat)
    requires 0 < i <= |xs|
    ensures results + [ResultOf(xs[0])] + Results(xs[1..][..i - 1]) == results + Results(xs[..i])
  {
    var a := results + [ResultOf(xs[0])] + Results(xs[1..][..i - 1]);
    var b := results + Results(xs[..i]);
    assert |a| == |b|;
    forall j | 0 <= j < |a| ensures a[j] == b[j] {
      if j > |results| {
        assert xs[1..][..i - 1][j - |results| - 1] == xs[..i][j - |results|];
      }
    }
  }

  /** The run from any point stops exactly at the first falsy creation, whatever the platform answers. */
  lemma {:induction false} ProvisionStops(n: Net, p: Payloads, results: seq<Option<Json>>)
    requires |results| <= STEPS
    ensures var (m, code) := ProvisionFrom(n, p, results);
      |n.transcript| <= |m.transcript| && EndsAtStop(results, m.transcript[|n.transcript|..], code)
    decreases STEPS - |results|
  {
    ProvisionExtends(n, p, results);
    if |results| < STEPS {
      var (n1, e) := Send(n, PlannedRequest(p, results));
      var r := ResultOf(e);
      var m := ProvisionFrom(n, p, results).0;
      var xs := m.transcript[|n.transcript|..];
      if Stops(|results|, r) {
        assert xs == [e];
      } else {
        ProvisionStops(n1, p, results + [r]);
        ProvisionExtends(n1, p, results + [r]);
        SuffixSplit(m.transcript, n.transcript, e);
        EndsAtStopCons(results, e, m.transcript[|n1.transcript|..], ProvisionFrom(n, p, results).1);
      }
    }
  }

  /** A call that is not a stop, followed by calls that end at a stop, ends at that stop. */
  lemma EndsAtStopCons(results: seq<Option<Json>>, e: Exchange, ys: seq<Exchange>, code: int)
    requires !Stops(|results|, ResultOf(e))
    requires EndsAtStop(results + [ResultOf(e)], ys, code)
    ensures EndsAtStop(results, [e] + ys, code)
  {
    var xs := [e] + ys;
    forall i | 0 <= i < |xs| - 1
      ensures !Stops(|results| + i, ResultOf(xs[i]))
    {
      if i > 0 {
        assert xs[i] == ys[i - 1];
      }
    }
    if ys != [] {
      assert xs[|xs| - 1] == ys[|ys| - 1];
    }
  }

  /** The resource each creation step makes: field, campaign, tag, three emails; the form last. */
  function CreatedKind(i: nat): Kind
  {
    if i == 0 then Field
    else if i == 1 then Campaign
    else if i == 2 then Tag
    else if i < 6 then Email
    else Form
  }

  /** The endpoint of step `i`: a creation, except that steps 6 to 8 add campaign events. */
  predicate EndpointAt(i: nat, e: Endpoint)
  {
    if 6 <= i < 9 then e.AddEvent? else e == New(CreatedKind(i))
  }

  /**
   * A run from the start, whatever the payloads and the platform: between one and ten
   * calls; it stops right after the first falsy creation, attempts every event once the
   * events are reached, and ends with status 0 exactly when all ten calls were made and
   * the form came back truthy.
   */
  lemma ProvisionCalls(n: Net, p: Payloads)
    ensures var (m, code) := ProvisionFrom(n, p, []);
      && m.outages == n.outages
      && |n.transcript| <= |m.transcript|
      && m.transcript[..|n.transcript|] == n.transcript
      && var xs := m.transcript[|n.transcript|..];
      && 1 <= |xs| <= STEPS
      && (forall i :: 0 <= i < |xs| && i < 6 && !OptTruthy(ResultOf(xs[i])) ==> |xs| == i + 1 && code == 1)
      && (|xs| > 6 ==> |xs| == STEPS)
      && (code == 0 <==> |xs| == STEPS && OptTruthy(ResultOf(xs[STEPS - 1])))
      && (code == 0 || code == 1)
  {
    ProvisionExtends(n, p, []);
    ProvisionStops(n, p, []);
  }

  /** A run from the start calls the endpoints in the fixed order, and never lists or deletes. */
  lemma ProvisionEndpoints(n: Net, p: Payloads)
    ensures var m := ProvisionFrom(n, p, []).0;
      |n.transcript| <= |m.transcript| &&
      var xs := m.transcript[|n.transcript|..];
      && (forall i :: 0 <= i < |xs| ==> EndpointAt(i, xs[i].request.endpoint))
      && (forall i :: 0 <= i < |xs| ==> !xs[i].request.endpoint.Listing? && !xs[i].request.endpoint.Remove?)
  {
    ProvisionPlan(n, p, []);
    var xs := ProvisionFrom(n, p, []).0.transcript[|n.transcript|..];
    forall i | 0 <= i < |xs|
      ensures EndpointAt(i, xs[i].request.endpoint)
    {
      PlanAt(p, [], xs, i);
    }
  }

  /** Steps 0 to 5 of a run send the fixed creation payloads. */
  lemma ProvisionPayloads(n: Net, p: Payloads)
    ensures var m := ProvisionFrom(n, p, []).0;
      |n.transcript| <= |m.transcript| &&
      var xs := m.transcript[|n.transcript|..];
      && (|xs| > 0 ==> xs[0].request == Request(New(Field), Some(p.field)))
      && (|xs| > 1 ==> xs[1].request == Request(New(Campaign), Some(p.campaign)))
      && (|xs| > 2 ==> xs[2].request == Request(New(Tag), Some(p.tag)))
      && (|xs| > 3 ==> xs[3].request == Request(New(Email), Some(p.email1)))
      && (|xs| > 4 ==> xs[4].request == Request(New(Email), Some(p.email2)))
      && (|xs| > 5 ==> xs[5].request == Request(New(Email), Some(p.email3)))
  {
    ProvisionPlan(n, p, []);
    var xs := ProvisionFrom(n, p, []).0.transcript[|n.transcript|..];
    forall i | 0 <= i < |xs| && i < 6
      ensures xs[i].request == PlannedRequest(p, Results(xs[..i]))
    {
      PlanAt(p, [], xs, i);
      assert [] + Results(xs[..i]) == Results(xs[..i]);
    }
  }

  /**
   * How a run threads ids into the events: each event goes to the campaign created at
   * step 1 and sends the email created three steps before it, after `i - 6` days.
   */
  lemma ProvisionEvents(n: Net, p: Payloads)
    ensures var m := ProvisionFrom(n, p, []).0;
      |n.transcript| <= |m.transcript| &&
      var xs := m.transcript[|n.transcript|..];
      forall i :: 6 <= i < |xs| && i < 9 ==>
        xs[i].request == Request(AddEvent(CreatedId(ResultOf(xs[1]), Campaign)),
                                 Some(p.event(i - 6, CreatedId(ResultOf(xs[i - 3]), Email))))
  {
    ProvisionPlan(n, p, []);
    var xs := ProvisionFrom(n, p, []).0.transcript[|n.transcript|..];
    forall i | 6 <= i < |xs| && i < 9
      ensures xs[i].request == Request(AddEvent(CreatedId(ResultOf(xs[1]), Campaign)),
                                       Some(p.event(i - 6, CreatedId(ResultOf(xs[i - 3]), Email))))
    {
      PlannedEvent(p, xs, i);
    }
  }

  lemma PlannedEvent(p: Payloads, xs: seq<Exchange>, i: nat)
    requires FollowsPlan(p, [], xs) && 6 <= i < |xs| && i < 9
    ensures xs[i].request == Request(AddEvent(CreatedId(ResultOf(xs[1]), Campaign)),
                                     Some(p.event(i - 6, CreatedId(ResultOf(xs[i - 3]), Email))))
  {
    PlanAt(p, [], xs, i);
    var rs := [] + Results(xs[..i]);
    EventRequest(p, rs, i - 6);
    assert rs[1] == ResultOf(xs[1]) && rs[i - 3] == ResultOf(xs[i - 3]);
  }

  /** The form of a complete run adds its submitters to the campaign created at step 1. */
  lemma ProvisionForm(n: Net, p: Payloads)
    ensures var m := ProvisionFrom(n, p, []).0;
      |n.transcript| <= |m.transcript| &&
      var xs := m.transcript[|n.transcript|..];
      |xs| == STEPS ==> xs[9].request == Request(New(Form), Some(p.form(CreatedId(ResultOf(xs[1]), Campaign))))
  {
    ProvisionPlan(n, p, []);
    var xs := ProvisionFrom(n, p, []).0.transcript[|n.transcript|..];
    if |xs| == STEPS {
      PlanAt(p, [], xs, 9);
      var rs := [] + Results(xs[..9]);
      assert rs[1] == ResultOf(xs[1]);
    }
  }

  /** How many of the steps from `i` on create a resource of kind `k`. */
  function Creations(k: Kind, i: nat): nat
  {
    match k
    case Field => if i == 0 then 1 else 0
    case Campaign => if i <= 1 then 1 else 0
    case Tag => if i <= 2 then 1 else 0
    case Email => if i <= 3 then 3 else if i < 6 then 6 - i else 0
    case Form => if i <= 9 then 1 else 0
    case Contact => 0
  }

  /** Step `i` creates a `k` exactly when it is a creation step of that kind. */
  lemma CreationsStep(k: Kind, i: nat)
    requires i < STEPS
    ensures Creations(k, i) == (if FailFast(i) && CreatedKind(i) == k then 1 else 0) + Creations(k, i + 1)
  {
  }

  /** On the platform model, a creation with an object payload adds one record and answers with it. */
  lemma ServeCreates(s: Store, k: Kind, attrs: seq<(string, Json)>)
    ensures var (s', resp) := Serve(s, Request(New(k), Some(JObj(attrs))));
      && OptTruthy(ApiResult(Some(resp)))
      && forall k' :: |Table(s', k')| == |Table(s, k')| + (if k' == k then 1 else 0)
  {
    var s' := Serve(s, Request(New(k), Some(JObj(attrs)))).0;
    forall k' ensures |Table(s', k')| == |Table(s, k')| + (if k' == k then 1 else 0) {
      if k' != k {
        assert Table(s', k') == Table(s, k');
      }
    }
  }

  /** On the platform model, adding a campaign event changes no table's size. */
  lemma ServeAddEventSizes(s: Store, cid: Json, payload: Option<Json>)
    ensures forall k :: |Table(Serve(s, Request(AddEvent(cid), payload)).0, k)| == |Table(s, k)|
  {
    var s' := Serve(s, Request(AddEvent(cid), payload)).0;
    forall k ensures |Table(s', k)| == |Table(s, k)| {
      if k != Campaign {
        assert Table(s', k) == Table(s, k);
      }
    }
  }

  /** Payloads whose creations are JSON objects, as the platform requires. */
  ghost predicate ObjectPayloads(p: Payloads)
  {
    p.field.JObj? && p.campaign.JObj? && p.tag.JObj? && p.email1.JObj? && p.email2.JObj? && p.email3.JObj?
    && forall c :: p.form(c).JObj?
  }

  /**
   * On the platform model with the transport up, a run goes through to status 0 and
   * adds one record per creation step, whatever the platform already stores.
   */
  lemma {:induction false} ServedRun(n: Net, p: Payloads, results: seq<Option<Json>>)
    requires |results| <= STEPS
    requires n.platform == Serve && ObjectPayloads(p)
    requires forall j :: |n.transcript| <= j < |n.transcript| + STEPS - |results| ==> j !in n.outages
    ensures ProvisionFrom(n, p, results).1 == 0
    ensures forall k :: |Table(ProvisionFrom(n, p, results).0.store, k)| == |Table(n.store, k)| + Creations(k, |results|)
    decreases STEPS - |results|
  {
    if |results| < STEPS {
      var (n1, e) := Send(n, PlannedRequest(p, results));
      var i := |results|;
      assert |n.transcript| !in n.outages;
      ServedStep(n, p, results);
      ServedRun(n1, p, results + [ResultOf(e)]);
      forall k ensures Creations(k, i) == (if FailFast(i) && CreatedKind(i) == k then 1 else 0) + Creations(k, i + 1) {
        CreationsStep(k, i);
      }
    }
  }

  /** One served call of a run: a creation adds one record of its kind, an event add none. */
  lemma ServedStep(n: Net, p: Payloads, results: seq<Option<Json>>)
    requires |results| < STEPS
    requires n.platform == Serve && ObjectPayloads(p) && |n.transcript| !in n.outages
    ensures var (n1, e) := Send(n, PlannedRequest(p, results));
      && (FailFast(|results|) ==> OptTruthy(ResultOf(e)))
      && forall k :: |Table(n1.store, k)| == |Table(n.store, k)| + (if FailFast(|results|) && CreatedKind(|results|) == k then 1 else 0)
  {
    var req := PlannedRequest(p, results);
    var i := |results|;
    if FailFast(i) {
      assert req.endpoint == New(CreatedKind(i)) && req.payload.Some? && req.payload.value.JObj?;
      ServeCreates(n.store, CreatedKind(i), req.payload.value.entries);
    } else {
      ServeAddEventSizes(n.store, req.endpoint.campaign, req.payload);
    }
  }

  lemma ScriptPayloads()
    ensures ObjectPayloads(PAYLOADS)
  {
  }

  /**
   * The script does not look for what exists: on the platform model with the transport
   * up, every run with credentials exits 0 and adds another field, campaign, tag and
   * form and three more emails, so a second run duplicates the first.
   */
  lemma CreationDuplicates(env: Env, n: Net)
    requires HasCredentials(env) && n.platform == Serve
    requires forall j :: |n.transcript| <= j < |n.transcript| + STEPS ==> j !in n.outages
    ensures var (m, code) := CreationRun(env, n);
      && code == 0
      && |Table(m.store, Field)| == |Table(n.store, Field)| + 1
      && |Table(m.store, Campaign)| == |Table(n.store, Campaign)| + 1
      && |Table(m.store, Tag)| == |Table(n.store, Tag)| + 1
      && |Table(m.store, Email)| == |Table(n.store, Email)| + 3
      && |Table(m.store, Form)| == |Table(n.store, Form)| + 1
  {
    ScriptPayloads();
    ServedRunCounts(n, PAYLOADS);
  }

  /** A whole served run adds one field, campaign, tag and form and three emails. */
  lemma ServedRunCounts(n: Net, p: Payloads)
    requires n.platform == Serve && ObjectPayloads(p)
    requires forall j :: |n.transcript| <= j < |n.transcript| + STEPS ==> j !in n.outages
    ensures var (m, code) := ProvisionFrom(n, p, []);
      && code == 0
      && |Table(m.store, Field)| == |Table(n.store, Field)| + 1
      && |Table(m.store, Campaign)| == |Table(n.store, Campaign)| + 1
      && |Table(m.store, Tag)| == |Table(n.store, Tag)| + 1
      && |Table(m.store, Email)| == |Table(n.store, Email)| + 3
      && |Table(m.store, Form)| == |Table(n.store, Form)| + 1
  {
    ServedRun(n, p, []);
  }
}
