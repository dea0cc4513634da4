/**
 * What the teardown script does to the platform, stated over its request transcript
 * and over the platform's store.
 */
module CleanupFacts {
  import opened Wrappers
  import opened Json
  import opened Remote
  import opened Environment
  import opened Cleanup

  /** The exchanges of one teardown step: its listing, then a delete exactly when the lookup found a truthy id. */
  predicate StepTrace(p: Probe, xs: seq<Exchange>)
  {
    |xs| >= 1 && xs[0].request == ListRequest(p.kind)
    && var id := Resolve(p, ResultOf(xs[0]));
       if Truthy(id) then |xs| == 2 && xs[1].request == DeleteRequest(p.kind, id) else |xs| == 1
  }

  /** `xs` splits into one step trace per probe, in the probes' order. */
  predicate Trace(ps: seq<Probe>, xs: seq<Exchange>)
    decreases |ps|
  {
    if ps == [] then xs == []
    else
      var p := ps[|ps| - 1];
      (|xs| >= 1 && Trace(ps[..|ps| - 1], xs[..|xs| - 1]) && StepTrace(p, xs[|xs| - 1..]))
      || (|xs| >= 2 && Trace(ps[..|ps| - 1], xs[..|xs| - 2]) && StepTrace(p, xs[|xs| - 2..]))
  }

  /** The kinds of the listing requests, in order. */
  function ListedKinds(xs: seq<Exchange>): seq<Kind>
    decreases |xs|
  {
    if xs == [] then []
    else ListedKinds(xs[..|xs| - 1]) + (match xs[|xs| - 1].request.endpoint case Listing(k) => [k] case _ => [])
  }

  /** The kind of each step, in step order. */
  function Kinds(ps: seq<Probe>): seq<Kind>
  {
    seq(|ps|, i requires 0 <= i < |ps| => ps[i].kind)
  }

  /** A step never fails as a whole: whatever the responses, its calls follow the step's pattern. */
  lemma ProbeStepTrace(n: Net, p: Probe)
    ensures ProbeStep(n, p).outages == n.outages
    ensures |n.transcript| < |ProbeStep(n, p).transcript|
    ensures ProbeStep(n, p).transcript[..|n.transcript|] == n.transcript
    ensures StepTrace(p, ProbeStep(n, p).transcript[|n.transcript|..])
  {
    var (n1, listed) := Send(n, ListRequest(p.kind));
    var id := Resolve(p, ResultOf(listed));
    var m := ProbeStep(n, p);
    var xs := m.transcript[|n.transcript|..];
    assert xs[0] == listed;
    if Truthy(id) {
      var (n2, deleted) := Send(n1, DeleteRequest(p.kind, id));
      assert m.transcript == n.transcript + [listed, deleted];
      assert xs == [listed, deleted];
    } else {
      assert xs == [listed];
    }
  }

  /**
   * Best effort: every step is attempted, in order, whatever the responses; each step
   * lists its kind and deletes only the truthy id its lookup found.
   */
  lemma {:induction false} TeardownTrace(n: Net, ps: seq<Probe>)
    ensures TeardownFrom(n, ps).outages == n.outages
    ensures |n.transcript| <= |TeardownFrom(n, ps).transcript|
    ensures TeardownFrom(n, ps).transcript[..|n.transcript|] == n.transcript
    ensures Trace(ps, TeardownFrom(n, ps).transcript[|n.transcript|..])
    decreases |ps|
  {
    if ps != [] {
      var front := ps[..|ps| - 1];
      var p := ps[|ps| - 1];
      var mid := TeardownFrom(n, front);
      TeardownTrace(n, front);
      ProbeStepTrace(mid, p);
      var m := ProbeStep(mid, p);
      assert m == TeardownFrom(n, ps);
      TranscriptExtends(n.transcript, mid.transcript, m.transcript);
      TraceAppend(ps, mid.transcript[|n.transcript|..], m.transcript[|mid.transcript|..]);
    }
  }

  /** Two transcripts that each extend the one before: the last extends the first, by both additions. */
  lemma TranscriptExtends(t0: seq<Exchange>, t1: seq<Exchange>, t2: seq<Exchange>)
    requires |t0| <= |t1| <= |t2| && t1[..|t0|] == t0 && t2[..|t1|] == t1
    ensures t2[..|t0|] == t0 && t2[|t0|..] == t1[|t0|..] + t2[|t1|..]
  {
    assert t2[..|t0|] == t2[..|t1|][..|t0|];
    assert t2[|t0|..] == t2[..|t1|][|t0|..] + t2[|t1|..];
  }

  /** One more step's exchanges after a trace of the steps before make a trace of them all. */
  lemma TraceAppend(ps: seq<Probe>, before: seq<Exchange>, step: seq<Exchange>)
    requires ps != [] && Trace(ps[..|ps| - 1], before) && StepTrace(ps[|ps| - 1], step)
    ensures Trace(ps, before + step)
  {
    var xs := before + step;
    assert xs[..|before|] == before && xs[|before|..] == step;
    if |step| == 1 {
      assert xs[..|xs| - 1] == before && xs[|xs| - 1..] == step;
    } else {
      assert xs[..|xs| - 2] == before && xs[|xs| - 2..] == step;
    }
  }

  lemma {:induction false} ListedKindsAppend(xs: seq<Exchange>, ys: seq<Exchange>)
    ensures ListedKinds(xs + ys) == ListedKinds(xs) + ListedKinds(ys)
    decreases |ys|
  {
    if ys == [] {
      assert xs + ys == xs;
    } else {
      var front := ys[..|ys| - 1];
      ListedKindsAppend(xs, front);
      assert (xs + ys)[..|xs + ys| - 1] == xs + front;
    }
  }

  /** The request pattern of one step, without the lookup: a listing, then possibly one delete. */
  predicate StepShape(p: Probe, xs: seq<Exchange>)
  {
    |xs| >= 1 && xs[0].request == ListRequest(p.kind)
    && ((|xs| == 2 && xs[1].request.endpoint.Remove?) || |xs| == 1)
  }

  lemma StepTraceShape(p: Probe, xs: seq<Exchange>)
    requires StepTrace(p, xs)
    ensures StepShape(p, xs)
  {
  }

  lemma StepListedKinds(p: Probe, xs: seq<Exchange>)
    requires StepShape(p, xs)
    ensures ListedKinds(xs) == [p.kind]
  {
    assert xs[..1][..0] == [];
    if |xs| == 2 {
      assert xs[..1] == [xs[0]];
    } else {
      assert xs == [xs[0]];
    }
  }

  /** `xs` splits into one step shape per probe, in the probes' order. */
  predicate Shaped(ps: seq<Probe>, xs: seq<Exchange>)
    decreases |ps|
  {
    if ps == [] then xs == []
    else
      var p := ps[|ps| - 1];
      (|xs| >= 1 && Shaped(ps[..|ps| - 1], xs[..|xs| - 1]) && StepShape(p, xs[|xs| - 1..]))
      || (|xs| >= 2 && Shaped(ps[..|ps| - 1], xs[..|xs| - 2]) && StepShape(p, xs[|xs| - 2..]))
  }

  lemma {:induction false} TraceShaped(ps: seq<Probe>, xs: seq<Exchange>)
    requires Trace(ps, xs)
    ensures Shaped(ps, xs)
    decreases |ps|
  {
    if ps != [] {
      var p := ps[|ps| - 1];
      if |xs| >= 1 && Trace(ps[..|ps| - 1], xs[..|xs| - 1]) && StepTrace(p, xs[|xs| - 1..]) {
        TraceShaped(ps[..|ps| - 1], xs[..|xs| - 1]);
        StepTraceShape(p, xs[|xs| - 1..]);
      } else {
        TraceShaped(ps[..|ps| - 1], xs[..|xs| - 2]);
        StepTraceShape(p, xs[|xs| - 2..]);
      }
    }
  }

  /** A shaped transcript lists each step's kind exactly once and in order; it has one or two calls per step. */
  lemma {:induction false} ShapedListings(ps: seq<Probe>, xs: seq<Exchange>)
    requires Shaped(ps, xs)
    ensures ListedKinds(xs) == Kinds(ps)
    ensures |ps| <= |xs| <= 2 * |ps|
    decreases |ps|
  {
    if ps != [] {
      var front := ps[..|ps| - 1];
      var p := ps[|ps| - 1];
      var c := if |xs| >= 1 && Shaped(front, xs[..|xs| - 1]) && StepShape(p, xs[|xs| - 1..])
               then |xs| - 1 else |xs| - 2;
      ShapedListings(front, xs[..c]);
      ListingsStep(ps, xs, c);
    }
  }

  /** The listings of the steps before `c`, then one more step's shape from `c`, are the listings of all steps. */
  lemma ListingsStep(ps: seq<Probe>, xs: seq<Exchange>, c: nat)
    requires ps != [] && c <= |xs|
    requires ListedKinds(xs[..c]) == Kinds(ps[..|ps| - 1]) && |ps| - 1 <= c <= 2 * (|ps| - 1)
    requires StepShape(ps[|ps| - 1], xs[c..])
    ensures ListedKinds(xs) == Kinds(ps) && |ps| <= |xs| <= 2 * |ps|
  {
    StepListedKinds(ps[|ps| - 1], xs[c..]);
    assert xs == xs[..c] + xs[c..];
    ListedKindsAppend(xs[..c], xs[c..]);
    KindsSnoc(ps);
  }

  lemma KindsSnoc(ps: seq<Probe>)
    requires ps != []
    ensures Kinds(ps) == Kinds(ps[..|ps| - 1]) + [ps[|ps| - 1].kind]
  {
  }

  /** The teardown's kinds, in script order. */
  lemma ProbeKinds()
    ensures Kinds(PROBES) == [Field, Email, Email, Email, Campaign, Tag, Form]
  {
    assert |PROBES| == 7;
    assert PROBES[1..4] == NamedProbes(Email, EMAIL_NAMES);
  }

  /**
   * The script: without credentials it exits 1 having sent nothing; otherwise it exits 0
   * after listing field, the three emails, campaign, tag and form in that order.
   */
  lemma CleanupCalls(env: Env, n: Net)
    ensures !HasCredentials(env) ==> CleanupRun(env, n) == (n, 1)
    ensures HasCredentials(env) ==> CleanupRun(env, n).1 == 0
    ensures HasCredentials(env) ==>
      var m := CleanupRun(env, n).0;
      && m.outages == n.outages
      && |n.transcript| <= |m.transcript|
      && m.transcript[..|n.transcript|] == n.transcript
      && Trace(PROBES, m.transcript[|n.transcript|..])
      && ListedKinds(m.transcript[|n.transcript|..]) == [Field, Email, Email, Email, Campaign, Tag, Form]
      && 7 <= |m.transcript| - |n.transcript| <= 14
  {
    if HasCredentials(env) {
      TeardownTrace(n, PROBES);
      var m := TeardownFrom(n, PROBES);
      TraceShaped(PROBES, m.transcript[|n.transcript|..]);
      ShapedListings(PROBES, m.transcript[|n.transcript|..]);
      ProbeKinds();
    }
  }

  /** A stored record carries the probe's natural key. */
  predicate HasKey(r: Record, p: Probe)
  {
    Lookup(r.attrs, KeyAttr(p.kind)) == Some(JStr(p.key))
  }

  /** A listing holds the records' renderings under the kind's collection key. */
  lemma ListingItems(k: Kind, t: seq<Record>)
    ensures k == Field ==> FieldValues(Some(ListingBody(k, t))) == Some(RecordsJson(t))
    ensures k != Field ==> Listed(Some(ListingBody(k, t)), Plural(k)) == Some(RecordsJson(t))
  {
    if k == Field {
      FieldListingItems(t);
    } else {
      NamedListingItems(k, t);
    }
  }

  lemma FieldListingItems(t: seq<Record>)
    ensures FieldValues(Some(ListingBody(Field, t))) == Some(RecordsJson(t))
  {
    var entries := ListingBody(Field, t).entries;
    assert entries[1..][0] == entries[1];
    assert Lookup(entries[1..], "fields") == Some(JObj(KeyedById(t)));
    assert Values(KeyedById(t)) == RecordsJson(t);
  }

  lemma NamedListingItems(k: Kind, t: seq<Record>)
    requires k != Field
    ensures Listed(Some(ListingBody(k, t)), Plural(k)) == Some(RecordsJson(t))
  {
    var entries := ListingBody(k, t).entries;
    assert entries[1..][0] == entries[1];
    assert Plural(k) != "total" by {
      assert Plural(k)[0] != 't' || Plural(k)[1] != 'o';
    }
    assert Lookup(entries[1..], Plural(k)) == Some(JArr(RecordsJson(t)));
  }

  /** The lookup over a successful listing finds the first record with the key, by its id. */
  lemma ResolveListing(p: Probe, t: seq<Record>)
    ensures (forall i :: 0 <= i < |t| ==> !HasKey(t[i], p)) ==> Resolve(p, Some(ListingBody(p.kind, t))) == JNull
    ensures forall i :: 0 <= i < |t| && HasKey(t[i], p) && (forall j :: 0 <= j < i ==> !HasKey(t[j], p))
              ==> Resolve(p, Some(ListingBody(p.kind, t))) == JInt(t[i].id)
  {
    ResolveItems(p, t);
    ItemsMatch(p, t);
    FirstMatchRecord(RecordsJson(t), KeyAttr(p.kind), p, t);
  }

  /** When items mirror records, the first matching item is the first record with the key. */
  lemma FirstMatchRecord(items: seq<Json>, attr: string, p: Probe, t: seq<Record>)
    requires |items| == |t|
    requires forall i :: 0 <= i < |t| ==>
               (Matches(items[i], attr, p.key) <==> HasKey(t[i], p)) && Get(items[i], "id") == JInt(t[i].id)
    ensures (forall i :: 0 <= i < |t| ==> !HasKey(t[i], p)) ==> FirstMatchId(items, attr, p.key) == JNull
    ensures forall i :: 0 <= i < |t| && HasKey(t[i], p) && (forall j :: 0 <= j < i ==> !HasKey(t[j], p))
              ==> FirstMatchId(items, attr, p.key) == JInt(t[i].id)
  {
    forall i | 0 <= i < |t| && HasKey(t[i], p) && (forall j :: 0 <= j < i ==> !HasKey(t[j], p))
      ensures FirstMatchId(items, attr, p.key) == JInt(t[i].id)
    {
      assert Matches(items[i], attr, p.key);
      assert forall j :: 0 <= j < i ==> !Matches(items[j], attr, p.key);
    }
  }

  /** On a successful listing, a step's lookup is the first match among the rendered records. */
  lemma ResolveItems(p: Probe, t: seq<Record>)
    ensures Resolve(p, Some(ListingBody(p.kind, t))) == FirstMatchId(RecordsJson(t), KeyAttr(p.kind), p.key)
  {
    ListingItems(p.kind, t);
  }

  /** Each listed item matches the step's key exactly when its record has it, and shows its id. */
  lemma ItemsMatch(p: Probe, t: seq<Record>)
    ensures var items := RecordsJson(t);
            |items| == |t|
            && forall i :: 0 <= i < |t| ==>
                 (Matches(items[i], KeyAttr(p.kind), p.key) <==> HasKey(t[i], p))
                 && Get(items[i], "id") == JInt(t[i].id)
  {
    var items := RecordsJson(t);
    forall i | 0 <= i < |t|
      ensures Matches(items[i], KeyAttr(p.kind), p.key) <==> HasKey(t[i], p)
      ensures Get(items[i], "id") == JInt(t[i].id)
    {
      RenderedAttr(t[i], KeyAttr(p.kind));
      RenderedAttr(t[i], "id");
    }
  }

  /** The teardown talks to the same platform throughout. */
  lemma {:induction false} TeardownPlatform(n: Net, ps: seq<Probe>)
    ensures TeardownFrom(n, ps).platform == n.platform
    decreases |ps|
  {
    if ps != [] {
      TeardownPlatform(n, ps[..|ps| - 1]);
    }
  }

  /** With no record carrying a step's key, a step lists and deletes nothing, whatever the transport does. */
  lemma ProbeStepNoMatch(n: Net, p: Probe)
    requires n.platform == Serve
    requires forall r :: r in Table(n.store, p.kind) ==> !HasKey(r, p)
    ensures ProbeStep(n, p) == Send(n, ListRequest(p.kind)).0
    ensures ProbeStep(n, p).store == n.store
  {
    var t := Table(n.store, p.kind);
    ResolveListing(p, t);
  }

  /**
   * When no stored record carries any step's natural key, the teardown issues only the
   * listing calls, one per step in order, and leaves the store as it was.
   */
  lemma {:induction false} NothingToDelete(n: Net, ps: seq<Probe>)
    requires n.platform == Serve
    requires forall p, r :: p in ps && r in Table(n.store, p.kind) ==> !HasKey(r, p)
    ensures ListingsOnly(n, ps, TeardownFrom(n, ps))
    decreases |ps|
  {
    if ps != [] {
      var front := ps[..|ps| - 1];
      var p := ps[|ps| - 1];
      assert forall q :: q in front ==> q in ps;
      NothingToDelete(n, front);
      var mid := TeardownFrom(n, front);
      TeardownPlatform(n, front);
      ProbeStepNoMatch(mid, p);
      ListingAppended(n, ps, mid, TeardownFrom(n, ps));
    }
  }

  /** `m` follows `n` with one listing call per step of `ps`, in order, and the same store. */
  predicate ListingsOnly(n: Net, ps: seq<Probe>, m: Net)
  {
    m.store == n.store
    && |m.transcript| == |n.transcript| + |ps|
    && m.transcript[..|n.transcript|] == n.transcript
    && forall i :: 0 <= i < |ps| ==> m.transcript[|n.transcript| + i].request == ListRequest(ps[i].kind)
  }

  /** One more listing call that leaves the store alone extends the listings by its step. */
  lemma ListingAppended(n: Net, ps: seq<Probe>, mid: Net, m: Net)
    requires ps != [] && ListingsOnly(n, ps[..|ps| - 1], mid)
    requires m == Send(mid, ListRequest(ps[|ps| - 1].kind)).0 && m.store == mid.store
    ensures ListingsOnly(n, ps, m)
  {
    var front := ps[..|ps| - 1];
    assert m.transcript[..|n.transcript|] == m.transcript[..|mid.transcript|][..|n.transcript|];
    forall i | 0 <= i < |ps|
      ensures m.transcript[|n.transcript| + i].request == ListRequest(ps[i].kind)
    {
      if i < |front| {
        assert m.transcript[|n.transcript| + i] == m.transcript[..|mid.transcript|][|n.transcript| + i];
      }
    }
  }

  /**
   * When the listing goes through and the first record carrying the key has a truthy id,
   * the step deletes exactly that id; when the delete goes through too, that record
   * (and only it) leaves its table.
   */
  lemma ProbeStepFound(n: Net, p: Probe, i: nat)
    requires n.platform == Serve
    requires |n.transcript| !in n.outages
    requires i < |Table(n.store, p.kind)| && HasKey(Table(n.store, p.kind)[i], p)
    requires forall j :: 0 <= j < i ==> !HasKey(Table(n.store, p.kind)[j], p)
    requires Table(n.store, p.kind)[i].id != 0
    ensures |ProbeStep(n, p).transcript| == |n.transcript| + 2
    ensures ProbeStep(n, p).transcript[|n.transcript| + 1].request
            == DeleteRequest(p.kind, JInt(Table(n.store, p.kind)[i].id))
    ensures ValidStore(n.store) && |n.transcript| + 1 !in n.outages ==>
              var t := Table(n.store, p.kind);
              Table(ProbeStep(n, p).store, p.kind) == t[..i] + t[i + 1..]
  {
    var t := Table(n.store, p.kind);
    ResolveListing(p, t);
    var id := JInt(t[i].id);
    var (n1, listed) := Send(n, ListRequest(p.kind));
    assert n1.store == n.store && n1.platform == Serve;
    assert ResultOf(listed) == Some(ListingBody(p.kind, t));
    assert Resolve(p, ResultOf(listed)) == id;
    assert ProbeStep(n, p) == Send(n1, DeleteRequest(p.kind, id)).0;
    if ValidStore(n.store) && |n.transcript| + 1 !in n.outages {
      ServeRemove(n.store, p.kind, i, None);
    }
  }

  /**
   * On the platform model, a teardown from a valid store keeps it valid after every step,
   * so the validity `ProbeStepFound` asks for holds before each step of the run.
   */
  lemma {:induction false} TeardownKeepsValid(n: Net, ps: seq<Probe>)
    requires n.platform == Serve && ValidStore(n.store)
    ensures ValidStore(TeardownFrom(n, ps).store)
    decreases |ps|
  {
    if ps != [] {
      var front := ps[..|ps| - 1];
      TeardownKeepsValid(n, front);
      TeardownPlatform(n, front);
      ProbeStepKeepsValid(TeardownFrom(n, front), ps[|ps| - 1]);
    }
  }

  lemma ProbeStepKeepsValid(n: Net, p: Probe)
    requires n.platform == Serve && ValidStore(n.store)
    ensures ValidStore(ProbeStep(n, p).store)
  {
    var (n1, listed) := Send(n, ListRequest(p.kind));
    SendKeepsValid(n, ListRequest(p.kind));
    var id := Resolve(p, ResultOf(listed));
    if Truthy(id) {
      SendKeepsValid(n1, DeleteRequest(p.kind, id));
    }
  }
}
