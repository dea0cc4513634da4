/**
 * What the configuration updater does to the configuration array, its change list and
 * the text it writes.
 */
module ConfigFacts {
  import opened Wrappers
  import Text
  import opened UpdateConfig

  /** The configuration keys of the updates whose option is present, in the updates' order. */
  function PresentKeys(options: map<string, string>, updates: seq<Update>): seq<string>
    decreases |updates|
  {
    if updates == [] then []
    else (if updates[0].option in options then [updates[0].key] else []) + PresentKeys(options, updates[1..])
  }

  /** The change list names the present options' keys, whatever the configuration holds. */
  lemma {:induction false} ChangesArePresentKeys(c: Config, options: map<string, string>, updates: seq<Update>)
    ensures ApplyUpdates(c, options, updates).1 == PresentKeys(options, updates)
    decreases |updates|
  {
    if updates != [] {
      ChangesArePresentKeys(UpdateStep(c, options, updates[0]).0, options, updates[1..]);
    }
  }

  predicate DistinctKeys(updates: seq<Update>)
  {
    forall i, j :: 0 <= i < j < |updates| ==> updates[i].key != updates[j].key
  }

  /** A key is in the change list exactly when one of its updates' options is present. */
  lemma {:induction false} PresentKeysMember(options: map<string, string>, updates: seq<Update>, key: string)
    ensures key in PresentKeys(options, updates) <==>
            exists j :: 0 <= j < |updates| && updates[j].key == key && updates[j].option in options
    decreases |updates|
  {
    if updates != [] {
      PresentKeysMember(options, updates[1..], key);
      assert forall j :: 1 <= j < |updates| ==> updates[j] == updates[1..][j - 1];
      if exists j :: 0 <= j < |updates| && updates[j].key == key && updates[j].option in options {
        var j :| 0 <= j < |updates| && updates[j].key == key && updates[j].option in options;
        if j > 0 {
          assert updates[1..][j - 1].key == key && updates[1..][j - 1].option in options;
        }
      }
    }
  }

  /** With distinct keys, no key enters the change list twice. */
  lemma {:induction false} PresentKeysDistinct(options: map<string, string>, updates: seq<Update>)
    requires DistinctKeys(updates)
    ensures var ks := PresentKeys(options, updates);
            forall i, j :: 0 <= i < j < |ks| ==> ks[i] != ks[j]
    decreases |updates|
  {
    if updates != [] {
      var rest := updates[1..];
      assert DistinctKeys(rest) by {
        assert forall i :: 0 <= i < |rest| ==> rest[i] == updates[i + 1];
      }
      PresentKeysDistinct(options, rest);
      PresentKeysMember(options, rest, updates[0].key);
      var ks := PresentKeys(options, updates);
      var tail := PresentKeys(options, rest);
      if updates[0].option in options {
        assert ks == [updates[0].key] + tail;
        assert updates[0].key !in tail by {
          assert forall j :: 0 <= j < |rest| ==> rest[j].key != updates[0].key by {
            assert forall j :: 0 <= j < |rest| ==> rest[j] == updates[j + 1];
          }
        }
      } else {
        assert ks == tail;
      }
    }
  }

  /**
   * The change list of the script: the present options' keys in the fixed order
   * `mailer_dsn`, `mailer_from_name`, `mailer_from_email`, `api_rate_limiter_cache`,
   * each at most once.
   */
  lemma ScriptChanges(c: Config, options: map<string, string>)
    ensures var changes := ApplyUpdates(c, options, UPDATES).1;
            changes == (if "mailer-dsn" in options then ["mailer_dsn"] else [])
                       + (if "mailer-from-name" in options then ["mailer_from_name"] else [])
                       + (if "mailer-from-email" in options then ["mailer_from_email"] else [])
                       + (if "api-rate-limiter-cache" in options then ["api_rate_limiter_cache"] else [])
            && forall i, j :: 0 <= i < j < |changes| ==> changes[i] != changes[j]
  {
    ChangesArePresentKeys(c, options, UPDATES);
    FourPresentKeys(options, DSN_UPDATE, FROM_NAME_UPDATE, FROM_EMAIL_UPDATE, CACHE_UPDATE);
    PresentKeysDistinct(options, UPDATES);
  }

  /** The change list of four updates, written out. */
  lemma FourPresentKeys(options: map<string, string>, u0: Update, u1: Update, u2: Update, u3: Update)
    ensures PresentKeys(options, [u0, u1, u2, u3])
            == (if u0.option in options then [u0.key] else []) + (if u1.option in options then [u1.key] else [])
               + (if u2.option in options then [u2.key] else []) + (if u3.option in options then [u3.key] else [])
  {
    PresentKeysCons(options, u3, []);
    PresentKeysCons(options, u2, [u3]);
    PresentKeysCons(options, u1, [u2, u3]);
    PresentKeysCons(options, u0, [u1, u2, u3]);
    var k0 := if u0.option in options then [u0.key] else [];
    var k1 := if u1.option in options then [u1.key] else [];
    var k2 := if u2.option in options then [u2.key] else [];
    var k3 := if u3.option in options then [u3.key] else [];
    ConcatFour(k0, k1, k2, k3);
  }

  lemma ConcatFour(a: seq<string>, b: seq<string>, c: seq<string>, d: seq<string>)
    ensures a + (b + (c + (d + []))) == a + b + c + d
  {
    assert d + [] == d;
  }

  lemma PresentKeysCons(options: map<string, string>, u: Update, rest: seq<Update>)
    ensures PresentKeys(options, [u] + rest) == (if u.option in options then [u.key] else []) + PresentKeys(options, rest)
  {
    assert ([u] + rest)[1..] == rest;
  }

  /** A key that no present option targets keeps its value. */
  lemma {:induction false} UntouchedKey(c: Config, options: map<string, string>, updates: seq<Update>, key: string)
    requires forall j :: 0 <= j < |updates| && updates[j].key == key ==> updates[j].option !in options
    ensures Value(ApplyUpdates(c, options, updates).0, key) == Value(c, key)
    decreases |updates|
  {
    if updates != [] {
      var u := updates[0];
      var c' := UpdateStep(c, options, u).0;
      if u.option in options {
        AssignFacts(c, u.key, StoredValue(u.key, options[u.option]));
      }
      assert forall j :: 1 <= j < |updates| ==> updates[j] == updates[1..][j - 1];
      UntouchedKey(c', options, updates[1..], key);
    }
  }

  /** With distinct keys, a present option leaves its key holding the option's stored value. */
  lemma {:induction false} OptionSetsKey(c: Config, options: map<string, string>, updates: seq<Update>, j: nat)
    requires DistinctKeys(updates) && j < |updates| && updates[j].option in options
    ensures Value(ApplyUpdates(c, options, updates).0, updates[j].key)
            == Some(StoredValue(updates[j].key, options[updates[j].option]))
    decreases |updates|
  {
    var u := updates[0];
    var c' := UpdateStep(c, options, u).0;
    var rest := updates[1..];
    assert forall i :: 0 <= i < |rest| ==> rest[i] == updates[i + 1];
    if j == 0 {
      AssignFacts(c, u.key, StoredValue(u.key, options[u.option]));
      UntouchedKey(c', options, rest, u.key);
    } else {
      assert DistinctKeys(rest);
      OptionSetsKey(c', options, rest, j - 1);
    }
  }

  /** The updates never reorder or drop keys: the old keys come first, in their order. */
  lemma {:induction false} KeysKept(c: Config, options: map<string, string>, updates: seq<Update>)
    ensures var ks := Keys(ApplyUpdates(c, options, updates).0);
            |Keys(c)| <= |ks| && ks[..|Keys(c)|] == Keys(c)
    decreases |updates|
  {
    if updates != [] {
      var u := updates[0];
      var c' := UpdateStep(c, options, u).0;
      if u.option in options {
        AssignFacts(c, u.key, StoredValue(u.key, options[u.option]));
      }
      KeysKept(c', options, updates[1..]);
      var ks := Keys(ApplyUpdates(c, options, updates).0);
      assert ks[..|Keys(c')|][..|Keys(c)|] == ks[..|Keys(c)|];
    }
  }

  lemma ScriptKeysDistinct()
    ensures DistinctKeys(UPDATES)
  {
  }

  /**
   * The script's settings: each present option overwrites its own key, and the cache
   * option's `null` becomes a null value while any other text is stored as given.
   */
  lemma ScriptSettings(c: Config, options: map<string, string>)
    ensures var updated := ApplyUpdates(c, options, UPDATES).0;
            ("mailer-dsn" in options ==> Value(updated, "mailer_dsn") == Some(PStr(options["mailer-dsn"])))
            && ("mailer-from-name" in options ==> Value(updated, "mailer_from_name") == Some(PStr(options["mailer-from-name"])))
            && ("mailer-from-email" in options ==> Value(updated, "mailer_from_email") == Some(PStr(options["mailer-from-email"])))
            && ("api-rate-limiter-cache" in options ==>
                  Value(updated, "api_rate_limiter_cache")
                  == Some(if options["api-rate-limiter-cache"] == "null" then PNull else PStr(options["api-rate-limiter-cache"])))
  {
    ScriptKeysDistinct();
    if "mailer-dsn" in options { OptionSetsKey(c, options, UPDATES, 0); }
    if "mailer-from-name" in options { OptionSetsKey(c, options, UPDATES, 1); }
    if "mailer-from-email" in options { OptionSetsKey(c, options, UPDATES, 2); }
    if "api-rate-limiter-cache" in options { OptionSetsKey(c, options, UPDATES, 3); }
  }

  /** A key that no present option of the script targets keeps its value. */
  lemma ScriptUntouched(c: Config, options: map<string, string>, key: string)
    requires forall j :: 0 <= j < |UPDATES| && UPDATES[j].key == key ==> UPDATES[j].option !in options
    ensures Value(ApplyUpdates(c, options, UPDATES).0, key) == Value(c, key)
  {
    UntouchedKey(c, options, UPDATES, key);
  }

  /** The text after `=>` for each kind of value. */
  function Rendered(value: PhpValue, varExport: PhpValue -> string): string
  {
    match value
    case PStr(s) => "'" + s + "'"
    case PBool(b) => if b then "true" else "false"
    case PNull => "null"
    case PArr(_) => varExport(value)
    case PInt(i) => Text.IntToString(i)
  }

  /** Every line has the same frame: indent, quoted key, arrow, rendered value, comma, newline. */
  lemma LineShape(key: string, value: PhpValue, varExport: PhpValue -> string)
    ensures Line(key, value, varExport) == INDENT + "'" + key + "' => " + Rendered(value, varExport) + ",\n"
  {
  }

  /** The lines follow the entries' order: the first `i` lines, then the entry `i`'s, open the body. */
  lemma {:induction false} BodyLines(c: Config, varExport: PhpValue -> string, i: nat)
    requires i < |c|
    ensures var prefix := Body(c[..i], varExport) + Line(c[i].0, c[i].1, varExport);
            |prefix| <= |Body(c, varExport)| && Body(c, varExport)[..|prefix|] == prefix
    decreases |c|
  {
    var front := c[..|c| - 1];
    if i == |c| - 1 {
      assert c[..i] == front;
    } else {
      BodyLines(front, varExport, i);
      assert front[..i] == c[..i] && front[i] == c[i];
      PrefixOfAppend(Body(front, varExport), Line(c[|c| - 1].0, c[|c| - 1].1, varExport),
                     Body(c[..i], varExport) + Line(c[i].0, c[i].1, varExport));
    }
  }

  lemma PrefixOfAppend(a: string, b: string, x: string)
    requires |x| <= |a| && a[..|x|] == x
    ensures |x| <= |a + b| && (a + b)[..|x|] == x
  {
    assert (a + b)[..|x|] == a[..|x|];
  }

  /** The file opens with the PHP header and closes with the array's end. */
  lemma RenderFrame(c: Config, varExport: PhpValue -> string)
    ensures var out := Render(c, varExport);
            Text.StartsWith(out, "<?php\n\nreturn [\n")
            && |out| >= 3 && out[|out| - 3..] == "];\n"
            && out[|HEADER|..|out| - 3] == Body(c, varExport)
  {
  }
}
