/**
 * The configuration updater: read `--key=value` options, load the platform's PHP
 * configuration array, overwrite the mailer and API settings the options name while
 * recording which ones changed, and write the array back as a PHP `return [...]` file.
 */
module UpdateConfig {
  import opened Wrappers
  import Text

  /** The PHP values a configuration holds; an array keeps its entries in insertion order. */
  datatype PhpValue =
    | PStr(s: string)
    | PBool(b: bool)
    | PNull
    | PInt(i: int)
    | PArr(entries: seq<(string, PhpValue)>)

  /** A PHP array with string keys; lookups see the first entry for a key. */
  type Config = seq<(string, PhpValue)>

  /**
   * One argument as an option: it must start with `--` and contain `=`; the key is what
   * lies between the dashes and the first `=`, the value everything after that `=`.
   */
  function ParseOption(arg: string): (r: Option<(string, string)>)
    ensures r.Some? <==> Text.StartsWith(arg, "--") && '=' in arg
    ensures r.Some? ==> arg == "--" + r.value.0 + "=" + r.value.1 && '=' !in r.value.0
  {
    if Text.StartsWith(arg, "--") then
      match Text.IndexOf(arg, '=')
      case Some(i) =>
        assert arg[..2] == "--" && i >= 2 by { assert arg[0] == '-' && arg[1] == '-'; }
        assert arg == "--" + arg[2..i] + "=" + arg[i + 1..];
        assert arg[2..i] == arg[..i][2..];
        Some((arg[2..i], arg[i + 1..]))
      case None => None
    else None
  }

  /** Splitting at the first `=` gives back the key and the value the option was written from. */
  lemma ParseOptionOf(key: string, value: string)
    requires '=' !in key
    ensures ParseOption("--" + key + "=" + value) == Some((key, value))
  {
    var arg := "--" + key + "=" + value;
    assert arg == ("--" + key) + ['='] + value;
    Text.IndexOfAfter("--" + key, '=', value);
    assert arg[..2] == "--";
    assert arg[2..2 + |key|] == key;
    assert arg[2 + |key| + 1..] == value;
  }

  predicate SetsKey(arg: string, key: string)
  {
    ParseOption(arg).Some? && ParseOption(arg).value.0 == key
  }

  /** The options of the arguments, read left to right: a later option overrides an earlier one. */
  function Options(args: seq<string>): map<string, string>
    decreases |args|
  {
    if args == [] then map[]
    else
      var options := Options(args[..|args| - 1]);
      match ParseOption(args[|args| - 1])
      case Some((key, value)) => options[key := value]
      case None => options
  }

  /** A key is present exactly when some argument sets it. */
  lemma {:induction false} OptionsPresent(args: seq<string>, key: string)
    ensures key in Options(args) <==> exists j :: 0 <= j < |args| && SetsKey(args[j], key)
    decreases |args|
  {
    if args != [] {
      var front := args[..|args| - 1];
      OptionsPresent(front, key);
      assert forall j :: 0 <= j < |front| ==> front[j] == args[j];
      if !SetsKey(args[|args| - 1], key) {
        assert key in Options(args) <==> key in Options(front);
      }
    }
  }

  /** A present key holds the value of the last argument that sets it. */
  lemma {:induction false} OptionsLastWins(args: seq<string>, key: string)
    requires key in Options(args)
    ensures exists j :: 0 <= j < |args| && ParseOption(args[j]) == Some((key, Options(args)[key]))
                        && forall j' :: j < j' < |args| ==> !SetsKey(args[j'], key)
    decreases |args|
  {
    var front := args[..|args| - 1];
    var last := |args| - 1;
    LastOption(args, key);
    if SetsKey(args[last], key) {
      assert ParseOption(args[last]) == Some((key, Options(args)[key]));
    } else {
      OptionsLastWins(front, key);
      var j :| 0 <= j < |front| && ParseOption(front[j]) == Some((key, Options(front)[key]))
               && forall j' :: j < j' < |front| ==> !SetsKey(front[j'], key);
      assert args[j] == front[j];
      NoLaterSetter(args, front, key, j);
    }
  }

  /** What the last argument does to one key: it sets it, or the key is as before it. */
  lemma LastOption(args: seq<string>, key: string)
    requires args != []
    ensures var front := args[..|args| - 1];
            if SetsKey(args[|args| - 1], key) then
              key in Options(args) && ParseOption(args[|args| - 1]) == Some((key, Options(args)[key]))
            else
              (key in Options(args) <==> key in Options(front))
              && (key in Options(front) ==> Options(args)[key] == Options(front)[key])
  {
  }

  /** No argument after `j` sets `key` when none does before the last one and the last one does not. */
  lemma NoLaterSetter(args: seq<string>, front: seq<string>, key: string, j: nat)
    requires |args| > 0 && front == args[..|args| - 1] && j < |front|
    requires forall j' :: j < j' < |front| ==> !SetsKey(front[j'], key)
    requires !SetsKey(args[|args| - 1], key)
    ensures forall j' :: j < j' < |args| ==> !SetsKey(args[j'], key)
  {
    forall j' | j < j' < |args|
      ensures !SetsKey(args[j'], key)
    {
      if j' < |front| {
        assert args[j'] == front[j'];
      }
    }
  }

  /** The option-reading loop over the arguments after the configuration file's name. */
  method ParseOptions(args: seq<string>) returns (options: map<string, string>)
    ensures options == Options(args)
  {
    options := map[];
    for i := 0 to |args|
      invariant options == Options(args[..i])
    {
      assert args[..i + 1][..i] == args[..i];
      var arg := args[i];
      if Text.StartsWith(arg, "--") {
        match Text.IndexOf(arg, '=')
        case Some(eq) =>
          options := options[arg[2..eq] := arg[eq + 1..]];
        case None =>
      }
    }
    assert args[..|args|] == args;
  }

  /** Position of the first entry with `key`. */
  function IndexOfKey(c: Config, key: string): (r: Option<nat>)
    ensures r.Some? ==> r.value < |c| && c[r.value].0 == key && forall j :: 0 <= j < r.value ==> c[j].0 != key
    ensures r.None? <==> forall j :: 0 <= j < |c| ==> c[j].0 != key
  {
    if c == [] then None
    else if c[0].0 == key then Some(0)
    else match IndexOfKey(c[1..], key)
      case None => None
      case Some(i) => Some(i + 1)
  }

  /** A key found at `i` and at no earlier place is found at `i`. */
  lemma {:induction false} IndexOfKeyAt(c: Config, key: string, i: nat)
    requires i < |c| && c[i].0 == key && forall j :: 0 <= j < i ==> c[j].0 != key
    ensures IndexOfKey(c, key) == Some(i)
  {
    if i > 0 {
      IndexOfKeyAt(c[1..], key, i - 1);
    }
  }

  /** Two arrays with the same keys in the same order find a key at the same place. */
  lemma SameKeysSameIndex(a: Config, b: Config, k: string)
    requires Keys(a) == Keys(b)
    ensures IndexOfKey(a, k) == IndexOfKey(b, k)
  {
    assert |a| == |b| && forall j :: 0 <= j < |a| ==> a[j].0 == Keys(a)[j] == b[j].0;
    match IndexOfKey(b, k)
    case Some(i) => IndexOfKeyAt(a, k, i);
    case None =>
  }

  /** `$config[key]`, `None` when the key is absent. */
  function Value(c: Config, key: string): Option<PhpValue>
  {
    match IndexOfKey(c, key) case Some(i) => Some(c[i].1) case None => None
  }

  /** The keys in iteration order. */
  function Keys(c: Config): seq<string>
  {
    seq(|c|, i requires 0 <= i < |c| => c[i].0)
  }

  /** `$config[key] = value`. */
  function Assign(c: Config, key: string, value: PhpValue): Config
  {
    match IndexOfKey(c, key)
    case Some(i) => c[i := (key, value)]
    case None => c + [(key, value)]
  }

  /**
   * An assignment sets its key and no other: an existing key keeps its place, a new key
   * goes last.
   */
  lemma AssignFacts(c: Config, key: string, value: PhpValue)
    ensures var r := Assign(c, key, value);
            Value(r, key) == Some(value)
            && (forall k :: k != key ==> Value(r, k) == Value(c, k))
            && Keys(r) == if IndexOfKey(c, key).Some? then Keys(c) else Keys(c) + [key]
  {
    match IndexOfKey(c, key)
    case Some(i) => AssignExisting(c, key, value, i);
    case None => AssignNew(c, key, value);
  }

  lemma AssignExisting(c: Config, key: string, value: PhpValue, i: nat)
    requires IndexOfKey(c, key) == Some(i)
    ensures var r := c[i := (key, value)];
            Keys(r) == Keys(c) && Value(r, key) == Some(value)
            && forall k :: k != key ==> Value(r, k) == Value(c, k)
  {
    var r := c[i := (key, value)];
    assert Keys(r) == Keys(c);
    forall k ensures IndexOfKey(r, k) == IndexOfKey(c, k) {
      SameKeysSameIndex(r, c, k);
    }
  }

  lemma AssignNew(c: Config, key: string, value: PhpValue)
    requires IndexOfKey(c, key).None?
    ensures var r := c + [(key, value)];
            Keys(r) == Keys(c) + [key] && Value(r, key) == Some(value)
            && forall k :: k != key ==> Value(r, k) == Value(c, k)
  {
    var r := c + [(key, value)];
    assert forall j :: 0 <= j < |c| ==> r[j] == c[j];
    assert Keys(r) == Keys(c) + [key];
    IndexOfKeyAt(r, key, |c|);
    forall k | k != key ensures IndexOfKey(r, k) == IndexOfKey(c, k) {
      AppendOtherKey(c, key, value, k);
    }
  }

  /** Appending an entry for one key leaves where any other key is found. */
  lemma AppendOtherKey(c: Config, key: string, value: PhpValue, k: string)
    requires k != key
    ensures IndexOfKey(c + [(key, value)], k) == IndexOfKey(c, k)
  {
    var r := c + [(key, value)];
    assert forall j :: 0 <= j < |c| ==> r[j] == c[j];
    match IndexOfKey(c, k)
    case Some(i) => IndexOfKeyAt(r, k, i);
    case None =>
  }

  /** One update the script applies: the option it reads and the configuration key it sets. */
  datatype Update = Update(option: string, key: string)

  const DSN_UPDATE: Update := Update("mailer-dsn", "mailer_dsn")
  const FROM_NAME_UPDATE: Update := Update("mailer-from-name", "mailer_from_name")
  const FROM_EMAIL_UPDATE: Update := Update("mailer-from-email", "mailer_from_email")
  const CACHE_UPDATE: Update := Update("api-rate-limiter-cache", "api_rate_limiter_cache")

  /** The updates in the order the script applies them. */
  const UPDATES: seq<Update> := [DSN_UPDATE, FROM_NAME_UPDATE, FROM_EMAIL_UPDATE, CACHE_UPDATE]

  /** What an option's text becomes in the configuration: the text, except `null` for the cache setting. */
  function StoredValue(key: string, text: string): PhpValue
  {
    if key == CACHE_UPDATE.key && text == "null" then PNull else PStr(text)
  }

  /** One `isset` block: a present option sets its key, and the key joins the change list. */
  function UpdateStep(c: Config, options: map<string, string>, u: Update): (Config, seq<string>)
  {
    if u.option in options then (Assign(c, u.key, StoredValue(u.key, options[u.option])), [u.key]) else (c, [])
  }

  /** Apply the updates in order, collecting the change list. */
  function ApplyUpdates(c: Config, options: map<string, string>, updates: seq<Update>): (Config, seq<string>)
    decreases |updates|
  {
    if updates == [] then (c, [])
    else
      var (c', changed) := UpdateStep(c, options, updates[0]);
      var (c'', rest) := ApplyUpdates(c', options, updates[1..]);
      (c'', changed + rest)
  }

  /** What is left to apply, after `changes` so far. */
  ghost function Resume(c: Config, changes: seq<string>, options: map<string, string>, rest: seq<Update>): (Config, seq<string>)
  {
    (ApplyUpdates(c, options, rest).0, changes + ApplyUpdates(c, options, rest).1)
  }

  lemma ResumeStep(c: Config, changes: seq<string>, options: map<string, string>, rest: seq<Update>)
    requires rest != []
    ensures var u := rest[0];
            Resume(c, changes, options, rest)
            == Resume(UpdateStep(c, options, u).0, changes + UpdateStep(c, options, u).1, options, rest[1..])
  {
    var (c', changed) := UpdateStep(c, options, rest[0]);
    assert changes + (changed + ApplyUpdates(c', options, rest[1..]).1)
        == (changes + changed) + ApplyUpdates(c', options, rest[1..]).1;
  }

  /** One `isset` block: a present option sets its key and appends the key to the change list. */
  method SetOption(config: Config, changes: seq<string>, options: map<string, string>, u: Update)
    returns (updated: Config, changes': seq<string>)
    ensures updated == UpdateStep(config, options, u).0
    ensures changes' == changes + UpdateStep(config, options, u).1
  {
    updated, changes' := config, changes;
    if u.option in options {
      updated := Assign(updated, u.key, StoredValue(u.key, options[u.option]));
      changes' := changes' + [u.key];
    }
  }

  /** The four `isset` blocks, in order. */
  method UpdateSettings(config: Config, options: map<string, string>) returns (updated: Config, changes: seq<string>)
    ensures (updated, changes) == ApplyUpdates(config, options, UPDATES)
  {
    ghost var goal := ApplyUpdates(config, options, UPDATES);
    assert [] + goal.1 == goal.1;
    assert UPDATES[1..] == [FROM_NAME_UPDATE, FROM_EMAIL_UPDATE, CACHE_UPDATE];
    assert UPDATES[1..][1..] == [FROM_EMAIL_UPDATE, CACHE_UPDATE];
    assert UPDATES[1..][1..][1..] == [CACHE_UPDATE];
    ResumeStep(config, [], options, UPDATES);
    updated, changes := SetOption(config, [], options, DSN_UPDATE);
    assert Resume(updated, changes, options, UPDATES[1..]) == goal;
    ResumeStep(updated, changes, options, UPDATES[1..]);
    updated, changes := SetOption(updated, changes, options, FROM_NAME_UPDATE);
    assert Resume(updated, changes, options, UPDATES[1..][1..]) == goal;
    ResumeStep(updated, changes, options, UPDATES[1..][1..]);
    updated, changes := SetOption(updated, changes, options, FROM_EMAIL_UPDATE);
    assert Resume(updated, changes, options, UPDATES[1..][1..][1..]) == goal;
    ResumeStep(updated, changes, options, UPDATES[1..][1..][1..]);
    updated, changes := SetOption(updated, changes, options, CACHE_UPDATE);
    assert Resume(updated, changes, options, []) == goal;
    assert changes + [] == changes;
  }

  const HEADER: string := "<?php\n\nreturn [\n"
  const FOOTER: string := "];\n"
  const INDENT: string := "    "

  /**
   * One entry of the output. Strings are quoted without escaping; arrays are rendered by
   * PHP's `var_export`, which is given as `varExport`.
   */
  function Line(key: string, value: PhpValue, varExport: PhpValue -> string): string
  {
    match value
    case PStr(s) => INDENT + "'" + key + "' => '" + s + "',\n"
    case PBool(b) => INDENT + "'" + key + "' => " + (if b then "true" else "false") + ",\n"
    case PNull => INDENT + "'" + key + "' => null,\n"
    case PArr(_) => INDENT + "'" + key + "' => " + varExport(value) + ",\n"
    case PInt(i) => INDENT + "'" + key + "' => " + Text.IntToString(i) + ",\n"
  }

  /** The entries' lines in iteration order. */
  function Body(c: Config, varExport: PhpValue -> string): string
    decreases |c|
  {
    if c == [] then "" else Body(c[..|c| - 1], varExport) + Line(c[|c| - 1].0, c[|c| - 1].1, varExport)
  }

  lemma BodyStep(c: Config, i: nat, varExport: PhpValue -> string)
    requires i < |c|
    ensures HEADER + Body(c[..i + 1], varExport) == (HEADER + Body(c[..i], varExport)) + Line(c[i].0, c[i].1, varExport)
  {
    assert c[..i + 1][..i] == c[..i];
  }

  /** The file the script writes. */
  function Render(c: Config, varExport: PhpValue -> string): string
  {
    HEADER + Body(c, varExport) + FOOTER
  }

  /** The `foreach` that accumulates the output. */
  method Serialise(config: Config, varExport: PhpValue -> string) returns (output: string)
    ensures output == Render(config, varExport)
  {
    output := HEADER;
    for i := 0 to |config|
      invariant output == HEADER + Body(config[..i], varExport)
    {
      var line := Line(config[i].0, config[i].1, varExport);
      BodyStep(config, i, varExport);
      output := output + line;
    }
    assert config[..|config|] == config;
    output := output + FOOTER;
  }

  /** What the script finds at the configuration file's path: nothing, or what `include` returns. */
  datatype ConfigFile = Missing | Loaded(value: PhpValue)

  /** The exit status, the text written to the configuration file (if any) and the change list. */
  datatype Outcome = Outcome(exitCode: int, written: Option<string>, changes: seq<string>)

  /**
   * The whole script over `argv` (with the script's own name first). Too few arguments, a
   * missing file, a file that does not return an array and a failed write each give exit
   * status 1; only a successful write leaves new text in the file.
   */
  function UpdateConfigRun(argv: seq<string>, file: ConfigFile, writeFails: bool, varExport: PhpValue -> string): (r: Outcome)
    ensures |argv| < 2 || file.Missing? || !file.value.PArr? ==> r == Outcome(1, None, [])
    ensures r.written.Some? <==> |argv| >= 2 && file.Loaded? && file.value.PArr? && !writeFails
    ensures r.exitCode == 0 <==> r.written.Some?
    ensures r.exitCode == 0 || r.exitCode == 1
    ensures |argv| >= 2 && file.Loaded? && file.value.PArr? ==>
              r.changes == ApplyUpdates(file.value.entries, Options(argv[2..]), UPDATES).1
    ensures r.written.Some? ==>
              r.written.value == Render(ApplyUpdates(file.value.entries, Options(argv[2..]), UPDATES).0, varExport)
  {
    if |argv| < 2 then Outcome(1, None, [])
    else
      var options := Options(argv[2..]);
      match file
      case Missing => Outcome(1, None, [])
      case Loaded(loaded) =>
        if !loaded.PArr? then Outcome(1, None, [])
        else
          var (updated, changes) := ApplyUpdates(loaded.entries, options, UPDATES);
          if writeFails then Outcome(1, None, changes) else Outcome(0, Some(Render(updated, varExport)), changes)
  }

  method UpdateConfigScript(argv: seq<string>, file: ConfigFile, writeFails: bool, varExport: PhpValue -> string)
    returns (exitCode: int, written: Option<string>, changes: seq<string>)
    ensures Outcome(exitCode, written, changes) == UpdateConfigRun(argv, file, writeFails, varExport)
  {
    if |argv| < 2 {
      return 1, None, [];
    }
    var options := ParseOptions(argv[2..]);
    if file.Missing? {
      return 1, None, [];
    }
    var config := file.value;
    if !config.PArr? {
      return 1, None, [];
    }
    var updated;
    updated, changes := UpdateSettings(config.entries, options);
    var output := Serialise(updated, varExport);
    if writeFails {
      return 1, None, changes;
    }
    return 0, Some(output), changes;
  }
}
