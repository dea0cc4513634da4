# Mautic provisioning scripts, modelled in Dafny

This project models five scripts that set up and tear down a Mautic marketing platform:

- `create-pre-configured-data.py` creates the platform's starting content through its REST API, in ten calls:
  - a custom field, a campaign and a tag;
  - three welcome emails;
  - three campaign events, one per email, with a 0, 1 and 2 day delay;
  - a form whose actions add the submitter to the campaign and tag them.

  The script stops with exit status 1 at the first creation that comes back falsy. A failed event add does not stop it.
- `cleanup-pre-configured-data.py` removes the same resources. For each one it lists the kind, looks the resource up by its natural key (an alias, a name or a tag) and deletes it when a truthy id was found. Every step is attempted, whatever the earlier ones gave.
- `post-install-configuration.py` checks the credentials and prints the mailer settings with the password masked. It then sends one test email: create a contact, create an email, send the email to the contact, stopping at the first falsy result.
- `create_mautic_form.py` derives the platform's base URL from the environment and posts one campaign form. It reports the outcome; only status 201 counts as created.
- `update-config.php` does the following:
  - reads `--key=value` options;
  - loads the platform's PHP configuration array;
  - overwrites the mailer and API-cache settings the options name, recording a change list;
  - writes the array back as a `return [...]` PHP file.

The modules are:

- **`Remote` (remote.dfy): the platform and the client.**
  - A `Store` holds one table of records per resource kind, plus an id counter.
  - A `Net` adds three things: the transcript of every exchange, the set of call indices at which the transport fails, and the platform itself as a function from store and request to new store and response.
  - The scripts' properties are proved for any platform. `Serve` is a model of Mautic's own answers; it is used where a property depends on what the platform does.
  - The class `Remote.Remote` holds that state. Its method `Call` is the one imperative step every script method goes through.
- **Environment and data:** `Environment` models `os.getenv`. `Json` models parsed JSON as the Python code sees it, including truthiness. `Text` holds the string helpers.
- **One module per script:** `Provision`, `Cleanup`, `PostInstall`, `FormScript` and `UpdateConfig`.
  - Each script is a `method` over the `Remote` object, or over values for the PHP script.
  - Each method is proved equal to a pure specification function: `CreationRun`, `CleanupRun`, `PostInstallRun`, `FormRun` and `UpdateConfigRun`.
- **Properties:** the `ProvisionFacts`, `CleanupFacts` and `ConfigFacts` modules state what the scripts promise as lemmas on those functions. So does the end of `PostInstall` and of `FormScript`.

## Model

| member | source | states |
|---|---|---|
| Remote.ApiResult | cleanup-pre-configured-data.py:23-43 | The helper's result is `None` on a transport failure, on a 4xx/5xx status and on an empty or non-JSON body. Otherwise it is exactly the parsed body. |
| Remote.Send | cleanup-pre-configured-data.py:26-34 | One call appends exactly one exchange, carrying the request sent, to the transcript. It leaves the transport's outages and the platform as they were. |
| Remote.Remote.constructor | cleanup-pre-configured-data.py:23-25 | A new client starts with the given store, an empty transcript, the given outages and the given platform. |
| Remote.Remote.Call | cleanup-pre-configured-data.py:26-34 | The imperative call leaves the client in the state `Send` gives and returns that exchange's response. |
| Remote.MakeApiRequest | cleanup-pre-configured-data.py:23-43 | `make_api_request` makes one call and returns that call's response reduced by the result rule. |
| Remote.CreatedIdOf | create-pre-configured-data.py:88-90 | `result.get(kind, {}).get('id')` is the `id` inside the record under the kind's key. It is null for a missing result, or for a result without that key. |
| Remote.RecordsJson | cleanup-pre-configured-data.py:76-80 | A listing renders every record of the table, in table order. |
| Remote.KeyedById | cleanup-pre-configured-data.py:60-61 | The field listing is a mapping from each record's decimal id to its rendering, in table order. |
| Remote.RenderedAttr | cleanup-pre-configured-data.py:79-80 | `record.get(a)` on a listed record is the id under `"id"` and the stored attribute otherwise. A missing attribute reads as null. |
| Remote.ServeNew | create-pre-configured-data.py:86-90 | A creation with an object payload does three things: it stores a new record under the next id, it leaves every other table alone, and it answers 201 with that record, whose id the script reads back. |
| Remote.Serve | cleanup-pre-configured-data.py:56-133 | A model of Mautic's answers, which the scripts rely on but do not define. A listing answers 200 with every record of the kind, under the kind's plural name. A creation with an object payload stores a record under the next id and answers 201 with it; any other payload gets 400. A delete by a stored id removes that record; an unknown id gets 404. An event add appends to a stored campaign. A send answers success. |
| Environment.GetenvOr | create_mautic_form.py:12-14 | `os.getenv(name, default)`: the variable's value when it is set, even when empty; the default only when it is unset. |
| Environment.HasCredentials | cleanup-pre-configured-data.py:15-21 | The credential check passes exactly when `MAUTIC_URL`, `MAUTIC_USER` and `MAUTIC_PASSWORD` are all set and non-empty. |
| Json.Get | cleanup-pre-configured-data.py:78-79 | `item.get(key)` is the value under the key. It is null when the key is absent or the item is not an object. |
| Json.Truthy | create-pre-configured-data.py:88 | Python truthiness of parsed JSON: null, `false`, `0`, the empty string, the empty list and the empty object are falsy; every other value is truthy. |
| Json.Lookup | cleanup-pre-configured-data.py:60 | `key in d` and `d[key]`: absent exactly when no entry has the key; otherwise one of the entries. |
| Json.Values | cleanup-pre-configured-data.py:61 | `d.values()` has the dict's values, one per entry and in entry order. |
| Text.LowerAscii | post-install-configuration.py:117 | `key.lower()` keeps the length and lower-cases each character in place. |
| Text.Repeat | post-install-configuration.py:118 | `'*' * len(value)` has the given length and only that character. |
| Text.IndexOf | update-config.php:23 | The first `=` is at the returned position, with none before it. None is returned exactly when the text has no `=`. |
| Cleanup.Listed | cleanup-pre-configured-data.py:77-78 | `response[collection]` is read only from a truthy object response that holds a list under that name; anything else gives no items. |
| Cleanup.FieldValues | cleanup-pre-configured-data.py:60-61 | `response['fields'].values()` is read only from a truthy object response that holds a mapping under `fields`; anything else gives no values. |
| Cleanup.FieldIdByAlias | cleanup-pre-configured-data.py:60-64 | The field id is that of the first listed field whose `alias` matches, and null when there is no such field or no `fields` mapping. |
| Cleanup.Resolve | cleanup-pre-configured-data.py:56-81 | A field is looked up by alias in the `fields` mapping. Any other kind is looked up in its plural-named list: by `tag` for tags, by `name` otherwise. |
| Cleanup.ProbeStep | cleanup-pre-configured-data.py:56-72 | One teardown section: one listing call, then one delete of the id found, made only when that id is truthy. |
| Cleanup.TeardownFrom | cleanup-pre-configured-data.py:56-153 | The sections run one after another, each from the state the previous one left. |
| Cleanup.CleanupRun | cleanup-pre-configured-data.py:15-153 | Without credentials the script exits 1 before any call. Otherwise it runs every teardown step and exits 0. |
| Cleanup.FirstIndex | cleanup-pre-configured-data.py:78-80 | The lookup loop stops at the first item whose attribute equals the key. None is returned exactly when no item matches. |
| Cleanup.FirstMatchId | cleanup-pre-configured-data.py:78-81 | The lookup gives the first matching item's `id`, or `None` when nothing matches. |
| Cleanup.IdByName | cleanup-pre-configured-data.py:75-81 | The by-name helper gives `None` in three cases: a falsy listing, a listing without the collection, or no match. Otherwise it gives the first match's `id`. |
| Cleanup.FindFieldId | cleanup-pre-configured-data.py:58-64 | The field loop over `fields.values()` stops at the first field with alias `profissao` and gives its id. Without a `fields` mapping it gives `None`. |
| Cleanup.NamedProbes | cleanup-pre-configured-data.py:84-85 | Definition: the email steps, one `Probe(Email, name)` per entry of `EMAIL_NAMES`, in list order. |
| Cleanup.GetIdByName | cleanup-pre-configured-data.py:96-102 | The by-name helper makes exactly one listing call and resolves the name from it. |
| Cleanup.DeleteCustomField | cleanup-pre-configured-data.py:56-72 | The field section is one teardown step for alias `profissao`. |
| Cleanup.DeleteByName | cleanup-pre-configured-data.py:96-113 | The campaign, tag and form sections, and each pass of the email loop, are one teardown step for that name. |
| Cleanup.DeleteEachByName | cleanup-pre-configured-data.py:84-93 | The emails loop runs one step per name, in order. |
| Cleanup.TeardownSplit | cleanup-pre-configured-data.py:56-153 | Running steps `ps` and then steps `qs` is the same as running `ps + qs`. |
| Cleanup.CleanupPreConfiguredData | cleanup-pre-configured-data.py:15-153 | The script's state and exit status are those of `CleanupRun`. |
| CleanupFacts.ProbeStepTrace | cleanup-pre-configured-data.py:116-133 | Whatever the responses, one step only appends to the transcript. It lists its kind first, then deletes exactly when the lookup found a truthy id, and that id is the one deleted. |
| CleanupFacts.TeardownTrace | cleanup-pre-configured-data.py:56-153 | Best effort: every step is attempted in order, whatever the responses, each with its own listing-then-optional-delete pattern. |
| CleanupFacts.ShapedListings | cleanup-pre-configured-data.py:56-153 | Each step lists its kind exactly once, in step order, and makes one or two calls. |
| CleanupFacts.ProbeKinds | cleanup-pre-configured-data.py:46-54 | The steps are field, the three emails, campaign, tag and form. |
| CleanupFacts.CleanupCalls | cleanup-pre-configured-data.py:19-153 | Without credentials the script exits 1 having sent nothing. Otherwise it exits 0 after 7 to 14 calls. Those calls list field, email ×3, campaign, tag and form in that order, each followed by its delete when found. |
| CleanupFacts.ListingItems | cleanup-pre-configured-data.py:60-61 | On the platform model, the listing the script reads holds every stored record of the kind. |
| CleanupFacts.ResolveListing | cleanup-pre-configured-data.py:75-81 | Over a served listing, the lookup finds the first record carrying the key, by its id. It gives null when no record carries it. |
| CleanupFacts.TeardownKeepsValid | cleanup-pre-configured-data.py:56-153 | On the platform model, a teardown from a store with valid ids keeps them valid. So `ProbeStepFound`'s validity premise holds before every step of the run. |
| CleanupFacts.TeardownPlatform | cleanup-pre-configured-data.py:23-43 | The teardown talks to the same platform throughout. |
| CleanupFacts.ProbeStepNoMatch | cleanup-pre-configured-data.py:146-153 | When no stored record carries the key, the step issues only its listing and changes no data. |
| CleanupFacts.NothingToDelete | cleanup-pre-configured-data.py:56-153 | When no stored record carries any step's key, the run makes one listing call per step, in order, and leaves the store unchanged. |
| CleanupFacts.ProbeStepFound | cleanup-pre-configured-data.py:126-131 | When the listing goes through, the step deletes exactly the id of the first record carrying the key. When the delete goes through too, that record, and only it, leaves its table. |
| Provision.EventPayload | create-pre-configured-data.py:260-267 | The event is named `Send email (D+<delay>)`, has type `email.send`, and sends the given email after the given number of days. |
| Provision.FormPayload | create-pre-configured-data.py:280-351 | The form `LeadLandingPageForm` is a published campaign form with the five fields. Its actions add the submitter to the given campaign and tag them `Semente1`. |
| Provision.PlannedRequest | create-pre-configured-data.py:63-354 | Call `i` of the run is fixed by the results before it. Calls 0-5 create the field, the campaign, the tag and the three emails. Calls 6-8 add the events to the campaign created at call 1. Call 9 creates the form for that campaign. |
| Provision.FailFast | create-pre-configured-data.py:86-366 | Every creation exits with status 1 on a falsy result. The three event adds (lines 272-275) only report. |
| Provision.ProvisionFrom | create-pre-configured-data.py:63-366 | The run makes the planned calls in order. It stops with status 1 at the first falsy fail-fast step, and ends with status 0 after the tenth call. |
| Provision.CreationRun | create-pre-configured-data.py:17-366 | Without credentials the script exits 1 before any call. Otherwise it runs the plan with the script's own payloads. |
| Provision.Perform | create-pre-configured-data.py:86-93 | One call of the run: the state after `Send`, the helper's result, and the stop rule (exit 1 on a falsy result at a fail-fast step; otherwise the run continues). |
| Provision.CreateBasics | create-pre-configured-data.py:63-130 | Field, campaign and tag are each checked before the next. When all three succeed, the campaign id is the one the campaign creation returned. |
| Provision.CreateEmails | create-pre-configured-data.py:132-247 | The three emails are each checked before the next. The three ids kept are those their creations returned, in order. |
| Provision.EventRequest | create-pre-configured-data.py:253-270 | The event add for email `delay` goes to the created campaign and sends the created email after `delay` days. |
| Provision.AddEmailEvents | create-pre-configured-data.py:249-275 | Exactly three event adds are made, and the run continues whatever they return. |
| Provision.CreateForm | create-pre-configured-data.py:277-366 | The form is the last call. The exit status is 1 exactly when its result is falsy. |
| Provision.CreatePreConfiguredData | create-pre-configured-data.py:17-366 | The script's state and exit status are those of `CreationRun`. |
| ProvisionFacts.Results | create-pre-configured-data.py:41-61 | Definition: the result the helper returned for each exchange of a run, in call order. |
| ProvisionFacts.ProvisionExtends | create-pre-configured-data.py:63-366 | A run only appends to the transcript, over the same transport and platform. |
| ProvisionFacts.ProvisionPlan | create-pre-configured-data.py:63-366 | From any point, each request of the run is the planned one for the results before it, whatever the platform answers. |
| ProvisionFacts.PlanAt | create-pre-configured-data.py:63-366 | The `i`-th call of a planned run is step `|results| + i` of the plan, computed from the results before it. |
| ProvisionFacts.ProvisionStops | create-pre-configured-data.py:86-366 | The run stops right after the first falsy creation and nowhere earlier. The status is 1 exactly at such a stop; a run that does not stop reaches the last step with status 0. |
| ProvisionFacts.ProvisionCalls | create-pre-configured-data.py:63-366 | A run makes 1 to 10 calls. A falsy result in the first six ends it with status 1. Once the events are reached, all ten calls are made. Status 0 holds exactly when all ten were made and the form came back truthy. |
| ProvisionFacts.ProvisionEndpoints | create-pre-configured-data.py:86-354 | The endpoints come in the fixed order: creations, then three event adds, then the form. The run never lists or deletes. |
| ProvisionFacts.ProvisionPayloads | create-pre-configured-data.py:67-240 | Calls 0 to 5 carry the field, campaign, tag and three email payloads, in that order. |
| ProvisionFacts.ProvisionEvents | create-pre-configured-data.py:253-270 | Each event goes to the campaign created at call 1 and sends the email created three calls before it, after `i - 6` days. |
| ProvisionFacts.ProvisionForm | create-pre-configured-data.py:280-354 | In a complete run, the form's campaign action names the campaign created at call 1. |
| ProvisionFacts.ServedRun | create-pre-configured-data.py:63-366 | On the platform model, with the transport up and object payloads, a run ends with status 0. It adds exactly one record per remaining creation step to each kind's table. |
| ProvisionFacts.ScriptPayloads | create-pre-configured-data.py:67-351 | The script's creation payloads are all JSON objects. |
| ProvisionFacts.CreationDuplicates | create-pre-configured-data.py:17-366 | The script never checks what exists. On the platform model, every credentialed run with the transport up exits 0 and adds one more field, campaign, tag and form and three more emails. |
| PostInstall.Recipient | post-install-configuration.py:32 | The recipient is `EMAIL_ADDRESS`, else `TEST_EMAIL_RECIPIENT`, else `test@example.com`. |
| PostInstall.Mobile | post-install-configuration.py:33 | The mobile number is `MOBILE_NUMBER`, else `+5511999999999`. |
| PostInstall.TestEmailRun | post-install-configuration.py:53-112 | `send_test_email`: create the contact, then the email, then send. It stops at the first falsy result, and reports success exactly when the send's result is truthy. |
| PostInstall.TestEmailCalls | post-install-configuration.py:53-112 | The calls are: create contact, create email, send. A falsy result ends the sequence with no later call. Success holds exactly when all three results are truthy. The send names the ids read back from the first two. |
| PostInstall.TestEmailServed | post-install-configuration.py:53-112 | On the platform model with no outage, the email is sent. One contact and one email are created, and the send names exactly those two records. |
| PostInstall.PostInstallRun | post-install-configuration.py:122-135 | Without credentials the script exits 1 before any call. Otherwise it runs the test send and exits 0 whatever the send gave. |
| PostInstall.EmailConfig | post-install-configuration.py:20-30 | Definition: the nine mailer settings in the script's order, each key paired with `os.getenv` of its variable. |
| PostInstall.ShownValue | post-install-configuration.py:116-120 | A hidden value shows as one `*` per character. Another set value shows as itself, and an unset one as `None`. |
| PostInstall.NotPasswordKey | post-install-configuration.py:117 | A key with no `w` in either case never matches `password`. |
| PostInstall.PasswordKey | post-install-configuration.py:117 | `mailer_password` matches `password` once lower-cased. |
| PostInstall.OtherKeys | post-install-configuration.py:20-30 | None of the eight other mailer keys matches `password`. |
| PostInstall.OnlyPasswordHidden | post-install-configuration.py:114-120 | Of the mailer settings, only the password is masked, and only when it is set. |
| PostInstall.SendTestEmail | post-install-configuration.py:53-112 | The method's state and result are those of `TestEmailRun`. |
| PostInstall.PostInstallConfiguration | post-install-configuration.py:122-135 | The method's state and exit status are those of `PostInstallRun`. |
| FormScript.BaseUrl | create_mautic_form.py:12-26 | A `MAUTIC_URL` other than the placeholder is kept. So is the placeholder when the host is `localhost`. Otherwise the URL is `protocol://host`, with `:port` added exactly when the port is set and neither 80 nor 443. Host, port and protocol default to `localhost`, `8001` and `http`. |
| FormScript.MauticUrl | create_mautic_form.py:12-26 | The module-level assignments compute `BaseUrl` of the environment. |
| FormScript.FormAddress | create_mautic_form.py:90 | The form goes to `<MAUTIC_URL>/api/forms/new` for a set, non-placeholder URL. Otherwise it goes to `protocol://host[:port]/api/forms/new`, or to the placeholder's address when the host is `localhost`. |
| FormScript.FormRun | create_mautic_form.py:94-123 | The script makes exactly one call, posting the interest form, and its outcome is the classification of that one response. |
| FormScript.ClassifyFormResponse | create_mautic_form.py:94-123 | A 4xx/5xx status is an HTTP error. A 201 with a JSON body is created, reporting that body. Another status is a creation error carrying the status. No response, or an unparsable 201 body, is a request failure. Each outcome holds in both directions of its condition. |
| FormScript.FormRunServed | create_mautic_form.py:94-108 | On the platform model with no outage, the form is created and reported with the record the platform stored. |
| FormScript.CreateMauticForm | create_mautic_form.py:89-123 | The method returns the address it posts to, which is `FormAddress` of the environment. Its state and outcome are those of `FormRun`. |
| UpdateConfig.ParseOption | update-config.php:22-25 | An argument is an option exactly when it starts with `--` and contains `=`. It then reads back as `--key=value` with no `=` in the key. |
| UpdateConfig.ParseOptionOf | update-config.php:23-25 | `--key=value`, with no `=` in the key, parses back to that key and value. |
| UpdateConfig.OptionsPresent | update-config.php:21-28 | A key is present exactly when some argument sets it. |
| UpdateConfig.OptionsLastWins | update-config.php:21-28 | A present key holds the value of an argument that sets it, namely the last such argument. |
| UpdateConfig.ParseOptions | update-config.php:21-28 | The parsing loop computes `Options` of the arguments. |
| UpdateConfig.Options | update-config.php:21-28 | Arguments are read left to right. Each `--key=value` sets its key, and a later one overrides an earlier one. Other arguments are skipped. |
| UpdateConfig.IndexOfKey | update-config.php:47 | The first entry with the key is found. None is returned exactly when no entry has the key. |
| UpdateConfig.Keys | update-config.php:70 | Definition: the configuration's keys, in iteration order. |
| UpdateConfig.Assign | update-config.php:47 | `$config[key] = value` replaces an existing key's value in place, or appends the key at the end. |
| UpdateConfig.AssignFacts | update-config.php:47 | `$config[key] = value` sets that key and leaves every other value. An existing key keeps its place and a new key goes last. |
| UpdateConfig.StoredValue | update-config.php:63 | The cache option's text `null` becomes a PHP null; every other option is stored as its text. |
| UpdateConfig.UpdateStep | update-config.php:46-49 | One `isset` block: a present option assigns its key and lists it as changed; an absent one changes nothing. |
| UpdateConfig.ApplyUpdates | update-config.php:43-65 | The blocks run in order, each on the configuration the previous one left. Their change lists are concatenated. |
| UpdateConfig.SetOption | update-config.php:46-64 | One `isset` block. When the option is present, its key is assigned the option's stored value and is appended to the change list. Otherwise the configuration and the change list are unchanged. |
| UpdateConfig.UpdateSettings | update-config.php:43-65 | The four `isset` blocks compute `ApplyUpdates` over the script's updates. |
| UpdateConfig.Line | update-config.php:71-82 | Each entry is rendered by its kind. A string is single-quoted, unescaped. A boolean is `true` or `false`, and null is `null`. An array goes through `var_export`, and an integer is written in decimal. |
| UpdateConfig.Body | update-config.php:70-83 | The entries' lines, in iteration order. |
| UpdateConfig.Render | update-config.php:68-85 | The file is the `<?php` header and `return [`, then the lines, then `];`. |
| UpdateConfig.Serialise | update-config.php:68-85 | The `foreach` produces `Render` of the configuration. |
| UpdateConfig.UpdateConfigRun | update-config.php:7-93 | Exit status 1 with nothing written in these cases: fewer than two arguments, a missing file, or a non-array. Text is written exactly when the run gets that far and the write does not fail. Status 0 holds exactly when text was written. The text written is `Render` of the updated array. The change list is that of the updates, also when the write fails. |
| UpdateConfig.UpdateConfigScript | update-config.php:7-93 | The method's outcome is that of `UpdateConfigRun`. |
| ConfigFacts.ChangesArePresentKeys | update-config.php:46-65 | The change list names the present options' keys, whatever the configuration holds. |
| ConfigFacts.PresentKeysMember | update-config.php:46-65 | A key is in the change list exactly when one of its options is present. |
| ConfigFacts.PresentKeysDistinct | update-config.php:46-65 | With distinct update keys, no key is listed twice. |
| ConfigFacts.ScriptChanges | update-config.php:46-65 | The change list is `mailer_dsn`, `mailer_from_name`, `mailer_from_email`, `api_rate_limiter_cache`, each exactly when its option is present, in that order and each at most once. |
| ConfigFacts.UntouchedKey | update-config.php:46-65 | A key that no present option targets keeps its value. |
| ConfigFacts.OptionSetsKey | update-config.php:46-65 | A present option leaves its key holding the option's stored value. |
| ConfigFacts.KeysKept | update-config.php:46-65 | The updates never drop or reorder keys: the old keys come first, in their order. |
| ConfigFacts.ScriptKeysDistinct | update-config.php:46-65 | The script's four updates set four different keys. |
| ConfigFacts.ScriptSettings | update-config.php:46-65 | Each present option overwrites its own key with its text. The cache option's `null` becomes a PHP null. |
| ConfigFacts.ScriptUntouched | update-config.php:46-65 | Every other setting of the configuration keeps its value. |
| ConfigFacts.LineShape | update-config.php:70-83 | Every line is: indent, quoted key, `=>`, the value rendered by its kind, a comma, a newline. |
| ConfigFacts.BodyLines | update-config.php:70-83 | The lines follow the entries' order: entry `i` comes right after the lines of entries `0..i-1`. |
| ConfigFacts.RenderFrame | update-config.php:68-85 | The file opens with `<?php`, a blank line and `return [`, and ends with `];`. Its body lies in between. |

## Left out

- Environment loading:
  - `load_dotenv` and the `.mautic_env` file are not modelled. The environment is a parameter (`Env`), read with `os.getenv` semantics.
  - In the form script, `MAUTIC_USER` and `MAUTIC_PASSWORD` fall back to placeholders and only go into the authentication header, so they are not modelled.
- Printing is not modelled: every `print` and `echo`, including the messages that tell which branch was taken, and the listing of the mailer settings. `PostInstall.ShownValue` gives the text each setting would show.
- The HTTP transport is not modelled: URLs, basic authentication, the 30-second timeouts, and the request methods as strings.
  - The endpoints are structured values (`Remote.Endpoint`). Only the form script's address is built as text (`FormScript.FormAddress`). `CreateMauticForm` returns that address, but the request it sends is the structured `New(Form)` call, so the host actually contacted is not part of the platform state.
  - Transport failures and timeouts are the `outages` parameter. An outage is a failure before the platform acts: the store is unchanged and no response arrives.
  - A failure after the platform has committed a change is not modelled: for example, a timeout that arrives after a record was created, or a response lost on the way back. The model covers only failures that happen before the platform acts.
- The platform is a parameter of every run. `Remote.Serve` is one model of Mautic. The properties that need concrete answers assume it; the others hold for any platform.
- The HTML bodies of the emails are placeholder strings. They are never inspected.
- The creation payloads and builders are collected in `Provision.Payloads`. The step methods and the run lemmas take them as a parameter and hold for any payloads. `Provision.PAYLOADS` holds the script's own, and the top-level method passes them.
- Python crash paths are not modelled: `.get` on a JSON value that is not an object, `.values()` on a `fields` value that is a list. In the model, a value that is not an object simply has no attributes.
  - Where the script would stop with a traceback and exit status 1, the model carries on. So the properties stated for any response or any platform hold only for responses the script can read without crashing. This applies, for example, to `CleanupFacts.TeardownTrace` and `ProvisionFacts.ProvisionCalls`.
- Malformed JSON and JSON `null` both reduce to a `None` result, as `make_api_request` makes them. The response body is `None` when the text is empty or is not JSON.
  - This follows `requests` 2.27 and later, where the error `response.json()` raises on unparsable text is a `RequestException`. With older versions that error escapes the handler, and the script crashes; that crash is not modelled.
  - The same dependency decides the form script's case of a 201 with an unparsable body, which the model reports as `RequestFailed`.
- JSON objects are entry lists (`Json.JObj`). Duplicate keys are allowed; `Json.Lookup` finds the first, whereas Python's `json.loads` keeps the last.
- JSON floats are not representable; numbers are integers.
- Text.LowerAscii: `str.lower()` is modelled on ASCII letters only. The nine settings' keys are ASCII, so nothing about those keys depends on this.
- Error messages are not modelled. The form script's `HTTPError`, `ConnectionError`, `Timeout` and `RequestException` handlers differ only in what they print, so a missing response is one outcome, `RequestFailed`.
- The creation script never looks for existing resources; a second run duplicates the first (`ProvisionFacts.CreationDuplicates`).
- File access in the PHP script is modelled as parameters:
  - for `file_exists` together with `include`, whether the file is missing and what `include` returned (`UpdateConfig.ConfigFile`);
  - for `file_put_contents`, whether the write fails.

  A partial write is not modelled.
- `var_export` is a function parameter of the serialiser; its output format is not modelled.
- Floats in the configuration array are not modelled. Integers are rendered in decimal.
- PHP's coercion of numeric-string array keys to integers is not modelled: keys are strings. The four keys the script sets are not numeric.
- Duplicate keys are not modelled: a PHP array has none. `UpdateConfig.Config` allows them, and lookups see the first.
- The stand-alone verification summary that ends the creation script (lines 368-395) is not modelled, because it only prints.
