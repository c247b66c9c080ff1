# django-orchestra core in Dafny

This project models the core of django-orchestra, a Django hosting control
panel, in Dafny, and proves properties of that model. It covers four parts.

**Webapp backends.** `WebAppServiceMixin`, `StaticController` and
`WebalizerController` append shell fragments to a controller's script
buffer. The model covers:
- the context each controller builds;
- which fragments are appended, and in what order;
- what running a fragment does to an abstract view of the server's
  filesystem, including the loop that nests the move-on-delete path until
  it is free.

**Form validation and merging.**
- The plugin data form: how it merges and initialises `data`, and its
  username and password rules.
- The static webapp form.
- The webapp directives.
- The website form's same-server check, domain check and location
  collection.

**The musician customer portal.**
- `get_bootstraped_percent`, the progress-bar rounding.
- The API models (`OrchestraModel`, `UserAccount`, `DatabaseService`,
  `Address`, mailing lists, SaaS).
- The settings lookup.
- The portal forms.
- The session login and logout.
- The REST client's request formation.
- The views' mailbox quota, query filter, language switch and error
  handling.
- Pagination.

**Admin and API helpers.**
- The mailbox serializers.
- The admin list filters for addresses, mailboxes and accounts.
- The SaaS database relation.

## How it is modelled

Each source file is a Dafny module. Shared modules hold:
- `Wrappers`: Option and Result;
- `PyValues`: dynamically typed Python values, truthiness, `str()` and
  the exceptions raised;
- `Numerals`: `int()`, `str()` and plain-decimal `float()` on strings;
- `Paths`: `os.path.join`;
- `Forms`: a form's error list and `cleaned_data`;
- `SeqFilter`: querysets as filtered sequences;
- `ShellModel`: the fragments, their text and their effect.

Python exceptions are `Err` results. The error path is modelled wherever
the source lets one escape or catches one.

State that the source changes in place is held in classes:
- `WebAppServiceMixin`, `StaticController` and `WebalizerController`
  (the script buffer);
- `PluginDataForm` and `FormState` (form errors and `cleaned_data`);
- `OrchestraObject`;
- `Session`;
- `Record`, a saved model instance with a related set.

Loops become methods with invariants, each proved equal to a
specification function:
- `InitAttributes` and `NewFromJson`;
- `GetUsageLoop`;
- `FilterWebsitesByDomain`;
- `CollectPks`;
- `CollectLocations`;
- `CleanTargetServer`.

Library calls and I/O are parameters:
- `urljoin`, `normpath`, `normurlpath` and `parse_datetime`;
- the domain validators;
- the HTTP round trip;
- the new session key and CSRF token;
- the database queries behind the filters.

## Model

| member | source | states |
|---|---|---|
| WebAppBackends.InterpolatePlain | orchestra/contrib/webapps/backends/__init__.py:92 | A `%` format with no `%` in the template returns the template unchanged |
| WebAppBackends.InterpolateKey | orchestra/contrib/webapps/backends/__init__.py:92 | `%(key)s` formats to `str()` of the context's value for that key |
| WebAppBackends.FixedEntries | orchestra/contrib/webapps/backends/__init__.py:80-91 | The update block sets exactly the ten fixed keys |
| WebAppBackends.GetContext | orchestra/contrib/webapps/backends/__init__.py:78-93 | The context's keys are the directive context's keys, the fixed keys and `deleted_app_path`. `sftpuser` is the SFTP user's name iff the server is in NEW_SERVERS, else None. It fails exactly when a new-server webapp has no SFTP user or the move-on-delete template cannot be formatted |
| WebAppBackends.GetContextLayers | orchestra/contrib/webapps/backends/__init__.py:79-92 | Fixed keys override same-named directive keys, and other directive keys survive. `deleted_app_path` is the setting formatted over the already-filled context |
| WebAppBackends.UnderConstructionFragments | orchestra/contrib/webapps/backends/__init__.py:40-62 | At most one fragment, present iff `under_construction_path` is truthy |
| WebAppBackends.PermsChoice | orchestra/contrib/webapps/backends/__init__.py:43-50 | The placeholder is chowned to `sftpuser:sftpuser` when `sftpuser` is truthy, else to `user:group` |
| WebAppBackends.DeleteFragment | orchestra/contrib/webapps/backends/__init__.py:64-76 | A nested move to `deleted_app_path` iff that path is truthy, otherwise `rm -fr` of the app path |
| WebAppBackends.WebAppServiceMixin.constructor | orchestra/contrib/webapps/backends/__init__.py:7-15 | A controller starts with an empty script buffer |
| WebAppBackends.WebAppServiceMixin.CheckWebappDir | orchestra/contrib/webapps/backends/__init__.py:16-27 | Appends exactly the check fragment and keeps earlier entries |
| WebAppBackends.WebAppServiceMixin.CreateWebappDir | orchestra/contrib/webapps/backends/__init__.py:29-38 | Appends exactly the create fragment and keeps earlier entries |
| WebAppBackends.WebAppServiceMixin.SetUnderConstruction | orchestra/contrib/webapps/backends/__init__.py:40-62 | With a falsy path, appends nothing and leaves the context as is. Otherwise it stores the rendered `perms` in the context and appends one fragment |
| WebAppBackends.WebAppServiceMixin.DeleteWebappDir | orchestra/contrib/webapps/backends/__init__.py:64-76 | Appends exactly the delete fragment |
| ShellModel.CreateDirEffect | orchestra/contrib/webapps/backends/__init__.py:30-37 | CREATED is set iff the app path was absent. The path then exists, and a new one is chowned to `user:group`. An existing one is left untouched |
| ShellModel.CheckDirEffect | orchestra/contrib/webapps/backends/__init__.py:17-26 | CREATED is set iff the path was absent or empty. The path then exists, and no ownership changes |
| ShellModel.UnderConstructionGuard | orchestra/contrib/webapps/backends/__init__.py:51-61 | The placeholder is copied and chowned only when CREATED is set and the path is still empty after the wait; the copy leaves the app path present and non-empty. Without CREATED nothing happens |
| ShellModel.FreeSlotIsFirstFree | orchestra/contrib/webapps/backends/__init__.py:67-71 | The nesting loop stops at the first free path of P, P/basename(P), …. Every earlier candidate exists, and the number of turns is bounded by the number of existing paths |
| ShellModel.NestShrinksVariant | orchestra/contrib/webapps/backends/__init__.py:69-71 | Each nesting step strictly shrinks the set of existing paths longer than the candidate, so the loop terminates |
| ShellModel.MoveNeverOverwrites | orchestra/contrib/webapps/backends/__init__.py:66-72 | The destination did not exist before the move. Nothing moves when the destination lies inside the app path. Otherwise every path inside the app path reappears at the same place under the destination with the same owner, and, when the destination is not inside the app path, nothing inside the app path remains |
| ShellModel.WithinComparable | orchestra/contrib/webapps/backends/__init__.py:66-72 | Two directories that both contain a path are nested one in the other |
| ShellModel.CreateDirIdempotent | orchestra/contrib/webapps/backends/__init__.py:29-38 | Running the create fragment twice leaves the filesystem as once, and the second run does not set CREATED |
| ShellModel.CheckDirIdempotent | orchestra/contrib/webapps/backends/__init__.py:16-27 | Running the check fragment twice leaves the filesystem as once |
| ShellModel.RemoveTreeIdempotent | orchestra/contrib/webapps/backends/__init__.py:76 | `rm -fr` twice equals once, and nothing under the path remains |
| StaticBackend.SaveFragments | orchestra/contrib/webapps/backends/static.py:16-27 | One or two fragments. The first is check on a WEBAPP_NEW_SERVERS server and create elsewhere; the under-construction fragment follows |
| StaticBackend.DeleteFragments | orchestra/contrib/webapps/backends/static.py:29-35 | Nothing on a new server, otherwise exactly the delete fragment |
| StaticBackend.StaticController.constructor | orchestra/contrib/webapps/backends/static.py:8-14 | A controller starts with an empty buffer |
| StaticBackend.StaticController.Save | orchestra/contrib/webapps/backends/static.py:16-27 | Fails iff `get_context` fails, leaving the buffer unchanged. Otherwise it appends exactly `SaveFragments` to the buffer |
| StaticBackend.StaticController.AppendSave | orchestra/contrib/webapps/backends/static.py:18-27 | Once the context exists, save appends exactly `SaveFragments` |
| StaticBackend.StaticController.Delete | orchestra/contrib/webapps/backends/static.py:29-35 | Fails iff `get_context` fails. Otherwise it appends exactly `DeleteFragments`, which is nothing on a new server |
| StaticBackend.SaveBranchesDifferInFirstOnly | orchestra/contrib/webapps/backends/static.py:16-27 | The new-server and legacy branches differ only in their first fragment, check versus create |
| StaticBackend.SaveOrder | orchestra/contrib/webapps/backends/static.py:18-27 | With a placeholder configured, save appends the directory fragment, then the under-construction fragment |
| StaticBackend.SaveFirstFragmentOwnership | orchestra/contrib/webapps/backends/static.py:18-26 | On a fresh path both branches create the directory. Legacy servers chown it to `user:group`; new servers leave ownership alone |
| Paths.Join | orchestra/contrib/websites/backends/webalizer.py:55-56 | `os.path.join`: an absolute second part wins. Otherwise the result ends with the second part, and is `a + "/" + b` when `a` has no trailing slash |
| WebalizerBackend.GetContext | orchestra/contrib/websites/backends/webalizer.py:49-130 | `webalizer_path` is join(webapp path, site name) and `webalizer_conf_path` is join(root, unique_name + ".conf"). The conf is chosen by NEW_SERVERS membership |
| WebalizerBackend.ConfShape | orchestra/contrib/websites/backends/webalizer.py:61-129 | Both confs begin with `# banner` and end with the shared tail. They carry the `awffull` history line on new servers and the `webalizer` one elsewhere |
| WebalizerBackend.SaveKeepsExistingIndex | orchestra/contrib/websites/backends/webalizer.py:23-37 | Running the commands `SaveScript` is the text of: the placeholder `index.html` is written iff it did not exist, the conf is always written and nothing else is. Afterwards the stats directory and its `index.html` exist, and only the stats directory changes owner, to `www-data:www-data` |
| WebalizerBackend.RunStepsUnfold | orchestra/contrib/websites/backends/webalizer.py:23-37 | The six save commands run one after the other, each on the previous one's result |
| WebalizerBackend.DeleteScripts | orchestra/contrib/websites/backends/webalizer.py:39-47 | `rm -fr webapp_path` comes first, iff the webapp is gone. The stats-dir and conf removals are emitted iff the webapp is gone or not remounted. Nothing is emitted iff it exists and is remounted |
| WebalizerBackend.WebalizerController.constructor | orchestra/contrib/websites/backends/webalizer.py:12-21 | A controller starts with an empty buffer |
| WebalizerBackend.WebalizerController.Save | orchestra/contrib/websites/backends/webalizer.py:23-37 | Appends exactly one script |
| WebalizerBackend.WebalizerController.Delete | orchestra/contrib/websites/backends/webalizer.py:39-47 | Appends exactly `DeleteScripts` of the context |
| WebalizerBackend.WebalizerController.AppendDelete | orchestra/contrib/websites/backends/webalizer.py:40-47 | Once the context exists, delete appends exactly `DeleteScripts` |
| Forms.FormState.AddError | orchestra/plugins/forms.py:128-131 | `add_error` records the error and drops the field from `cleaned_data` |
| Forms.CleanPassword2 | orchestra/contrib/webapps/types/misc.py:54-60 | Raises the mismatch message iff both passwords are truthy and differ; otherwise returns the second password |
| PluginForms.Initials | orchestra/plugins/forms.py:32-35 | A declared field's initial is the stored value when the instance data has the key, else unchanged. Other fields keep theirs |
| PluginForms.PluginDataForm.constructor | orchestra/plugins/forms.py:30-31 | The form holds its instance data, submitted data and initials |
| PluginForms.PluginDataForm.LoadInitials | orchestra/plugins/forms.py:30-35 | The initials become `Initials` of the old ones |
| PluginForms.FirstMissing | orchestra/plugins/forms.py:57-61 | None iff every declared field is in the cleaned or the raw data; otherwise the first declared field in neither |
| PluginForms.MissingIsFirst | orchestra/plugins/forms.py:57-61 | A field missing from both after a prefix with none missing is the one reported |
| PluginForms.MergeData | orchestra/plugins/forms.py:53-69 | KeyError iff some declared field is in neither source, naming the first. The merged keys are the declared fields plus the stored keys |
| PluginForms.NewValueWins | orchestra/plugins/forms.py:57-64 | A declared field holds its cleaned value, else its raw value, never the stored one |
| PluginForms.StoredValueKept | orchestra/plugins/forms.py:63-68 | A stored, undeclared key keeps its stored value unless the form cleaned one |
| PluginForms.PluginDataForm.Clean | orchestra/plugins/forms.py:53-69 | On success only `cleaned_data['data']` changes, to the merge. On KeyError nothing changes. No form error is added |
| PluginForms.PluginDataForm.MergeDeclared | orchestra/plugins/forms.py:57-61 | Fails with KeyError iff some declared field is in neither the cleaned nor the submitted data, naming the first. Otherwise the keys are the declared fields, each holding its cleaned value, else its submitted one |
| PluginForms.PluginDataForm.MergeStored | orchestra/plugins/forms.py:63-68 | Adding the stored keys to the declared part gives exactly `Merged` |
| PluginForms.UsernameErrors | orchestra/plugins/forms.py:123-132 | No error on update. On creation, a missing server is a `target_server` error, and a NEW_SERVERS server with a falsy username is the `username` error "SFTP user is required by new webservers". No other error is ever added, and any other creation gets none |
| PluginForms.CleanUsername | orchestra/plugins/forms.py:123-132 | Returns the username on creation and None on update, adding exactly `UsernameErrors` |
| PluginForms.CleanPassword2 | orchestra/plugins/forms.py:134-140 | Raises iff both passwords are truthy and differ, else returns `password2` |
| WebAppTypes.StaticCleanErrors | orchestra/contrib/webapps/types/misc.py:44-52 | None on update. A missing server gives the `target_server` error, and a new server with `username == ''` gives the `username` error. At most one of these two is added, and a creation with a server that passes the username check gets none |
| WebAppTypes.StaticFormClean | orchestra/contrib/webapps/types/misc.py:44-52 | Adds exactly `StaticCleanErrors` and performs no data merge |
| WebAppTypes.StaticDirectiveServesSavedDir | orchestra/contrib/webapps/types/misc.py:72-73 | The directory the static directive mounts is the context's `app_path`. Saving leaves it present on either server kind, and deleting removes or moves exactly it |
| WebAppTypes.ContextAppPath | orchestra/contrib/webapps/backends/__init__.py:80-91 | The backends' context carries the webapp's own path as `app_path` |
| WebAppTypes.FragmentsActOnAppPath | orchestra/contrib/webapps/backends/static.py:16-35 | The static backend's first save fragment leaves `app_path` present, and its delete fragment removes or moves exactly `app_path` |
| WebAppTypes.WebalizerDirective | orchestra/contrib/webapps/types/misc.py:86-89 | `('static', normpath(join(app path, '%(site_name)s')))` |
| WebAppTypes.JoinRelative | orchestra/contrib/webapps/types/misc.py:89 | Joining a relative part puts it after the first part, with a `/` added when the first part has no trailing one |
| WebAppTypes.InterpolatePrefix | orchestra/contrib/webapps/types/misc.py:89 | A `%`-free prefix comes through `%` formatting unchanged |
| WebAppTypes.DirectiveNamesStatsDir | orchestra/contrib/webapps/types/misc.py:86-89 | Formatting `WebalizerDirective`'s path, before `normpath`, with a site name gives join(app path, site name) |
| WebsiteForms.TotalForms | orchestra/contrib/websites/forms.py:40 | KeyError without the TOTAL_FORMS key, ValueError when it is not an integer, else its value |
| WebsiteForms.SlotWebapp | orchestra/contrib/websites/forms.py:41-43 | A slot counts iff its webapp key is present and non-empty and it has no DELETE key |
| WebsiteForms.ScanSlots | orchestra/contrib/websites/forms.py:41-46 | The slot loop computes `Scan`: the first failed lookup, else whether some counted slot is on another server |
| WebsiteForms.ScanMeaning | orchestra/contrib/websites/forms.py:40-46 | The scan succeeds iff every slot lookup succeeds. It reports a mismatch iff some slot's webapp is on another server |
| WebsiteForms.MismatchReported | orchestra/contrib/websites/forms.py:34-48 | The server is the cleaned one, else the instance's. An error is due iff every slot 0..TOTAL_FORMS (inclusive) can be looked up and some counted webapp is on another server |
| WebsiteForms.CleanTargetServer | orchestra/contrib/websites/forms.py:32-49 | Returns the chosen server with or without an error. It adds at most one `target_server` error, exactly when a mismatch is found |
| WebsiteForms.DomainErrors | orchestra/contrib/websites/forms.py:21-25 | At most one non-field error per domain |
| WebsiteForms.EveryFailureReported | orchestra/contrib/websites/forms.py:21-25 | Every failing domain's message is reported, so checking does not stop at the first failure |
| WebsiteForms.OnlyFailuresReported | orchestra/contrib/websites/forms.py:21-25 | Every reported message comes from some failing domain |
| WebsiteForms.Clean | orchestra/contrib/websites/forms.py:13-30 | Without domains nothing changes. Otherwise it adds every domain error, then the server-name error on `domains` |
| WebsiteForms.AddDomainErrors | orchestra/contrib/websites/forms.py:21-25 | The domain loop appends exactly `DomainErrors` and leaves `cleaned_data` alone |
| WebsiteForms.DomainCleanFields | orchestra/contrib/websites/forms.py:21-30 | The only field `clean` names in its errors is `domains`, and only when the server-name check fails |
| WebsiteForms.CollectLocations | orchestra/contrib/websites/forms.py:55-60 | The location set holds the normalised path of each non-deleted content form with a path |
| WebsiteForms.NamedDirectives | orchestra/contrib/websites/forms.py:63-66 | Exactly the directives whose name is not None are validated |
| WebsiteForms.NamedDirectivesKeepOrder | orchestra/contrib/websites/forms.py:63-66 | The named directives are visited in the forms' order: filtering two runs of forms gives the first run's named directives followed by the second's |
| BootstrapPercent.RoundHalfEven | orchestra/contrib/musician/utils.py:12 | Python `round`: a nearest integer, the even one on a tie |
| BootstrapPercent.NearestEvenUnique | orchestra/contrib/musician/utils.py:12 | That integer is unique |
| BootstrapPercent.RoundMonotone | orchestra/contrib/musician/utils.py:12 | Rounding is monotone |
| BootstrapPercent.Divide | orchestra/contrib/musician/utils.py:7-10 | `value / total` exists iff both are numbers and the total is non-zero, and then equals their quotient |
| BootstrapPercent.Clamp | orchestra/contrib/musician/utils.py:15-16 | The result lies in [0, 100] and leaves values already in range alone |
| BootstrapPercent.Bar | orchestra/contrib/musician/utils.py:12-16 | `round(4p) * 100 // 4`, clamped, is one of 0, 25, 50, 75, 100 |
| BootstrapPercent.GetBootstrapedPercent | orchestra/contrib/musician/utils.py:1-18 | One of 0, 25, 50, 75, 100; 0 when the division raises |
| BootstrapPercent.BarMonotone | orchestra/contrib/musician/utils.py:12-16 | A larger fraction never gives a narrower bar |
| BootstrapPercent.NearestQuarter | orchestra/contrib/musician/utils.py:12-16 | For a fraction in [0, 1], the bar is within 12.5 points of the exact percentage |
| BootstrapPercent.ExactQuarter | orchestra/contrib/musician/tests.py:122-125 | 25 of 100 gives 25 |
| BootstrapPercent.RoundsDown | orchestra/contrib/musician/tests.py:127-130 | 26 of 100 gives 25 |
| BootstrapPercent.RoundsUp | orchestra/contrib/musician/tests.py:132-135 | 48 of 100 gives 50 |
| BootstrapPercent.ClampsHigh | orchestra/contrib/musician/tests.py:137-140 | 200 of 100 gives 100 |
| BootstrapPercent.ClampsLow | orchestra/contrib/musician/tests.py:142-145 | -10 of 100 gives 0 |
| BootstrapPercent.InvalidTotals | orchestra/contrib/musician/tests.py:147-153 | A total of 0 or None gives 0 |
| BootstrapPercent.ThreeQuarters | orchestra/contrib/musician/utils.py:3-12 | 3 of 4 gives 75, a width the docstring does not list |
| MusicianSettings.GetSetting | orchestra/contrib/musician/settings.py:5-7 | The configured value when it is truthy, else the default when one exists, else None |
| MusicianSettings.FalsyFallsBack | orchestra/contrib/musician/settings.py:7 | A falsy configured value behaves as if it were not configured |
| MusicianSettings.ResourcesFor | orchestra/contrib/musician/settings.py:10-30 | A listed account type gets its own table. An unlisted one gets exactly the factory's table, and KeyError iff there is no factory |
| MusicianSettings.DefaultMailboxQuota | orchestra/contrib/musician/settings.py:10-30 | By default ASSOCIATION accounts may have 10 mailboxes and every other type 2 |
| MusicianModels.Attributes | orchestra/contrib/musician/models.py:27-28 | Attributes are exactly the `param_defaults` keys, each from the kwargs when given, else the default |
| MusicianModels.InitAttributes | orchestra/contrib/musician/models.py:27-28 | The `setattr` loop computes `Attributes` |
| MusicianModels.VerboseName | orchestra/contrib/musician/models.py:24-25 | `verbose_name`, falling back to `api_name` when None |
| MusicianModels.OrchestraObject.constructor | orchestra/contrib/musician/models.py:23-28 | The new object's attributes are `Attributes`. Address and mailing-list objects also keep the raw kwargs as `data` |
| MusicianModels.JsonKwargs | orchestra/contrib/musician/models.py:41-44 | Keys are the data keys plus the kwargs; kwargs override same-named data keys, and other data keys are kept |
| MusicianModels.NewFromJson | orchestra/contrib/musician/models.py:31-49 | None gives a default instance. Otherwise it builds from the data overlaid with kwargs and keeps the original JSON |
| MusicianModels.Lower | orchestra/contrib/musician/models.py:124 | Same length, each letter lowered, no upper-case letter left |
| MusicianModels.UserAccountAttrs | orchestra/contrib/musician/models.py:113-130 | An account has exactly the UserAccount attributes |
| MusicianModels.UserAccountKwargsFields | orchestra/contrib/musician/models.py:113-130 | The three values computed before the base constructor are exactly billing, language and last_login: language lowered, a missing or null last_login None, and a billing object iff `billcontact` is present |
| MusicianModels.UserAccountFields | orchestra/contrib/musician/models.py:113-130 | `language` is lowered, and `last_login` stays None when absent or null. Any `billcontact`, null included, gives a BillingContact object |
| MusicianModels.GetUsage | orchestra/contrib/musician/models.py:168-193 | Without `resources` the usage is {} |
| MusicianModels.GetUsageLoop | orchestra/contrib/musician/models.py:168-193 | The loop with its `break` computes `GetUsage` |
| MusicianModels.DiskEntryIsFirst | orchestra/contrib/musician/models.py:172-176 | The disk entry used is the first resource named 'disk'. Every resource before it is a named dict with another name |
| MusicianModels.NoDiskNoUsage | orchestra/contrib/musician/models.py:170-184 | Without a 'disk' resource the usage is {} |
| MusicianModels.UnallocatedIsZero | orchestra/contrib/musician/models.py:187-191 | When `allocated` is None the percent is 0 |
| MusicianModels.UsedFigure | orchestra/contrib/musician/models.py:179 | `float('1.798')` is 1798/1000 |
| MusicianModels.UnallocatedDatabaseExample | orchestra/contrib/musician/tests.py:7-32 | A database using 1.798 MiB with no allocation reports that usage at 0 percent |
| MusicianModels.AddressType | orchestra/contrib/musician/models.py:273-277 | 'forward' iff `forward` is truthy, 'mailbox' iff it is falsy; KeyError without it |
| MusicianModels.AliasesShape | orchestra/contrib/musician/models.py:263-267 | One alias per name after the first, each `name@domain-name`, in order |
| MusicianModels.FullAddressName | orchestra/contrib/musician/models.py:269-271 | `name@domain-name` when the domain is a dict with a `name`. Otherwise KeyError("name") for a dict without it and TypeError for a non-dict domain |
| MusicianModels.FullAddressNameSplits | orchestra/contrib/musician/models.py:269-271 | For a name without `@`, the full name splits at its first `@` back into the name and the domain's name |
| MusicianModels.Urls | orchestra/contrib/musician/models.py:258 | One url per mailbox, in order, each read from its dict |
| MusicianModels.Deserialize | orchestra/contrib/musician/models.py:254-261 | The initial data copies name and forward, takes the domain's url, and takes each mailbox's url in order |
| MusicianModels.ReadDetails | orchestra/contrib/musician/models.py:285-297 | Reading the first mailbox's disk resource fails only with a KeyError, IndexError, TypeError or ValueError |
| MusicianModels.TypeDetailAsWritten | orchestra/contrib/musician/models.py:279-306 | As written: KeyError without `forward`, the forward target for a forward address, and for a mailbox address {} whenever it does not raise |
| MusicianModels.TypeDetail | orchestra/contrib/musician/models.py:279-306 | Corrected: the same forward and KeyError cases. A mailbox address raises iff reading its disk resource raises something other than KeyError or IndexError, which is then a TypeError or ValueError; a KeyError or IndexError while reading gives {} |
| MusicianModels.TypeDetailAsWrittenIsEmpty | orchestra/contrib/musician/models.py:279-306 | As written, a mailbox address's detail is {} whenever it does not raise. It raises iff reading the disk resource raises something other than KeyError or IndexError, exactly when the corrected version does, and then with that TypeError or ValueError |
| MusicianModels.EmptyMailboxStringIsEmpty | orchestra/contrib/musician/models.py:285-305 | `"mailboxes": ""` stops at `''[0]`, an IndexError the handler catches, so both versions give {} |
| MusicianModels.TypeDetailCounterexample | orchestra/contrib/musician/models.py:293-302 | A mailbox using 3 of 4 gets {} as written and a 75 percent bar once corrected |
| MusicianModels.TypeDetailReportsUsage | orchestra/contrib/musician/models.py:279-306 | Corrected, a mailbox with a complete disk resource reports its usage with the bar for usage/total |
| MusicianModels.AddressName | orchestra/contrib/musician/models.py:350-355 | KeyError for a missing `address_domain` or `address_name`. The bare name when the domain is None. For a dict domain, `name@domain['name']`, or KeyError without a `name`; TypeError for any other domain |
| MusicianModels.ManagerUrl | orchestra/contrib/musician/models.py:366-382 | The gitlab, owncloud and wordpress URLs for those services, and '#none' for any other hashable service. TypeError exactly when the service is a list or dict |
| MusicianModels.ConfiguredManagerUrl | orchestra/contrib/musician/models.py:366-382 | A known service whose URL setting is configured and truthy is managed at exactly that URL |
| MusicianModels.DefaultManagerUrls | orchestra/contrib/musician/settings.py:33-35 | Unconfigured, WordPress and ownCloud sites use the default URLs, and unknown services have none |
| MusicianForms.Choices | orchestra/contrib/musician/forms.py:43-44 | (url, name) pairs in input order |
| MusicianForms.MailFormInit | orchestra/contrib/musician/forms.py:34-44 | With an instance the initial data is its `deserialize()`, failing as it does; without one there is none. The choices come from the domains and mailboxes |
| MusicianForms.MailFormClean | orchestra/contrib/musician/forms.py:46-50 | Raises iff neither mailboxes nor forward is truthy, else returns the data |
| MusicianForms.UrlsOfWrapped | orchestra/contrib/musician/forms.py:57 | Reading the urls back from `{"url": m}` wrappers gives the mailboxes |
| MusicianForms.MailFormSerialize | orchestra/contrib/musician/forms.py:52-60 | AssertionError without cleaned data. Succeeds iff the four fields exist and mailboxes is iterable; then it copies name and forward and wraps the domain url |
| MusicianForms.SerializeMailboxes | orchestra/contrib/musician/forms.py:57 | Each mailbox is wrapped as `{"url": m}`, in order |
| MusicianForms.DeserializeThenSerialize | orchestra/contrib/musician/forms.py:36-60 | Serializing an address's `deserialize()` reproduces its name, domain url, mailbox urls and forward |
| MusicianForms.WireShapedRoundTrip | orchestra/contrib/musician/forms.py:52-60 | For API data in the shape `serialize` produces, deserialize then serialize gives back the same data |
| MusicianForms.CleanPassword2 | orchestra/contrib/musician/forms.py:79-87 | Raises `password_mismatch` iff both are truthy and differ, else returns `password2` |
| MusicianForms.ChangePasswordSerialize | orchestra/contrib/musician/forms.py:89-94 | AssertionError for an invalid form; otherwise `password2` is sent as "password" |
| MusicianForms.CreateMailboxSerialize | orchestra/contrib/musician/forms.py:130-137 | AssertionError for an invalid form. Otherwise it sends name, `password2` as "password", and addresses |
| MusicianForms.UpdateMailboxSerialize | orchestra/contrib/musician/forms.py:152-157 | AssertionError for an invalid form; otherwise it sends the addresses only |
| MusicianForms.SentPasswordWasConfirmed | orchestra/contrib/musician/forms.py:79-94 | After a passing check with both fields given, the password sent is the one typed first |
| MusicianAuth.Session.constructor | orchestra/contrib/musician/auth.py:8-14 | A session holds its data, key and CSRF token |
| MusicianAuth.Session.Flush | orchestra/contrib/musician/auth.py:19 | `flush` empties the data and drops the key |
| MusicianAuth.Session.CycleKey | orchestra/contrib/musician/auth.py:21 | `cycle_key` keeps the data under a new key |
| MusicianAuth.Login | orchestra/contrib/musician/auth.py:8-27 | Missing username: KeyError, session untouched. Otherwise the session becomes `LoginData` and the CSRF token rotates. The key is cycled if there was no token, dropped for another user, kept for the same user |
| MusicianAuth.Logout | orchestra/contrib/musician/auth.py:30-35 | The session is left empty, with no key, and its CSRF token is untouched |
| MusicianAuth.LoginStoresCredentials | orchestra/contrib/musician/auth.py:23-24 | After login the session maps the token and username keys to the new values |
| MusicianAuth.OtherUserSessionDropped | orchestra/contrib/musician/auth.py:14-19 | A token for another user drops every prior key |
| MusicianAuth.OtherKeysKept | orchestra/contrib/musician/auth.py:9-24 | Without a token, or for the same user, every other session key is kept |
| MusicianAuth.LoginFailsOnlyWithoutUsername | orchestra/contrib/musician/auth.py:14-15 | Login fails iff the session has a token but no username |
| MusicianApi.BuildAbsoluteUri | orchestra/contrib/musician/api.py:46-52 | NoReverseMatch iff the name is not a key of API_PATHS; otherwise the path joined to the base URL |
| MusicianApi.FillPkPlain | orchestra/contrib/musician/api.py:190 | A path without placeholders is unchanged |
| MusicianApi.FillPkPrefix | orchestra/contrib/musician/api.py:190 | Text before the first `{` is copied unchanged |
| MusicianApi.FillPkAt | orchestra/contrib/musician/api.py:190 | `{pk}` is replaced by the key and the rest is filled in turn |
| MusicianApi.MailboxDetailPath | orchestra/contrib/musician/api.py:190 | The mailbox detail path for a key is `mailboxes/<pk>/` |
| MusicianApi.RequestUrl | orchestra/contrib/musician/api.py:66-72 | The resource's absolute URI when a resource is given, else the url, else AttributeError. A querystring is appended after '?' |
| MusicianApi.PlanRequest | orchestra/contrib/musician/api.py:64-79 | AssertionError for a verb outside the six. Otherwise the call carries that verb, the URL and the data, and it fails iff the URL cannot be formed |
| MusicianApi.Finish | orchestra/contrib/musician/api.py:81-90 | With `raise_exception`, a status from 400 to 599 is an error. The output is the JSON iff the status is under 500 and JSON is asked for, else the raw content |
| MusicianApi.RequestChecksFirst | orchestra/contrib/musician/api.py:64-82 | Bad verbs and unknown path names fail whatever the server answers. With `raise_exception`, a returned status is never a 4xx or 5xx one |
| MusicianApi.RetrieveServiceList | orchestra/contrib/musician/api.py:92-97 | ValueError for a service with no list path |
| MusicianApi.UnknownServiceSendsNothing | orchestra/contrib/musician/api.py:92-95 | For an unknown service the result does not depend on the network, so nothing is sent |
| MusicianApi.KnownServiceIsListed | orchestra/contrib/musician/api.py:92-97 | A known service is one GET of its list URL with the querystring, and its output is chosen by status |
| MusicianApi.DeleteMailboxCall | orchestra/contrib/musician/api.py:189-194 | The call is a PATCH of the mailbox detail URL with `is_active` False |
| MusicianApi.DeleteMailboxDeactivates | orchestra/contrib/musician/api.py:189-194 | Deleting fails iff that PATCH answers a status from 400 to 599, and below 400 returns its JSON |
| MusicianApi.FilterWebsitesByDomain | orchestra/contrib/musician/api.py:245-252 | The loop computes `WebsitesOfDomain` |
| MusicianApi.WebsitesOfDomainExact | orchestra/contrib/musician/api.py:245-252 | Exactly the websites with a domain of that id are kept, in order. Each appears once when the input has no repeats |
| MusicianApi.DomainQuerystringNamesDomain | orchestra/contrib/musician/api.py:219 | `domain=<id>` carries the domain's id, which reads back as the same integer |
| MusicianViews.AllowedMailboxes | orchestra/contrib/musician/views.py:95 | The account type's mailbox quota; it fails iff the type or its mailbox entry is missing |
| MusicianViews.UsageFor | orchestra/contrib/musician/views.py:97-113 | With left = quota - count: under 0 gives a danger alert quoting -left, 0 or 1 a warning quoting left, otherwise no alert. Usage is the count, total the quota, percent the bar |
| MusicianViews.GetMailboxUsage | orchestra/contrib/musician/views.py:94-114 | The usage for the account type's quota, failing iff the quota lookup fails |
| MusicianViews.IsExtraMailbox | orchestra/contrib/musician/views.py:387-389 | True iff the count is at least the quota |
| MusicianViews.ExtraMailboxAlerted | orchestra/contrib/musician/views.py:387-389 | An extra mailbox is asked for exactly when the dashboard shows a danger alert, or the warning with none left |
| MusicianViews.AlertsDiffer | orchestra/contrib/musician/views.py:99-103 | The empty alert, danger alerts and the warnings for 0 and more left are all distinct |
| MusicianViews.PrefixedNumbersDiffer | orchestra/contrib/musician/views.py:103 | Warnings for different numbers differ |
| MusicianViews.GetQueryFilter | orchestra/contrib/musician/views.py:241-247 | `domain=<id>` iff the parameter is given and non-empty, else '' |
| MusicianViews.ProfileSetLanguage | orchestra/contrib/musician/views.py:138-152 | A redirect to /dashboard with the language cookie iff the code is the first element of some LANGUAGES entry, else 404 |
| MusicianViews.CreateOutcome | orchestra/contrib/musician/views.py:403-410 | As written: TypeError exactly when a status above 400 comes with a body that cannot be sliced. Otherwise no error iff the status is under 400; 400 attaches the response and other statuses a generic message, all as non-field errors |
| MusicianViews.CreateErrors | orchestra/contrib/musician/views.py:403-410 | Corrected: never raises. No error iff the status is under 400; 400 attaches the response, and other statuses a generic message whatever the body |
| MusicianViews.CreateErrorsAgree | orchestra/contrib/musician/views.py:403-410 | Wherever the code as written succeeds it agrees with the corrected errors, and above 400 the body does not matter |
| MusicianViews.ForbiddenObjectBodyCounterexample | orchestra/contrib/musician/views.py:408 | A 403 whose JSON body is an object raises as written (TypeError, or KeyError on Python 3.12 and later), where the corrected version gives the generic message |
| MusicianViews.FormValid | orchestra/contrib/musician/views.py:399-413 | Raises exactly when `CreateOutcome` does, leaving the errors alone. Otherwise valid iff the status is under 400, adding exactly `CreateOutcome`'s errors and leaving `cleaned_data` alone |
| MusicianMixins.GetPaginateBy | orchestra/contrib/musician/mixins.py:44-50 | 20 when `per_page` is missing or empty or not an integer, else its integer value |
| MusicianMixins.PageSizeRoundTrip | orchestra/contrib/musician/mixins.py:44-50 | Any integer written as `per_page` is read back |
| MusicianMixins.ZeroKept | orchestra/contrib/musician/mixins.py:45-47 | '0' is a page size of 0, not the default |
| MusicianMixins.NotANumber | orchestra/contrib/musician/mixins.py:48-49 | A non-integer falls back to 20 |
| Numerals.IntRoundTrip | orchestra/contrib/musician/mixins.py:47 | `int(str(n)) == n` |
| Numerals.DecimalAgreesWithInt | orchestra/contrib/musician/models.py:179 | Without a decimal point, `float()` accepts what `int()` accepts, with the same value |
| MailboxSerializers.ValidateAddress | orchestra/contrib/mailboxes/serializers.py:88-94 | Raises iff mailboxes and forward are both missing or empty, else returns the attrs |
| MailboxSerializers.PortalAndApiAgree | orchestra/contrib/mailboxes/serializers.py:88-94 | The API rejects exactly the addresses the portal form rejects |
| MailboxSerializers.RelationTo | orchestra/contrib/mailboxes/serializers.py:64 | `set()` on a list relates exactly its elements |
| MailboxSerializers.PopRelation | orchestra/contrib/mailboxes/serializers.py:62 | `pop(key, [])` gives the value or [], and removes the key |
| MailboxSerializers.NewRelation | orchestra/contrib/mailboxes/serializers.py:62-64 | An omitted list gives the empty relation, and a submitted list exactly its elements |
| MailboxSerializers.Record.constructor | orchestra/contrib/mailboxes/serializers.py:63 | A created instance is saved with its fields and no relation |
| MailboxSerializers.Record.SetRelated | orchestra/contrib/mailboxes/serializers.py:64 | Requires a saved instance and replaces its relation |
| MailboxSerializers.Record.UpdateFields | orchestra/contrib/mailboxes/serializers.py:71 | Overwrites the given fields and keeps the relation |
| MailboxSerializers.Create | orchestra/contrib/mailboxes/serializers.py:60-65 | A new instance with the data minus the relation key, related to exactly the submitted list |
| MailboxSerializers.Update | orchestra/contrib/mailboxes/serializers.py:67-71 | The relation is replaced by the submitted list, cleared when omitted, and the other fields are updated. Nothing changes on error |
| MailboxSerializers.NewRelationIgnoresOldState | orchestra/contrib/mailboxes/serializers.py:67-71 | The new relation depends only on the submitted list |
| MailboxSerializers.SelectableAreOwn | orchestra/contrib/mailboxes/serializers.py:41-43 | Selectable addresses are exactly the account's own |
| MailboxSerializers.SelectableDisjoint | orchestra/contrib/mailboxes/serializers.py:41-43 | Two accounts never share a selectable address |
| MailboxFilters.YesNo | orchestra/contrib/mailboxes/filters.py:18-23 | Any value other than 'True' or 'False' leaves the queryset unchanged |
| MailboxFilters.YesNoPartition | orchestra/contrib/mailboxes/filters.py:18-23 | 'True' keeps the rows with the property, 'False' the rows without, and together they partition the input |
| MailboxFilters.HasMailboxSplits | orchestra/contrib/mailboxes/filters.py:18-23 | 'True' keeps addresses with a mailbox, 'False' those with none, a partition |
| MailboxFilters.HasForwardSplits | orchestra/contrib/mailboxes/filters.py:31-36 | 'True' keeps non-empty forwards, 'False' empty ones, a partition |
| MailboxFilters.HasAddressSplits | orchestra/contrib/mailboxes/filters.py:44-49 | 'True' keeps mailboxes with an address, 'False' those with none, a partition |
| MailboxFilters.HasTipeServer | orchestra/contrib/mailboxes/filters.py:59-63 | No selection leaves the queryset unchanged |
| MailboxFilters.HasTipeServerKeepsOwned | orchestra/contrib/mailboxes/filters.py:59-63 | Keeps exactly the rows whose account owns a website on the selected server |
| AccountFilters.IsActive | orchestra/contrib/accounts/filters.py:20-29 | Other values leave the queryset unchanged; every filter keeps a subset |
| AccountFilters.ActivePartition | orchestra/contrib/accounts/filters.py:21-24 | 'True' keeps rows active with an active account, and 'False' is exactly the complement |
| AccountFilters.AccountDisabledInFalse | orchestra/contrib/accounts/filters.py:24-26 | The 'account' rows are among the 'False' rows |
| AccountFilters.ObjectDisabledInFalse | orchestra/contrib/accounts/filters.py:24-28 | The 'object' rows are among the 'False' rows |
| AccountFilters.AccountsOnServer | orchestra/contrib/accounts/filters.py:40-41 | The accounts owning a website on the server |
| AccountFilters.HasTipeServer | orchestra/contrib/accounts/filters.py:38-42 | No selection leaves the queryset unchanged |
| AccountFilters.HasTipeServerKeepsOwners | orchestra/contrib/accounts/filters.py:38-42 | Keeps exactly the accounts that own a website on the selected server |
| SaasFields.DatabaseIds | orchestra/contrib/saas/fields.py:8-11 | No more ids than objects, and exactly the non-zero `database_id`s of the objects |
| SaasFields.DatabaseIdsAppend | orchestra/contrib/saas/fields.py:9-11 | One more object adds its id at the end iff it has one, so order is kept |
| SaasFields.CollectPks | orchestra/contrib/saas/fields.py:8-11 | The loop computes `DatabaseIds` |
| SaasFields.BulkRelatedObjects | orchestra/contrib/saas/fields.py:7-14 | The result is `RelatedRows` |
| SaasFields.RelatedRowsExact | orchestra/contrib/saas/fields.py:12-14 | Exactly the table rows whose pk is some object's `database_id` |
| SaasFields.NoIdsNoQuery | orchestra/contrib/saas/fields.py:12-13 | Without ids the result is empty whatever the table holds, so no query is needed |

## Left out

- The `orchestration` package is not part of this model: `ServiceController`, route matching, `append` and `get_banner`. The buffer is a sequence field and the banner an opaque string.
- The `default_route_match` constants only concern the route matcher.
- `pkgutil.walk_packages` and `exec` module loading in orchestra/contrib/webapps/backends/__init__.py:96-98: dynamic import, not logic.
- WebAppBackends.WebAppServiceMixin: the script buffer holds the appended fragments, not their text; `ScriptText` renders each one with `Render`.
- ShellModel.UnderConstructionGuard: the `nohup … sleep 2` copy runs concurrently with other backends. What they do meanwhile is a parameter (`interim`), so only the guards are stated.
- WebAppBackends.Interpolate: only the `%%` and `%(key)s` conversions are modelled, and other conversions are an error. Fragment texts are written out already dedented.
- WebAppBackends.PermsChoice: Django `Template` rendering is modelled as the choice between the two chown lines. Its HTML autoescaping of the user and group names is not modelled.
- WebalizerBackend.GetContext: the long shared conf tail is written out as a literal constant, and nothing is proved about its contents.
- The webapp "still exists" and "still mounted" queries are parameters of `WebalizerController.Delete`.
- WebsiteForms.DomainErrors: `validate_domain_protocol` is not part of this model. It is assumed to raise a single message-only ValidationError, so each failing domain adds one non-field error. A ValidationError holding an error dict (which `add_error(None, err)` routes to the named fields) or a message list (several errors) is not modelled, and `DomainCleanFields`' "only `domains`" rests on this assumption.
- MusicianApi.Finish: the response body arrives already decoded. A body that is not JSON, for which `response.json()` raises with status below 500 and JSON asked for, is not modelled.
- MusicianViews.CreateOutcome: slicing a dict is modelled as TypeError, as Python up to 3.11 raises; from Python 3.12 it raises KeyError. Either way the view fails before adding an error.
- `os.path.normpath`, `normurlpath`, `urllib.parse.urljoin`, `parse_datetime`, `validate_domain_protocol`, `validate_server_name` and `WebApp.objects.get` are function parameters.
- The HTTP session, token authentication and the `authenticate`/`login` of `Orchestra.__init__` are out of scope: network-client plumbing.
- The other `retrieve_*`, `create_*` and `update_*` API methods are the same request plumbing and are not modelled one by one.
- `retrieve_domain_list` is modelled only through its querystring and `filter_websites_by_domain`.
- `LoginForm`, the login view and `verify_credentials` depend on the HTTP session and are not modelled.
- MusicianViews.FormValid: `logger.error` is left out. A 400 response body is attached as one message string, `str()` of it. Django's `add_error` spreading a dict or list body over several fields is not modelled.
- MusicianViews.FormValid: `CreateOutcome` treats only strings and lists as sliceable; the other Python sequences a JSON body cannot be are not modelled.
- ShellModel.Run: `mkdir -p` creating missing parent directories is not modelled, because parents are not part of the file model. Neither is `mv` failing for a missing destination parent.
- WebalizerBackend.RunStep: `chmod` and permission bits are not modelled, and the `# chown` comment line has no effect.
- MusicianSettings.ResourcesFor: a `defaultdict` lookup miss also stores the factory's table under the account type. That insertion is not modelled.
- PyValues: `Value` equality is structural. Python's `True == 1` and equality between differently written fractions are not modelled.
- MusicianModels.Elements: iterating a dict is an error in the model, where Python iterates its keys. A dict reaching one of these loops therefore ends in TypeError in the model.
- MusicianViews.UsageFor: `format_html` escaping is not modelled. The alerts quote only integers, which need none.
- Translations (`gettext_lazy`) are left out; messages are their English source text.
- Floating point: numbers are exact rationals. `float()` results are exact decimal fractions, and `str()` of a fraction is written num/den.
- Numerals.ParseDecimal: handles plain decimal notation only (sign, digits, one point), not exponents, `inf`/`nan` or underscores.
- Numerals.ParseInt: accepts ASCII digits and ASCII whitespace only, with no underscores and no other Unicode digits.
- MusicianModels.Lower: lowers ASCII letters only.
- The `new_from_json` of the other API models is not modelled: `DatabaseService` users, `Domain`, `Mailbox`, `WebSite`, and `PaymentSource` (which uses `ast.literal_eval`).
- MusicianModels.GetUsage: its own contract states only the no-resources case. Its meaning is carried by `DiskEntryIsFirst`, `NoDiskNoUsage`, `UnallocatedIsZero` and `UnallocatedDatabaseExample`.
- ORM semantics: querysets are sequences and filters are predicates. Duplicate rows from many-to-many joins, lazy evaluation and `transaction.atomic` are not modelled.
- AccountFilters.HasTipeServer: the selected server is taken as an integer id; Django's coercion of the query-string value is not modelled.
- Admin classes, migrations, URL routing, management commands, application bootstrap and the e-mail and HTML utilities are outside this model.
- The read-only widget set-up in `PluginDataForm.__init__` (orchestra/plugins/forms.py:36-51) and the widget changes in `ExtendedPluginDataForm.__init__` are presentation only.

## Findings

| source | as written | input that shows it | evidently intended | confidence | as-written member | corrected member |
|---|---|---|---|---|---|---|
| orchestra/contrib/musician/views.py:408 | `response[:120]` slices the decoded JSON body. A body that is a JSON object is a dict, and slicing it raises (TypeError, or KeyError on Python 3.12 and later) instead of adding an error | A 403 whose body is `{"detail": "You do not have permission to perform this action."}` | Statuses above 400 add the generic error message whatever the body | not executed | MusicianViews.ForbiddenObjectBodyCounterexample | MusicianViews.CreateErrors |
| orchestra/contrib/musician/models.py:300 | `type_detail` reads `mailbox_details['used']`, a key the dict it just built never has. The KeyError is swallowed, so every mailbox address shows `{}` | A mailbox address whose first mailbox has a disk resource used 3, allocated 4, unit MiB | The percent is computed from `mailbox_details['usage']`, as `DatabaseService.get_usage` does (models.py:187-190), giving 75 | not executed | MusicianModels.TypeDetailCounterexample | MusicianModels.TypeDetailReportsUsage |
