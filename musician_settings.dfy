/** The musician portal's settings (orchestra/contrib/musician/settings.py):
    a Django setting wins when it is truthy, otherwise the built-in default
    applies. */
module MusicianSettings {
  import opened Wrappers
  import opened PyValues

  /** A setting's value. The resource limits are a `defaultdict`: a table of
      per-account-type limits with an optional factory for the other types. */
  datatype SettingValue =
    | Plain(value: Value)
    | Resources(table: map<string, map<string, int>>, factory: Option<map<string, int>>)

  predicate SettingTruthy(s: SettingValue) {
    match s
    case Plain(v) => Truthy(v)
    case Resources(table, _) => table != map[]
  }

  const DefaultMailboxes: map<string, int> := map["mailbox" := 2]

  const DefaultAllowedResources: SettingValue :=
    Resources(map["INDIVIDUAL" := map["mailbox" := 2], "ASSOCIATION" := map["mailbox" := 10]],
              Some(DefaultMailboxes))

  const Defaults: map<string, SettingValue> := map[
    "ALLOWED_RESOURCES" := DefaultAllowedResources,
    "URL_DB_PHPMYADMIN" := Plain(VStr("https://phpmyadmin.pangea.org/")),
    "URL_MAILTRAIN" := Plain(VStr("https://grups.pangea.org/")),
    "URL_SAAS_GITLAB" := Plain(VStr("https://gitlab.pangea.org/")),
    "URL_SAAS_OWNCLOUD" := Plain(VStr("https://nextcloud.pangea.org/")),
    "URL_SAAS_WORDPRESS" := Plain(VStr("https://blog.pangea.org/"))]

  /** `getsetting(name)`; `configured` holds the project's Django settings,
      and None is Python's None. */
  function GetSetting(configured: map<string, SettingValue>, name: string): (r: Option<SettingValue>)
    ensures name in configured && SettingTruthy(configured[name]) ==> r == Some(configured[name])
    ensures !(name in configured && SettingTruthy(configured[name])) ==>
      r == (if name in Defaults then Some(Defaults[name]) else None)
  {
    if name in configured && SettingTruthy(configured[name]) then Some(configured[name])
    else if name in Defaults then Some(Defaults[name])
    else None
  }

  /** A setting left empty (None, an empty string, an empty table) falls back
      to the default, exactly as if it were not configured. */
  lemma FalsyFallsBack(configured: map<string, SettingValue>, name: string)
    requires name in configured && !SettingTruthy(configured[name])
    ensures GetSetting(configured, name) == GetSetting(configured - {name}, name)
  {
  }

  /** `ALLOWED_RESOURCES[account_type]`: the table entry, else the factory's
      value, else KeyError. */
  function ResourcesFor(s: SettingValue, accountType: string): (r: Result<map<string, int>, Exception>)
    requires s.Resources?
    ensures accountType in s.table ==> r == Ok(s.table[accountType])
    ensures accountType !in s.table && s.factory.Some? ==> r == Ok(s.factory.value)
    ensures accountType !in s.table && s.factory.None? ==> r == Err(KeyError(accountType))
    ensures r.Err? <==> accountType !in s.table && s.factory.None?
  {
    if accountType in s.table then Ok(s.table[accountType])
    else match s.factory
      case Some(d) => Ok(d)
      case None => Err(KeyError(accountType))
  }

  /** The built-in mailbox quotas: 10 for associations, 2 for individuals and
      for every other account type. */
  lemma DefaultMailboxQuota(accountType: string)
    ensures var r := ResourcesFor(DefaultAllowedResources, accountType);
      && r.Ok? && "mailbox" in r.value
      && r.value["mailbox"] == (if accountType == "ASSOCIATION" then 10 else 2)
  {
  }
}
