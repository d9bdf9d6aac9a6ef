# PG-Limiter: panel token cache and JSON-to-database migration, in Dafny

This project models two sequential pieces of PG-Limiter, the per-account
concurrent-IP limiter for proxy panels, and proves properties of them.

* **Panel authentication** (`utils/panel_api/auth.py`). The process-wide
  token cache is `_token_cache`. `invalidate_token_cache` clears it, and
  `get_token` either answers from the cache or runs the retry loop. The
  loop has five rounds, and each round posts to `https` and then to
  `http`. A response is accepted only when it is a 2xx carrying a JSON
  dict with `access_token`. A round in which both schemes failed ends with
  a `min(30, randint(2, 5) * (attempt + 1))` second sleep. The accepted
  token is cached for 1800 seconds from the moment the call started.
  Module `PanelAuth`:
  * `FetchToken` is the two nested loops, as a method over a network oracle.
  * `TokenCache` is a class whose fields are the three cache entries.
    `TokenCache.GetToken` and `TokenCache.Invalidate` update them in place.
  * `GetTokenSpec` states the whole effect of one `get_token` call as a
    function of the cache. The lemmas are stated on it.
* **Legacy migration** (`db/migrate_from_json.py`). Each `migrate_*`
  function reads one parsed legacy file and issues store writes one by one
  while counting them. `main` adds up the four counts.
  * Module `Json` gives the Python operations the script applies to parsed
    JSON: `in`, `.get`, indexing and iteration. A `TypeError` or
    `AttributeError` becomes `None`.
  * Module `MigrationPlan` describes each function's effect as a `Plan`: the
    writes in order, and whether the function then raises. Writes made
    before an exception stay in the plan.
  * Module `Migration` holds the imperative version. `Store` is the write
    log plus the set of users that have a disabled record. Each `migrate_*`
    function is a method with its loops. Each method is proved to append
    exactly its plan's writes and to return the plan's count.
  * Module `MigrationProperties` proves what the plans mean: which legacy
    key ends up in which store entry, the two disabled-user formats, the
    defaults, and the counts.

The network is a function from a request (round, scheme) to a response.
The response is a status with a parsed or unparsable body, or one of the
four transport failures the source catches. The clock is a parameter
`now`, read once on entry, as the source reads `time.time()` once. The five
random backoff factors are the parameter `draws`, and `ValidDraws` keeps
each one in [2, 5]. Logging, `log_api_request` and the Telegram
notifications are no-ops.

Behaviour of the source worth knowing when reading the model:

* Nothing serialises concurrent token refreshes. Two callers that miss the
  cache at the same time both fetch. The model has one sequential caller.
* The cache is one entry that remembers its domain. A call for another
  domain misses, fetches and overwrites the entry (`CacheHit`).
* The external notification channel receives a message on an HTTP status
  error, on an unexpected exception, and once after the fifth fully failed
  round, before the `ValueError`. SSL, timeout and connect errors are only
  logged. Notifications are no-ops here. Every failure kind is retried in the
  same way (`FetchSuccess`, `FetchFailure`).
* The backoff cap of 30 seconds never applies. With at most five rounds
  and draws of at most 5, a sleep is at most 25 seconds (`SleepsBounded`).
* `enable_at.get(username)` gives `None` both for a user that is not
  listed and for one listed as `null`. The disabled record gets no
  re-enable time in either case (`EnableAtOf`, `DictFormat`).

## Model

| member | source | states |
|---|---|---|
| PanelAuth.TokenCache.constructor | utils/panel_api/auth.py:24-28 | At import time the cache holds no token, expiry 0 and no domain |
| PanelAuth.TokenCache.Invalidate | utils/panel_api/auth.py:31-35 | The token becomes None and the expiry 0; the domain is kept |
| PanelAuth.InvalidateForcesFetch | utils/panel_api/auth.py:31-35 | After invalidation the next `get_token` misses the cache and sends a request, whatever its arguments |
| PanelAuth.AccessToken | utils/panel_api/auth.py:112-116 | The token taken from an accepted response is the value stored under `access_token` in its JSON dict |
| PanelAuth.FirstAccepted | utils/panel_api/auth.py:86-125 | The position found is accepted and every earlier position is not; when none is found, no position in the ten requests is accepted |
| PanelAuth.FetchToken | utils/panel_api/auth.py:85-157 | The retry loop sends exactly the requests up to the first accepted one, in the fixed order, sleeps once after each fully failed round, and yields that response's token; when none is accepted it sends all ten requests and sleeps five times |
| PanelAuth.TokenCache.GetToken | utils/panel_api/auth.py:66-165 | The result, the requests, the sleeps and the new cache are those of `GetTokenSpec` for the old cache; `panel_token` receives the returned token, and is unchanged on failure |
| PanelAuth.CacheHitReusesToken | utils/panel_api/auth.py:69-76 | Without a forced refresh, with a token cached for the same domain and not yet expired, the cached token is returned with no request, no sleep and no cache change |
| PanelAuth.ForceRefreshFetches | utils/panel_api/auth.py:69-89 | `force_refresh` always goes to the network, starting with `https` in round 0 |
| PanelAuth.RequestsBoundedAndOrdered | utils/panel_api/auth.py:85-89 | At most ten requests and five sleeps; every request is in one of the five rounds, rounds never go backwards, and https comes before http in each round |
| PanelAuth.FetchSuccess | utils/panel_api/auth.py:100-125 | A call that misses the cache succeeds exactly when some response is accepted. The token is then the first accepted response's, which is the last request sent, and the cache holds it for the requested domain until the call's start plus 1800 s |
| PanelAuth.FetchFailure | utils/panel_api/auth.py:126-165 | When every response fails, all ten requests and all five sleeps happen, the call fails with `ValueError`, and the cache is as it was on entry |
| PanelAuth.FailureLeavesCache | utils/panel_api/auth.py:159-165 | A failed call never changes the cache |
| PanelAuth.SleepsBounded | utils/panel_api/auth.py:155-157 | The sleep after round a is `min(30, r * (a + 1))` for that round's draw r, and lies between 2 and 25 seconds |
| PanelAuth.ReuseWithinLifetime | utils/panel_api/auth.py:118-121 | After a fetch of a non-null token, a call for the same domain less than 1800 s after the first one started, without `force_refresh`, sends nothing and returns the same token |
| PanelAuth.NullTokenNeverReused | utils/panel_api/auth.py:69-72 | A fetched null `access_token` is cached, but the next call still goes to the network |
| MigrationPlan.ThenStep | db/migrate_from_json.py:42-128 | Running the parts of a migration in sequence: a part that raises ends the run and keeps the writes made so far |
| MigrationPlan.DictConfigSteps | db/migrate_from_json.py:42-128 | `migrate_config` on a dict issues the early keys, then the `limits` section, and stops there if that section raises; otherwise it continues with the root exemptions, the timing entry and the late keys |
| Migration.CopyConfigKey | db/migrate_from_json.py:45-47 | `if key in config`: one `ConfigCRUD.set` of the key's value under the same key, counted once |
| Migration.SetUserLimits | db/migrate_from_json.py:64-67 | One per-user limit write per `special` entry, in order, each counted |
| Migration.AddExceptUsers | db/migrate_from_json.py:70-74 | One exemption write per iterated user, with the config reason, each counted |
| Migration.MigrateLimits | db/migrate_from_json.py:55-74 | The `limits` section issues its writes and raises exactly as `LimitsPlan` says; the count is the number of writes |
| Migration.MigrateOptionalLimits | db/migrate_from_json.py:55-74 | The `limits` section runs only when the key is present |
| Migration.MigrateTiming | db/migrate_from_json.py:82-91 | The timing block writes exactly `TimingWrites` and counts them |
| Migration.CopyLateKeys | db/migrate_from_json.py:93-125 | The seven late keys are copied in source order, each counted |
| Migration.MigrateTail | db/migrate_from_json.py:76-125 | Everything after `limits` is issued in source order and counted; it cannot raise on a dict |
| Migration.MigrateDictConfig | db/migrate_from_json.py:42-128 | `migrate_config` on a dict appends exactly the writes of `DictConfigPlan` and returns their count, or raises when that plan raises |
| Migration.MigrateConfig | db/migrate_from_json.py:29-128 | `migrate_config` appends exactly the writes of its plan; the count it returns is the number of writes it made, and it raises when the plan raises |
| Migration.AddListedUsers | db/migrate_from_json.py:150-161 | Old format: one disabled record per listed user, in order; each is then in the disabled set, and the count is the list length |
| Migration.AddDatedUsers | db/migrate_from_json.py:162-173 | New format: one disabled record per entry, with the entry's timestamp and the user's `enable_at`; the count is the number of entries |
| Migration.MigrateDisabledUsers | db/migrate_from_json.py:131-176 | `migrate_disabled_users` appends exactly its plan's writes, adds the written users to the disabled set, and returns their count |
| Migration.MigrateUserGroups | db/migrate_from_json.py:179-206 | `migrate_user_groups` appends exactly its plan's writes, checked against the disabled records as they were on entry, and returns their count |
| Migration.AddUserRecords | db/migrate_from_json.py:227-234 | One history write per record of a user, raising at the first record that is not a dict |
| Migration.MigrateViolationHistory | db/migrate_from_json.py:209-237 | `migrate_violation_history` appends exactly its plan's writes and returns their count |
| Migration.MigrateAll | db/migrate_from_json.py:283-295 | The four migrations run in order against one store; the groups step sees the disabled users the previous step wrote. The total returned is the number of writes, and it equals the plan of `main` |
| MigrationProperties.CopiedKeyStored | db/migrate_from_json.py:45-125 | Each of the nine copied keys reaches its own config entry exactly as `CopyKey` says. `panel` and `telegram` are stored even when `limits` then raises |
| MigrationProperties.CopyKeysTo | db/migrate_from_json.py:93-125 | Copying a list of distinct keys in turn stores each listed key only under its own entry, and writes nothing anywhere else |
| MigrationProperties.CopyKeyValue | db/migrate_from_json.py:45-47 | A present key is stored once, unchanged, under its own name; an absent key is not stored |
| MigrationProperties.LateKeysSkippedOnRaise | db/migrate_from_json.py:55-125 | When the `limits` section raises, none of the seven later keys is stored |
| MigrationProperties.DictConfigRaises | db/migrate_from_json.py:55-74 | A dict config raises exactly when `limits` is present and malformed: not a dict, a `special` that is not a dict, or an `except_users` that cannot be iterated |
| MigrationProperties.NonDictConfig | db/migrate_from_json.py:44-125 | A config that is not a dict stores nothing. A number, boolean or null raises, and an empty list or string does not |
| MigrationProperties.LimitsStored | db/migrate_from_json.py:55-79 | `general` is stored as `general_limit`; the user-limit writes are exactly the `special` entries in order; the exemptions are the `limits.except_users` users followed by a root-level `except_users` list |
| MigrationProperties.GeneralLimitEntry | db/migrate_from_json.py:59-61 | The only `general_limit` write comes from `limits.general` |
| MigrationProperties.UserLimitEntries | db/migrate_from_json.py:64-67 | The user-limit writes of the whole run are exactly those for the `special` entries |
| MigrationProperties.ExemptionEntries | db/migrate_from_json.py:70-79 | The exemption writes of the whole run are those of `limits.except_users` followed by those of a root-level list |
| MigrationProperties.RootExemptionsOnly | db/migrate_from_json.py:76-79 | Without `limits` nothing raises; the only exemptions are those of a root-level `except_users` list, and there are no user limits |
| MigrationProperties.TimingStored | db/migrate_from_json.py:82-91 | `timing` wins when present. Otherwise, if `check_interval` or `time_to_active_users` is present, one object with exactly those two keys is stored, defaulting to 60 and 900. Otherwise nothing is stored |
| MigrationProperties.LegacyTimingFields | db/migrate_from_json.py:86-89 | The built timing object has exactly the keys `check_interval` and `time_to_active_users`, with the config's values or the defaults 60 and 900 |
| MigrationProperties.TimingEntry | db/migrate_from_json.py:82-91 | Only the timing block writes the `timing` entry |
| MigrationProperties.DisabledSourcePreference | db/migrate_from_json.py:147 | `disabled_users` is read in preference to `disable_user`; with neither there are no entries |
| MigrationProperties.ListFormat | db/migrate_from_json.py:150-161 | List format: one record per listed user, all disabled at the migration time, none with `enable_at`, and no exception |
| MigrationProperties.DictFormat | db/migrate_from_json.py:162-173 | Dict format: one record per entry, in order, with its own timestamp. The re-enable time is absent exactly when the user is not in `enable_at` or is listed as `null`; otherwise it is the listed value |
| MigrationPlan.EnableAtOf | db/migrate_from_json.py:164-165 | The re-enable time passed to the disabled record is never `null`, and when present it is the value listed for that user |
| MigrationProperties.OtherFormat | db/migrate_from_json.py:150-176 | A source that is neither a list nor a dict writes nothing and counts 0 |
| MigrationProperties.EnableAtNotDict | db/migrate_from_json.py:164-165 | Dict format with an `enable_at` that is not a dict writes nothing. It raises exactly when there is an entry |
| MigrationProperties.DisabledAfterAdds | db/migrate_from_json.py:155-173 | After the writes, the users with a disabled record are the earlier ones plus every user just added |
| MigrationProperties.GroupWritesSound | db/migrate_from_json.py:196-203 | Every group write sets the `groups` (default `[]`) of an entry whose user has a disabled record; there are at most as many writes as entries |
| MigrationProperties.GroupsRaise | db/migrate_from_json.py:196-197 | The groups migration raises exactly when some entry is not a dict |
| MigrationProperties.GroupWritesComplete | db/migrate_from_json.py:196-203 | When every entry is a dict, every entry whose user has a disabled record gets its groups written |
| MigrationProperties.DisabledEntries | db/migrate_from_json.py:199-200 | The selected entries are exactly those of the backup whose user has a disabled record |
| MigrationProperties.GroupWritesExact | db/migrate_from_json.py:194-203 | When every entry is a dict, the writes are exactly one `original_groups` update per entry whose user is disabled, in entry order, with the entry's `groups` (default `[]`) |
| MigrationProperties.GroupCountExact | db/migrate_from_json.py:194-206 | When every entry is a dict, the count returned is the number of entries whose user has a disabled record |
| MigrationProperties.RecordWritesShape | db/migrate_from_json.py:227-234 | A user's records raise exactly when one of them is not a dict. Otherwise there is one write per record, for that user, with `step_applied` and `disable_duration` defaulting to 0 |
| MigrationProperties.ViolationsTotal | db/migrate_from_json.py:224-234 | The history migration raises exactly when some user's records are malformed; otherwise it writes one record per entry, across all users |
| MigrationProperties.AbsentFile | db/migrate_from_json.py:31-40 | A missing or unreadable file yields 0 and no write, in each of the four migrations |
| MigrationProperties.MainTotal | db/migrate_from_json.py:283-295 | `main`'s total is the sum of the four counts, and its writes are the four migrations' writes in order; it raises exactly when one of them does |

## Left out

- The HTTP client (`httpx.AsyncClient.post`), TLS, timeouts, `raise_for_status` and `response.json()` are part of the network oracle. The model takes `raise_for_status` to pass exactly on 2xx codes.
- Logging, `log_api_request`, `perf_counter` latencies and `safe_send_logs_panel`/Telegram notifications are no-ops. None of them affects the cache or the loop.
- `time.time`, `random.randint` and `asyncio.sleep` are parameters (`now`, `draws`) and outputs (`sleeps`). The model does not measure real time passing during the sleeps, since the source never reads the clock again.
- Concurrent callers of `get_token` are not modelled. The source has no lock, so only one sequential caller is modelled.
- The login payload (username, password) has no effect on the model. The oracle's answers stand for the panel's reaction to the credentials.
- File existence checks, file reading and JSON parsing in the `migrate_*` functions are not modelled. A file is `Missing`, `Unreadable` or its parsed value.
- `backup_json_files`, `init_db` and the printing in `main` are filesystem and console I/O.
- The CRUD classes and the database session (`db/crud.py`, `db/database.py`) are not part of this model. Each CRUD call is one entry in a write log. Whether a repeated key replaces or duplicates a row, and whether writes made before an exception are committed or rolled back by `get_db`, are not modelled.
- Migration.Store.GetDisabled: compares the username string with the users given a record. It does not model coercion of non-string list entries to text by the database layer.
- A JSON object is a list of members with distinct keys, as `json.load` yields. Duplicate keys are not modelled.
- A string used where the migration iterates (for example records given as a string) is iterated by character, and every character then raises on `.get`. Non-ASCII handling is not modelled.
- `limiter.py`, `db/migrations/versions/001_initial.py` and `db/__init__.py` are not part of this model. They are startup orchestration, schema declarations and re-exports.
