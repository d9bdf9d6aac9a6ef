/**
 * What the one-time JSON-to-database migration (db/migrate_from_json.py)
 * writes, as functions of the parsed legacy files.
 *
 * Each `migrate_*` function is described by a `Plan`: the store writes it
 * issues, in order, and whether it ends by raising a Python exception
 * (calling `.get` or `.items()` on a value that is not a dict, iterating a
 * number, and so on). Writes issued before such an exception stay in the plan.
 */
module MigrationPlan {
  import opened Wrappers
  import opened Json

  /** A legacy file as the migration finds it. */
  datatype JsonFile = Missing | Unreadable | Loaded(value: Json)

  /** One call into the CRUD layer. */
  datatype Write =
    | SetConfig(key: string, value: Json)                                          // ConfigCRUD.set
    | SetUserLimit(username: string, limit: Json)                                  // UserLimitCRUD.set_limit
    | AddExceptUser(user: Json, reason: string)                                    // ExceptUserCRUD.add
    | AddDisabledUser(user: Json, disabledAt: Json, enableAt: Option<Json>, reason: string)  // DisabledUserCRUD.add
    | SetOriginalGroups(username: string, groups: Json)                            // disabled.original_groups = ...
    | AddViolation(username: string, stepApplied: Json, disableDuration: Json)     // ViolationHistoryCRUD.add

  /** The table (or, for the config table, the row) a write lands in. */
  datatype Target =
    | ConfigEntry(key: string)
    | UserLimitRows
    | ExceptUserRows
    | DisabledUserRows
    | OriginalGroupsColumn
    | ViolationRows

  function TargetOf(w: Write): Target
  {
    match w
    case SetConfig(k, _) => ConfigEntry(k)
    case SetUserLimit(_, _) => UserLimitRows
    case AddExceptUser(_, _) => ExceptUserRows
    case AddDisabledUser(_, _, _, _) => DisabledUserRows
    case SetOriginalGroups(_, _) => OriginalGroupsColumn
    case AddViolation(_, _, _) => ViolationRows
  }

  /** The writes of `ws` that land in `t`, in order. */
  function WritesTo(ws: seq<Write>, t: Target): (r: seq<Write>)
    ensures |r| <= |ws|
    ensures forall w :: w in r ==> w in ws && TargetOf(w) == t
  {
    if ws == [] then []
    else (if TargetOf(ws[0]) == t then [ws[0]] else []) + WritesTo(ws[1..], t)
  }

  /** The reasons the migration records. */
  const ConfigReason := "Migrated from config.json"
  const DisabledReason := "Migrated from JSON"

  /** The writes a migration issues and whether it then raises. */
  datatype Plan = Plan(writes: seq<Write>, raises: bool)
  {
    /** Run `next` after this part unless this part raised. */
    function Then(next: Plan): Plan
    {
      if raises then this else Plan(writes + next.writes, next.raises)
    }
  }

  /** Writes issued one after another accumulate in order. */
  lemma AppendAssoc(a: seq<Write>, b: seq<Write>, c: seq<Write>)
    ensures (a + b) + c == a + (b + c)
  {
  }

  /** Finishing one part of a run without exception moves its writes into the done part. */
  lemma ThenStep(done: seq<Write>, part: Plan, rest: Plan)
    ensures !part.raises ==> Plan(done, false).Then(part.Then(rest)) == Plan(done + part.writes, false).Then(rest)
    ensures part.raises ==> Plan(done, false).Then(part.Then(rest)) == Plan(done + part.writes, true)
  {
    AppendAssoc(done, part.writes, rest.writes);
  }

  /** What a `migrate_*` function returns: its count, or an exception. */
  datatype Outcome = Migrated(count: nat) | Raised

  /** The returned count is the number of writes. */
  function OutcomeOf(p: Plan): (o: Outcome)
    ensures o.Migrated? <==> !p.raises
    ensures o.Migrated? ==> o.count == |p.writes|
  {
    if p.raises then Raised else Migrated(|p.writes|)
  }

  // ---------------------------------------------------------------- config.json

  /** Top-level keys stored unchanged under their own name. */
  const CopiedKeys: set<string> := EarlyKeys + LateKeys

  /** The copied keys handled before the `limits` section. */
  const EarlyKeys: set<string> := {"panel", "telegram"}

  /** The copied keys handled after the timing section. */
  const LateKeys: set<string> :=
    {"display", "api", "country_code", "disable_method", "disabled_group_id", "group_filter", "punishment"}

  /** Every key `migrate_config` tests with `in`, in the order it tests them. */
  const TestedKeys: seq<string> :=
    ["panel", "telegram", "limits", "except_users", "timing", "check_interval", "time_to_active_users",
     "display", "api", "country_code", "disable_method", "disabled_group_id", "group_filter", "punishment"]

  /** `if key in config: ConfigCRUD.set(db, key, config[key])`. */
  function CopyKey(config: seq<(string, Json)>, key: string): seq<Write>
  {
    match Get(config, key)
    case Some(v) => [SetConfig(key, v)]
    case None => []
  }

  /** The keys copied before the `limits` section. */
  function EarlyWrites(config: seq<(string, Json)>): seq<Write>
  {
    CopyKey(config, "panel") + CopyKey(config, "telegram")
  }

  /** The copied keys handled after the timing section, in the order they are copied. */
  const LateKeyOrder: seq<string> :=
    ["display", "api", "country_code", "disable_method", "disabled_group_id", "group_filter", "punishment"]

  /** Each key of `keys` copied in turn, as consecutive `if key in config` blocks. */
  function CopyKeys(config: seq<(string, Json)>, keys: seq<string>): seq<Write>
    decreases |keys|
  {
    if keys == [] then []
    else CopyKeys(config, keys[..|keys| - 1]) + CopyKey(config, keys[|keys| - 1])
  }

  /** The keys copied after the timing section. */
  function LateWrites(config: seq<(string, Json)>): seq<Write>
  {
    CopyKeys(config, LateKeyOrder)
  }

  /** One exemption per user iterated, with the config reason. */
  function ExceptWrites(users: seq<Json>): (ws: seq<Write>)
    ensures |ws| == |users|
    ensures forall i :: 0 <= i < |users| ==> ws[i] == AddExceptUser(users[i], ConfigReason)
  {
    seq(|users|, i requires 0 <= i < |users| => AddExceptUser(users[i], ConfigReason))
  }

  /** One per-user limit per entry of `limits.special`. */
  function UserLimitWrites(special: seq<(string, Json)>): (ws: seq<Write>)
    ensures |ws| == |special|
    ensures forall i :: 0 <= i < |special| ==> ws[i] == SetUserLimit(special[i].0, special[i].1)
  {
    seq(|special|, i requires 0 <= i < |special| => SetUserLimit(special[i].0, special[i].1))
  }

  /** `limits["general"]` stored as `general_limit`, if present. */
  function GeneralWrites(limits: seq<(string, Json)>): seq<Write>
  {
    match Get(limits, "general")
    case Some(g) => [SetConfig("general_limit", g)]
    case None => []
  }

  /** The `limits` section: `general`, then `special`, then `except_users`. */
  function LimitsPlan(limits: Json): Plan
  {
    if !limits.JObj? then Plan([], true)   // `in` or `.get` on a value that is not a dict
    else
      var ls := limits.members;
      var special := GetOr(ls, "special", JObj([]));
      if !special.JObj? then Plan(GeneralWrites(ls), true)   // `.items()` on a non-dict
      else
        var users := Iterate(GetOr(ls, "except_users", JArr([])));
        if users.None? then Plan(GeneralWrites(ls) + UserLimitWrites(special.members), true)
        else Plan(GeneralWrites(ls) + UserLimitWrites(special.members) + ExceptWrites(users.value), false)
  }

  /** The old-style root `except_users`, migrated only when it is a list. */
  function RootExceptUsers(config: seq<(string, Json)>): seq<Json>
  {
    match Get(config, "except_users")
    case Some(JArr(users)) => users
    case _ => []
  }

  function RootExceptWrites(config: seq<(string, Json)>): seq<Write>
  {
    ExceptWrites(RootExceptUsers(config))
  }

  /** The timing object built from the flat legacy keys, with their defaults. */
  function LegacyTiming(config: seq<(string, Json)>): Json
  {
    JObj([("check_interval", GetOr(config, "check_interval", JInt(60))),
          ("time_to_active_users", GetOr(config, "time_to_active_users", JInt(900)))])
  }

  /** `timing` if present, else the object built from the flat keys if either is present. */
  function TimingWrites(config: seq<(string, Json)>): seq<Write>
  {
    match Get(config, "timing")
    case Some(t) => [SetConfig("timing", t)]
    case None =>
      if Has(config, "check_interval") || Has(config, "time_to_active_users")
      then [SetConfig("timing", LegacyTiming(config))]
      else []
  }

  /** Whether some `key in config` test raises or holds, for a config that is not a dict. */
  predicate AnyKeyTestFires(config: Json, keys: seq<string>)
  {
    exists i :: 0 <= i < |keys| && Contains(config, keys[i]) != Some(false)
  }

  /** The `if "limits" in config:` block. */
  function OptionalLimitsPlan(config: seq<(string, Json)>): Plan
  {
    match Get(config, "limits")
    case Some(l) => LimitsPlan(l)
    case None => Plan([], false)
  }

  /** Everything after the `limits` block: none of it can raise on a dict config. */
  function TailWrites(config: seq<(string, Json)>): seq<Write>
  {
    RootExceptWrites(config) + TimingWrites(config) + LateWrites(config)
  }

  /** `migrate_config` on a config.json that holds a dict. */
  function DictConfigPlan(config: seq<(string, Json)>): Plan
  {
    Plan(EarlyWrites(config), false).Then(OptionalLimitsPlan(config)).Then(Plan(TailWrites(config), false))
  }

  /** `DictConfigPlan` unfolded: it stops right after the `limits` block if that raises. */
  lemma DictConfigSteps(config: seq<(string, Json)>)
    ensures OptionalLimitsPlan(config).raises ==>
      DictConfigPlan(config) == Plan(EarlyWrites(config) + OptionalLimitsPlan(config).writes, true)
    ensures !OptionalLimitsPlan(config).raises ==>
      DictConfigPlan(config) == Plan(EarlyWrites(config) + OptionalLimitsPlan(config).writes + TailWrites(config), false)
  {
  }

  /** `migrate_config` on a parsed config.json. */
  function ConfigPlan(config: Json): Plan
  {
    match config
    case JObj(ms) => DictConfigPlan(ms)
    case _ =>
      // No write can happen: the first test that holds is followed by
      // `config[key]` or `config.get`, which raise on anything but a dict.
      Plan([], AnyKeyTestFires(config, TestedKeys))
  }

  // ------------------------------------------------------ .disable_users.json

  /** `data.get("disabled_users", data.get("disable_user", {}))`. */
  function DisabledSource(data: seq<(string, Json)>): Json
  {
    GetOr(data, "disabled_users", GetOr(data, "disable_user", JObj([])))
  }

  /** Old format: every listed user disabled at the migration's own time, no `enable_at`. */
  function ListFormatWrites(users: seq<Json>, now: real): (ws: seq<Write>)
    ensures |ws| == |users|
  {
    seq(|users|, i requires 0 <= i < |users| => AddDisabledUser(users[i], JReal(now), None, DisabledReason))
  }

  /** New format: each user's own timestamp and `enable_at.get(username)`. */
  function DictFormatWrites(entries: seq<(string, Json)>, enableAt: seq<(string, Json)>): (ws: seq<Write>)
    ensures |ws| == |entries|
  {
    seq(|entries|, i requires 0 <= i < |entries| =>
      AddDisabledUser(JStr(entries[i].0), entries[i].1, EnableAtOf(enableAt, entries[i].0), DisabledReason))
  }

  /** `enable_at.get(username)`: `None` both for a user not listed and for one listed as `null`. */
  function EnableAtOf(enableAt: seq<(string, Json)>, username: string): (r: Option<Json>)
    ensures r.Some? ==> r.value != JNull && (username, r.value) in enableAt
  {
    match Get(enableAt, username)
    case Some(JNull) => None
    case other => other
  }

  /** `migrate_disabled_users` on a parsed .disable_users.json, at time `now`. */
  function DisabledPlan(data: Json, now: real): Plan
  {
    match data
    case JObj(ms) =>
      (match DisabledSource(ms)
       case JArr(users) => Plan(ListFormatWrites(users, now), false)
       case JObj(entries) =>
         (match GetOr(ms, "enable_at", JObj([]))
          case JObj(enableAt) => Plan(DictFormatWrites(entries, enableAt), false)
          case _ => Plan([], entries != []))   // `.get` on a non-dict, reached only with an entry
       case _ => Plan([], false))
    case _ => Plan([], true)
  }

  // ------------------------------------------------- .user_groups_backup.json

  /** One entry of `user_groups`: update `original_groups` if the user is disabled. */
  function GroupEntries(entries: seq<(string, Json)>, disabled: set<Json>): Plan
    decreases |entries|
  {
    if entries == [] then Plan([], false)
    else
      (match entries[0].1
       case JObj(info) =>
         var groups := GetOr(info, "groups", JArr([]));
         Plan(if JStr(entries[0].0) in disabled then [SetOriginalGroups(entries[0].0, groups)] else [], false)
       case _ => Plan([], true))
      .Then(GroupEntries(entries[1..], disabled))
  }

  /** `migrate_user_groups` on a parsed backup, given the users with a disabled record. */
  function GroupsPlan(data: Json, disabled: set<Json>): Plan
  {
    match data
    case JObj(ms) =>
      (match GetOr(ms, "user_groups", JObj([]))
       case JObj(entries) => GroupEntries(entries, disabled)
       case _ => Plan([], true))
    case _ => Plan([], true)
  }

  // -------------------------------------------------- .violation_history.json

  /** `record.get("step_applied", 0)` and `record.get("disable_duration", 0)`. */
  function ViolationOf(username: string, record: seq<(string, Json)>): Write
  {
    AddViolation(username, GetOr(record, "step_applied", JInt(0)), GetOr(record, "disable_duration", JInt(0)))
  }

  /** The records of one user, one write each. */
  function RecordWrites(username: string, records: seq<Json>): Plan
    decreases |records|
  {
    if records == [] then Plan([], false)
    else
      (match records[0]
       case JObj(r) => Plan([ViolationOf(username, r)], false)
       case _ => Plan([], true))
      .Then(RecordWrites(username, records[1..]))
  }

  /** All users' records, user by user. */
  function UserViolations(users: seq<(string, Json)>): Plan
    decreases |users|
  {
    if users == [] then Plan([], false)
    else
      (match Iterate(users[0].1)
       case Some(records) => RecordWrites(users[0].0, records)
       case None => Plan([], true))
      .Then(UserViolations(users[1..]))
  }

  /** `migrate_violation_history` on a parsed history file. */
  function ViolationsPlan(data: Json): Plan
  {
    match data
    case JObj(ms) =>
      (match GetOr(ms, "violations", JObj([]))
       case JObj(users) => UserViolations(users)
       case _ => Plan([], true))
    case _ => Plan([], true)
  }

  // ------------------------------------------------------------------ main()

  /** The users with a disabled record after `ws`, starting from `disabled`. */
  function DisabledAfter(disabled: set<Json>, ws: seq<Write>): (d: set<Json>)
    ensures disabled <= d
    decreases |ws|
  {
    if ws == [] then disabled
    else
      var last := ws[|ws| - 1];
      DisabledAfter(disabled, ws[..|ws| - 1]) + (if last.AddDisabledUser? then {last.user} else {})
  }

  // A missing or unreadable file is logged and counts 0, with no write.

  function ConfigFilePlan(file: JsonFile): Plan
  {
    match file
    case Loaded(config) => ConfigPlan(config)
    case _ => Plan([], false)
  }

  function DisabledFilePlan(file: JsonFile, now: real): Plan
  {
    match file
    case Loaded(data) => DisabledPlan(data, now)
    case _ => Plan([], false)
  }

  function GroupsFilePlan(file: JsonFile, disabled: set<Json>): Plan
  {
    match file
    case Loaded(data) => GroupsPlan(data, disabled)
    case _ => Plan([], false)
  }

  function ViolationsFilePlan(file: JsonFile): Plan
  {
    match file
    case Loaded(data) => ViolationsPlan(data)
    case _ => Plan([], false)
  }

  /** The four migrations in the order `main` runs them; an exception stops the run. */
  function MainPlan(configFile: JsonFile, disabledFile: JsonFile, groupsFile: JsonFile,
                    violationsFile: JsonFile, disabled: set<Json>, now: real): Plan
  {
    var disabledUsers := DisabledFilePlan(disabledFile, now);
    ConfigFilePlan(configFile)
      .Then(disabledUsers)
      .Then(GroupsFilePlan(groupsFile, DisabledAfter(disabled, disabledUsers.writes)))
      .Then(ViolationsFilePlan(violationsFile))
  }
}
