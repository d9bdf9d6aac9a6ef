/**
 * The migration script itself (db/migrate_from_json.py): each `migrate_*`
 * function issues its writes one by one against the store and counts them.
 * Every method is proved to issue exactly the writes of its plan in
 * `MigrationPlan` and to return the count of those writes.
 */
module Migration {
  import opened Wrappers
  import opened Json
  import opened MigrationPlan

  /**
   * The database as the migration sees it through the CRUD layer: the log
   * of every call made, and the users that have a disabled record.
   */
  class Store {
    var writes: seq<Write>
    var disabled: set<Json>

    constructor (existing: set<Json>)
      ensures writes == [] && disabled == existing
    {
      writes, disabled := [], existing;
    }

    /** One CRUD call; `DisabledUserCRUD.add` also creates the user's disabled record. */
    method Put(w: Write)
      modifies this
      ensures writes == old(writes) + [w]
      ensures disabled == if w.AddDisabledUser? then old(disabled) + {w.user} else old(disabled)
    {
      writes := writes + [w];
      if w.AddDisabledUser? {
        disabled := disabled + {w.user};
      }
    }

    /** `DisabledUserCRUD.get(db, username)` is truthy. */
    method GetDisabled(username: string) returns (found: bool)
      ensures found <==> JStr(username) in disabled
    {
      found := JStr(username) in disabled;
    }
  }

  /** `if key in config: ConfigCRUD.set(db, key, config[key]); count += 1`. */
  method CopyConfigKey(db: Store, config: seq<(string, Json)>, key: string) returns (n: nat)
    modifies db
    ensures db.writes == old(db.writes) + CopyKey(config, key)
    ensures n == |CopyKey(config, key)| && db.disabled == old(db.disabled)
  {
    n := 0;
    var v := Get(config, key);
    if v.Some? {
      db.Put(SetConfig(key, v.value));
      n := 1;
    }
  }

  /** `for username in users: ExceptUserCRUD.add(...); count += 1`. */
  method AddExceptUsers(db: Store, users: seq<Json>) returns (n: nat)
    modifies db
    ensures db.writes == old(db.writes) + ExceptWrites(users)
    ensures n == |users| && db.disabled == old(db.disabled)
  {
    n := 0;
    for i := 0 to |users|
      invariant db.writes == old(db.writes) + ExceptWrites(users)[..i]
      invariant n == i && db.disabled == old(db.disabled)
    {
      db.Put(AddExceptUser(users[i], ConfigReason));
      n := n + 1;
    }
  }

  /** `for username, limit in special_limits.items(): UserLimitCRUD.set_limit(...); count += 1`. */
  method SetUserLimits(db: Store, entries: seq<(string, Json)>) returns (n: nat)
    modifies db
    ensures db.writes == old(db.writes) + UserLimitWrites(entries)
    ensures n == |entries| && db.disabled == old(db.disabled)
  {
    n := 0;
    for i := 0 to |entries|
      invariant db.writes == old(db.writes) + UserLimitWrites(entries)[..i]
      invariant n == i && db.disabled == old(db.disabled)
    {
      db.Put(SetUserLimit(entries[i].0, entries[i].1));
      n := n + 1;
    }
  }

  /** The `if "limits" in config:` block of `migrate_config`. */
  method MigrateLimits(db: Store, limits: Json) returns (r: Outcome)
    modifies db
    ensures db.writes == old(db.writes) + LimitsPlan(limits).writes
    ensures r == OutcomeOf(LimitsPlan(limits))
    ensures db.disabled == old(db.disabled)
  {
    if !limits.JObj? {
      return Raised;
    }
    var ls := limits.members;
    ghost var w0 := db.writes;
    var count: nat := 0;
    var general := Get(ls, "general");
    if general.Some? {
      db.Put(SetConfig("general_limit", general.value));
      count := count + 1;
    }
    ghost var done := GeneralWrites(ls);
    assert db.writes == w0 + done && count == |done|;
    var special := GetOr(ls, "special", JObj([]));
    if !special.JObj? {
      assert LimitsPlan(limits) == Plan(done, true);
      return Raised;
    }
    var n := SetUserLimits(db, special.members);
    count := count + n;
    AppendAssoc(w0, done, UserLimitWrites(special.members));
    done := done + UserLimitWrites(special.members);
    var exceptUsers := Iterate(GetOr(ls, "except_users", JArr([])));
    if exceptUsers.None? {
      assert LimitsPlan(limits) == Plan(done, true);
      return Raised;
    }
    n := AddExceptUsers(db, exceptUsers.value);
    AppendAssoc(w0, done, ExceptWrites(exceptUsers.value));
    done := done + ExceptWrites(exceptUsers.value);
    assert LimitsPlan(limits) == Plan(done, false);
    r := Migrated(count + n);
  }

  /** The seven `if key in config:` blocks after the timing block. */
  method CopyLateKeys(db: Store, config: seq<(string, Json)>) returns (n: nat)
    modifies db
    ensures db.writes == old(db.writes) + LateWrites(config)
    ensures n == |LateWrites(config)| && db.disabled == old(db.disabled)
  {
    n := 0;
    ghost var w := db.writes;
    for i := 0 to |LateKeyOrder|
      invariant db.writes == w + CopyKeys(config, LateKeyOrder[..i])
      invariant n == |CopyKeys(config, LateKeyOrder[..i])| && db.disabled == old(db.disabled)
    {
      var k := CopyConfigKey(db, config, LateKeyOrder[i]);
      assert LateKeyOrder[..i + 1][..i] == LateKeyOrder[..i];
      AppendAssoc(w, CopyKeys(config, LateKeyOrder[..i]), CopyKey(config, LateKeyOrder[i]));
      n := n + k;
    }
    assert LateKeyOrder[..|LateKeyOrder|] == LateKeyOrder;
  }

  /** The timing block: `timing` wins, else the flat keys with their defaults. */
  method MigrateTiming(db: Store, config: seq<(string, Json)>) returns (n: nat)
    modifies db
    ensures db.writes == old(db.writes) + TimingWrites(config)
    ensures n == |TimingWrites(config)| && db.disabled == old(db.disabled)
  {
    n := 0;
    var timing := Get(config, "timing");
    if timing.Some? {
      db.Put(SetConfig("timing", timing.value));
      n := 1;
    } else if Has(config, "check_interval") || Has(config, "time_to_active_users") {
      db.Put(SetConfig("timing", LegacyTiming(config)));
      n := 1;
    }
  }

  /** The `limits` block when present, nothing otherwise. */
  method MigrateOptionalLimits(db: Store, config: seq<(string, Json)>) returns (r: Outcome)
    modifies db
    ensures db.writes == old(db.writes) + OptionalLimitsPlan(config).writes
    ensures r == OutcomeOf(OptionalLimitsPlan(config))
    ensures db.disabled == old(db.disabled)
  {
    var limits := Get(config, "limits");
    if limits.Some? {
      r := MigrateLimits(db, limits.value);
    } else {
      r := Migrated(0);
    }
  }

  /** The root `except_users`, timing and late keys: the part of `migrate_config` after `limits`. */
  method MigrateTail(db: Store, config: seq<(string, Json)>) returns (n: nat)
    modifies db
    ensures db.writes == old(db.writes) + TailWrites(config)
    ensures n == |TailWrites(config)| && db.disabled == old(db.disabled)
  {
    ghost var w0 := db.writes;
    n := 0;
    var root := Get(config, "except_users");
    if root.Some? && root.value.JArr? {
      n := AddExceptUsers(db, root.value.items);
    }
    assert db.writes == w0 + RootExceptWrites(config);
    var k := MigrateTiming(db, config);
    n := n + k;
    AppendAssoc(w0, RootExceptWrites(config), TimingWrites(config));
    k := CopyLateKeys(db, config);
    n := n + k;
    AppendAssoc(w0, RootExceptWrites(config) + TimingWrites(config), LateWrites(config));
  }

  /** `migrate_config`: returns the count of writes, or raises. */
  method MigrateConfig(db: Store, file: JsonFile) returns (r: Outcome)
    modifies db
    ensures db.writes == old(db.writes) + ConfigFilePlan(file).writes
    ensures r == OutcomeOf(ConfigFilePlan(file))
    ensures r.Migrated? ==> r.count == |db.writes| - |old(db.writes)|
    ensures db.disabled == old(db.disabled)
  {
    if !file.Loaded? {
      return Migrated(0);
    }
    var config := file.value;
    if config.JObj? {
      r := MigrateDictConfig(db, config.members);
    } else {
      r := if AnyKeyTestFires(config, TestedKeys) then Raised else Migrated(0);
    }
  }

  /** The body of `migrate_config` on a dict. */
  method MigrateDictConfig(db: Store, config: seq<(string, Json)>) returns (r: Outcome)
    modifies db
    ensures db.writes == old(db.writes) + DictConfigPlan(config).writes
    ensures r == OutcomeOf(DictConfigPlan(config))
    ensures db.disabled == old(db.disabled)
  {
    ghost var w0 := db.writes;
    ghost var early := EarlyWrites(config);
    ghost var limitsPlan := OptionalLimitsPlan(config);
    DictConfigSteps(config);
    var count: nat := 0;
    var n: nat;

    n := CopyConfigKey(db, config, "panel");
    count := count + n;
    n := CopyConfigKey(db, config, "telegram");
    count := count + n;
    AppendAssoc(w0, CopyKey(config, "panel"), CopyKey(config, "telegram"));

    var limitsCount := MigrateOptionalLimits(db, config);
    AppendAssoc(w0, early, limitsPlan.writes);
    if limitsCount.Raised? {
      return Raised;
    }
    count := count + limitsCount.count;

    n := MigrateTail(db, config);
    AppendAssoc(w0, early + limitsPlan.writes, TailWrites(config));
    r := Migrated(count + n);
  }

  /** `migrate_disabled_users`, with `now` standing for `time.time()`. */
  method MigrateDisabledUsers(db: Store, file: JsonFile, now: real) returns (r: Outcome)
    modifies db
    ensures db.writes == old(db.writes) + DisabledFilePlan(file, now).writes
    ensures r == OutcomeOf(DisabledFilePlan(file, now))
    ensures r.Migrated? ==> r.count == |db.writes| - |old(db.writes)|
    ensures db.disabled == DisabledAfter(old(db.disabled), DisabledFilePlan(file, now).writes)
  {
    if !file.Loaded? {
      return Migrated(0);
    }
    var data := file.value;
    if !data.JObj? {
      return Raised;
    }
    var ms := data.members;
    var disabledUsers := DisabledSource(ms);
    var enableAt := GetOr(ms, "enable_at", JObj([]));
    var count: nat := 0;
    if disabledUsers.JArr? {
      count := AddListedUsers(db, disabledUsers.items, now);
    } else if disabledUsers.JObj? {
      var entries := disabledUsers.members;
      if entries != [] && !enableAt.JObj? {
        // `enable_at.get(username)` raises on the first entry, before its write.
        return Raised;
      }
      var lookup := if enableAt.JObj? then enableAt.members else [];
      count := AddDatedUsers(db, entries, lookup);
    }
    r := Migrated(count);
  }

  /** Old format: `for username in disabled_users: DisabledUserCRUD.add(..., disabled_at=now)`. */
  method AddListedUsers(db: Store, users: seq<Json>, now: real) returns (n: nat)
    modifies db
    ensures db.writes == old(db.writes) + ListFormatWrites(users, now)
    ensures db.disabled == DisabledAfter(old(db.disabled), ListFormatWrites(users, now))
    ensures n == |users|
  {
    ghost var ws := ListFormatWrites(users, now);
    n := 0;
    for i := 0 to |users|
      invariant db.writes == old(db.writes) + ws[..i]
      invariant db.disabled == DisabledAfter(old(db.disabled), ws[..i])
      invariant n == i
    {
      db.Put(AddDisabledUser(users[i], JReal(now), None, DisabledReason));
      n := n + 1;
      assert ws[..i + 1][..i] == ws[..i];
    }
    assert ws[..|users|] == ws;
  }

  /** New format: `for username, disabled_at in disabled_users.items(): DisabledUserCRUD.add(...)`. */
  method AddDatedUsers(db: Store, entries: seq<(string, Json)>, enableAt: seq<(string, Json)>) returns (n: nat)
    modifies db
    ensures db.writes == old(db.writes) + DictFormatWrites(entries, enableAt)
    ensures db.disabled == DisabledAfter(old(db.disabled), DictFormatWrites(entries, enableAt))
    ensures n == |entries|
  {
    ghost var ws := DictFormatWrites(entries, enableAt);
    n := 0;
    for i := 0 to |entries|
      invariant db.writes == old(db.writes) + ws[..i]
      invariant db.disabled == DisabledAfter(old(db.disabled), ws[..i])
      invariant n == i
    {
      db.Put(AddDisabledUser(JStr(entries[i].0), entries[i].1, EnableAtOf(enableAt, entries[i].0), DisabledReason));
      n := n + 1;
      assert ws[..i + 1][..i] == ws[..i];
    }
    assert ws[..|entries|] == ws;
  }

  /** `migrate_user_groups`: only users that already have a disabled record count. */
  method MigrateUserGroups(db: Store, file: JsonFile) returns (r: Outcome)
    modifies db
    ensures db.writes == old(db.writes) + GroupsFilePlan(file, old(db.disabled)).writes
    ensures r == OutcomeOf(GroupsFilePlan(file, old(db.disabled)))
    ensures r.Migrated? ==> r.count == |db.writes| - |old(db.writes)|
    ensures db.disabled == old(db.disabled)
  {
    if !file.Loaded? {
      return Migrated(0);
    }
    var data := file.value;
    if !data.JObj? {
      return Raised;
    }
    var userGroups := GetOr(data.members, "user_groups", JObj([]));
    if !userGroups.JObj? {
      return Raised;
    }
    var entries := userGroups.members;
    ghost var done: seq<Write> := [];
    var count: nat := 0;
    for i := 0 to |entries|
      invariant db.writes == old(db.writes) + done && count == |done|
      invariant GroupEntries(entries, db.disabled) == Plan(done, false).Then(GroupEntries(entries[i..], db.disabled))
      invariant db.disabled == old(db.disabled)
    {
      assert entries[i..][1..] == entries[i + 1..];
      ghost var rest := GroupEntries(entries[i + 1..], db.disabled);
      var info := entries[i].1;
      if !info.JObj? {
        ThenStep(done, Plan([], true), rest);
        assert done + [] == done;
        return Raised;
      }
      var groups := GetOr(info.members, "groups", JArr([]));
      var isDisabled := db.GetDisabled(entries[i].0);
      ghost var part := if isDisabled then [SetOriginalGroups(entries[i].0, groups)] else [];
      if isDisabled {
        db.Put(SetOriginalGroups(entries[i].0, groups));
        count := count + 1;
      }
      ThenStep(done, Plan(part, false), rest);
      AppendAssoc(old(db.writes), done, part);
      done := done + part;
    }
    r := Migrated(count);
  }

  /** `migrate_violation_history`: one record per entry, across all users. */
  method MigrateViolationHistory(db: Store, file: JsonFile) returns (r: Outcome)
    modifies db
    ensures db.writes == old(db.writes) + ViolationsFilePlan(file).writes
    ensures r == OutcomeOf(ViolationsFilePlan(file))
    ensures r.Migrated? ==> r.count == |db.writes| - |old(db.writes)|
    ensures db.disabled == old(db.disabled)
  {
    if !file.Loaded? {
      return Migrated(0);
    }
    var data := file.value;
    if !data.JObj? {
      return Raised;
    }
    var violations := GetOr(data.members, "violations", JObj([]));
    if !violations.JObj? {
      return Raised;
    }
    var users := violations.members;
    ghost var done: seq<Write> := [];
    var count: nat := 0;
    for i := 0 to |users|
      invariant db.writes == old(db.writes) + done && count == |done|
      invariant UserViolations(users) == Plan(done, false).Then(UserViolations(users[i..]))
      invariant db.disabled == old(db.disabled)
    {
      assert users[i..][1..] == users[i + 1..];
      ghost var rest := UserViolations(users[i + 1..]);
      var records := Iterate(users[i].1);
      if records.None? {
        ThenStep(done, Plan([], true), rest);
        assert done + [] == done;
        return Raised;
      }
      ghost var w := db.writes;
      var userCount := AddUserRecords(db, users[i].0, records.value);
      ghost var part := RecordWrites(users[i].0, records.value);
      ThenStep(done, part, rest);
      AppendAssoc(old(db.writes), done, part.writes);
      if userCount.Raised? {
        return Raised;
      }
      count := count + userCount.count;
      done := done + part.writes;
    }
    r := Migrated(count);
  }

  /** `for record in records: ViolationHistoryCRUD.add(...); count += 1`, for one user. */
  method AddUserRecords(db: Store, username: string, records: seq<Json>) returns (r: Outcome)
    modifies db
    ensures db.writes == old(db.writes) + RecordWrites(username, records).writes
    ensures r == OutcomeOf(RecordWrites(username, records))
    ensures db.disabled == old(db.disabled)
  {
    ghost var done: seq<Write> := [];
    var count: nat := 0;
    for j := 0 to |records|
      invariant db.writes == old(db.writes) + done && count == |done|
      invariant RecordWrites(username, records) == Plan(done, false).Then(RecordWrites(username, records[j..]))
      invariant db.disabled == old(db.disabled)
    {
      assert records[j..][1..] == records[j + 1..];
      ghost var rest := RecordWrites(username, records[j + 1..]);
      var record := records[j];
      if !record.JObj? {
        ThenStep(done, Plan([], true), rest);
        assert done + [] == done;
        return Raised;
      }
      var w := ViolationOf(username, record.members);
      db.Put(w);
      count := count + 1;
      ThenStep(done, Plan([w], false), rest);
      AppendAssoc(old(db.writes), done, [w]);
      done := done + [w];
    }
    r := Migrated(count);
  }

  /**
   * The migration steps of `main`: the four migrations in order, whose
   * total is the sum of their counts. An exception in one of them ends
   * `main` with that exception.
   */
  method MigrateAll(db: Store, configFile: JsonFile, disabledFile: JsonFile, groupsFile: JsonFile,
                    violationsFile: JsonFile, now: real) returns (r: Outcome)
    modifies db
    ensures db.writes == old(db.writes) + MainPlan(configFile, disabledFile, groupsFile, violationsFile, old(db.disabled), now).writes
    ensures r == OutcomeOf(MainPlan(configFile, disabledFile, groupsFile, violationsFile, old(db.disabled), now))
    ensures r.Migrated? ==> r.count == |db.writes| - |old(db.writes)|
  {
    ghost var w0 := db.writes;
    ghost var config := ConfigFilePlan(configFile);
    ghost var disabledUsers := DisabledFilePlan(disabledFile, now);
    ghost var groups := GroupsFilePlan(groupsFile, DisabledAfter(db.disabled, disabledUsers.writes));
    ghost var violations := ViolationsFilePlan(violationsFile);

    var configCount := MigrateConfig(db, configFile);
    if configCount.Raised? {
      return Raised;
    }
    var disabledCount := MigrateDisabledUsers(db, disabledFile, now);
    AppendAssoc(w0, config.writes, disabledUsers.writes);
    if disabledCount.Raised? {
      return Raised;
    }
    var groupsCount := MigrateUserGroups(db, groupsFile);
    AppendAssoc(w0, config.writes + disabledUsers.writes, groups.writes);
    if groupsCount.Raised? {
      return Raised;
    }
    var violationsCount := MigrateViolationHistory(db, violationsFile);
    AppendAssoc(w0, config.writes + disabledUsers.writes + groups.writes, violations.writes);
    if violationsCount.Raised? {
      return Raised;
    }
    r := Migrated(configCount.count + disabledCount.count + groupsCount.count + violationsCount.count);
  }
}
