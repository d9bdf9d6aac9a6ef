/**
 * Properties of the migration plans: which store entries each legacy key
 * ends up in, the record formats, the defaults, and the counts.
 */
module MigrationProperties {
  import opened Wrappers
  import opened Json
  import opened MigrationPlan

  // ------------------------------------------------------------ WritesTo

  /** Selecting the writes to one target distributes over concatenation. */
  lemma {:induction false} WritesToAppend(a: seq<Write>, b: seq<Write>, t: Target)
    ensures WritesTo(a + b, t) == WritesTo(a, t) + WritesTo(b, t)
    decreases |a|
  {
    if a == [] {
      assert a + b == b;
    } else {
      assert (a + b)[1..] == a[1..] + b;
      WritesToAppend(a[1..], b, t);
    }
  }

  /** Writes that all miss `t` contribute nothing to it. */
  lemma {:induction false} WritesToNone(ws: seq<Write>, t: Target)
    requires forall i :: 0 <= i < |ws| ==> TargetOf(ws[i]) != t
    ensures WritesTo(ws, t) == []
    decreases |ws|
  {
    if ws != [] {
      WritesToNone(ws[1..], t);
    }
  }

  /** Writes that all land in `t` are selected unchanged. */
  lemma {:induction false} WritesToAll(ws: seq<Write>, t: Target)
    requires forall i :: 0 <= i < |ws| ==> TargetOf(ws[i]) == t
    ensures WritesTo(ws, t) == ws
    decreases |ws|
  {
    if ws != [] {
      WritesToAll(ws[1..], t);
    }
  }

  // --------------------------------------------------------- config.json

  /** The copied keys are not the names the migration writes its computed entries under. */
  lemma KeyNames(key: string)
    ensures key in CopiedKeys ==> key != "general_limit" && key != "timing"
    ensures key in LateKeys ==> key !in EarlyKeys
  {
  }

  lemma CopyKeyTo(config: seq<(string, Json)>, key: string, t: Target)
    ensures WritesTo(CopyKey(config, key), t) == if t == ConfigEntry(key) then CopyKey(config, key) else []
  {
  }

  /** The early keys, `panel` and `telegram`, each reach only their own entry. */
  lemma EarlyWritesTo(config: seq<(string, Json)>, key: string)
    ensures WritesTo(EarlyWrites(config), ConfigEntry(key)) == if key in EarlyKeys then CopyKey(config, key) else []
  {
    WritesToAppend(CopyKey(config, "panel"), CopyKey(config, "telegram"), ConfigEntry(key));
    CopyKeyTo(config, "panel", ConfigEntry(key));
    CopyKeyTo(config, "telegram", ConfigEntry(key));
  }

  /** Copying distinct keys in turn: each key reaches only its own entry, and nothing else is written. */
  lemma {:induction false} CopyKeysTo(config: seq<(string, Json)>, keys: seq<string>, t: Target)
    requires forall i, j :: 0 <= i < j < |keys| ==> keys[i] != keys[j]
    ensures WritesTo(CopyKeys(config, keys), t) == if t.ConfigEntry? && t.key in keys then CopyKey(config, t.key) else []
    decreases |keys|
  {
    if keys != [] {
      var init, last := keys[..|keys| - 1], keys[|keys| - 1];
      var wi, wl := WritesTo(CopyKeys(config, init), t), WritesTo(CopyKey(config, last), t);
      WritesToAppend(CopyKeys(config, init), CopyKey(config, last), t);
      assert WritesTo(CopyKeys(config, keys), t) == wi + wl;
      CopyKeysTo(config, init, t);
      CopyKeyTo(config, last, t);
      LastKey(keys);
      if t == ConfigEntry(last) {
        assert last !in init by {
          forall i | 0 <= i < |init| ensures init[i] != last {
            assert init[i] == keys[i];
          }
        }
        assert wi == [] && wi + wl == wl;
      } else {
        assert wl == [] && wi + wl == wi;
        assert t.ConfigEntry? ==> (t.key in keys <==> t.key in init);
      }
    }
  }

  /** A key list is its prefix followed by its last key. */
  lemma LastKey(keys: seq<string>)
    requires keys != []
    ensures forall k :: k in keys <==> k in keys[..|keys| - 1] || k == keys[|keys| - 1]
  {
    assert keys == keys[..|keys| - 1] + [keys[|keys| - 1]];
  }

  /** The late keys are seven distinct names, listed in copy order. */
  lemma LateKeyOrderDistinct()
    ensures forall i, j :: 0 <= i < j < |LateKeyOrder| ==> LateKeyOrder[i] != LateKeyOrder[j]
    ensures forall key :: key in LateKeyOrder <==> key in LateKeys
  {
  }

  /** The seven late keys each reach only their own entry. */
  lemma LateWritesTo(config: seq<(string, Json)>, key: string)
    ensures WritesTo(LateWrites(config), ConfigEntry(key)) == if key in LateKeys then CopyKey(config, key) else []
  {
    LateKeyOrderDistinct();
    CopyKeysTo(config, LateKeyOrder, ConfigEntry(key));
  }

  /** Every write of the `limits` section is a `general_limit` entry, a user limit or an exemption. */
  lemma LimitsTargets(limits: Json)
    ensures forall i :: 0 <= i < |LimitsPlan(limits).writes| ==>
      TargetOf(LimitsPlan(limits).writes[i]) in {ConfigEntry("general_limit"), UserLimitRows, ExceptUserRows}
  {
  }

  /** The writes after `limits` are exemptions and the `timing` entry, apart from the late keys. */
  lemma TailWritesTo(config: seq<(string, Json)>, key: string)
    requires key != "timing"
    ensures WritesTo(TailWrites(config), ConfigEntry(key)) == if key in LateKeys then CopyKey(config, key) else []
  {
    var t := ConfigEntry(key);
    WritesToAppend(RootExceptWrites(config), TimingWrites(config), t);
    WritesToAppend(RootExceptWrites(config) + TimingWrites(config), LateWrites(config), t);
    WritesToNone(RootExceptWrites(config), t);
    WritesToNone(TimingWrites(config), t);
    LateWritesTo(config, key);
  }

  /** The `limits` section writes no config entry but `general_limit`. */
  lemma OptionalLimitsWritesTo(config: seq<(string, Json)>, key: string)
    requires key != "general_limit"
    ensures WritesTo(OptionalLimitsPlan(config).writes, ConfigEntry(key)) == []
  {
    var limits := Get(config, "limits");
    if limits.Some? {
      LimitsTargets(limits.value);
    }
    WritesToNone(OptionalLimitsPlan(config).writes, ConfigEntry(key));
  }

  /**
   * Each of the nine copied keys is stored unchanged under its own name,
   * exactly once when present and never when absent. `panel` and
   * `telegram` are stored even when the `limits` section then raises; the
   * other seven are stored only when it does not.
   */
  lemma CopiedKeyStored(config: seq<(string, Json)>, key: string)
    requires key in CopiedKeys
    ensures (key in EarlyKeys || !DictConfigPlan(config).raises) ==>
      WritesTo(DictConfigPlan(config).writes, ConfigEntry(key)) == CopyKey(config, key)
  {
    var t := ConfigEntry(key);
    var early := EarlyWrites(config);
    var limits := OptionalLimitsPlan(config).writes;
    KeyNames(key);
    DictConfigSteps(config);
    EarlyWritesTo(config, key);
    OptionalLimitsWritesTo(config, key);
    WritesToAppend(early, limits, t);
    assert WritesTo(early + limits, t) == WritesTo(early, t);
    if !OptionalLimitsPlan(config).raises {
      TailWritesTo(config, key);
      WritesToAppend(early + limits, TailWrites(config), t);
    }
  }

  /** When the `limits` section raises, none of the seven late keys is stored. */
  lemma LateKeysSkippedOnRaise(config: seq<(string, Json)>, key: string)
    requires key in LateKeys && DictConfigPlan(config).raises
    ensures WritesTo(DictConfigPlan(config).writes, ConfigEntry(key)) == []
  {
    var t := ConfigEntry(key);
    var early := EarlyWrites(config);
    var limits := OptionalLimitsPlan(config).writes;
    KeyNames(key);
    EarlyWritesTo(config, key);
    OptionalLimitsWritesTo(config, key);
    WritesToAppend(early, limits, t);
    DictConfigSteps(config);
  }

  /** `CopyKey` writes the key's own value under its own name, once, exactly when the key is present. */
  lemma CopyKeyValue(config: seq<(string, Json)>, key: string)
    ensures Has(config, key) ==> CopyKey(config, key) == [SetConfig(key, Get(config, key).value)]
    ensures !Has(config, key) ==> CopyKey(config, key) == []
  {
  }

  // What each part of `migrate_config` contributes to one target.

  lemma EarlyTo(config: seq<(string, Json)>, t: Target)
    requires !t.ConfigEntry?
    ensures WritesTo(EarlyWrites(config), t) == []
  {
    WritesToNone(EarlyWrites(config), t);
  }

  lemma LateTo(config: seq<(string, Json)>, t: Target)
    requires !t.ConfigEntry?
    ensures WritesTo(LateWrites(config), t) == []
  {
    LateKeyOrderDistinct();
    CopyKeysTo(config, LateKeyOrder, t);
  }

  lemma TimingTo(config: seq<(string, Json)>, t: Target)
    ensures WritesTo(TimingWrites(config), t) == if t == ConfigEntry("timing") then TimingWrites(config) else []
  {
  }

  lemma GeneralTo(limits: seq<(string, Json)>, t: Target)
    ensures WritesTo(GeneralWrites(limits), t) == if t == ConfigEntry("general_limit") then GeneralWrites(limits) else []
  {
  }

  lemma UserLimitsTo(special: seq<(string, Json)>, t: Target)
    ensures WritesTo(UserLimitWrites(special), t) == if t == UserLimitRows then UserLimitWrites(special) else []
  {
    if t == UserLimitRows {
      WritesToAll(UserLimitWrites(special), t);
    } else {
      WritesToNone(UserLimitWrites(special), t);
    }
  }

  lemma ExceptTo(users: seq<Json>, t: Target)
    ensures WritesTo(ExceptWrites(users), t) == if t == ExceptUserRows then ExceptWrites(users) else []
  {
    if t == ExceptUserRows {
      WritesToAll(ExceptWrites(users), t);
    } else {
      WritesToNone(ExceptWrites(users), t);
    }
  }

  /** The `limits` section contributes only to `general_limit`, the user limits and the exemptions. */
  lemma OptionalLimitsTo(config: seq<(string, Json)>, t: Target)
    requires t != ConfigEntry("general_limit") && t != UserLimitRows && t != ExceptUserRows
    ensures WritesTo(OptionalLimitsPlan(config).writes, t) == []
  {
    var limits := Get(config, "limits");
    if limits.Some? {
      LimitsTargets(limits.value);
    }
    WritesToNone(OptionalLimitsPlan(config).writes, t);
  }

  /** Dropping the empty parts of a five-part run. */
  lemma FiveParts(a: seq<Write>, b: seq<Write>, c: seq<Write>, d: seq<Write>, e: seq<Write>)
    ensures a == [] && d == [] && e == [] ==> a + b + (c + d + e) == b + c
    ensures a == [] && b == [] && c == [] && e == [] ==> a + b + (c + d + e) == d
  {
  }

  /** A dict config that does not raise issues its five parts in order. */
  lemma DictConfigWritesTo(config: seq<(string, Json)>, t: Target)
    requires !DictConfigPlan(config).raises
    ensures WritesTo(DictConfigPlan(config).writes, t)
      == WritesTo(EarlyWrites(config), t) + WritesTo(OptionalLimitsPlan(config).writes, t)
       + (WritesTo(RootExceptWrites(config), t) + WritesTo(TimingWrites(config), t) + WritesTo(LateWrites(config), t))
  {
    var early, limits := EarlyWrites(config), OptionalLimitsPlan(config).writes;
    var root, timing, late := RootExceptWrites(config), TimingWrites(config), LateWrites(config);
    DictConfigSteps(config);
    WritesToAppend(early, limits, t);
    WritesToAppend(early + limits, root + timing + late, t);
    WritesToAppend(root, timing, t);
    WritesToAppend(root + timing, late, t);
  }

  /** The writes of a well-formed `limits` dict, in order. */
  lemma LimitsParts(config: seq<(string, Json)>, ls: seq<(string, Json)>)
    requires Get(config, "limits") == Some(JObj(ls)) && !LimitsPlan(JObj(ls)).raises
    ensures var special := GetOr(ls, "special", JObj([])).members;
      var users := Iterate(GetOr(ls, "except_users", JArr([]))).value;
      OptionalLimitsPlan(config).writes == GeneralWrites(ls) + UserLimitWrites(special) + ExceptWrites(users)
  {
  }

  /** Dropping the empty parts of a three-part run. */
  lemma ThreeParts(a: seq<Write>, b: seq<Write>, c: seq<Write>)
    ensures b == [] && c == [] ==> a + b + c == a
    ensures a == [] && c == [] ==> a + b + c == b
    ensures a == [] && b == [] ==> a + b + c == c
  {
  }

  /** `general`, then the `special` entries, then the exemptions: each lands in its own place. */
  lemma LimitsWritesTo(ls: seq<(string, Json)>, special: seq<(string, Json)>, users: seq<Json>, t: Target)
    ensures WritesTo(GeneralWrites(ls) + UserLimitWrites(special) + ExceptWrites(users), t)
      == if t == ConfigEntry("general_limit") then GeneralWrites(ls)
         else if t == UserLimitRows then UserLimitWrites(special)
         else if t == ExceptUserRows then ExceptWrites(users)
         else []
  {
    var g, u, x := GeneralWrites(ls), UserLimitWrites(special), ExceptWrites(users);
    WritesToAppend(g, u, t);
    WritesToAppend(g + u, x, t);
    GeneralTo(ls, t);
    UserLimitsTo(special, t);
    ExceptTo(users, t);
    ThreeParts(WritesTo(g, t), WritesTo(u, t), WritesTo(x, t));
  }

  /**
   * A well-formed `limits` dict: `general` is stored as `general_limit`,
   * each `special` entry becomes one per-user limit, in order, and the
   * exemptions are the users of `limits.except_users` followed by those of
   * a root-level `except_users` list, each with the config reason.
   */
  lemma LimitsStored(config: seq<(string, Json)>, ls: seq<(string, Json)>)
    requires Get(config, "limits") == Some(JObj(ls)) && !DictConfigPlan(config).raises
    ensures WritesTo(DictConfigPlan(config).writes, ConfigEntry("general_limit"))
      == if Has(ls, "general") then [SetConfig("general_limit", Get(ls, "general").value)] else []
    ensures WritesTo(DictConfigPlan(config).writes, UserLimitRows) == UserLimitWrites(GetOr(ls, "special", JObj([])).members)
    ensures WritesTo(DictConfigPlan(config).writes, ExceptUserRows)
      == ExceptWrites(Iterate(GetOr(ls, "except_users", JArr([]))).value + RootExceptUsers(config))
  {
    DictConfigRaises(config);
    var special := GetOr(ls, "special", JObj([])).members;
    var users := Iterate(GetOr(ls, "except_users", JArr([]))).value;
    var root := RootExceptWrites(config);
    KeyNames("general_limit");
    GeneralLimitEntry(config, ls);
    UserLimitEntries(config, ls, special);
    ExemptionEntries(config, ls, users);
  }

  lemma GeneralLimitEntry(config: seq<(string, Json)>, ls: seq<(string, Json)>)
    requires Get(config, "limits") == Some(JObj(ls)) && !LimitsPlan(JObj(ls)).raises
    requires !DictConfigPlan(config).raises
    ensures WritesTo(DictConfigPlan(config).writes, ConfigEntry("general_limit")) == GeneralWrites(ls)
  {
    var t := ConfigEntry("general_limit");
    KeyNames("general_limit");
    DictConfigWritesTo(config, t);
    LimitsParts(config, ls);
    LimitsWritesTo(ls, GetOr(ls, "special", JObj([])).members, Iterate(GetOr(ls, "except_users", JArr([]))).value, t);
    EarlyWritesTo(config, "general_limit");
    LateWritesTo(config, "general_limit");
    TimingTo(config, t);
    ExceptTo(RootExceptUsers(config), t);
    FiveParts([], GeneralWrites(ls), [], [], []);
  }

  lemma UserLimitEntries(config: seq<(string, Json)>, ls: seq<(string, Json)>, special: seq<(string, Json)>)
    requires Get(config, "limits") == Some(JObj(ls)) && !LimitsPlan(JObj(ls)).raises
    requires !DictConfigPlan(config).raises && special == GetOr(ls, "special", JObj([])).members
    ensures WritesTo(DictConfigPlan(config).writes, UserLimitRows) == UserLimitWrites(special)
  {
    var t := UserLimitRows;
    DictConfigWritesTo(config, t);
    LimitsParts(config, ls);
    LimitsWritesTo(ls, GetOr(ls, "special", JObj([])).members, Iterate(GetOr(ls, "except_users", JArr([]))).value, t);
    EarlyTo(config, t);
    LateTo(config, t);
    TimingTo(config, t);
    ExceptTo(RootExceptUsers(config), t);
    FiveParts([], UserLimitWrites(special), [], [], []);
  }

  lemma ExemptionEntries(config: seq<(string, Json)>, ls: seq<(string, Json)>, users: seq<Json>)
    requires Get(config, "limits") == Some(JObj(ls)) && !LimitsPlan(JObj(ls)).raises
    requires !DictConfigPlan(config).raises && users == Iterate(GetOr(ls, "except_users", JArr([]))).value
    ensures WritesTo(DictConfigPlan(config).writes, ExceptUserRows) == ExceptWrites(users + RootExceptUsers(config))
  {
    var t := ExceptUserRows;
    var root := RootExceptWrites(config);
    DictConfigWritesTo(config, t);
    LimitsParts(config, ls);
    LimitsWritesTo(ls, GetOr(ls, "special", JObj([])).members, Iterate(GetOr(ls, "except_users", JArr([]))).value, t);
    EarlyTo(config, t);
    LateTo(config, t);
    TimingTo(config, t);
    ExceptTo(RootExceptUsers(config), t);
    FiveParts([], ExceptWrites(users), root, [], []);
    ExceptWritesAppend(users, RootExceptUsers(config));
  }

  lemma ExceptWritesAppend(a: seq<Json>, b: seq<Json>)
    ensures ExceptWrites(a + b) == ExceptWrites(a) + ExceptWrites(b)
  {
  }

  /** Without a `limits` section the only exemptions are those of a root-level `except_users` list. */
  lemma RootExemptionsOnly(config: seq<(string, Json)>)
    requires !Has(config, "limits")
    ensures !DictConfigPlan(config).raises
    ensures WritesTo(DictConfigPlan(config).writes, ExceptUserRows) == ExceptWrites(RootExceptUsers(config))
    ensures WritesTo(DictConfigPlan(config).writes, UserLimitRows) == []
  {
    DictConfigRaises(config);
    var root := RootExceptWrites(config);
    assert OptionalLimitsPlan(config).writes == [];
    var t := ExceptUserRows;
    DictConfigWritesTo(config, t);
    EarlyTo(config, t);
    LateTo(config, t);
    TimingTo(config, t);
    ExceptTo(RootExceptUsers(config), t);
    FiveParts([], [], root, [], []);
    t := UserLimitRows;
    DictConfigWritesTo(config, t);
    EarlyTo(config, t);
    LateTo(config, t);
    TimingTo(config, t);
    ExceptTo(RootExceptUsers(config), t);
  }

  /**
   * The `timing` entry of a dict config that does not raise: `timing`
   * itself when present, else an object of `check_interval` (default 60)
   * and `time_to_active_users` (default 900) when either is present, else
   * nothing.
   */
  lemma TimingStored(config: seq<(string, Json)>)
    requires !DictConfigPlan(config).raises
    ensures var stored := WritesTo(DictConfigPlan(config).writes, ConfigEntry("timing"));
      if Has(config, "timing") then stored == [SetConfig("timing", Get(config, "timing").value)]
      else if Has(config, "check_interval") || Has(config, "time_to_active_users") then
        && |stored| == 1 && stored[0].SetConfig? && stored[0].value.JObj?
        && Keys(stored[0].value.members) == ["check_interval", "time_to_active_users"]
        && GetOr(stored[0].value.members, "check_interval", JNull) == GetOr(config, "check_interval", JInt(60))
        && GetOr(stored[0].value.members, "time_to_active_users", JNull) == GetOr(config, "time_to_active_users", JInt(900))
      else stored == []
  {
    TimingEntry(config);
    LegacyTimingFields(config);
  }

  /** The timing object built from the flat keys has exactly the two keys, with their defaults. */
  lemma LegacyTimingFields(config: seq<(string, Json)>)
    ensures var legacy := LegacyTiming(config).members;
      && Keys(legacy) == ["check_interval", "time_to_active_users"]
      && GetOr(legacy, "check_interval", JNull) == GetOr(config, "check_interval", JInt(60))
      && GetOr(legacy, "time_to_active_users", JNull) == GetOr(config, "time_to_active_users", JInt(900))
  {
    var legacy := LegacyTiming(config).members;
    var ks := Keys(legacy);
    assert ks[0] == "check_interval" && ks[1] == "time_to_active_users";
    assert ks == ["check_interval", "time_to_active_users"];
    assert Get(legacy, "check_interval") == Some(legacy[0].1);
    assert legacy[1..] == [legacy[1]];
    assert Get(legacy, "time_to_active_users") == Get(legacy[1..], "time_to_active_users") == Some(legacy[1].1);
  }

  lemma TimingEntry(config: seq<(string, Json)>)
    requires !DictConfigPlan(config).raises
    ensures WritesTo(DictConfigPlan(config).writes, ConfigEntry("timing")) == TimingWrites(config)
  {
    var t := ConfigEntry("timing");
    var timing := TimingWrites(config);
    KeyNames("timing");
    DictConfigWritesTo(config, t);
    EarlyWritesTo(config, "timing");
    LateWritesTo(config, "timing");
    OptionalLimitsTo(config, t);
    TimingTo(config, t);
    ExceptTo(RootExceptUsers(config), t);
    FiveParts([], [], [], timing, []);
  }

  /** The `limits` section is malformed: not a dict, `special` not a dict, or `except_users` not iterable. */
  predicate MalformedLimits(limits: Json)
  {
    || !limits.JObj?
    || !GetOr(limits.members, "special", JObj([])).JObj?
    || Iterate(GetOr(limits.members, "except_users", JArr([]))).None?
  }

  /** A dict config raises exactly when it has a malformed `limits` section. */
  lemma DictConfigRaises(config: seq<(string, Json)>)
    ensures DictConfigPlan(config).raises <==> Has(config, "limits") && MalformedLimits(Get(config, "limits").value)
  {
    DictConfigSteps(config);
  }

  /**
   * A config that is not a dict stores nothing. A number, boolean or null
   * raises at the first `in` test; an empty list or string passes every test.
   */
  lemma NonDictConfig(config: Json)
    requires !config.JObj?
    ensures ConfigPlan(config).writes == []
    ensures !(config.JArr? || config.JStr?) ==> ConfigPlan(config).raises
    ensures config == JArr([]) || config == JStr([]) ==> !ConfigPlan(config).raises
  {
    if !(config.JArr? || config.JStr?) {
      assert Contains(config, TestedKeys[0]).None?;
    } else if config == JStr([]) {
      forall i | 0 <= i < |TestedKeys|
        ensures Contains(config, TestedKeys[i]) == Some(false)
      {
        assert !IsSubstring(TestedKeys[i], []);
      }
    }
  }

  // -------------------------------------------------- .disable_users.json

  /** `disabled_users` is read in preference to `disable_user`; with neither there are no entries. */
  lemma DisabledSourcePreference(data: seq<(string, Json)>)
    ensures Has(data, "disabled_users") ==> DisabledSource(data) == Get(data, "disabled_users").value
    ensures !Has(data, "disabled_users") && Has(data, "disable_user") ==> DisabledSource(data) == Get(data, "disable_user").value
    ensures !Has(data, "disabled_users") && !Has(data, "disable_user") ==> DisabledSource(data) == JObj([])
  {
  }

  /** List format: one record per listed user, all disabled at `now`, none with `enable_at`. */
  lemma ListFormat(data: seq<(string, Json)>, users: seq<Json>, now: real)
    requires DisabledSource(data) == JArr(users)
    ensures !DisabledPlan(JObj(data), now).raises
    ensures |DisabledPlan(JObj(data), now).writes| == |users|
    ensures forall i :: 0 <= i < |users| ==>
      DisabledPlan(JObj(data), now).writes[i] == AddDisabledUser(users[i], JReal(now), None, DisabledReason)
  {
  }

  /**
   * Dict format: one record per entry, with the entry's own timestamp and
   * the user's `enable_at`, absent when the user has none.
   */
  lemma DictFormat(data: seq<(string, Json)>, entries: seq<(string, Json)>, enableAt: seq<(string, Json)>, now: real)
    requires DisabledSource(data) == JObj(entries)
    requires GetOr(data, "enable_at", JObj([])) == JObj(enableAt)
    ensures !DisabledPlan(JObj(data), now).raises
    ensures |DisabledPlan(JObj(data), now).writes| == |entries|
    ensures forall i :: 0 <= i < |entries| ==>
      DisabledPlan(JObj(data), now).writes[i] == AddDisabledUser(JStr(entries[i].0), entries[i].1, EnableAtOf(enableAt, entries[i].0), DisabledReason)
    ensures forall i :: 0 <= i < |entries| ==>
      (DisabledPlan(JObj(data), now).writes[i].enableAt == None <==>
       !Has(enableAt, entries[i].0) || Get(enableAt, entries[i].0) == Some(JNull))
    ensures forall i :: 0 <= i < |entries| && Has(enableAt, entries[i].0) && Get(enableAt, entries[i].0) != Some(JNull) ==>
      DisabledPlan(JObj(data), now).writes[i].enableAt == Get(enableAt, entries[i].0)
  {
  }

  /** Any other format writes nothing and does not raise. */
  lemma OtherFormat(data: seq<(string, Json)>, now: real)
    requires !DisabledSource(data).JArr? && !DisabledSource(data).JObj?
    ensures DisabledPlan(JObj(data), now) == Plan([], false)
  {
  }

  /** Dict format with an `enable_at` that is not a dict: the first entry raises before its write. */
  lemma EnableAtNotDict(data: seq<(string, Json)>, entries: seq<(string, Json)>, now: real)
    requires DisabledSource(data) == JObj(entries) && !GetOr(data, "enable_at", JObj([])).JObj?
    ensures DisabledPlan(JObj(data), now).writes == []
    ensures DisabledPlan(JObj(data), now).raises <==> entries != []
  {
  }

  /** The users given a disabled record by a run of writes. */
  function AddedUsers(ws: seq<Write>): set<Json>
  {
    set i | 0 <= i < |ws| && ws[i].AddDisabledUser? :: ws[i].user
  }

  /** After the writes, exactly the users that had a record or were just given one have a record. */
  lemma {:induction false} DisabledAfterAdds(disabled: set<Json>, ws: seq<Write>)
    ensures DisabledAfter(disabled, ws) == disabled + AddedUsers(ws)
    decreases |ws|
  {
    if ws != [] {
      var init, last := ws[..|ws| - 1], ws[|ws| - 1];
      DisabledAfterAdds(disabled, init);
      assert AddedUsers(ws) == AddedUsers(init) + (if last.AddDisabledUser? then {last.user} else {}) by {
        forall u | u in AddedUsers(ws)
          ensures u in AddedUsers(init) + (if last.AddDisabledUser? then {last.user} else {})
        {
          var i :| 0 <= i < |ws| && ws[i].AddDisabledUser? && ws[i].user == u;
          if i < |ws| - 1 {
            assert init[i] == ws[i];
          }
        }
        forall u | u in AddedUsers(init)
          ensures u in AddedUsers(ws)
        {
          var i :| 0 <= i < |init| && init[i].AddDisabledUser? && init[i].user == u;
          assert ws[i] == init[i];
        }
      }
    }
  }

  // --------------------------------------------- .user_groups_backup.json

  /** `w` sets the original groups of a disabled user to the `groups` of that user's entry (default `[]`). */
  predicate FromDisabledEntry(w: Write, entries: seq<(string, Json)>, disabled: set<Json>)
  {
    && w.SetOriginalGroups?
    && JStr(w.username) in disabled
    && exists j :: 0 <= j < |entries| && entries[j].0 == w.username && entries[j].1.JObj?
         && w.groups == GetOr(entries[j].1.members, "groups", JArr([]))
  }

  /** Every group write is for a disabled user and carries that user's groups; at most one per entry. */
  lemma {:induction false} GroupWritesSound(entries: seq<(string, Json)>, disabled: set<Json>)
    ensures |GroupEntries(entries, disabled).writes| <= |entries|
    ensures forall k :: 0 <= k < |GroupEntries(entries, disabled).writes| ==>
      FromDisabledEntry(GroupEntries(entries, disabled).writes[k], entries, disabled)
    decreases |entries|
  {
    if entries != [] {
      var ws := GroupEntries(entries, disabled).writes;
      var rest := GroupEntries(entries[1..], disabled);
      GroupWritesSound(entries[1..], disabled);
      if entries[0].1.JObj? {
        var head := if JStr(entries[0].0) in disabled
          then [SetOriginalGroups(entries[0].0, GetOr(entries[0].1.members, "groups", JArr([])))] else [];
        assert ws == head + rest.writes;
        forall k | 0 <= k < |ws|
          ensures FromDisabledEntry(ws[k], entries, disabled)
        {
          if k < |head| {
            assert ws[k] == head[k];
          } else {
            var w := rest.writes[k - |head|];
            assert FromDisabledEntry(w, entries[1..], disabled);
            var j :| 0 <= j < |entries[1..]| && entries[1..][j].0 == w.username && entries[1..][j].1.JObj?
              && w.groups == GetOr(entries[1..][j].1.members, "groups", JArr([]));
            assert entries[j + 1] == entries[1..][j];
          }
        }
      }
    }
  }

  /** The groups migration raises exactly when some entry is not a dict. */
  lemma {:induction false} GroupsRaise(entries: seq<(string, Json)>, disabled: set<Json>)
    ensures GroupEntries(entries, disabled).raises <==> exists j :: 0 <= j < |entries| && !entries[j].1.JObj?
    decreases |entries|
  {
    if entries != [] {
      GroupsRaise(entries[1..], disabled);
      if exists j :: 0 <= j < |entries[1..]| && !entries[1..][j].1.JObj? {
        var j :| 0 <= j < |entries[1..]| && !entries[1..][j].1.JObj?;
        assert entries[j + 1] == entries[1..][j];
      }
      if exists j :: 0 <= j < |entries| && !entries[j].1.JObj? {
        var j :| 0 <= j < |entries| && !entries[j].1.JObj?;
        if j > 0 {
          assert entries[1..][j - 1] == entries[j];
        }
      }
    }
  }

  /** When no entry raises, every entry of a disabled user has its groups written. */
  lemma {:induction false} GroupWritesComplete(entries: seq<(string, Json)>, disabled: set<Json>)
    requires forall j :: 0 <= j < |entries| ==> entries[j].1.JObj?
    ensures !GroupEntries(entries, disabled).raises
    ensures forall j :: 0 <= j < |entries| && JStr(entries[j].0) in disabled ==>
      SetOriginalGroups(entries[j].0, GetOr(entries[j].1.members, "groups", JArr([]))) in GroupEntries(entries, disabled).writes
    decreases |entries|
  {
    if entries != [] {
      var rest := GroupEntries(entries[1..], disabled);
      GroupWritesComplete(entries[1..], disabled);
      var head := if JStr(entries[0].0) in disabled
        then [SetOriginalGroups(entries[0].0, GetOr(entries[0].1.members, "groups", JArr([])))] else [];
      assert GroupEntries(entries, disabled).writes == head + rest.writes;
      forall j | 1 <= j < |entries| && JStr(entries[j].0) in disabled
        ensures SetOriginalGroups(entries[j].0, GetOr(entries[j].1.members, "groups", JArr([]))) in rest.writes
      {
        assert entries[1..][j - 1] == entries[j];
      }
    }
  }
  /** The entries whose user has a disabled record, in entry order. */
  function DisabledEntries(entries: seq<(string, Json)>, disabled: set<Json>): (sel: seq<(string, Json)>)
    ensures |sel| <= |entries|
    ensures forall e :: e in sel <==> e in entries && JStr(e.0) in disabled
    decreases |entries|
  {
    if entries == [] then []
    else (if JStr(entries[0].0) in disabled then [entries[0]] else []) + DisabledEntries(entries[1..], disabled)
  }

  /**
   * When every entry is a dict, the groups migration writes exactly one
   * `original_groups` update per entry whose user is disabled, in entry
   * order, and nothing else.
   */
  lemma {:induction false} GroupWritesExact(entries: seq<(string, Json)>, disabled: set<Json>)
    requires forall j :: 0 <= j < |entries| ==> entries[j].1.JObj?
    ensures var sel := DisabledEntries(entries, disabled);
      var ws := GroupEntries(entries, disabled).writes;
      && |ws| == |sel|
      && forall k :: 0 <= k < |sel| ==> ws[k] == SetOriginalGroups(sel[k].0, GetOr(sel[k].1.members, "groups", JArr([])))
    decreases |entries|
  {
    if entries != [] {
      var sel, rest := DisabledEntries(entries, disabled), DisabledEntries(entries[1..], disabled);
      var ws, wrest := GroupEntries(entries, disabled).writes, GroupEntries(entries[1..], disabled).writes;
      GroupWritesExact(entries[1..], disabled);
      if JStr(entries[0].0) in disabled {
        var w := SetOriginalGroups(entries[0].0, GetOr(entries[0].1.members, "groups", JArr([])));
        assert ws == [w] + wrest;
        assert sel == [entries[0]] + rest;
      } else {
        assert ws == [] + wrest;
        assert sel == [] + rest;
      }
    }
  }

  /** The groups migration counts exactly the entries whose user is disabled. */
  lemma GroupCountExact(entries: seq<(string, Json)>, disabled: set<Json>)
    requires forall j :: 0 <= j < |entries| ==> entries[j].1.JObj?
    ensures OutcomeOf(GroupEntries(entries, disabled)) == Migrated(|DisabledEntries(entries, disabled)|)
  {
    GroupWritesExact(entries, disabled);
    GroupWritesComplete(entries, disabled);
  }


  // --------------------------------------------- .violation_history.json

  /** Each record is a dict: one write per record, with `step_applied` and `disable_duration` defaulting to 0. */
  lemma {:induction false} RecordWritesShape(username: string, records: seq<Json>)
    ensures RecordWrites(username, records).raises <==> exists j :: 0 <= j < |records| && !records[j].JObj?
    ensures !RecordWrites(username, records).raises ==> |RecordWrites(username, records).writes| == |records|
    ensures !RecordWrites(username, records).raises ==> forall j :: 0 <= j < |records| ==>
      && RecordWrites(username, records).writes[j].AddViolation?
      && RecordWrites(username, records).writes[j].username == username
      && RecordWrites(username, records).writes[j].stepApplied
           == (if Has(records[j].members, "step_applied") then Get(records[j].members, "step_applied").value else JInt(0))
      && RecordWrites(username, records).writes[j].disableDuration
           == (if Has(records[j].members, "disable_duration") then Get(records[j].members, "disable_duration").value else JInt(0))
    decreases |records|
  {
    if records != [] {
      var rest := records[1..];
      RecordWritesShape(username, rest);
      if exists j :: 0 <= j < |rest| && !rest[j].JObj? {
        var j :| 0 <= j < |rest| && !rest[j].JObj?;
        assert records[j + 1] == rest[j];
      }
      if exists j :: 0 <= j < |records| && !records[j].JObj? {
        var j :| 0 <= j < |records| && !records[j].JObj?;
        if j > 0 {
          assert rest[j - 1] == records[j];
        }
      }
      if !RecordWrites(username, records).raises {
        var ws := RecordWrites(username, records).writes;
        assert ws == [ViolationOf(username, records[0].members)] + RecordWrites(username, rest).writes;
        forall j | 1 <= j < |records|
          ensures ws[j] == RecordWrites(username, rest).writes[j - 1] && records[j] == rest[j - 1]
        {
        }
      }
    }
  }

  /** `for record in records: record.get(...)` raises for this user's value. */
  predicate MalformedRecords(records: Json)
  {
    match Iterate(records)
    case None => true
    case Some(rs) => exists j :: 0 <= j < |rs| && !rs[j].JObj?
  }

  /** The number of records across all users. */
  function RecordCount(users: seq<(string, Json)>): nat
    decreases |users|
  {
    if users == [] then 0
    else (match Iterate(users[0].1) case Some(rs) => |rs| case None => 0) + RecordCount(users[1..])
  }

  /** The history migration raises exactly when some user's records are malformed; otherwise it writes one per record. */
  lemma {:induction false} ViolationsTotal(users: seq<(string, Json)>)
    ensures UserViolations(users).raises <==> exists i :: 0 <= i < |users| && MalformedRecords(users[i].1)
    ensures !UserViolations(users).raises ==> |UserViolations(users).writes| == RecordCount(users)
    decreases |users|
  {
    if users != [] {
      var rest := users[1..];
      ViolationsTotal(rest);
      var records := Iterate(users[0].1);
      if records.Some? {
        RecordWritesShape(users[0].0, records.value);
      }
      if exists i :: 0 <= i < |rest| && MalformedRecords(rest[i].1) {
        var i :| 0 <= i < |rest| && MalformedRecords(rest[i].1);
        assert users[i + 1] == rest[i];
      }
      if exists i :: 0 <= i < |users| && MalformedRecords(users[i].1) {
        var i :| 0 <= i < |users| && MalformedRecords(users[i].1);
        if i > 0 {
          assert rest[i - 1] == users[i];
        }
      }
    }
  }

  // ------------------------------------------------------------------ main()

  /** A missing or unreadable file yields no write and a count of 0, in all four migrations. */
  lemma AbsentFile(file: JsonFile, disabled: set<Json>, now: real)
    requires !file.Loaded?
    ensures OutcomeOf(ConfigFilePlan(file)) == Migrated(0) && ConfigFilePlan(file).writes == []
    ensures OutcomeOf(DisabledFilePlan(file, now)) == Migrated(0) && DisabledFilePlan(file, now).writes == []
    ensures OutcomeOf(GroupsFilePlan(file, disabled)) == Migrated(0) && GroupsFilePlan(file, disabled).writes == []
    ensures OutcomeOf(ViolationsFilePlan(file)) == Migrated(0) && ViolationsFilePlan(file).writes == []
  {
  }

  /**
   * `main`'s total is the sum of the four counts, and the writes are the
   * four migrations' writes in order; it raises when any of them does.
   */
  lemma MainTotal(configFile: JsonFile, disabledFile: JsonFile, groupsFile: JsonFile, violationsFile: JsonFile,
                  disabled: set<Json>, now: real)
    ensures var c := ConfigFilePlan(configFile);
      var d := DisabledFilePlan(disabledFile, now);
      var g := GroupsFilePlan(groupsFile, DisabledAfter(disabled, d.writes));
      var v := ViolationsFilePlan(violationsFile);
      var m := MainPlan(configFile, disabledFile, groupsFile, violationsFile, disabled, now);
      && (m.raises <==> c.raises || d.raises || g.raises || v.raises)
      && (!m.raises ==> m.writes == c.writes + d.writes + g.writes + v.writes)
      && (!m.raises ==> OutcomeOf(m).count == OutcomeOf(c).count + OutcomeOf(d).count + OutcomeOf(g).count + OutcomeOf(v).count)
  {
  }
}
