/**
 * The in-memory single-record store
 * (backend/src/instances/pomodoroConfig/pomodoroConfigStore.ts).
 * The slot holds at most one record. Fresh identifiers and clock readings
 * come from the environment, so every operation that may need one takes it
 * as a parameter; it is used only on the paths where the source generates it.
 */
module PomodoroConfigStore {
  import opened Wrappers
  import D = PomodoroConfigDefaults
  import V = PomodoroConfigValidation

  /** An opaque identifier (a UUID in the source). */
  type Id = string

  /** An opaque clock reading (an ISO-8601 string in the source). */
  type Timestamp = string

  /** `PomodoroConfigRecord`. */
  datatype ConfigRecord = ConfigRecord(
    id: Id,
    workDuration: int,
    shortBreakDuration: int,
    longBreakDuration: int,
    cyclesBeforeLongBreak: int,
    advancedConfigActive: bool,
    customized: bool,
    dateCreated: Timestamp,
    dateModified: Timestamp)

  /** `Partial<PomodoroConfigRecord>`: a key is either supplied or absent. */
  datatype Patch = Patch(
    id: Option<Id>,
    workDuration: Option<int>,
    shortBreakDuration: Option<int>,
    longBreakDuration: Option<int>,
    cyclesBeforeLongBreak: Option<int>,
    advancedConfigActive: Option<bool>,
    customized: Option<bool>,
    dateCreated: Option<Timestamp>,
    dateModified: Option<Timestamp>)

  const EMPTY_PATCH := Patch(None, None, None, None, None, None, None, None, None)

  /** The five editable fields of a record. */
  function Values(r: ConfigRecord): V.ConfigValues {
    V.ConfigValues(r.workDuration, r.shortBreakDuration, r.longBreakDuration,
                   r.cyclesBeforeLongBreak, r.advancedConfigActive)
  }

  /** `createDefault`: a fresh record with the defaults, not customized, whose
      two timestamps are the same clock reading. */
  function CreateDefault(newId: Id, now: Timestamp): (r: ConfigRecord)
    ensures r.id == newId && Values(r) == V.DefaultValues() && !r.customized
    ensures r.dateCreated == now && r.dateModified == now
  {
    ConfigRecord(newId, D.WORK_DURATION, D.SHORT_BREAK_DURATION, D.LONG_BREAK_DURATION,
                 D.CYCLES_BEFORE_LONG_BREAK, D.ADVANCED_CONFIG_ACTIVE, false, now, now)
  }

  /** `{ ...r, ...p }`: every supplied key overrides, every other key is kept. */
  function Merge(r: ConfigRecord, p: Patch): ConfigRecord {
    ConfigRecord(
      p.id.GetOr(r.id),
      p.workDuration.GetOr(r.workDuration),
      p.shortBreakDuration.GetOr(r.shortBreakDuration),
      p.longBreakDuration.GetOr(r.longBreakDuration),
      p.cyclesBeforeLongBreak.GetOr(r.cyclesBeforeLongBreak),
      p.advancedConfigActive.GetOr(r.advancedConfigActive),
      p.customized.GetOr(r.customized),
      p.dateCreated.GetOr(r.dateCreated),
      p.dateModified.GetOr(r.dateModified))
  }

  /** The record `get` returns: the one held, or a fresh default when the slot is empty. */
  function Current(config: Option<ConfigRecord>, newId: Id, now: Timestamp): (r: ConfigRecord)
    ensures config.Some? ==> r == config.value
    ensures config.None? ==> r == CreateDefault(newId, now)
  {
    if config.Some? then config.value else CreateDefault(newId, now)
  }

  /** The record `update` leaves: the patch merged over the current record
      (a fresh default, stamped `createdAt`, if the slot was empty), then
      `dateModified` set to `now`. */
  function Updated(config: Option<ConfigRecord>, p: Patch, newId: Id, createdAt: Timestamp, now: Timestamp)
    : ConfigRecord
  {
    Merge(Current(config, newId, createdAt), p).(dateModified := now)
  }

  /** `PomodoroConfigStore`. */
  class ConfigStore {
    var config: Option<ConfigRecord>

    constructor ()
      ensures config == None
    {
      config := None;
    }

    /** `get`: creates the default record lazily; otherwise changes nothing. */
    method Get(newId: Id, now: Timestamp) returns (r: ConfigRecord)
      modifies this
      ensures r == Current(old(config), newId, now)
      ensures config == Some(r)
      ensures old(config).Some? ==> config == old(config)
    {
      if config.None? {
        config := Some(CreateDefault(newId, now));
      }
      r := config.value;
    }

    /** `update`: a shallow merge of the supplied keys, stamped with `now`. */
    method Update(data: Patch, newId: Id, createdAt: Timestamp, now: Timestamp) returns (r: ConfigRecord)
      modifies this
      ensures r == Updated(old(config), data, newId, createdAt, now)
      ensures config == Some(r)
    {
      if config.None? {
        config := Some(CreateDefault(newId, createdAt));
      }
      config := Some(Merge(config.value, data).(dateModified := now));
      r := config.value;
    }

    /** `reset`: replaces whatever is held by a fresh default record. */
    method Reset(newId: Id, now: Timestamp) returns (r: ConfigRecord)
      modifies this
      ensures r == CreateDefault(newId, now)
      ensures config == Some(r)
    {
      config := Some(CreateDefault(newId, now));
      r := config.value;
    }

    /** `exists`: whether a record is held; it never creates one. */
    method Exists() returns (b: bool)
      ensures b <==> config.Some?
    {
      b := config.Some?;
    }

    /** `clear`: empties the slot. */
    method Clear()
      modifies this
      ensures config == None
    {
      config := None;
    }
  }

  // ---------------------------------------------------------------------
  // Properties of the store's operations on the slot's value.

  /** `update` overwrites exactly the supplied keys and keeps every other one,
      `id` and `dateCreated` included; `dateModified` is always `now`. */
  lemma UpdateOverwritesOnlySupplied(config: Option<ConfigRecord>, p: Patch, newId: Id, createdAt: Timestamp,
                                     now: Timestamp)
    ensures var base, r := Current(config, newId, createdAt), Updated(config, p, newId, createdAt, now);
      && r.id == (if p.id.Some? then p.id.value else base.id)
      && r.workDuration == (if p.workDuration.Some? then p.workDuration.value else base.workDuration)
      && r.shortBreakDuration == (if p.shortBreakDuration.Some? then p.shortBreakDuration.value else base.shortBreakDuration)
      && r.longBreakDuration == (if p.longBreakDuration.Some? then p.longBreakDuration.value else base.longBreakDuration)
      && r.cyclesBeforeLongBreak ==
           (if p.cyclesBeforeLongBreak.Some? then p.cyclesBeforeLongBreak.value else base.cyclesBeforeLongBreak)
      && r.advancedConfigActive ==
           (if p.advancedConfigActive.Some? then p.advancedConfigActive.value else base.advancedConfigActive)
      && r.customized == (if p.customized.Some? then p.customized.value else base.customized)
      && r.dateCreated == (if p.dateCreated.Some? then p.dateCreated.value else base.dateCreated)
      && r.dateModified == now
  {
  }

  /** An update with no keys only refreshes `dateModified`. */
  lemma EmptyUpdateOnlyStamps(r: ConfigRecord, newId: Id, createdAt: Timestamp, now: Timestamp)
    ensures Updated(Some(r), EMPTY_PATCH, newId, createdAt, now) == r.(dateModified := now)
  {
  }

  /** On an empty slot, `update` merges onto the default record it creates first. */
  lemma UpdateOnEmptyStartsFromDefault(p: Patch, newId: Id, createdAt: Timestamp, now: Timestamp)
    ensures Updated(None, p, newId, createdAt, now)
         == Merge(CreateDefault(newId, createdAt), p).(dateModified := now)
  {
  }

  /** Two consecutive `get`s return the same record, with the same id and timestamps. */
  lemma GetIsIdempotent(config: Option<ConfigRecord>, id1: Id, now1: Timestamp, id2: Id, now2: Timestamp)
    ensures Current(Some(Current(config, id1, now1)), id2, now2) == Current(config, id1, now1)
  {
  }

  /** A client of the class: after `update`, `get` returns the updated record,
      and `clear` empties the slot so that `exists` reports false. */
  method StoreScenario(p: Patch, id1: Id, id2: Id, t1: Timestamp, t2: Timestamp, t3: Timestamp)
    returns (held: bool, r: ConfigRecord)
    ensures r == Updated(None, p, id1, t1, t2)
    ensures !held
  {
    var store := new ConfigStore();
    var e := store.Exists();
    assert !e;
    var u := store.Update(p, id1, t1, t2);
    r := store.Get(id2, t3);
    assert r == u;
    store.Clear();
    held := store.Exists();
  }
}
