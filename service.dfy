/**
 * The configuration service
 * (backend/src/services/pomodoroConfig/pomodoroConfigService.ts): it
 * validates, derives the `customized` flag, writes through the store and
 * projects records to the response shape; it also renders the preview text.
 * The module-level singleton store becomes a `ConfigStore` passed to each
 * operation; the asynchronous functions become synchronous methods.
 */
module PomodoroConfigService {
  import opened Wrappers
  import D = PomodoroConfigDefaults
  import V = PomodoroConfigValidation
  import S = PomodoroConfigStore
  import Decimal

  // ---------------------------------------------------------------------
  // The customization classifier.

  /** The `isCustomized` rule: some field differs from its default. */
  function IsCustomized(v: V.ConfigValues): (r: bool)
    ensures r <==> v != V.DefaultValues()
  {
    || v.workDuration != D.WORK_DURATION
    || v.shortBreakDuration != D.SHORT_BREAK_DURATION
    || v.longBreakDuration != D.LONG_BREAK_DURATION
    || v.cyclesBeforeLongBreak != D.CYCLES_BEFORE_LONG_BREAK
    || v.advancedConfigActive != D.ADVANCED_CONFIG_ACTIVE
  }

  /** A record the service can have written: its fields pass the schema's
      limits, and its `customized` flag is the classifier's verdict on them. */
  predicate Consistent(r: S.ConfigRecord) {
    V.WithinLimits(S.Values(r)) && r.customized == IsCustomized(S.Values(r))
  }

  predicate StoreInvariant(config: Option<S.ConfigRecord>) {
    config.Some? ==> Consistent(config.value)
  }

  /** The classifier on the default values, on the update example of
      `pomodoroConfigUpdate`'s documentation (30/5/20, the rest defaulted),
      and on a change of the advanced flag alone. */
  lemma ClassifierExamples()
    ensures !IsCustomized(V.ConfigValues(25, 5, 15, 4, false))
    ensures IsCustomized(V.ConfigValues(30, 5, 20, 4, false))
    ensures IsCustomized(V.ConfigValues(25, 5, 15, 4, true))
  {
  }

  // ---------------------------------------------------------------------
  // Responses and errors.

  /** `PomodoroConfigResponse`: the record without `dateCreated`. */
  datatype ConfigResponse = ConfigResponse(
    id: S.Id,
    workDuration: int,
    shortBreakDuration: int,
    longBreakDuration: int,
    cyclesBeforeLongBreak: int,
    advancedConfigActive: bool,
    customized: bool,
    dateModified: S.Timestamp)

  function ToResponse(r: S.ConfigRecord): ConfigResponse {
    ConfigResponse(r.id, r.workDuration, r.shortBreakDuration, r.longBreakDuration,
                   r.cyclesBeforeLongBreak, r.advancedConfigActive, r.customized, r.dateModified)
  }

  /** The projection forgets `dateCreated` and nothing else: two records give
      the same response exactly when they differ at most in `dateCreated`. */
  lemma ResponseDropsOnlyDateCreated(a: S.ConfigRecord, b: S.ConfigRecord)
    ensures ToResponse(a) == ToResponse(b) <==> a.(dateCreated := b.dateCreated) == b
  {
  }

  /** `ServiceError(code, message, statusCode, details)`. */
  datatype ServiceError = ServiceError(code: string, message: string, statusCode: int, details: seq<V.Issue>)

  function ValidationFailed(issues: seq<V.Issue>): ServiceError {
    ServiceError("VALIDATION_ERROR", "Validation failed", 400, issues)
  }

  /** The keys the service hands to the store's `update`: the five validated
      fields and the derived flag; never `id` or the timestamps. */
  function ValuesPatch(v: V.ConfigValues, customized: bool): (p: S.Patch)
    ensures p.id.None? && p.dateCreated.None? && p.dateModified.None?
    ensures p.workDuration.Some? && p.shortBreakDuration.Some? && p.longBreakDuration.Some?
    ensures p.cyclesBeforeLongBreak.Some? && p.advancedConfigActive.Some? && p.customized == Some(customized)
    ensures forall r :: S.Values(S.Merge(r, p)) == v && S.Merge(r, p).customized == customized
  {
    S.Patch(None, Some(v.workDuration), Some(v.shortBreakDuration), Some(v.longBreakDuration),
            Some(v.cyclesBeforeLongBreak), Some(v.advancedConfigActive), Some(customized), None, None)
  }

  // ---------------------------------------------------------------------
  // The preview formatter and its parse back.

  datatype Preview = Preview(workCycle: string, intervals: string, cycles: string)

  const WORK_SUFFIX := " minutes of work"
  const SHORT_PREFIX := "Short break: "
  const LONG_PREFIX := " min | Long break: "
  const MIN_SUFFIX := " min"
  const CYCLES_PREFIX := "Long break every "
  const CYCLES_SUFFIX := " cycles"

  /** The three template strings of `pomodoroConfigPreview`. */
  function FormatPreview(r: S.ConfigRecord): Preview {
    Preview(
      Decimal.IntText(r.workDuration) + WORK_SUFFIX,
      SHORT_PREFIX + Decimal.IntText(r.shortBreakDuration) + LONG_PREFIX
        + Decimal.IntText(r.longBreakDuration) + MIN_SUFFIX,
      CYCLES_PREFIX + Decimal.IntText(r.cyclesBeforeLongBreak) + CYCLES_SUFFIX)
  }

  function StripPrefix(s: string, prefix: string): (r: Option<string>)
    ensures r.Some? ==> s == prefix + r.value
  {
    if |prefix| <= |s| && s[..|prefix|] == prefix then Some(s[|prefix|..]) else None
  }

  function StripSuffix(s: string, suffix: string): (r: Option<string>)
    ensures r.Some? ==> s == r.value + suffix
  {
    if |suffix| <= |s| && s[|s| - |suffix|..] == suffix then Some(s[..|s| - |suffix|]) else None
  }

  /** The index of the first space of `s`, or `|s|` when there is none. */
  function FirstSpace(s: string): (k: nat)
    ensures k <= |s|
  {
    if s == [] || s[0] == ' ' then 0 else 1 + FirstSpace(s[1..])
  }

  /** The four numbers a preview shows. */
  datatype PreviewNumbers = PreviewNumbers(work: int, short: int, long: int, cycles: int)

  function ParseNumbers(work: Option<int>, short: Option<int>, long: Option<int>, cycles: Option<int>)
    : Option<PreviewNumbers>
  {
    if work.Some? && short.Some? && long.Some? && cycles.Some? then
      Some(PreviewNumbers(work.value, short.value, long.value, cycles.value))
    else
      None
  }

  /** Reads the numbers back from the three preview strings. */
  function ParsePreview(p: Preview): Option<PreviewNumbers> {
    var work := StripSuffix(p.workCycle, WORK_SUFFIX);
    var intervals := StripPrefix(p.intervals, SHORT_PREFIX);
    var middle := if intervals.Some? then StripSuffix(intervals.value, MIN_SUFFIX) else None;
    var cycles := StripPrefix(p.cycles, CYCLES_PREFIX);
    var count := if cycles.Some? then StripSuffix(cycles.value, CYCLES_SUFFIX) else None;
    if work.None? || middle.None? || count.None? then
      None
    else
      var k := FirstSpace(middle.value);
      var long := StripPrefix(middle.value[k..], LONG_PREFIX);
      if long.None? then
        None
      else
        ParseNumbers(Decimal.ParseInt(work.value), Decimal.ParseInt(middle.value[..k]),
                     Decimal.ParseInt(long.value), Decimal.ParseInt(count.value))
  }

  lemma StripPrefixOfConcat(prefix: string, t: string)
    ensures StripPrefix(prefix + t, prefix) == Some(t)
  {
    assert (prefix + t)[..|prefix|] == prefix;
    assert (prefix + t)[|prefix|..] == t;
  }

  lemma StripSuffixOfConcat(t: string, suffix: string)
    ensures StripSuffix(t + suffix, suffix) == Some(t)
  {
    assert (t + suffix)[|t|..] == suffix;
    assert (t + suffix)[..|t|] == t;
  }

  lemma {:induction false} FirstSpaceOfConcat(a: string, b: string)
    requires ' ' !in a && |b| > 0 && b[0] == ' '
    ensures FirstSpace(a + b) == |a|
    decreases |a|
  {
    if a == [] {
      assert a + b == b;
    } else {
      assert (a + b)[1..] == a[1..] + b;
      FirstSpaceOfConcat(a[1..], b);
    }
  }

  /** The preview loses none of the four numbers: they can be read back. */
  lemma PreviewRoundTrip(r: S.ConfigRecord)
    ensures ParsePreview(FormatPreview(r))
         == Some(PreviewNumbers(r.workDuration, r.shortBreakDuration, r.longBreakDuration, r.cyclesBeforeLongBreak))
  {
    var w := Decimal.IntText(r.workDuration);
    var s := Decimal.IntText(r.shortBreakDuration);
    var l := Decimal.IntText(r.longBreakDuration);
    var c := Decimal.IntText(r.cyclesBeforeLongBreak);
    var p := FormatPreview(r);
    StripSuffixOfConcat(w, WORK_SUFFIX);
    var middle := s + LONG_PREFIX + l;
    assert p.intervals == SHORT_PREFIX + (middle + MIN_SUFFIX);
    StripPrefixOfConcat(SHORT_PREFIX, middle + MIN_SUFFIX);
    StripSuffixOfConcat(middle, MIN_SUFFIX);
    assert p.cycles == CYCLES_PREFIX + (c + CYCLES_SUFFIX);
    StripPrefixOfConcat(CYCLES_PREFIX, c + CYCLES_SUFFIX);
    StripSuffixOfConcat(c, CYCLES_SUFFIX);
    assert middle == s + (LONG_PREFIX + l);
    FirstSpaceOfConcat(s, LONG_PREFIX + l);
    assert middle[..|s|] == s;
    assert middle[|s|..] == LONG_PREFIX + l;
    StripPrefixOfConcat(LONG_PREFIX, l);
    Decimal.IntTextRoundTrip(r.workDuration);
    Decimal.IntTextRoundTrip(r.shortBreakDuration);
    Decimal.IntTextRoundTrip(r.longBreakDuration);
    Decimal.IntTextRoundTrip(r.cyclesBeforeLongBreak);
  }

  /** The preview of a default record. */
  lemma DefaultPreview(newId: S.Id, now: S.Timestamp)
    ensures FormatPreview(S.CreateDefault(newId, now))
         == Preview("25 minutes of work", "Short break: 5 min | Long break: 15 min", "Long break every 4 cycles")
  {
    var p := FormatPreview(S.CreateDefault(newId, now));
    Decimal.DefaultTexts();
    assert p.workCycle == "25 minutes of work" by {
      assert "25" + WORK_SUFFIX == "25 minutes of work";
    }
    assert p.intervals == "Short break: 5 min | Long break: 15 min" by {
      assert SHORT_PREFIX + "5" + LONG_PREFIX + "15" + MIN_SUFFIX == "Short break: 5 min | Long break: 15 min";
    }
    assert p.cycles == "Long break every 4 cycles" by {
      assert CYCLES_PREFIX + "4" + CYCLES_SUFFIX == "Long break every 4 cycles";
    }
  }

  // ---------------------------------------------------------------------
  // The four operations, on the store's slot.

  /** The operations a collaborator can invoke, with the fresh identifier
      and clock readings the environment would supply to them. */
  datatype Request =
    | GetRequest(newId: S.Id, now: S.Timestamp)
    | UpdateRequest(body: V.Body, newId: S.Id, createdAt: S.Timestamp, now: S.Timestamp)
    | ResetRequest(newId: S.Id, now: S.Timestamp)
    | PreviewRequest(newId: S.Id, now: S.Timestamp)

  /** The slot after one operation. Get and preview may create the record;
      an update whose body fails validation leaves the slot as it was. */
  function Apply(config: Option<S.ConfigRecord>, req: Request): Option<S.ConfigRecord> {
    match req
    case GetRequest(newId, now) => Some(S.Current(config, newId, now))
    case PreviewRequest(newId, now) => Some(S.Current(config, newId, now))
    case ResetRequest(newId, now) => Some(S.CreateDefault(newId, now))
    case UpdateRequest(body, newId, createdAt, now) =>
      match V.Validate(body)
      case Failure(_) => config
      case Success(v) => Some(S.Updated(config, ValuesPatch(v, IsCustomized(v)), newId, createdAt, now))
  }

  /** The slot after a sequence of operations, applied in order. */
  function Run(config: Option<S.ConfigRecord>, reqs: seq<Request>): Option<S.ConfigRecord>
    decreases |reqs|
  {
    if reqs == [] then config else Run(Apply(config, reqs[0]), reqs[1..])
  }

  /** A successful update writes exactly the validated fields and the derived
      flag, keeping the id and creation date of the record it updates. */
  lemma UpdateWritesValidated(config: Option<S.ConfigRecord>, body: V.Body, newId: S.Id,
                              createdAt: S.Timestamp, now: S.Timestamp)
    requires V.Validate(body).Success?
    ensures var r, base := Apply(config, UpdateRequest(body, newId, createdAt, now)), S.Current(config, newId, createdAt);
      && r.Some?
      && S.Values(r.value) == V.Validate(body).value
      && r.value.customized == IsCustomized(V.Validate(body).value)
      && r.value.id == base.id
      && r.value.dateCreated == base.dateCreated
      && r.value.dateModified == now
  {
  }

  /** Every operation keeps the stored record consistent. */
  lemma ApplyKeepsInvariant(config: Option<S.ConfigRecord>, req: Request)
    ensures StoreInvariant(config) ==> StoreInvariant(Apply(config, req))
  {
    D.DefaultsKeepLongAboveShort();
    match req
    case UpdateRequest(body, newId, createdAt, now) =>
      if V.Validate(body).Success? {
        UpdateWritesValidated(config, body, newId, createdAt, now);
      }
    case _ =>
  }

  /** The system invariant: from a consistent (or empty) slot, any sequence
      of get, update, reset and preview leaves a consistent slot. */
  lemma {:induction false} RunKeepsInvariant(config: Option<S.ConfigRecord>, reqs: seq<Request>)
    requires StoreInvariant(config)
    ensures StoreInvariant(Run(config, reqs))
    decreases |reqs|
  {
    if reqs != [] {
      ApplyKeepsInvariant(config, reqs[0]);
      RunKeepsInvariant(Apply(config, reqs[0]), reqs[1..]);
    }
  }

  /** Read after write: a get right after a successful update returns the
      values just written. */
  lemma ReadAfterWrite(config: Option<S.ConfigRecord>, body: V.Body, newId: S.Id, createdAt: S.Timestamp,
                       now: S.Timestamp, id2: S.Id, now2: S.Timestamp)
    requires V.Validate(body).Success?
    ensures var after := Apply(config, UpdateRequest(body, newId, createdAt, now));
      S.Values(S.Current(after, id2, now2)) == V.Validate(body).value
  {
    UpdateWritesValidated(config, body, newId, createdAt, now);
  }

  /** A rejected update leaves the slot as it was. */
  lemma RejectedUpdateChangesNothing(config: Option<S.ConfigRecord>, body: V.Body, newId: S.Id,
                                     createdAt: S.Timestamp, now: S.Timestamp)
    requires V.Validate(body).Failure?
    ensures Apply(config, UpdateRequest(body, newId, createdAt, now)) == config
  {
  }

  /** Reset always yields the default values, not customized, with the fresh
      id and both timestamps at `now`, whatever was held before. */
  lemma ResetYieldsDefaults(config: Option<S.ConfigRecord>, newId: S.Id, now: S.Timestamp)
    ensures var r := Apply(config, ResetRequest(newId, now));
      && r.Some? && S.Values(r.value) == V.DefaultValues() && !r.value.customized
      && r.value.id == newId && r.value.dateCreated == now && r.value.dateModified == now
  {
  }

  // ---------------------------------------------------------------------
  // The service operations on a store object.

  /** `pomodoroConfigGet`. */
  method PomodoroConfigGet(store: S.ConfigStore, newId: S.Id, now: S.Timestamp) returns (resp: ConfigResponse)
    modifies store
    ensures store.config == Apply(old(store.config), GetRequest(newId, now))
    ensures resp == ToResponse(store.config.value)
    ensures StoreInvariant(old(store.config)) ==> StoreInvariant(store.config)
  {
    ApplyKeepsInvariant(store.config, GetRequest(newId, now));
    var config := store.Get(newId, now);
    resp := ToResponse(config);
  }

  /** `pomodoroConfigUpdate`: a rejected body raises the validation error and
      never reaches the store. */
  method PomodoroConfigUpdate(store: S.ConfigStore, body: V.Body, newId: S.Id, createdAt: S.Timestamp,
                              now: S.Timestamp)
    returns (result: Result<ConfigResponse, ServiceError>)
    modifies store
    ensures store.config == Apply(old(store.config), UpdateRequest(body, newId, createdAt, now))
    ensures V.Validate(body).Failure? ==>
      result == Failure(ValidationFailed(V.Validate(body).error)) && store.config == old(store.config)
    ensures V.Validate(body).Success? ==> result == Success(ToResponse(store.config.value))
    ensures StoreInvariant(old(store.config)) ==> StoreInvariant(store.config)
  {
    ApplyKeepsInvariant(store.config, UpdateRequest(body, newId, createdAt, now));
    var validation := V.Validate(body);
    if validation.Failure? {
      return Failure(ValidationFailed(validation.error));
    }
    var params := validation.value;
    var isCustomized := IsCustomized(params);
    var updated := store.Update(ValuesPatch(params, isCustomized), newId, createdAt, now);
    result := Success(ToResponse(updated));
  }

  /** `pomodoroConfigReset`. */
  method PomodoroConfigReset(store: S.ConfigStore, newId: S.Id, now: S.Timestamp) returns (resp: ConfigResponse)
    modifies store
    ensures store.config == Apply(old(store.config), ResetRequest(newId, now))
    ensures resp == ToResponse(store.config.value)
    ensures StoreInvariant(store.config)
  {
    D.DefaultsKeepLongAboveShort();
    var reset := store.Reset(newId, now);
    resp := ToResponse(reset);
  }

  /** `pomodoroConfigPreview`: reads (and if need be creates) the record and
      renders it. */
  method PomodoroConfigPreview(store: S.ConfigStore, newId: S.Id, now: S.Timestamp) returns (preview: Preview)
    modifies store
    ensures store.config == Apply(old(store.config), PreviewRequest(newId, now))
    ensures preview == FormatPreview(store.config.value)
    ensures StoreInvariant(old(store.config)) ==> StoreInvariant(store.config)
  {
    ApplyKeepsInvariant(store.config, PreviewRequest(newId, now));
    var config := store.Get(newId, now);
    preview := FormatPreview(config);
  }
}
