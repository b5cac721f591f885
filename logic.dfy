/** The reconciliation logic shared by the stateful components
    (react/mixins/logic.js): the cached copy of the configuration, how the
    next engine configuration call is built from the properties and the
    cache, the re-entrancy guard on property updates, and the checks that
    drop engine events equal to what is already cached.

    The engine is not modelled: every call made to it, and every outward
    callback, is appended to `trace`. Which engine calls reject is a
    parameter (`rejects`); what the engine reports (its current parts,
    initials, structure...) is a parameter (an `EngineState`). `setState`
    callbacks and `await` run in sequence. */
module Logic {
  import opened Js
  import opened Customization
  import opened Structures

  /** The properties the mixin reads. `S` is the structure: the object
      reference on a live component, its value in a snapshot. */
  datatype Props<S> = Props(
    brand: Option<string>,
    model: Option<string>,
    version: Option<int>,
    currency: Option<string>,
    config: Option<bool>,
    parts: Option<Parts>,
    initials: Option<string>,
    engraving: Option<string>,
    initialsExtra: Option<InitialsExtra>,
    structure: S)

  type LiveProps = Props<StructureObj?>
  type PropsValue = Props<Option<Structure>>

  function Snapshot(p: LiveProps): PropsValue
    reads p.structure
  {
    Props(p.brand, p.model, p.version, p.currency, p.config, p.parts,
          p.initials, p.engraving, p.initialsExtra, ValueOf(p.structure))
  }

  /** The cached `*Data` state, and also a configuration request after its
      omitted arguments have been resolved against that cache. */
  datatype Settings = Settings(
    brand: Option<string>,
    model: Option<string>,
    version: Option<int>,
    parts: Option<Parts>,
    currency: Option<string>,
    initials: Option<string>,
    engraving: Option<string>,
    initialsExtra: Option<InitialsExtra>,
    structure: Option<Structure>)

  /** The named arguments of `configRipe`; `Undefined` is an omitted one. */
  datatype Args = Args(
    brand: JsValue<string>,
    model: JsValue<string>,
    version: JsValue<int>,
    parts: JsValue<Parts>,
    currency: JsValue<string>,
    initials: JsValue<string>,
    engraving: JsValue<string>,
    initialsExtra: JsValue<InitialsExtra>,
    structure: JsValue<Structure>)

  const NoArgs := Args(Undefined, Undefined, Undefined, Undefined, Undefined,
                       Undefined, Undefined, Undefined, Undefined)

  /** The options object of the engine's `config` call. */
  datatype ConfigOptions =
    | Discrete(version: Option<int>, parts: Option<Parts>, currency: Option<string>)
    | Spread(structure: Structure, currency: Option<string>)

  datatype Call =
    | Config(brand: Option<string>, model: Option<string>, options: ConfigOptions)
    | SetInitials(initials: Option<string>, engraving: Option<string>)
    | SetInitialsExtra(initialsExtra: Option<InitialsExtra>)
    | SetParts(parts: Option<Parts>)

  datatype Callback =
    | OnUpdateBrand(brand: Option<string>)
    | OnUpdateModel(model: Option<string>)
    | OnUpdateVersion(version: Option<int>)
    | OnUpdateParts(parts: Option<Parts>)
    | OnUpdateInitials(initials: Option<string>)
    | OnUpdateEngraving(engraving: Option<string>)
    | OnUpdateInitialsExtra(initialsExtra: Option<InitialsExtra>)
    | OnUpdateCurrency(currency: Option<string>)
    | OnUpdateStructure(structure: Structure)
    | OnConfigured

  datatype Effect = Engine(call: Call) | Notify(callback: Callback)

  /** What the engine reports when an event handler reads it back;
      `structure` is what `getStructure()` resolves to. */
  datatype EngineState = EngineState(
    brand: Option<string>,
    model: Option<string>,
    version: Option<int>,
    parts: Option<Parts>,
    initials: Option<string>,
    engraving: Option<string>,
    initialsExtra: Option<InitialsExtra>,
    currency: Option<string>,
    structure: Structure)

  /** The configure decision of `setupRipe`: an explicit `config` property
      wins; otherwise configure only a brand-new engine instance, that is
      when none was supplied and no process-wide one exists. */
  function ShouldConfigure(config: Option<bool>, ripeSupplied: bool, globalRipe: bool): bool {
    match config
    case Some(b) => b
    case None => !ripeSupplied && !globalRipe
  }

  /** Once one instance has set the process-wide engine, a later instance
      without an explicit `config` property never configures. */
  lemma LaterInstancesDoNotConfigure(config: Option<bool>, ripeSupplied: bool)
    ensures ShouldConfigure(config, ripeSupplied, true) <==> config == Some(true)
    ensures ShouldConfigure(config, true, false) <==> config == Some(true)
  {
  }

  /** `currency ? currency.toUpperCase() : null`. */
  function NormalizeCurrency(c: Option<string>): (r: Option<string>)
    ensures r.Some? <==> TruthyString(c)
    ensures r.Some? ==> |r.value| == |c.value|
    ensures r.Some? ==> forall i :: 0 <= i < |r.value| ==> r.value[i] == UpperChar(c.value[i]) && !IsLower(r.value[i])
  {
    if TruthyString(c) then Some(Upper(c.value)) else None
  }

  /** Currencies differing only in letter case configure the same way. */
  lemma NormalizeCurrencyIgnoresCase(c: string, d: string)
    requires Upper(c) == Upper(d)
    ensures NormalizeCurrency(Some(c)) == NormalizeCurrency(Some(d))
  {
    assert |c| == |Upper(c)| == |Upper(d)| == |d|;
  }

  /** Each omitted argument falls back to the cache; `null` is kept. */
  function ResolveArgs(args: Args, cache: Settings): Settings {
    Settings(
      Resolve(args.brand, cache.brand),
      Resolve(args.model, cache.model),
      Resolve(args.version, cache.version),
      Resolve(args.parts, cache.parts),
      Resolve(args.currency, cache.currency),
      Resolve(args.initials, cache.initials),
      Resolve(args.engraving, cache.engraving),
      Resolve(args.initialsExtra, cache.initialsExtra),
      Resolve(args.structure, cache.structure))
  }

  /** Calling `configRipe` with no argument replays the cache. */
  lemma NoArgsReplaysCache(cache: Settings)
    ensures ResolveArgs(NoArgs, cache) == cache
  {
  }

  /** The single `config` call: with a structure its brand and model and the
      structure spread with the currency; otherwise the discrete fields. */
  function ConfigCall(q: Settings): Call {
    match q.structure
    case Some(s) => Config(s.brand, s.model, Spread(s, NormalizeCurrency(q.currency)))
    case None => Config(q.brand, q.model, Discrete(q.version, q.parts, NormalizeCurrency(q.currency)))
  }

  datatype Personalization = Personalization(
    initials: Option<string>, engraving: Option<string>, initialsExtra: Option<InitialsExtra>)

  /** With a structure, personalization comes from the structure itself. */
  function PersonalizationOf(q: Settings): Personalization {
    match q.structure
    case Some(s) => Personalization(s.initials, s.engraving, s.initialsExtra)
    case None => Personalization(q.initials, q.engraving, q.initialsExtra)
  }

  /** The engine calls of `configRipe` for a resolved request, up to and
      including the first one that the engine rejects. */
  function ConfigCalls(q: Settings, rejects: Call -> bool): seq<Call> {
    var config := ConfigCall(q);
    var p := PersonalizationOf(q);
    var initials := SetInitials(p.initials, p.engraving);
    if rejects(config) then [config]
    else if TruthyString(p.initials) && rejects(initials) then [config, initials]
    else
      [config]
      + (if TruthyString(p.initials) then [initials] else [])
      + (if p.initialsExtra.Some? then [SetInitialsExtra(p.initialsExtra)] else [])
  }

  /** The promise of `configRipe` resolves: no call it made was rejected. */
  predicate ConfigSucceeds(q: Settings, rejects: Call -> bool) {
    forall c :: c in ConfigCalls(q, rejects) ==> !rejects(c)
  }

  function Engines(calls: seq<Call>): (r: seq<Effect>)
    ensures |r| == |calls|
    ensures forall k :: 0 <= k < |calls| ==> r[k] == Engine(calls[k])
  {
    seq(|calls|, k requires 0 <= k < |calls| => Engine(calls[k]))
  }

  /** Everything `configRipe` does, given the cache it resolves against. */
  function ConfigEffects(cache: Settings, args: Args, rejects: Call -> bool): seq<Effect> {
    Engines(ConfigCalls(ResolveArgs(args, cache), rejects)) + [Notify(OnConfigured)]
  }

  /** `configRipe` makes exactly one `config` call, first; `setInitials`
      follows only when `config` resolved and the initials are truthy;
      `setInitialsExtra` only when everything before it resolved and an
      initials extra is present. */
  lemma ConfigCallsShape(q: Settings, rejects: Call -> bool)
    ensures var calls := ConfigCalls(q, rejects);
      && 1 <= |calls| <= 3
      && calls[0] == ConfigCall(q) && calls[0].Config?
      && (forall k :: 1 <= k < |calls| ==> !calls[k].Config?)
      && (SetInitials(PersonalizationOf(q).initials, PersonalizationOf(q).engraving) in calls <==>
            !rejects(ConfigCall(q)) && TruthyString(PersonalizationOf(q).initials))
      && ((exists k :: 0 <= k < |calls| && calls[k].SetInitialsExtra?) <==>
            && !rejects(ConfigCall(q))
            && !(TruthyString(PersonalizationOf(q).initials)
                 && rejects(SetInitials(PersonalizationOf(q).initials, PersonalizationOf(q).engraving)))
            && PersonalizationOf(q).initialsExtra.Some?)
  {
    var calls := ConfigCalls(q, rejects);
    var p := PersonalizationOf(q);
    if !rejects(ConfigCall(q)) && !(TruthyString(p.initials) && rejects(SetInitials(p.initials, p.engraving)))
       && p.initialsExtra.Some? {
      assert calls[|calls| - 1].SetInitialsExtra?;
    }
  }

  /** With a structure the discrete arguments are ignored: only the
      structure and the currency decide what reaches the engine. */
  lemma StructureOverridesDiscreteFields(q: Settings, q': Settings, rejects: Call -> bool)
    requires q.structure.Some? && q'.structure == q.structure && q'.currency == q.currency
    ensures ConfigCalls(q, rejects) == ConfigCalls(q', rejects)
  {
  }

  /** The arguments of `configRipe` in `setupRipe`: every property is passed
      explicitly, so the initial configuration never reads the cache. */
  function SetupArgs(p: PropsValue): Args {
    Args(Explicit(p.brand), Explicit(p.model), Explicit(p.version), Explicit(p.parts),
         Explicit(p.currency), Explicit(p.initials), Explicit(p.engraving),
         Explicit(p.initialsExtra), Explicit(p.structure))
  }

  lemma SetupIgnoresCache(p: PropsValue, cache: Settings, cache': Settings)
    ensures ResolveArgs(SetupArgs(p), cache) == ResolveArgs(SetupArgs(p), cache')
    ensures ResolveArgs(SetupArgs(p), cache).parts == p.parts
    ensures ResolveArgs(SetupArgs(p), cache).structure == p.structure
  {
  }

  /** `equalConfigOptions`: brand, model, version and currency. */
  predicate EqualConfigOptions<S>(first: Props<S>, second: Props<S>) {
    && first.brand == second.brand
    && first.model == second.model
    && first.version == second.version
    && first.currency == second.currency
  }

  /** `equalConfigOptionsStructure`: the structures and the currency. */
  predicate EqualConfigOptionsStructure(first: PropsValue, second: PropsValue) {
    EqualStructure(first.structure, second.structure) && first.currency == second.currency
  }

  /** Both configuration-option comparisons are equality of the fields they
      read, so they are reflexive and symmetric. */
  lemma EqualConfigOptionsIsEquality(first: PropsValue, second: PropsValue)
    ensures EqualConfigOptions(first, second) <==>
      (first.brand, first.model, first.version, first.currency) == (second.brand, second.model, second.version, second.currency)
    ensures EqualConfigOptionsStructure(first, second) <==>
      first.structure == second.structure && first.currency == second.currency
  {
    EqualStructureIsEquality(first.structure, second.structure);
  }

  /** The configuration object of `_updateConfigOptions` as `shouldReset` sees it. */
  function ConfigView<S>(p: Props<S>): ResetView {
    ResetView(p.brand, p.model, p.version, p.parts, p.initials, p.engraving, p.initialsExtra)
  }

  /** The arguments `_updateConfigOptions` hands to `configRipe`: after a
      reset the parts and personalization are cleared; parts are always
      passed; every other field only when it changed. */
  function OptionsArgs<S>(previous: Props<S>, props: Props<S>): Args {
    var reset := ShouldReset(ConfigView(props), ConfigView(previous));
    var parts := if reset then None else props.parts;
    var initials := if reset then Some("") else props.initials;
    var engraving := if reset then None else props.engraving;
    var extra := if reset then Some(map[]) else props.initialsExtra;
    Args(
      if props.brand != previous.brand then Explicit(props.brand) else Undefined,
      if props.model != previous.model then Explicit(props.model) else Undefined,
      if props.version != previous.version then Explicit(props.version) else Undefined,
      Explicit(parts),
      if props.currency != previous.currency then Explicit(props.currency) else Undefined,
      if initials != previous.initials then Explicit(initials) else Undefined,
      if engraving != previous.engraving then Explicit(engraving) else Undefined,
      if !EqualInitialsExtra(extra, previous.initialsExtra) then Explicit(extra) else Undefined,
      Undefined)
  }

  /** After a reset the request carries no parts, empty initials, no
      engraving and an empty initials extra, except where the cleared value
      equals the previous property, which leaves that argument omitted and
      so taken from the cache. */
  lemma ResetClearsCustomization<S>(previous: Props<S>, props: Props<S>, cache: Settings)
    requires ShouldReset(ConfigView(props), ConfigView(previous))
    ensures var q := ResolveArgs(OptionsArgs(previous, props), cache);
      && q.parts == None
      && q.initials == (if previous.initials == Some("") then cache.initials else Some(""))
      && q.engraving == (if previous.engraving == None then cache.engraving else None)
      && q.initialsExtra == (if previous.initialsExtra == Some(map[]) then cache.initialsExtra else Some(map[]))
      && q.structure == cache.structure
  {
    EqualInitialsExtraIsEquality(Some(map[]), previous.initialsExtra);
  }

  /** Without a reset, unchanged fields fall back to the cache and changed
      ones are passed as they are, `null` included; the parts are always the
      new property. */
  lemma OptionsArgsPassOnlyChanges<S>(previous: Props<S>, props: Props<S>, cache: Settings)
    requires !ShouldReset(ConfigView(props), ConfigView(previous))
    ensures var q := ResolveArgs(OptionsArgs(previous, props), cache);
      && q.brand == (if props.brand != previous.brand then props.brand else cache.brand)
      && q.model == (if props.model != previous.model then props.model else cache.model)
      && q.version == (if props.version != previous.version then props.version else cache.version)
      && q.parts == props.parts
      && q.currency == (if props.currency != previous.currency then props.currency else cache.currency)
      && q.initials == (if props.initials != previous.initials then props.initials else cache.initials)
      && q.engraving == (if props.engraving != previous.engraving then props.engraving else cache.engraving)
      && q.initialsExtra == (if props.initialsExtra != previous.initialsExtra then props.initialsExtra else cache.initialsExtra)
  {
    EqualInitialsExtraIsEquality(props.initialsExtra, previous.initialsExtra);
  }

  /** What `_updateConfigOptionsStructure` decides: nothing to do, a
      `TypeError` (the previous structure is `null`), or a configuration
      call after editing the structure in place. */
  datatype StructurePlan = Skip | Crash | Reconfigure(edited: Structure, args: Args)

  function StructureUpdate(previous: PropsValue, props: PropsValue, cached: Option<Structure>): StructurePlan {
    if props.structure.None? then Skip
    else
      var structure := props.structure.value;
      var equalStructure := EqualStructure(props.structure, cached) || EqualStructure(props.structure, previous.structure);
      var equalCurrency := props.currency == previous.currency;
      if equalCurrency && equalStructure then Skip
      else if previous.structure.None? then Crash
      else
        var p := previous.structure.value;
        var reset :=
          if ShouldReset(StructureView(structure), StructureView(p))
          then structure.(parts := None, initials := Some(""), engraving := None, initialsExtra := Some(map[]))
          else structure;
        var equalInitialsEngraving := reset.initials == p.initials && reset.engraving == p.engraving;
        var edited :=
          if EqualInitialsExtra(reset.initialsExtra, p.initialsExtra) && !equalInitialsEngraving
          then reset.(initialsExtra := None)
          else reset;
        Reconfigure(edited, NoArgs.(
          structure := if !equalStructure then Defined(edited) else Undefined,
          currency := if !equalCurrency then Explicit(props.currency) else Undefined))
  }

  /** A structure equal to the cached or the previous one, with the same
      currency, makes no call; otherwise the structure is passed exactly when
      it differs from both, and the currency exactly when it changed. */
  lemma StructureUpdatePassesChanges(previous: PropsValue, props: PropsValue, cached: Option<Structure>)
    requires props.structure.Some?
    ensures var plan := StructureUpdate(previous, props, cached);
      && (plan.Skip? <==> props.currency == previous.currency
                          && (props.structure == cached || props.structure == previous.structure))
      && (plan.Reconfigure? ==>
            && (plan.args.structure.Defined? <==> props.structure != cached && props.structure != previous.structure)
            && (plan.args.currency.Undefined? <==> props.currency == previous.currency)
            && plan.args.(structure := Undefined, currency := Undefined) == NoArgs)
  {
    EqualStructureIsEquality(props.structure, cached);
    EqualStructureIsEquality(props.structure, previous.structure);
  }

  /** An edited structure keeps its identity, and a kept initials extra
      never overrides changed initials or engraving. */
  lemma StructureEditKeepsIdentity(previous: PropsValue, props: PropsValue, cached: Option<Structure>)
    requires StructureUpdate(previous, props, cached).Reconfigure?
    ensures var e := StructureUpdate(previous, props, cached).edited;
      && e.brand == props.structure.value.brand
      && e.model == props.structure.value.model
      && e.version == props.structure.value.version
      && (e.initialsExtra.Some? && e.initialsExtra == previous.structure.value.initialsExtra ==>
            e.initials == previous.structure.value.initials && e.engraving == previous.structure.value.engraving)
  {
    var p := previous.structure.value;
    var e := StructureUpdate(previous, props, cached).edited;
    EqualInitialsExtraIsEquality(e.initialsExtra, p.initialsExtra);
  }

  function StructureEffects(cache: Settings, previous: PropsValue, props: PropsValue, rejects: Call -> bool)
    : (Option<Structure>, seq<Effect>)
  {
    match StructureUpdate(previous, props, cache.structure)
    case Skip => (props.structure, [])
    case Crash => (props.structure, [])
    case Reconfigure(edited, args) => (Some(edited), ConfigEffects(cache, args, rejects))
  }

  /** The outcome of a property update: the new cache, what was called, and
      the new value of the (in place edited) structure property. */
  datatype Outcome = Outcome(cache: Settings, effects: seq<Effect>, structure: Option<Structure>)

  /** `_componentDidUpdate` past its guard, in the order of the source. */
  function DidUpdate(cache: Settings, previous: PropsValue, props: PropsValue, rejects: Call -> bool): Outcome {
    var setters := Setters(Stage(cache, []), ChangesOf(previous), ChangesOf(props), rejects);
    var (s, e5) :=
      if !EqualConfigOptionsStructure(previous, props)
      then StructureEffects(setters.cache, previous, props, rejects)
      else (props.structure, []);
    var e6 :=
      if !EqualConfigOptions(previous, props)
      then ConfigEffects(setters.cache, OptionsArgs(previous, props), rejects)
      else [];
    Outcome(setters.cache, setters.effects + e5 + e6, s)
  }

  /** The customization fields the setters of `_componentDidUpdate` compare. */
  datatype Changes = Changes(
    parts: Option<Parts>, initials: Option<string>, engraving: Option<string>, initialsExtra: Option<InitialsExtra>)

  function ChangesOf<S>(p: Props<S>): Changes {
    Changes(p.parts, p.initials, p.engraving, p.initialsExtra)
  }

  /** The new cache and the effects so far, while `_componentDidUpdate` runs. */
  datatype Stage = Stage(cache: Settings, effects: seq<Effect>)

  function PartsStep(s: Stage, previous: Changes, props: Changes, rejects: Call -> bool): Stage {
    if !EqualParts(previous.parts, props.parts)
    then Stage(s.cache.(parts := props.parts),
               s.effects + SetterEffects(SetParts(props.parts), OnUpdateParts(props.parts), rejects))
    else s
  }

  /** The initials go out with the engraving cached at that point. */
  function InitialsStep(s: Stage, previous: Changes, props: Changes, rejects: Call -> bool): Stage {
    if previous.initials != props.initials
    then Stage(s.cache.(initials := props.initials),
               s.effects + SetterEffects(SetInitials(props.initials, s.cache.engraving), OnUpdateInitials(props.initials), rejects))
    else s
  }

  /** The engraving goes out with the initials cached at that point. */
  function EngravingStep(s: Stage, previous: Changes, props: Changes, rejects: Call -> bool): Stage {
    if previous.engraving != props.engraving
    then Stage(s.cache.(engraving := props.engraving),
               s.effects + SetterEffects(SetInitials(s.cache.initials, props.engraving), OnUpdateEngraving(props.engraving), rejects))
    else s
  }

  function ExtraStep(s: Stage, previous: Changes, props: Changes, rejects: Call -> bool): Stage {
    if !EqualInitialsExtra(previous.initialsExtra, props.initialsExtra)
    then Stage(s.cache.(initialsExtra := props.initialsExtra),
               s.effects + SetterEffects(SetInitialsExtra(props.initialsExtra), OnUpdateInitialsExtra(props.initialsExtra), rejects))
    else s
  }

  /** The four setter steps of `_componentDidUpdate`, each for a changed field. */
  function Setters(start: Stage, previous: Changes, props: Changes, rejects: Call -> bool): Stage {
    var s1 := PartsStep(start, previous, props, rejects);
    var s2 := InitialsStep(s1, previous, props, rejects);
    var s3 := EngravingStep(s2, previous, props, rejects);
    ExtraStep(s3, previous, props, rejects)
  }

  /** The setter steps only append to the effects they start from. */
  lemma SettersAppend(cache: Settings, before: seq<Effect>, previous: Changes, props: Changes, rejects: Call -> bool)
    ensures var alone := Setters(Stage(cache, []), previous, props, rejects);
      Setters(Stage(cache, before), previous, props, rejects) == Stage(alone.cache, before + alone.effects)
  {
    var alone := Setters(Stage(cache, []), previous, props, rejects);
    var s1 := PartsStep(Stage(cache, []), previous, props, rejects);
    var s2 := InitialsStep(s1, previous, props, rejects);
    var s3 := EngravingStep(s2, previous, props, rejects);
    var t1 := PartsStep(Stage(cache, before), previous, props, rejects);
    var t2 := InitialsStep(t1, previous, props, rejects);
    var t3 := EngravingStep(t2, previous, props, rejects);
    assert t1 == Stage(s1.cache, before + s1.effects);
    assert t2 == Stage(s2.cache, before + s2.effects);
    assert t3 == Stage(s3.cache, before + s3.effects);
  }

  /** An `_update*` setter: the engine call, then the callback once it resolved. */
  function SetterEffects(call: Call, callback: Callback, rejects: Call -> bool): seq<Effect> {
    [Engine(call)] + (if rejects(call) then [] else [Notify(callback)])
  }

  /** Regrouping an appended trace, kept apart so that the proof of
      `ComponentDidUpdate` does not see it among its other facts. */
  lemma AppendThree<T>(s: seq<T>, a: seq<T>, b: seq<T>, c: seq<T>)
    ensures s + (a + b + c) == s + a + b + c
  {
  }

  /** The re-entrancy guard of `_componentDidUpdate`. */
  predicate DidUpdateRuns(ripePresent: bool, configData: bool, configuring: bool) {
    ripePresent && configData && !configuring
  }

  /** Unchanged properties cause no engine call and no callback. */
  lemma DidUpdateIdle(cache: Settings, props: PropsValue, rejects: Call -> bool)
    ensures DidUpdate(cache, props, props, rejects) == Outcome(cache, [], props.structure)
  {
    EqualPartsSymmetricReflexive(props.parts, props.parts);
    EqualInitialsExtraSymmetricReflexive(props.initialsExtra, props.initialsExtra);
    EqualStructureIsEquality(props.structure, props.structure);
  }

  /** A change of the parts alone is pushed with `setParts` and reported;
      nothing is reconfigured. */
  lemma DidUpdatePartsOnly(cache: Settings, previous: PropsValue, parts: Option<Parts>, rejects: Call -> bool)
    requires parts != previous.parts
    ensures var o := DidUpdate(cache, previous, previous.(parts := parts), rejects);
      && o.cache == cache.(parts := parts)
      && o.effects == SetterEffects(SetParts(parts), OnUpdateParts(parts), rejects)
      && o.structure == previous.structure
  {
    EqualPartsIsEquality(previous.parts, parts);
    EqualInitialsExtraSymmetricReflexive(previous.initialsExtra, previous.initialsExtra);
    EqualStructureIsEquality(previous.structure, previous.structure);
  }

  /** Switching the model with everything else unchanged (no structure in
      use) reconfigures once, without parts and with empty initials. */
  lemma DidUpdateModelSwitch(cache: Settings, previous: PropsValue, model: Option<string>, rejects: Call -> bool)
    requires model != previous.model
    requires previous.structure.None? && cache.structure.None?
    requires previous.initials != Some("") && previous.initialsExtra != Some(map[])
    ensures var o := DidUpdate(cache, previous, previous.(model := model), rejects);
      && o.cache == cache
      && o.structure == None
      && o.effects == ConfigEffects(cache, OptionsArgs(previous, previous.(model := model)), rejects)
      && o.effects[0] == Engine(Config(cache.brand, model,
                                       Discrete(cache.version, None, NormalizeCurrency(cache.currency))))
      && ResolveArgs(OptionsArgs(previous, previous.(model := model)), cache).initials == Some("")
  {
    var props := previous.(model := model);
    EqualPartsSymmetricReflexive(previous.parts, previous.parts);
    EqualInitialsExtraSymmetricReflexive(previous.initialsExtra, previous.initialsExtra);
    assert ShouldReset(ConfigView(props), ConfigView(previous));
    ResetClearsCustomization(previous, props, cache);
  }

  /** The parts-event drop check, as corrected: equal to the cached parts. */
  predicate DropPartsEvent(parts: Option<Parts>, cached: Option<Parts>) {
    EqualParts(parts, cached)
  }

  /** The parts-event drop check as written: `this.partsData` is an instance
      property nothing assigns, so the comparison is against `undefined`. */
  predicate DropPartsEventAsWritten(parts: Option<Parts>) {
    EqualParts(parts, None)
  }

  /** The echo of the component's own `setParts` is dropped by the corrected
      check and never by the check as written. */
  lemma PartsEchoDropped(parts: Parts)
    ensures DropPartsEvent(Some(parts), Some(parts))
    ensures !DropPartsEventAsWritten(Some(parts))
  {
    EqualPartsSymmetricReflexive(Some(parts), Some(parts));
  }

  class Logic {
    var ripePresent: bool
    var configData: bool
    var configuring: bool
    var brandData: Option<string>
    var modelData: Option<string>
    var versionData: Option<int>
    var partsData: Option<Parts>
    var currencyData: Option<string>
    var initialsData: Option<string>
    var engravingData: Option<string>
    var initialsExtraData: Option<InitialsExtra>
    var structureData: Option<Structure>
    /** Engine calls and outward callbacks, oldest first. */
    var trace: seq<Effect>

    function Cache(): Settings
      reads this
    {
      Settings(brandData, modelData, versionData, partsData, currencyData,
               initialsData, engravingData, initialsExtraData, structureData)
    }

    /** A component with an engine handle when `ripe` holds, nothing cached. */
    constructor(ripe: bool)
      ensures ripePresent == ripe && !configData && !configuring
      ensures Cache() == Settings(None, None, None, None, None, None, None, None, None)
      ensures trace == []
    {
      ripePresent, configData, configuring := ripe, false, false;
      brandData, modelData, versionData, partsData, currencyData := None, None, None, None, None;
      initialsData, engravingData, initialsExtraData, structureData := None, None, None, None;
      trace := [];
    }

    /** `configRipe`: resolves omitted arguments against the cache, makes one
      `config` call and the personalization calls, and clears `configuring`
      and calls `onConfigured` whether or not the engine rejected. */
    method ConfigRipe(args: Args, rejects: Call -> bool) returns (ok: bool)
      modifies this
      ensures Cache() == old(Cache())
      ensures ripePresent == old(ripePresent) && configData == old(configData) && !configuring
      ensures trace == old(trace) + ConfigEffects(old(Cache()), args, rejects)
      ensures ok == ConfigSucceeds(ResolveArgs(args, old(Cache())), rejects)
    {
      ghost var q := ResolveArgs(args, Cache());
      ghost var trace0 := trace;
      configuring := true;

      var brand := Resolve(args.brand, brandData);
      var model := Resolve(args.model, modelData);
      var version := Resolve(args.version, versionData);
      var parts := Resolve(args.parts, partsData);
      var currency := Resolve(args.currency, currencyData);
      var initials := Resolve(args.initials, initialsData);
      var engraving := Resolve(args.engraving, engravingData);
      var initialsExtra := Resolve(args.initialsExtra, initialsExtraData);
      var structure := Resolve(args.structure, structureData);

      var currencyOut := if TruthyString(currency) then Some(Upper(currency.value)) else None;
      var config;
      if structure.Some? {
        config := Config(structure.value.brand, structure.value.model, Spread(structure.value, currencyOut));
      } else {
        config := Config(brand, model, Discrete(version, parts, currencyOut));
      }
      trace := trace + [Engine(config)];
      ok := !rejects(config);
      if ok && structure.Some? {
        initials := structure.value.initials;
        engraving := structure.value.engraving;
        initialsExtra := structure.value.initialsExtra;
      }
      if ok && TruthyString(initials) {
        var call := SetInitials(initials, engraving);
        trace := trace + [Engine(call)];
        ok := !rejects(call);
      }
      if ok && initialsExtra.Some? {
        var call := SetInitialsExtra(initialsExtra);
        trace := trace + [Engine(call)];
        ok := !rejects(call);
      }

      configuring := false;
      trace := trace + [Notify(OnConfigured)];
      assert trace == trace0 + Engines(ConfigCalls(q, rejects)) + [Notify(OnConfigured)];
    }

    /** `_updateParts`: caches the parts, then `setParts` and `onUpdateParts`. */
    method UpdateParts(parts: Option<Parts>, rejects: Call -> bool)
      modifies this
      ensures Cache() == old(Cache()).(parts := parts)
      ensures ripePresent == old(ripePresent) && configData == old(configData) && configuring == old(configuring)
      ensures trace == old(trace) + SetterEffects(SetParts(parts), OnUpdateParts(parts), rejects)
    {
      partsData := parts;
      trace := trace + [Engine(SetParts(parts))];
      if !rejects(SetParts(parts)) {
        trace := trace + [Notify(OnUpdateParts(parts))];
      }
    }

    /** `_updateInitials`: caches the initials and sends them with the cached engraving. */
    method UpdateInitials(initials: Option<string>, rejects: Call -> bool)
      modifies this
      ensures Cache() == old(Cache()).(initials := initials)
      ensures ripePresent == old(ripePresent) && configData == old(configData) && configuring == old(configuring)
      ensures trace == old(trace) + SetterEffects(SetInitials(initials, old(engravingData)), OnUpdateInitials(initials), rejects)
    {
      initialsData := initials;
      var call := SetInitials(initials, engravingData);
      trace := trace + [Engine(call)];
      if !rejects(call) {
        trace := trace + [Notify(OnUpdateInitials(initials))];
      }
    }

    /** `_updateEngraving`: caches the engraving and sends it with the cached initials. */
    method UpdateEngraving(engraving: Option<string>, rejects: Call -> bool)
      modifies this
      ensures Cache() == old(Cache()).(engraving := engraving)
      ensures ripePresent == old(ripePresent) && configData == old(configData) && configuring == old(configuring)
      ensures trace == old(trace) + SetterEffects(SetInitials(old(initialsData), engraving), OnUpdateEngraving(engraving), rejects)
    {
      engravingData := engraving;
      var call := SetInitials(initialsData, engraving);
      trace := trace + [Engine(call)];
      if !rejects(call) {
        trace := trace + [Notify(OnUpdateEngraving(engraving))];
      }
    }

    /** `_updateInitialsExtra`: caches the initials extra and sends it. */
    method UpdateInitialsExtra(initialsExtra: Option<InitialsExtra>, rejects: Call -> bool)
      modifies this
      ensures Cache() == old(Cache()).(initialsExtra := initialsExtra)
      ensures ripePresent == old(ripePresent) && configData == old(configData) && configuring == old(configuring)
      ensures trace == old(trace) + SetterEffects(SetInitialsExtra(initialsExtra), OnUpdateInitialsExtra(initialsExtra), rejects)
    {
      initialsExtraData := initialsExtra;
      var call := SetInitialsExtra(initialsExtraData);
      trace := trace + [Engine(call)];
      if !rejects(call) {
        trace := trace + [Notify(OnUpdateInitialsExtra(initialsExtra))];
      }
    }

    /** `_updateConfigOptions`: reconfigures with the changed discrete fields,
      clearing parts and personalization when `shouldReset` holds. */
    method UpdateConfigOptions(previous: LiveProps, props: LiveProps, rejects: Call -> bool) returns (ok: bool)
      modifies this
      ensures Cache() == old(Cache())
      ensures ripePresent == old(ripePresent) && configData == old(configData)
      ensures if old(ripePresent) && old(configData)
        then !configuring && trace == old(trace) + ConfigEffects(old(Cache()), OptionsArgs(previous, props), rejects)
             && ok == ConfigSucceeds(ResolveArgs(OptionsArgs(previous, props), old(Cache())), rejects)
        else configuring == old(configuring) && trace == old(trace) && ok
    {
      if !ripePresent || !configData {
        return true;
      }
      var parts, initials, engraving, initialsExtra := props.parts, props.initials, props.engraving, props.initialsExtra;
      if ShouldReset(ConfigView(props), ConfigView(previous)) {
        parts := None;
        initials := Some("");
        engraving := None;
        initialsExtra := Some(map[]);
      }
      var args := Args(
        if props.brand != previous.brand then Explicit(props.brand) else Undefined,
        if props.model != previous.model then Explicit(props.model) else Undefined,
        if props.version != previous.version then Explicit(props.version) else Undefined,
        Explicit(parts),
        if props.currency != previous.currency then Explicit(props.currency) else Undefined,
        if initials != previous.initials then Explicit(initials) else Undefined,
        if engraving != previous.engraving then Explicit(engraving) else Undefined,
        if !EqualInitialsExtra(initialsExtra, previous.initialsExtra) then Explicit(initialsExtra) else Undefined,
        Undefined);
      assert args == OptionsArgs(previous, props);
      ok := ConfigRipe(args, rejects);
    }

    /** `_updateConfigOptionsStructure`: edits the structure property in place
      and reconfigures with it and/or the currency when they changed; a
      `null` previous structure makes `shouldReset` throw. */
    method UpdateConfigOptionsStructure(previous: LiveProps, props: LiveProps, rejects: Call -> bool)
      returns (ok: bool)
      modifies this, props.structure
      ensures Cache() == old(Cache())
      ensures ripePresent == old(ripePresent) && configData == old(configData)
      ensures
        var plan := StructureUpdate(old(Snapshot(previous)), old(Snapshot(props)), old(structureData));
        if !old(ripePresent) || !old(configData) || plan.Skip? then
          configuring == old(configuring) && trace == old(trace) && ok
          && ValueOf(props.structure) == old(ValueOf(props.structure))
        else if plan.Crash? then
          configuring == old(configuring) && trace == old(trace) && !ok
          && ValueOf(props.structure) == old(ValueOf(props.structure))
        else
          !configuring && trace == old(trace) + ConfigEffects(old(Cache()), plan.args, rejects)
          && ok == ConfigSucceeds(ResolveArgs(plan.args, old(Cache())), rejects)
          && ValueOf(props.structure) == Some(plan.edited)
    {
      ghost var plan := StructureUpdate(Snapshot(previous), Snapshot(props), structureData);
      if !ripePresent || !configData || props.structure == null {
        return true;
      }
      var structure := props.structure;
      var previousStructure := previous.structure;
      var equalStructure :=
        EqualStructure(Some(structure.Value()), structureData) || EqualStructure(Some(structure.Value()), ValueOf(previousStructure));
      var equalCurrency := props.currency == previous.currency;
      if equalCurrency && equalStructure {
        return true;
      }
      if previousStructure == null {
        // `previous.brand` on `null` inside `shouldReset`
        return false;
      }
      ghost var p := previousStructure.Value();
      if ShouldReset(StructureView(structure.Value()), StructureView(previousStructure.Value())) {
        structure.parts := None;
        structure.initials := Some("");
        structure.engraving := None;
        structure.initialsExtra := Some(map[]);
      }
      assert previousStructure.Value() == p by {
        if previousStructure == structure {
          NoResetWithoutIdentityChange(StructureView(p), StructureView(p));
        }
      }
      var equalInitialsEngraving :=
        structure.initials == previousStructure.initials && structure.engraving == previousStructure.engraving;
      var equalInitialsExtra := EqualInitialsExtra(structure.initialsExtra, previousStructure.initialsExtra);
      if equalInitialsExtra && !equalInitialsEngraving {
        structure.initialsExtra := None;
      }
      assert structure.Value() == plan.edited;
      var args := NoArgs.(
        structure := if !equalStructure then Defined(structure.Value()) else Undefined,
        currency := if !equalCurrency then Explicit(props.currency) else Undefined);
      ok := ConfigRipe(args, rejects);
    }

    /** The four setter calls at the head of `_componentDidUpdate`. */
    method CustomizationSetters(previous: LiveProps, props: LiveProps, rejects: Call -> bool)
      modifies this
      ensures ripePresent == old(ripePresent) && configData == old(configData) && configuring == old(configuring)
      ensures Stage(Cache(), trace) == Setters(Stage(old(Cache()), old(trace)), ChangesOf(previous), ChangesOf(props), rejects)
    {
      ghost var prev := ChangesOf(previous);
      ghost var next := ChangesOf(props);
      ghost var stage := Stage(Cache(), trace);

      if !EqualParts(previous.parts, props.parts) {
        UpdateParts(props.parts, rejects);
      }
      stage := PartsStep(stage, prev, next, rejects);
      assert Stage(Cache(), trace) == stage;
      if previous.initials != props.initials {
        UpdateInitials(props.initials, rejects);
      }
      stage := InitialsStep(stage, prev, next, rejects);
      assert Stage(Cache(), trace) == stage;
      if previous.engraving != props.engraving {
        UpdateEngraving(props.engraving, rejects);
      }
      stage := EngravingStep(stage, prev, next, rejects);
      assert Stage(Cache(), trace) == stage;
      if !EqualInitialsExtra(previous.initialsExtra, props.initialsExtra) {
        UpdateInitialsExtra(props.initialsExtra, rejects);
      }
      stage := ExtraStep(stage, prev, next, rejects);
    }

    /** `_componentDidUpdate`: nothing without an engine, outside config mode
      or while configuring; otherwise the setters for changed parts and
      personalization, then the structure and the discrete reconfiguration. */
    method ComponentDidUpdate(previous: LiveProps, props: LiveProps, rejects: Call -> bool)
      modifies this, props.structure
      ensures ripePresent == old(ripePresent) && configData == old(configData) && configuring == old(configuring)
      ensures
        if DidUpdateRuns(old(ripePresent), old(configData), old(configuring)) then
          var o := DidUpdate(old(Cache()), old(Snapshot(previous)), old(Snapshot(props)), rejects);
          Cache() == o.cache && trace == old(trace) + o.effects && ValueOf(props.structure) == o.structure
        else
          Cache() == old(Cache()) && trace == old(trace) && ValueOf(props.structure) == old(ValueOf(props.structure))
    {
      if !ripePresent || !configData || configuring {
        return;
      }
      ghost var prev := Snapshot(previous);
      ghost var next := Snapshot(props);
      ghost var trace0 := trace;
      ghost var cache0 := Cache();
      CustomizationSetters(previous, props, rejects);
      ghost var stage := Setters(Stage(cache0, []), ChangesOf(prev), ChangesOf(next), rejects);
      SettersAppend(cache0, trace0, ChangesOf(prev), ChangesOf(next), rejects);
      assert Cache() == stage.cache && trace == trace0 + stage.effects;
      ghost var trace4 := trace;
      ghost var structureStep :=
        if !EqualConfigOptionsStructure(prev, next) then StructureEffects(stage.cache, prev, next, rejects)
        else (next.structure, []);
      var ok;
      if !EqualConfigOptionsStructure(Snapshot(previous), Snapshot(props)) {
        ok := UpdateConfigOptionsStructure(previous, props, rejects);
      }
      assert Cache() == stage.cache && trace == trace4 + structureStep.1 && ValueOf(props.structure) == structureStep.0;
      ghost var trace5 := trace;
      assert OptionsArgs(previous, props) == OptionsArgs(prev, next);
      if !EqualConfigOptions(previous, props) {
        ok := UpdateConfigOptions(previous, props, rejects);
      }
      ghost var reconfigure :=
        if !EqualConfigOptions(prev, next) then ConfigEffects(stage.cache, OptionsArgs(prev, next), rejects) else [];
      assert trace == trace5 + reconfigure;
      ghost var o := DidUpdate(cache0, prev, next, rejects);
      assert o.effects == stage.effects + structureStep.1 + reconfigure;
      AppendThree(trace0, stage.effects, structureStep.1, reconfigure);
    }

    /** `_copyRipeData`, run on `pre_config` and `post_config` and by a
      component that does not configure: with a structure property only the
      structure and currency are copied, otherwise every discrete field;
      each is reported. */
    method CopyRipeData(props: LiveProps, engine: EngineState)
      modifies this
      ensures ripePresent == old(ripePresent) && configData == old(configData) && configuring == old(configuring)
      ensures props.structure != null ==>
        && Cache() == old(Cache()).(structure := Some(engine.structure), currency := engine.currency)
        && trace == old(trace) + [Notify(OnUpdateStructure(engine.structure)), Notify(OnUpdateCurrency(engine.currency))]
      ensures props.structure == null ==>
        && Cache() == Settings(engine.brand, engine.model, engine.version, engine.parts, engine.currency,
                               engine.initials, engine.engraving, engine.initialsExtra, old(structureData))
        && trace == old(trace) + [
             Notify(OnUpdateBrand(engine.brand)), Notify(OnUpdateModel(engine.model)),
             Notify(OnUpdateVersion(engine.version)), Notify(OnUpdateParts(engine.parts)),
             Notify(OnUpdateInitials(engine.initials)), Notify(OnUpdateEngraving(engine.engraving)),
             Notify(OnUpdateInitialsExtra(engine.initialsExtra)), Notify(OnUpdateCurrency(engine.currency))]
    {
      if props.structure != null {
        structureData := Some(engine.structure);
        currencyData := engine.currency;
        trace := trace + [Notify(OnUpdateStructure(engine.structure)), Notify(OnUpdateCurrency(engine.currency))];
      } else {
        brandData, modelData, versionData := engine.brand, engine.model, engine.version;
        partsData, initialsData, engravingData := engine.parts, engine.initials, engine.engraving;
        initialsExtraData, currencyData := engine.initialsExtra, engine.currency;
        trace := trace + [
          Notify(OnUpdateBrand(brandData)), Notify(OnUpdateModel(modelData)),
          Notify(OnUpdateVersion(versionData)), Notify(OnUpdateParts(partsData)),
          Notify(OnUpdateInitials(initialsData)), Notify(OnUpdateEngraving(engravingData)),
          Notify(OnUpdateInitialsExtra(initialsExtraData)), Notify(OnUpdateCurrency(currencyData))];
      }
    }

    /** `setupRipe`: decides whether to configure, creates the engine when
      there is none, sets the process-wide engine when unset, then either
      configures from the properties or copies the engine's state. */
    method SetupRipe(props: LiveProps, globalRipe: bool, engine: EngineState, rejects: Call -> bool)
      returns (globalAfter: bool, ok: bool)
      modifies this
      ensures configData == ShouldConfigure(props.config, old(ripePresent), globalRipe)
      ensures ripePresent && globalAfter
      ensures configData ==>
        && Cache() == old(Cache())
        && trace == old(trace) + ConfigEffects(old(Cache()), SetupArgs(old(Snapshot(props))), rejects)
        && ok == ConfigSucceeds(ResolveArgs(SetupArgs(old(Snapshot(props))), old(Cache())), rejects)
        && !configuring
      ensures !configData ==> ok && configuring == old(configuring)
      ensures !configData && props.structure != null ==>
        && Cache() == old(Cache()).(structure := Some(engine.structure), currency := engine.currency)
        && trace == old(trace) + [Notify(OnUpdateStructure(engine.structure)), Notify(OnUpdateCurrency(engine.currency))]
      ensures !configData && props.structure == null ==>
        && Cache() == Settings(engine.brand, engine.model, engine.version, engine.parts, engine.currency,
                               engine.initials, engine.engraving, engine.initialsExtra, old(structureData))
        && trace == old(trace) + [
             Notify(OnUpdateBrand(engine.brand)), Notify(OnUpdateModel(engine.model)),
             Notify(OnUpdateVersion(engine.version)), Notify(OnUpdateParts(engine.parts)),
             Notify(OnUpdateInitials(engine.initials)), Notify(OnUpdateEngraving(engine.engraving)),
             Notify(OnUpdateInitialsExtra(engine.initialsExtra)), Notify(OnUpdateCurrency(engine.currency))]
    {
      configData := ShouldConfigure(props.config, ripePresent, globalRipe);
      if !ripePresent {
        ripePresent := true;
      }
      globalAfter := true;
      if configData {
        ok := ConfigRipe(SetupArgs(Snapshot(props)), rejects);
      } else {
        CopyRipeData(props, engine);
        ok := true;
      }
    }

    /** The `parts` event handler with the drop check and the structure test
      read from the component state. */
    method OnParts(parts: Option<Parts>, engine: EngineState)
      modifies this
      ensures ripePresent == old(ripePresent) && configData == old(configData) && configuring == old(configuring)
      ensures DropPartsEvent(parts, old(partsData)) ==> Cache() == old(Cache()) && trace == old(trace)
      ensures !DropPartsEvent(parts, old(partsData)) && old(structureData).Some? ==>
        Cache() == old(Cache()).(structure := Some(engine.structure))
        && trace == old(trace) + [Notify(OnUpdateStructure(engine.structure))]
      ensures !DropPartsEvent(parts, old(partsData)) && old(structureData).None? ==>
        Cache() == old(Cache()).(parts := engine.parts)
        && trace == old(trace) + [Notify(OnUpdateParts(parts))]
    {
      if DropPartsEvent(parts, partsData) {
        return;
      }
      if structureData.Some? {
        structureData := Some(engine.structure);
        trace := trace + [Notify(OnUpdateStructure(engine.structure))];
      } else {
        partsData := engine.parts;
        trace := trace + [Notify(OnUpdateParts(parts))];
      }
    }

    /** The `parts` event handler as written: it reads `this.partsData` and
      `this.structureData`, instance properties nothing assigns, so only a
      `null` event is dropped and the discrete branch is always taken. */
    method OnPartsAsWritten(parts: Option<Parts>, engine: EngineState)
      modifies this
      ensures ripePresent == old(ripePresent) && configData == old(configData) && configuring == old(configuring)
      ensures parts.None? ==> Cache() == old(Cache()) && trace == old(trace)
      ensures parts.Some? ==>
        Cache() == old(Cache()).(parts := engine.parts)
        && trace == old(trace) + [Notify(OnUpdateParts(parts))]
    {
      if DropPartsEventAsWritten(parts) {
        return;
      }
      partsData := engine.parts;
      trace := trace + [Notify(OnUpdateParts(parts))];
    }

    /** The `initials` event handler: dropped when both values are the cached ones. */
    method OnInitials(initials: Option<string>, engraving: Option<string>, engine: EngineState)
      modifies this
      ensures ripePresent == old(ripePresent) && configData == old(configData) && configuring == old(configuring)
      ensures initials == old(initialsData) && engraving == old(engravingData) ==>
        Cache() == old(Cache()) && trace == old(trace)
      ensures !(initials == old(initialsData) && engraving == old(engravingData)) && old(structureData).Some? ==>
        Cache() == old(Cache()).(structure := Some(engine.structure))
        && trace == old(trace) + [Notify(OnUpdateStructure(engine.structure))]
      ensures !(initials == old(initialsData) && engraving == old(engravingData)) && old(structureData).None? ==>
        Cache() == old(Cache()).(initials := engine.initials, engraving := engine.engraving)
        && trace == old(trace) + [Notify(OnUpdateInitials(engine.initials)), Notify(OnUpdateEngraving(engine.engraving))]
    {
      if initials == initialsData && engraving == engravingData {
        return;
      }
      if structureData.Some? {
        structureData := Some(engine.structure);
        trace := trace + [Notify(OnUpdateStructure(engine.structure))];
      } else {
        initialsData, engravingData := engine.initials, engine.engraving;
        trace := trace + [Notify(OnUpdateInitials(engine.initials)), Notify(OnUpdateEngraving(engine.engraving))];
      }
    }

    /** The `initials_extra` event handler: dropped when equal to the cache. */
    method OnInitialsExtra(initialsExtra: Option<InitialsExtra>, engine: EngineState)
      modifies this
      ensures ripePresent == old(ripePresent) && configData == old(configData) && configuring == old(configuring)
      ensures EqualInitialsExtra(initialsExtra, old(initialsExtraData)) ==>
        Cache() == old(Cache()) && trace == old(trace)
      ensures !EqualInitialsExtra(initialsExtra, old(initialsExtraData)) && old(structureData).Some? ==>
        Cache() == old(Cache()).(structure := Some(engine.structure))
        && trace == old(trace) + [Notify(OnUpdateStructure(engine.structure))]
      ensures !EqualInitialsExtra(initialsExtra, old(initialsExtraData)) && old(structureData).None? ==>
        Cache() == old(Cache()).(initialsExtra := engine.initialsExtra)
        && trace == old(trace) + [Notify(OnUpdateInitialsExtra(engine.initialsExtra))]
    {
      if EqualInitialsExtra(initialsExtra, initialsExtraData) {
        return;
      }
      if structureData.Some? {
        structureData := Some(engine.structure);
        trace := trace + [Notify(OnUpdateStructure(engine.structure))];
      } else {
        initialsExtraData := engine.initialsExtra;
        trace := trace + [Notify(OnUpdateInitialsExtra(engine.initialsExtra))];
      }
    }
  }
}
