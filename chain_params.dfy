/**
 * `normalizeChainRouteParams` of the three `chainRoute` generations: the four argument shapes
 * (a bare route; a config whose `beforeOpen` is an effect, an `{effect, mapParams}` object or
 * another unit) become one record `{chainedRoute, beforeOpen, openOn, cancelOn}`.
 */
module ChainParams {
  import opened Wrappers

  /** A clock the chain listens to, as built by the normaliser. */
  datatype Unit =
    | UserEvent(id: nat)      // an event or store supplied by the caller
    | UserEffect(id: nat)     // an effect supplied by the caller
    | Attached(effect: nat)   // `attach({effect, mapParams})`: a new effect over the caller's effect
    | NoopEffect              // `createEffect(() => {})`
    | NewEvent                // `createEvent()`: nobody else holds it
    | SourceOpened            // `route.opened`
    | SourceClosed            // `route.closed`
    | DoneData(of: Unit)
    | FailData(of: Unit)
    | Merged(units: seq<Unit>)
    | Sampled(clock: Unit)    // `sample({clock})`

  /** Something that can happen at run time. */
  datatype Occurrence =
    | Called(id: nat)         // the caller's unit `id` fires
    | EffectDone(id: nat)
    | EffectFailed(id: nat)
    | AttachedDone(id: nat)   // the attached effect over effect `id` settles
    | AttachedFailed(id: nat)
    | NoopDone
    | RouteOpened
    | RouteClosed

  /** Whether clock `u` fires on occurrence `o`. */
  predicate Fires(u: Unit, o: Occurrence)
  {
    match u
    case UserEvent(id) => o == Called(id)
    case UserEffect(id) => o == Called(id)
    case Attached(_) => false
    case NoopEffect => false
    case NewEvent => false
    case SourceOpened => o == RouteOpened
    case SourceClosed => o == RouteClosed
    case DoneData(of) =>
      (of.UserEffect? && o == EffectDone(of.id)) || (of.Attached? && o == AttachedDone(of.effect)) || (of.NoopEffect? && o == NoopDone)
    case FailData(of) =>
      (of.UserEffect? && o == EffectFailed(of.id)) || (of.Attached? && o == AttachedFailed(of.effect))
    case Merged(us) => exists i :: 0 <= i < |us| && Fires(us[i], o)
    case Sampled(c) => Fires(c, o)
  }

  predicate IsEffect(u: Unit)
  {
    u.UserEffect? || u.Attached? || u.NoopEffect?
  }

  /** `beforeOpen` as the caller passes it. */
  datatype BeforeOpenArg =
    | EffectArg(id: nat)      // an effect
    | EventArg(id: nat)       // any other unit
    | AttachArg(effect: nat)  // `{effect, mapParams}`, not a unit

  /** The argument of `chainRoute`; `hasEnterOnKey` says whether the config object has an `enterOn` key. */
  datatype ChainArgs =
    | BareRoute
    | Config(chainedRoute: Option<nat>, beforeOpen: BeforeOpenArg, openOn: Option<nat>, cancelOn: Option<nat>, hasEnterOnKey: bool)

  /** Where the chained route comes from. */
  datatype ChainedRoute = Supplied(id: nat) | NewRoute | NewVirtualRoute | NewLegacyRoute

  /** The normalised `beforeOpen`: a unit, or (in the earliest generation) the `{effect, mapParams}` object itself. */
  datatype BeforeOpen = BeforeOpenUnit(unit: Unit) | NotAUnit(effect: nat)

  datatype Normalized = Normalized(chainedRoute: ChainedRoute, beforeOpen: BeforeOpen, openOn: Unit, cancelOn: Unit)

  /** `sample({clock: undefined})` throws when the advanced form omits `openOn`. */
  const MissingClock: string := "sample: clock should be a unit"

  function UserClock(id: Option<nat>): Option<Unit>
  {
    if id.Some? then Some(UserEvent(id.value)) else None
  }

  function BeforeOpenUnitOf(b: BeforeOpenArg): Unit
  {
    match b
    case EffectArg(id) => UserEffect(id)
    case EventArg(id) => UserEvent(id)
    case AttachArg(e) => Attached(e)
  }

  /**
   * The event form shared by the two later generations: `openOn` and `cancelOn` are re-sampled,
   * a missing `cancelOn` being a new event nobody fires.
   */
  function AdvancedClocks(openOn: Option<nat>, cancelOn: Option<nat>): Result<(Unit, Unit)>
  {
    if openOn.None? then Err(MissingClock)
    else Ok((Sampled(UserEvent(openOn.value)), Sampled(UserClock(cancelOn).GetOr(NewEvent))))
  }

  /**
   * The config forms shared by the two later generations: `beforeOpen` is kept when it is a unit
   * and attached otherwise; an effect defaults `openOn` to its `doneData` and `cancelOn` to its
   * `failData`, explicit clocks winning; any other unit takes the event form.
   */
  function NormalizeConfig(chained: ChainedRoute, b: BeforeOpenArg, openOn: Option<nat>, cancelOn: Option<nat>): Result<Normalized>
  {
    var before := BeforeOpenUnitOf(b);
    if IsEffect(before) then
      Ok(Normalized(chained, BeforeOpenUnit(before), UserClock(openOn).GetOr(DoneData(before)), UserClock(cancelOn).GetOr(FailData(before))))
    else
      match AdvancedClocks(openOn, cancelOn)
      case Err(e) => Err(e)
      case Ok((o, c)) => Ok(Normalized(chained, BeforeOpenUnit(before), o, c))
  }

  /** The `methods` generation. */
  function NormalizeMethods(a: ChainArgs): (r: Result<Normalized>)
    ensures a.BareRoute? ==> r == Ok(Normalized(NewRoute, BeforeOpenUnit(NewEvent), Merged([SourceOpened, SourceClosed]), Merged([NewEvent])))
    ensures a.Config? && a.beforeOpen.AttachArg? ==> r.Ok? && r.value.beforeOpen == BeforeOpenUnit(Attached(a.beforeOpen.effect))
  {
    match a
    case BareRoute => Ok(Normalized(NewRoute, BeforeOpenUnit(NewEvent), Merged([SourceOpened, SourceClosed]), Merged([NewEvent])))
    case Config(c, b, o, x, _) =>
      NormalizeConfig(if c.Some? then Supplied(c.value) else NewRoute, b, o, x)
  }

  /** The `operators` generation: the bare form runs a no-op effect, and created chained routes are virtual. */
  function NormalizeOperators(a: ChainArgs): (r: Result<Normalized>)
    ensures a.BareRoute? ==> r == Ok(Normalized(NewVirtualRoute, BeforeOpenUnit(NoopEffect), DoneData(NoopEffect), Merged([NewEvent])))
    ensures a.Config? && a.chainedRoute.None? && r.Ok? ==> r.value.chainedRoute == NewVirtualRoute
  {
    match a
    case BareRoute => Ok(Normalized(NewVirtualRoute, BeforeOpenUnit(NoopEffect), DoneData(NoopEffect), Merged([NewEvent])))
    case Config(c, b, o, x, _) =>
      NormalizeConfig(if c.Some? then Supplied(c.value) else NewVirtualRoute, b, o, x)
  }

  /**
   * The earliest generation: an effect `beforeOpen` (with no `enterOn` key) always gets its own
   * `doneData`/`failData`, discarding explicit clocks; everything else, the `{effect, mapParams}`
   * object included, is used verbatim with the event form.
   */
  function NormalizeUtils(a: ChainArgs): (r: Result<Normalized>)
    ensures a.BareRoute? ==> r == Ok(Normalized(NewLegacyRoute, BeforeOpenUnit(NewEvent), Merged([SourceOpened, SourceClosed]), Merged([NewEvent])))
  {
    match a
    case BareRoute => Ok(Normalized(NewLegacyRoute, BeforeOpenUnit(NewEvent), Merged([SourceOpened, SourceClosed]), Merged([NewEvent])))
    case Config(c, b, o, x, enterOn) =>
      var chained := if c.Some? then Supplied(c.value) else NewLegacyRoute;
      if !enterOn && b.EffectArg? then
        Ok(Normalized(chained, BeforeOpenUnit(UserEffect(b.id)), DoneData(UserEffect(b.id)), FailData(UserEffect(b.id))))
      else
        var before := if b.AttachArg? then NotAUnit(b.effect) else BeforeOpenUnit(BeforeOpenUnitOf(b));
        match AdvancedClocks(o, x)
        case Err(e) => Err(e)
        case Ok((op, cn)) => Ok(Normalized(chained, before, op, cn))
  }

  /** In every bare-route form the cancel clock can never fire. */
  lemma BareCancelNeverFires(o: Occurrence)
    ensures !Fires(NormalizeMethods(BareRoute).value.cancelOn, o)
    ensures !Fires(NormalizeOperators(BareRoute).value.cancelOn, o)
    ensures !Fires(NormalizeUtils(BareRoute).value.cancelOn, o)
  {
    assert !Fires(Merged([NewEvent]), o) by {
      assert forall i :: 0 <= i < |[NewEvent]| ==> [NewEvent][i] == NewEvent;
    }
  }

  /** The bare form of the `methods` and earliest generations opens on the source's `opened` and on its `closed`. */
  lemma BareOpenOnIsOpenedOrClosed(o: Occurrence)
    ensures Fires(NormalizeMethods(BareRoute).value.openOn, o) <==> o == RouteOpened || o == RouteClosed
    ensures Fires(NormalizeUtils(BareRoute).value.openOn, o) <==> o == RouteOpened || o == RouteClosed
  {
    var m := Merged([SourceOpened, SourceClosed]);
    assert Fires(m, o) <==> Fires(SourceOpened, o) || Fires(SourceClosed, o) by {
      assert m.units[0] == SourceOpened && m.units[1] == SourceClosed;
    }
  }

  /** The `operators` bare form opens when its no-op effect settles, and only then. */
  lemma OperatorsBareOpenOn(o: Occurrence)
    ensures Fires(NormalizeOperators(BareRoute).value.openOn, o) <==> o == NoopDone
  {
  }

  /**
   * An effect `beforeOpen` without explicit clocks: the chain opens exactly when the effect
   * succeeds and is cancelled exactly when it fails (both later generations).
   */
  lemma EffectDefaults(c: Option<nat>, id: nat, enterOn: bool, o: Occurrence)
    ensures var a := Config(c, EffectArg(id), None, None, enterOn);
            var m := NormalizeMethods(a);
            var p := NormalizeOperators(a);
            m.Ok? && p.Ok? &&
            (Fires(m.value.openOn, o) <==> o == EffectDone(id)) && (Fires(m.value.cancelOn, o) <==> o == EffectFailed(id)) &&
            (Fires(p.value.openOn, o) <==> o == EffectDone(id)) && (Fires(p.value.cancelOn, o) <==> o == EffectFailed(id))
  {
  }

  /** Explicit clocks win over the effect defaults in the two later generations. */
  lemma ExplicitClocksWin(c: Option<nat>, id: nat, openOn: nat, cancelOn: nat, enterOn: bool)
    ensures var a := Config(c, EffectArg(id), Some(openOn), Some(cancelOn), enterOn);
            NormalizeMethods(a).Ok? && NormalizeOperators(a).Ok? &&
            NormalizeMethods(a).value.openOn == UserEvent(openOn) && NormalizeMethods(a).value.cancelOn == UserEvent(cancelOn) &&
            NormalizeOperators(a).value.openOn == UserEvent(openOn) && NormalizeOperators(a).value.cancelOn == UserEvent(cancelOn)
  {
  }

  /** The `{effect, mapParams}` form is attached: the chain waits for the attached effect, not the caller's. */
  lemma AttachFormWaitsForAttachedEffect(c: Option<nat>, e: nat, o: Occurrence)
    ensures var m := NormalizeMethods(Config(c, AttachArg(e), None, None, false));
            m.Ok? && (Fires(m.value.openOn, o) <==> o == AttachedDone(e)) && (Fires(m.value.cancelOn, o) <==> o == AttachedFailed(e))
  {
  }

  /**
   * In the earliest generation an effect `beforeOpen` ignores explicit clocks: the caller's
   * `openOn` never opens the chain, only the effect's `doneData` does.
   */
  lemma UtilsIgnoresExplicitClocks(c: Option<nat>, id: nat, openOn: nat, cancelOn: nat)
    ensures var u := NormalizeUtils(Config(c, EffectArg(id), Some(openOn), Some(cancelOn), false));
            u.Ok? && !Fires(u.value.openOn, Called(openOn)) && Fires(u.value.openOn, EffectDone(id)) &&
            !Fires(u.value.cancelOn, Called(cancelOn))
  {
  }

  /** In the earliest generation the declared `{effect, mapParams}` shape is passed on untouched, not as a unit. */
  lemma UtilsAttachFormIsNotAUnit(c: Option<nat>, e: nat, openOn: nat, x: Option<nat>, enterOn: bool)
    ensures var u := NormalizeUtils(Config(c, AttachArg(e), Some(openOn), x, enterOn));
            u.Ok? && u.value.beforeOpen == NotAUnit(e) && u.value.openOn == Sampled(UserEvent(openOn))
  {
  }

  /** The event form needs an `openOn`: every generation fails without one, and a missing `cancelOn` never fires. */
  lemma EventFormClocks(c: Option<nat>, id: nat, openOn: Option<nat>, o: Occurrence)
    ensures var a := Config(c, EventArg(id), openOn, None, false);
            (openOn.None? <==> NormalizeMethods(a).Err?) &&
            (openOn.None? <==> NormalizeOperators(a).Err?) &&
            (openOn.None? <==> NormalizeUtils(a).Err?) &&
            (openOn.Some? ==> !Fires(NormalizeMethods(a).value.cancelOn, o) && !Fires(NormalizeUtils(a).value.cancelOn, o))
  {
  }
}
