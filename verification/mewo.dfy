/** Mewo, the virtual pet: a small state machine that yields a sprite widget on change. */
module Pet {
  import opened Wrappers
  import opened Widgets
  import Assets

  datatype MewoState = Sleep | Desk | Floor

  /** The enum's string value, which also names its sprite file. */
  function StateValue(s: MewoState): string
  {
    match s
    case Sleep => "sleep"
    case Desk => "desk"
    case Floor => "floor"
  }

  /** `list(MewoState)`, in declaration order: the pool `random` chooses from. */
  const ALL_STATES: seq<MewoState> := [Sleep, Desk, Floor]

  lemma AllStatesListsEachOnce(s: MewoState)
    ensures s in ALL_STATES
    ensures |ALL_STATES| == 3
    ensures forall i, j :: 0 <= i < j < |ALL_STATES| ==> ALL_STATES[i] != ALL_STATES[j]
  {
  }

  const MEWO_WIDGET: string := "mewo"

  function SpritePath(s: MewoState): string
  {
    "assets/mewo/" + StateValue(s) + ".bmp"
  }

  /** `_mewo_img`: the sprite for `state` as the "mewo" widget at height `z`. */
  function MewoImg(state: MewoState, z: int, store: Assets.Store): (r: Result<Widget>)
    ensures r.Ok? <==> SpritePath(state) in store
    ensures r.Ok? ==> r.value.name == MEWO_WIDGET && r.value.z == z
    ensures r.Ok? ==> r.value.bw == store[SpritePath(state)] && r.value.red == Blank()
    ensures r.Err? ==> r.error == ResourceMissing(SpritePath(state))
  {
    Assets.AssetWidget(store, SpritePath(state), MEWO_WIDGET, z)
  }

  /** The pet's fields; `state` is `None` until the first transition. */
  datatype Mewo = Mewo(z: int, state: Option<MewoState>, asleep: bool)

  /** `Mewo()` with its dataclass defaults. */
  const INITIAL: Mewo := Mewo(-99, None, false)

  /**
   * The pet after a transition, and what the transition returned: a widget,
   * nothing, or the exception raised while loading the sprite.
   */
  datatype Outcome = Outcome(pet: Mewo, emitted: Result<Option<Widget>>)

  /**
   * `sleep()`: an asleep pet does nothing; otherwise the pet goes to sleep, and a
   * sleep sprite is produced unless the pet was already showing it. The sprite is
   * loaded before any field is written, so a missing file leaves the pet unchanged.
   */
  function DoSleep(m: Mewo, store: Assets.Store): (o: Outcome)
    ensures m.asleep ==> o == Outcome(m, Ok(None))
    ensures o.emitted.Err? ==> o.pet == m && !m.asleep
    ensures !m.asleep && o.emitted.Ok? ==> o.pet == m.(state := Some(Sleep), asleep := true)
    ensures (o.emitted.Ok? && o.emitted.value.Some?) <==>
              (!m.asleep && m.state != Some(Sleep) && SpritePath(Sleep) in store)
    ensures o.emitted.Ok? && o.emitted.value.Some? ==>
              o.emitted.value.value == New(MEWO_WIDGET, m.z, Some(store[SpritePath(Sleep)]), None)
    ensures o.emitted.Err? <==> !m.asleep && m.state != Some(Sleep) && SpritePath(Sleep) !in store
    ensures o.emitted.Err? ==> o.emitted.error == ResourceMissing(SpritePath(Sleep))
  {
    if m.asleep then Outcome(m, Ok(None))
    else if m.state == Some(Sleep) then Outcome(m.(state := Some(Sleep), asleep := true), Ok(None))
    else match MewoImg(Sleep, m.z, store)
      case Err(e) => Outcome(m, Err(e))
      case Ok(w) => Outcome(m.(state := Some(Sleep), asleep := true), Ok(Some(w)))
  }

  /** `awake()`: clears the asleep flag and keeps the last state, so the sleep sprite stays on screen. */
  function DoAwake(m: Mewo): (r: Mewo)
    ensures !r.asleep
    ensures r.z == m.z && r.state == m.state
  {
    m.(asleep := false)
  }

  /**
   * `random()`, with `choice` standing for `random.choice(list(MewoState))`: an
   * awake pet moves to `choice` and shows its sprite; an asleep pet does nothing.
   * The state is written before the sprite is loaded, so it changes even if the file is missing.
   */
  function DoRandom(m: Mewo, choice: MewoState, store: Assets.Store): (o: Outcome)
    ensures m.asleep ==> o == Outcome(m, Ok(None))
    ensures !m.asleep ==> o.pet == m.(state := Some(choice))
    ensures !m.asleep ==> (o.emitted.Ok? <==> SpritePath(choice) in store)
    ensures !m.asleep && o.emitted.Ok? ==>
              o.emitted.value == Some(New(MEWO_WIDGET, m.z, Some(store[SpritePath(choice)]), None))
    ensures o.emitted.Err? ==> o.emitted.error == ResourceMissing(SpritePath(choice))
  {
    if m.asleep then Outcome(m, Ok(None))
    else
      var next := m.(state := Some(choice));
      match MewoImg(choice, m.z, store)
      case Err(e) => Outcome(next, Err(e))
      case Ok(w) => Outcome(next, Ok(Some(w)))
  }

  /** Every transition keeps the pet's `z`, and every widget it yields is "mewo" at that `z`. */
  lemma TransitionsKeepZ(m: Mewo, choice: MewoState, store: Assets.Store)
    ensures DoSleep(m, store).pet.z == m.z && DoRandom(m, choice, store).pet.z == m.z && DoAwake(m).z == m.z
    ensures var e := DoSleep(m, store).emitted;
      e.Ok? && e.value.Some? ==> e.value.value.name == MEWO_WIDGET && e.value.value.z == m.z
    ensures var e := DoRandom(m, choice, store).emitted;
      e.Ok? && e.value.Some? ==> e.value.value.name == MEWO_WIDGET && e.value.value.z == m.z
  {
  }

  /** Every reachable pet that is asleep is showing the sleep sprite. */
  predicate Consistent(m: Mewo)
  {
    m.asleep ==> m.state == Some(Sleep)
  }

  /** `Mewo()` is consistent, and every transition keeps it so. */
  lemma TransitionsPreserveConsistent(m: Mewo, choice: MewoState, store: Assets.Store)
    requires Consistent(m)
    ensures Consistent(INITIAL)
    ensures Consistent(DoSleep(m, store).pet)
    ensures Consistent(DoAwake(m))
    ensures Consistent(DoRandom(m, choice, store).pet)
  {
  }

  /** Sleeping twice is sleeping once, and the second call yields nothing. */
  lemma SleepIdempotent(m: Mewo, store: Assets.Store)
    requires SpritePath(Sleep) in store
    ensures var once := DoSleep(m, store).pet;
      DoSleep(once, store) == Outcome(once, Ok(None))
  {
  }

  /**
   * A night with no `random` firing in between: after waking, the next `sleep()`
   * puts the pet to sleep again without redrawing, since the sleep sprite is still shown.
   */
  lemma NightAfterQuietDay(m: Mewo, store: Assets.Store)
    requires Consistent(m)
    requires SpritePath(Sleep) in store
    ensures var slept := DoSleep(m, store).pet;
      var woke := DoAwake(slept);
      DoSleep(woke, store) == Outcome(slept, Ok(None))
  {
  }
}
