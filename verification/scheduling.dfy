/**
 * The jobs registered with the scheduler and what one firing of each does to the
 * pet and the queue. The timer engine that decides when a job fires is not modelled.
 */
module Scheduling {
  import opened Wrappers
  import opened Widgets
  import Assets
  import opened Pet
  import WeatherWidget
  import Seasons

  /** A time of day as passed to `datetime.time`. */
  datatype TimeOfDay = TimeOfDay(hour: int, minute: int, second: int)

  /** The scheduler calls used: `hourly`, `daily` and `once` (an absolute timestamp in seconds). */
  datatype Trigger = Hourly(at: TimeOfDay) | Daily(at: TimeOfDay) | Once(timestamp: int)

  /** The callbacks handed to the scheduler. */
  datatype Action =
    | MewoRandom              // draw_widget_maybe(queue, mewo.random())
    | MewoSleep               // draw_widget_maybe(queue, mewo.sleep())
    | MewoAwake               // mewo.awake()
    | DrawWeather             // draw_widget_maybe(queue, get_weather())
    | DrawNight               // draw_widget_maybe(queue, get_night())
    | RescheduleSunriseSunset // schedule_sunrise_sunset(...)

  datatype Job = Job(trigger: Trigger, action: Action)

  const BACKGROUND_WIDGET: string := "background"
  const BACKGROUND_PATH: string := "assets/background.bmp"
  const BACKGROUND_Z: int := -100
  const MEWO_Z: int := -99

  /** `timedelta(minutes=5)`, in seconds. */
  const RESCHEDULE_DELAY: int := 5 * 60

  /**
   * What a producer hands to `draw_widget_maybe`: nothing, a ready widget, or a
   * coroutine, given here by the outcome awaiting it would have.
   */
  datatype Produced = NoWidget | Ready(widget: Widget) | Pending(outcome: Result<Widget>)

  /**
   * `draw_widget_maybe`: `None` enqueues nothing, a widget is enqueued as is, and a
   * coroutine is awaited once and its widget enqueued; a coroutine that raises
   * enqueues nothing. The queue is only ever appended to.
   */
  function DrawWidgetMaybe(queue: seq<Widget>, p: Produced): (q: seq<Widget>)
    ensures |queue| <= |q| <= |queue| + 1 && q[..|queue|] == queue
    ensures p.NoWidget? ==> q == queue
    ensures p.Ready? ==> q == queue + [p.widget]
    ensures p.Pending? && p.outcome.Ok? ==> q == queue + [p.outcome.value]
    ensures p.Pending? && p.outcome.Err? ==> q == queue
  {
    match p
    case Ready(w) => queue + [w]
    case Pending(outcome) =>
      (match outcome
       case Ok(w) => queue + [w]
       case Err(_) => queue)
    case NoWidget => queue
  }

  /** `background`: the bundled background image as the lowest widget. */
  function Background(store: Assets.Store): (r: Result<Widget>)
    ensures r.Ok? <==> BACKGROUND_PATH in store
    ensures r.Ok? ==> r.value == New(BACKGROUND_WIDGET, BACKGROUND_Z, Some(store[BACKGROUND_PATH]), None)
    ensures r.Err? ==> r.error == ResourceMissing(BACKGROUND_PATH)
  {
    Assets.AssetWidget(store, BACKGROUND_PATH, BACKGROUND_WIDGET, BACKGROUND_Z)
  }

  /** The background sits below the pet, the weather icon and the tree. */
  lemma BackgroundIsLowest()
    ensures BACKGROUND_Z < MEWO_Z
    ensures BACKGROUND_Z < WeatherWidget.WEATHER_Z
    ensures BACKGROUND_Z < Seasons.BERT_Z
    ensures MEWO_Z == Pet.INITIAL.z
  {
  }

  const SLEEP_AT: TimeOfDay := TimeOfDay(21, 0, 0)
  const AWAKE_AT: TimeOfDay := TimeOfDay(7, 0, 0)

  /**
   * `schedule_mewo`, with `minute` standing for `randint(0, 59)`: a fresh pet at
   * z = -99, a random move every hour at that minute, sleep at 21:00 and waking at 07:00.
   */
  function ScheduleMewo(minute: int): (r: (Mewo, seq<Job>))
    requires 0 <= minute <= 59
    ensures r.0 == Mewo(MEWO_Z, None, false)
    ensures |r.1| == 3
    ensures forall j :: j in r.1 && j.trigger.Hourly? ==>
              j.action == MewoRandom && 0 <= j.trigger.at.minute <= 59 && j.trigger.at.second == 0
    ensures Job(Daily(TimeOfDay(21, 0, 0)), MewoSleep) in r.1
    ensures Job(Daily(TimeOfDay(7, 0, 0)), MewoAwake) in r.1
    ensures Job(Hourly(TimeOfDay(0, minute, 0)), MewoRandom) in r.1
  {
    (INITIAL,
     [Job(Hourly(TimeOfDay(0, minute, 0)), MewoRandom),
      Job(Daily(SLEEP_AT), MewoSleep),
      Job(Daily(AWAKE_AT), MewoAwake)])
  }

  /**
   * `schedule_sunrise_sunset`: the weather redraw at sunrise, the night overlay at
   * sunset, and itself again five minutes after the later of the two.
   */
  function ScheduleSunriseSunset(sunrise: int, sunset: int): (jobs: seq<Job>)
    ensures |jobs| == 3
    ensures Job(Once(sunrise), DrawWeather) in jobs
    ensures Job(Once(sunset), DrawNight) in jobs
    ensures exists t :: Job(Once(t), RescheduleSunriseSunset) in jobs
    ensures forall t :: Job(Once(t), RescheduleSunriseSunset) in jobs ==>
              t > sunrise && t > sunset &&
              t - RESCHEDULE_DELAY >= sunrise && t - RESCHEDULE_DELAY >= sunset &&
              t - RESCHEDULE_DELAY in {sunrise, sunset}
  {
    var again := (if sunrise >= sunset then sunrise else sunset) + RESCHEDULE_DELAY;
    [Job(Once(sunrise), DrawWeather),
     Job(Once(again), RescheduleSunriseSunset),
     Job(Once(sunset), DrawNight)]
  }

  /** The self-reschedule time is exactly `max(sunrise, sunset) + 5 minutes`. */
  lemma RescheduleTime(sunrise: int, sunset: int, t: int)
    requires Job(Once(t), RescheduleSunriseSunset) in ScheduleSunriseSunset(sunrise, sunset)
    ensures t == (if sunrise >= sunset then sunrise else sunset) + 300
  {
  }

  /**
   * What the world supplies to a firing: the value `random.choice` picks, the bundled
   * assets, the day's WMO code, what `get_night()` returns, and the next sunrise and
   * sunset that `get_next_sunrise` / `get_next_sunset` report.
   */
  datatype Env = Env(choice: MewoState, store: Assets.Store, weatherCode: int, night: Produced,
                     nextSunrise: int, nextSunset: int)

  /** The shared state the callbacks act on. */
  datatype World = World(pet: Mewo, queue: seq<Widget>)

  /** A firing: the new world and the jobs the callback registered. */
  datatype Fired = Fired(world: World, scheduled: seq<Job>)

  /**
   * A pet transition followed by `draw_widget_maybe`: if the transition raised,
   * `draw_widget_maybe` is never called, but the pet keeps whatever it had written.
   */
  function Enqueue(o: Outcome, queue: seq<Widget>): (w: World)
    ensures w.pet == o.pet
    ensures o.emitted.Ok? && o.emitted.value.Some? ==> w.queue == queue + [o.emitted.value.value]
    ensures !(o.emitted.Ok? && o.emitted.value.Some?) ==> w.queue == queue
  {
    match o.emitted
    case Err(_) => World(o.pet, queue)
    case Ok(None) => World(o.pet, DrawWidgetMaybe(queue, NoWidget))
    case Ok(Some(widget)) => World(o.pet, DrawWidgetMaybe(queue, Ready(widget)))
  }

  /** One firing of the callback `a`. */
  function Fire(a: Action, w: World, env: Env): (f: Fired)
    ensures |w.queue| <= |f.world.queue| <= |w.queue| + 1
    ensures f.world.queue[..|w.queue|] == w.queue
    ensures a != RescheduleSunriseSunset ==> f.scheduled == []
    ensures a !in {MewoRandom, MewoSleep, MewoAwake} ==> f.world.pet == w.pet
    ensures f.world.pet.z == w.pet.z
  {
    match a
    case MewoRandom => Fired(Enqueue(DoRandom(w.pet, env.choice, env.store), w.queue), [])
    case MewoSleep => Fired(Enqueue(DoSleep(w.pet, env.store), w.queue), [])
    case MewoAwake => Fired(World(DoAwake(w.pet), w.queue), [])
    case DrawWeather =>
      Fired(World(w.pet, DrawWidgetMaybe(w.queue, Pending(WeatherWidget.GetWeather(env.weatherCode, env.store)))), [])
    case DrawNight => Fired(World(w.pet, DrawWidgetMaybe(w.queue, env.night)), [])
    case RescheduleSunriseSunset => Fired(w, ScheduleSunriseSunset(env.nextSunrise, env.nextSunset))
  }

  /** An asleep pet's hourly `random` enqueues nothing and leaves the pet as it was. */
  lemma AsleepRandomIsSilent(w: World, env: Env)
    requires w.pet.asleep
    ensures Fire(MewoRandom, w, env) == Fired(w, [])
  {
  }

  /** A rainy code at sunrise enqueues the rain icon as the "weather" widget. */
  lemma RainAtSunrise(w: World, env: Env)
    requires env.weatherCode == 61 && "assets/weather/rain.bmp" in env.store
    ensures Fire(DrawWeather, w, env).world.queue ==
              w.queue + [New("weather", -99, Some(env.store["assets/weather/rain.bmp"]), None)]
  {
    WeatherWidget.RainIconForCode61(env.store);
  }

  /** The sunrise/sunset job re-arms itself strictly after both of the next events. */
  lemma RescheduleIsLater(w: World, env: Env)
    ensures var f := Fire(RescheduleSunriseSunset, w, env);
      && f.world == w
      && Job(Once(env.nextSunrise), DrawWeather) in f.scheduled
      && Job(Once(env.nextSunset), DrawNight) in f.scheduled
      && forall t :: Job(Once(t), RescheduleSunriseSunset) in f.scheduled ==>
           t > env.nextSunrise && t > env.nextSunset
  {
  }

  /**
   * A run of firings, the i-th callback `actions[i]` seeing the world as `envs[i]`
   * reports it at that moment: every `random.choice`, `get_night()` and next
   * sunrise/sunset is drawn afresh. Each firing adds at most one widget and never
   * drops or reorders queued ones.
   */
  function FireAll(actions: seq<Action>, w: World, envs: seq<Env>): (r: World)
    requires |envs| == |actions|
    ensures |w.queue| <= |r.queue| <= |w.queue| + |actions|
    ensures r.queue[..|w.queue|] == w.queue
    decreases |actions|
  {
    if actions == [] then w
    else
      var next := Fire(actions[0], w, envs[0]).world;
      var r := FireAll(actions[1..], next, envs[1..]);
      assert r.queue[..|w.queue|] == r.queue[..|next.queue|][..|w.queue|];
      r
  }
}
