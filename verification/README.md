# bedside, modelled in Dafny

A model of the pure logic of *bedside*, a Python program that drives a two-colour (black/red) e-paper display beside a bed. Independent producers make named *widgets*. A widget is a name, a stacking key `z`, a black/white layer and a red layer. The background image is put on the queue once, by its own task at start-up (bedside/main.py:94). A scheduler fires the other producers: a virtual pet called Mewo, a weather icon at sunrise and a night overlay at sunset. A seasonal tree called Bert is defined (bedside/seasons.py:31-40), but nothing in `bedside/main.py` imports or schedules it. Their widgets go through a queue to the compositor loop. For each widget it drains, the loop upserts the widget into a name-keyed *live set*, stacks every live widget in ascending `z` onto two blank canvases, and writes the result to the display. That is the loop's evident intent, and it is what the model proves. As the code stands, the first stacking step raises an exception on the first widget drained, so nothing reaches the display (see "The code as written" below).

Modules, one per source file or component:

| file | module | models |
|---|---|---|
| `wrappers.dfy` | `Wrappers` | `X \| None` and the missing-asset exception |
| `widget.dfy` | `Widgets` | `bedside/widget.py`: canvas size, `blank()`, the `Widget` record |
| `assets.dfy` | `Assets` | the bundled image files as a map from path to bitmap |
| `weather.dfy` | `WeatherWidget` | `bedside/weather.py`: `Weather.from_wmo`, `get_weather` |
| `seasons.dfy` | `Seasons` | `bedside/seasons.py`: `get_season`, `name_lookup`, `get_bert` |
| `mewo.dfy` | `Pet` | `bedside/mewo.py`: the `Mewo` state machine and `_mewo_img` |
| `mock.dfy` | `MockDisplay` | `bedside/mock.py`: the pixel merge of `MockEPD.display` |
| `compositor.dfy` | `Compositor` | `bedside/main.py`: the live-set upsert and the stable z-sort |
| `event_loop.dfy` | `EventLoop` | `bedside/main.py`: `process_event_loop` as a fold over drained widgets |
| `scheduling.dfy` | `Scheduling` | `bedside/main.py`: `draw_widget_maybe`, `background`, the scheduled jobs and their firings |

Modelling choices:
- A bitmap is a sequence of rows of bytes, so `b[y][x]` is the pixel at column `x`, row `y`.
- The live set is the dict's entries in insertion order, and it never holds two entries with the same name. An upsert of an existing name replaces that entry in place. An upsert of a new name appends it.
- The layer order is the stable ascending sort by `z`. It is written as an insertion sort. Stability is stated as "for every height `k`, the entries at height `k` appear in the same order as in the live set". A separate lemma shows that exactly one ordering is both sorted and stable in this sense.
- The event loop is a fold over the sequence of drained widgets. It returns the final live set and a log of five entries per widget: the driver calls `Init`, `Clear` and `Display(frame)`, the `asyncio.sleep(2)` settle pause as `Pause(2)`, and the driver call `Sleep`. A frame is the two base canvases plus the widgets in stacking order.
- Randomness is a parameter: `choice` stands for `random.choice` and `minute` for `randint(0, 59)`. So are the clock (`today`, `nextSunrise`, `nextSunset`), the day's WMO code (which replaces the HTTP fetch), the return value of `get_night()`, and the bundled assets.
- A missing asset is the error value `ResourceMissing(path)`, not an exception. `sleep()` loads its sprite before it writes any field, so a missing sprite leaves the pet unchanged. `random()` writes `state` before it loads the sprite, so the state changes even when the sprite is missing. The model keeps both orders.
- Timestamps are integer seconds. `timedelta(minutes=5)` is 300.

The code as written:
- `process_event_loop` (bedside/main.py:19-40) has no exception handler, so any exception ends the loop.
- The loop starts from an empty dict and waits for the first widget before it displays anything.
- The loop is meant to write the display once per drained widget, not once per batch. As intended (`BackgroundThenMewo`), booting with the background and then the pet writes the display twice, and the second write holds both layers. As written, the two points below stop this from happening.
- `schedule_sunrise_sunset` calls `get_weather(latitude, longitude)` (bedside/main.py:70), but `get_weather` takes no arguments (bedside/weather.py:41). The model follows the definition.
- Every producer leaves the red layer at its default, `blank()`, which is a mode "1" image (bedside/widget.py:10,18). `Image.alpha_composite` accepts only RGBA images on both sides. So `red.alpha_composite(widget.red)` (bedside/main.py:33) raises `ValueError` for the first drained widget, before `epd.display` (bedside/main.py:38). With no handler, the loop then ends. `EventLoop.RunCycles`, `EventLoop.OneDisplayPerWidget` and `EventLoop.BackgroundThenMewo` describe the loop as intended, with compositing succeeding, not as written.
- `bedside/mewo.py:7` imports `Widget` from a top-level module `widget`, while `draw_widget_maybe` tests `isinstance(widget, Widget)` against `bedside.widget.Widget` (bedside/main.py:16,51). Python keys modules by their import name, so these are two different classes. Either the import of `widget` fails and `bedside/main.py:14` stops the program at start-up, or a pet widget fails the `isinstance` test and `await widget` (bedside/main.py:54) raises `TypeError`. Either way the source never enqueues a pet sprite. `Scheduling.Enqueue` and `Scheduling.Fire` model the pet callbacks as intended, with the pet's widget treated as a ready `Widget`.

## Model

| member | source | states |
|---|---|---|
| Widgets.Blank | bedside/widget.py:5-10 | `blank()` is a WIDTH x HEIGHT = 800 x 480 canvas (384000 pixels), and every pixel is 255 (white, unset) |
| Widgets.New | bedside/widget.py:13-18 | a widget stores the given name and `z` unchanged; a layer that is supplied is stored as is, and a missing one defaults to `blank()` |
| Widgets.DefaultLayersAreBlank | bedside/widget.py:17-18 | a widget built from only a name and `z` has two full-size layers with every pixel unset |
| Assets.Load | bedside/main.py:44-45 | opening a bundled asset succeeds exactly when a file has that path, returns that file's image, and otherwise fails with resource-missing for that path |
| WeatherWidget.FromWmo | bedside/weather.py:20-31 | `from_wmo` is total: cloudy exactly for 1 and 2, overcast exactly for 3, rain exactly for 51, 53, 55, 56, 57, 61, 63, 65, 66 and 67, sunny for every other integer |
| WeatherWidget.FromWmoExamples | bedside/weather.py:22-31 | 0 is sunny, 1 and 2 are cloudy, 3 is overcast, 61 is rain, and 80 and -1 are sunny |
| WeatherWidget.GetWeather | bedside/weather.py:41-47 | any widget returned is "weather" at z = -99 with a blank red layer; a sunny code gives a blank bw layer; any other code gives that condition's icon, and fails only when the icon file is missing |
| WeatherWidget.RainIconForCode61 | bedside/weather.py:29-47 | code 61 yields the "weather" widget at z = -99 whose bw layer is the rain icon |
| Seasons.SeasonOfMonth | bedside/seasons.py:20-28 | months 12, 1 and 2 are summer, 3-5 autumn, 6-8 winter, and every other month spring |
| Seasons.GetSeason | bedside/seasons.py:18-28 | a date that is supplied decides the season; the current date is used only when none is given |
| Seasons.ThreeMonthsEach | bedside/seasons.py:20-28 | among months 1..12, each season gets exactly three |
| Seasons.NameLookupTotal | bedside/seasons.py:36-37 | `name_lookup` has every season as a key; it gives "leafless" exactly for autumn and winter, and "bloom" exactly for spring and summer |
| Seasons.GetBert | bedside/seasons.py:31-40 | `get_bert` succeeds exactly when today's sprite exists; the widget is "bert" at z = -99, and its bw layer is that season's sprite; otherwise it fails with resource-missing for that sprite |
| Pet.AllStatesListsEachOnce | bedside/mewo.py:14-17 | `list(MewoState)`, the pool `random` picks from, lists each of the three states exactly once |
| Pet.MewoImg | bedside/mewo.py:11-23 | the sprite widget for a state is named "mewo", carries the given `z` and that state's sprite, and fails only when the sprite file is missing |
| Pet.DoSleep | bedside/mewo.py:32-38 | asleep: returns None and changes nothing; awake: sets `state = SLEEP` and `asleep = true`; returns a sleep-sprite widget exactly when the pet was awake, not already in SLEEP, and the sprite exists; raises resource-missing for the sleep sprite exactly when the pet was awake, not in SLEEP, and the sprite is missing, and then no field changes |
| Pet.DoAwake | bedside/mewo.py:40-41 | `awake()` clears `asleep` and leaves `state` and `z` untouched |
| Pet.DoRandom | bedside/mewo.py:43-46 | asleep: returns None and changes nothing; awake: sets `state` to the chosen state, even when the load then fails; returns that state's "mewo" widget at the pet's `z` exactly when its sprite exists, and otherwise raises resource-missing for that sprite |
| Pet.TransitionsKeepZ | bedside/mewo.py:26-46 | no transition changes `z`, and every widget a transition yields is "mewo" at the pet's own `z` |
| Pet.TransitionsPreserveConsistent | bedside/mewo.py:26-46 | the default pet, and every pet reached from it by `sleep`, `awake` or `random`, is in SLEEP whenever it is asleep |
| Pet.SleepIdempotent | bedside/mewo.py:32-38 | a second `sleep()` returns None and leaves the pet as the first left it |
| Pet.NightAfterQuietDay | bedside/mewo.py:32-41 | sleep, awake, then sleep again with no `random` in between: the second sleep redraws nothing and the pet ends as after the first sleep |
| MockDisplay.MockMatchesCanvas | bedside/mock.py:5-6 | the mock's 800 x 480 resolution is exactly the widgets' canvas size, so the mock accepts exactly the planes shaped like `blank()` |
| MockDisplay.MergePixel | bedside/mock.py:35-40 | the output is red exactly when the red pixel is set (not 255), black exactly when red is unset and bw is set, and white exactly when both are unset |
| MockDisplay.MergeUsesThreeColours | bedside/mock.py:35-40 | every output pixel is one of three distinct colours |
| MockDisplay.Display | bedside/mock.py:18-40 | the merged image is 800 x 480, and each pixel is the merge of the bw and red pixels at the same (x, y) |
| Compositor.Find | bedside/main.py:27 | the dict lookup reports the position of the first entry with that name, or that no entry has the name |
| Compositor.Upsert | bedside/main.py:27 | `widgets[w.name] = w` replaces an existing entry at its original position, and otherwise appends `w` at the end |
| Compositor.UpsertLookup | bedside/main.py:27 | after the upsert the live set maps `w.name` to `w`, and every other name is mapped as before |
| Compositor.UpsertKeys | bedside/main.py:27 | the upsert keeps names unique, adds `w.name` to the keys, and grows the set by one entry exactly when the name is new |
| Compositor.UpsertIdempotent | bedside/main.py:27 | submitting the same widget twice leaves the live set as submitting it once does |
| Compositor.Insert | bedside/main.py:31 | inserting into a z-sorted list gives a z-sorted list one entry longer |
| Compositor.InsertPermutes | bedside/main.py:31 | insertion adds exactly the inserted widget to the entries |
| Compositor.InsertStable | bedside/main.py:31 | the inserted widget goes before the entries already at its height |
| Compositor.SortByZ | bedside/main.py:31 | the rendering order is ascending in `z` and as long as the live set |
| Compositor.SortByZPermutes | bedside/main.py:31 | the rendering order is a permutation of the live set |
| Compositor.SortByZStable | bedside/main.py:31 | at every height, the rendering order keeps the entries in dict insertion order |
| Compositor.StableOrderUnique | bedside/main.py:31 | two orders that are both z-sorted and agree on the entries at every height are equal |
| Compositor.RenderOrderCharacterised | bedside/main.py:31 | an order is the rendering order exactly when it is z-sorted and keeps insertion order at every height |
| EventLoop.Compose | bedside/main.py:28-33 | both canvases start as fully transparent 800 x 480 images, and the layers are the live set in ascending `z` |
| EventLoop.ComposeLayers | bedside/main.py:31-33 | the composited layers are exactly the live widgets, with ties in insertion order |
| EventLoop.Run | bedside/main.py:23-40 | running the loop over n drained widgets makes exactly 5n log entries: `init`, `Clear`, `display`, the 2-second pause and `sleep` for each |
| EventLoop.ProcessEventLoop | bedside/main.py:19-40 | the loop starts from the empty dict and makes five log entries per drained widget |
| EventLoop.RunLive | bedside/main.py:22-27 | the loop ends with the drained widgets upserted one after another, in drain order |
| EventLoop.RunCycles | bedside/main.py:24-40 | the i-th drained widget gets `init`, `Clear`, one `display` of the live set after the first i+1 upserts, a 2-second pause, then `sleep` |
| EventLoop.OneDisplayPerWidget | bedside/main.py:23-40 | the display is written exactly once per drained widget |
| EventLoop.DrainSemantics | bedside/main.py:22-27 | draining keeps names unique and adds at most one entry per widget; each name ends mapped to its last drained widget, or as before if none was drained |
| EventLoop.BackgroundThenMewo | bedside/main.py:22-47 | from the empty dict, draining the background (z = -100) then the pet (z = -99) writes twice, and the second frame stacks the pet over the background |
| Scheduling.DrawWidgetMaybe | bedside/main.py:50-55 | `None` enqueues nothing, a widget enqueues exactly that widget, and a pending computation enqueues its result once (nothing if it raises); already-queued widgets are kept in order |
| Scheduling.Background | bedside/main.py:43-47 | the background widget is the bundled background image at z = -100 with a blank red layer, and otherwise fails with resource-missing for that file |
| Scheduling.BackgroundIsLowest | bedside/main.py:46-59 | the background's z = -100 is below the pet's, the weather icon's and the tree's z = -99 |
| Scheduling.ScheduleMewo | bedside/main.py:58-62 | a fresh pet at z = -99; one hourly random move at the drawn minute in [0, 59], second 0; sleep daily at 21:00; awake daily at 07:00 |
| Scheduling.ScheduleSunriseSunset | bedside/main.py:65-80 | one-shot jobs: weather at sunrise, night overlay at sunset, and a self-reschedule at least five minutes after both events and exactly five minutes after one of them, which is `max(sunrise, sunset) + 5 minutes` |
| Scheduling.RescheduleTime | bedside/main.py:71-75 | the self-reschedule time is exactly `max(sunrise, sunset) + 5 minutes` |
| Scheduling.Enqueue | bedside/main.py:60-61 | a pet callback enqueues the transition's widget when there is one; when the transition returns None or raises it enqueues nothing; the pet keeps what the transition wrote |
| Scheduling.Fire | bedside/main.py:58-80 | one firing adds at most one widget to the back of the queue and drops none; only the sunrise/sunset callback registers jobs; only the pet callbacks change the pet, never its `z` |
| Scheduling.AsleepRandomIsSilent | bedside/main.py:60 | the hourly callback on an asleep pet enqueues nothing and leaves the pet unchanged |
| Scheduling.RainAtSunrise | bedside/main.py:70 | the sunrise callback on code 61 enqueues the rain icon as the "weather" widget at z = -99 |
| Scheduling.RescheduleIsLater | bedside/main.py:71-80 | the re-run of `schedule_sunrise_sunset` registers the next sunrise and sunset jobs, and a self-reschedule strictly after both |
| Scheduling.FireAll | bedside/main.py:50-80 | a run of firings, each seeing its own fresh random draw, asset store, WMO code and next sunrise/sunset, adds at most one widget each and never drops or reorders queued widgets |

## Left out

- Compositing pixels: `alpha_composite` and the `convert("1")` threshold are library numerics. The model records the base canvases and the ordered layers handed to them, not the blended pixels.
- EventLoop.RunCycles: assumes every `alpha_composite` call succeeds. The library requires RGBA images of equal size on both sides, and the default red layer `blank()` is mode "1", so as written the first drained widget raises before the display is written. The same holds for `EventLoop.OneDisplayPerWidget` and `EventLoop.BackgroundThenMewo`. Layer modes are not modelled, so the model cannot express that failure.
- Scheduling.Enqueue: treats the pet's sprite as a `bedside.widget.Widget`. As written, it comes from the separately imported `widget` module, so `draw_widget_maybe` would try to await it and raise. The model describes the intended single `Widget` class.
- Pixel formats: assets are opaque byte grids keyed by path. The RGBA conversion on load is not modelled.
- `getbuffer`, `tobytes` and `frombytes` byte packing: the mock's merge works on the two quantized planes directly.
- The two `epd.getbuffer` calls of each iteration (bedside/main.py:38) are driver calls that the log omits. They only pack the frame into bytes for `display`, so the log records the frame handed to `display` instead.
- MockDisplay.Display: requires both planes to be 800 x 480. `frombytes` raises on a buffer too short for that size, and the model does not give that failure an error value.
- The display driver `epd7in5b_V2` is not part of this model. Its canvas size is taken to be the widgets' 800 x 480, the same as the mock's.
- asyncio: the `Queue(10)` bound and its backpressure, task creation, `gather`, and the idle loop of `run_scheduler`. The queue is the sequence of widgets in the order they were put. `asyncio.sleep(2)` is the `Pause(2)` entry in the call log.
- The `scheduler` library's timer engine: when jobs fire, the missed-tick policy, and the retiring of one-shot jobs. Only the jobs registered and the effect of one firing are modelled.
- The weather HTTP fetch (`get_weather_code`, `WEATHER_URL`): the day's WMO code is an input.
- `get_next_sunrise`, `get_next_sunset` and `get_night` are imported by `bedside/main.py` but not defined in `bedside/weather.py`. Their results are inputs.
- Timestamps are integer seconds, with no calendar or time zone.
- The argparse entry point, `main`, and the device cleanup in `__main__`.
- `MockEPD.show` and the print-only `init`, `Clear` and `sleep`.
- The random draws themselves: `randint(0, 59)` and `random.choice` are given as arguments.
