/**
 * `process_event_loop` as a fold over the widgets drained from the queue: each
 * drained widget is upserted into the live set, and the whole set is recomposed
 * and written to the display once per drained widget.
 */
module EventLoop {
  import opened Wrappers
  import opened Widgets
  import opened Compositor

  datatype Rgba = Rgba(r: Byte, g: Byte, b: Byte, a: Byte)

  /** The fill of a new compositing canvas: white with zero alpha. */
  const TRANSPARENT_WHITE: Rgba := Rgba(255, 255, 255, 0)

  /** `Image.new("RGBA", (width, height), fill)`. */
  datatype Canvas = Canvas(width: nat, height: nat, fill: Rgba)

  /**
   * What one iteration hands to compositing: the bw and red base canvases and the
   * widgets whose layers are alpha-composited onto them, bottom first.
   */
  datatype Frame = Frame(bwBase: Canvas, redBase: Canvas, layers: seq<Widget>)

  /**
   * One iteration's log, in order: the driver calls, plus the settle pause
   * (`asyncio.sleep`), which is not a driver call. `getbuffer` is not logged.
   */
  datatype Call = Init | Clear | Display(frame: Frame) | Pause(seconds: nat) | Sleep

  /** The settle delay between the display write and the driver's sleep. */
  const SETTLE_SECONDS: nat := 2

  /**
   * The frame for a live set: two fully transparent full-size canvases, and the
   * live entries in ascending, stable `z` order.
   */
  function Compose(live: LiveSet): (f: Frame)
    ensures f.bwBase == Canvas(WIDTH, HEIGHT, TRANSPARENT_WHITE)
    ensures f.redBase == Canvas(WIDTH, HEIGHT, TRANSPARENT_WHITE)
    ensures SortedByZ(f.layers)
    ensures |f.layers| == |live|
  {
    Frame(Canvas(WIDTH, HEIGHT, TRANSPARENT_WHITE), Canvas(WIDTH, HEIGHT, TRANSPARENT_WHITE), SortByZ(live))
  }

  /**
   * The layers are exactly the live entries, and keep the live set's order among
   * widgets of equal `z`.
   */
  lemma ComposeLayers(live: LiveSet, k: int)
    ensures multiset(Compose(live).layers) == multiset(live)
    ensures WithZ(Compose(live).layers, k) == WithZ(live, k)
  {
    SortByZPermutes(live);
    SortByZStable(live, k);
  }

  /** The log of one iteration, given the live set after the upsert. */
  function Cycle(live: LiveSet): seq<Call>
  {
    [Init, Clear, Display(Compose(live)), Pause(SETTLE_SECONDS), Sleep]
  }

  /** The reference live set: the drained widgets upserted one after another. */
  function Drain(live: LiveSet, drained: seq<Widget>): LiveSet
    decreases |drained|
  {
    if drained == [] then live else Drain(Upsert(live, drained[0]), drained[1..])
  }

  /** The loop's state after some iterations: the live set and every driver call so far. */
  datatype Trace = Trace(live: LiveSet, calls: seq<Call>)

  /** Runs the loop body once per drained widget, in drain order. */
  function Run(live: LiveSet, drained: seq<Widget>): (t: Trace)
    ensures |t.calls| == 5 * |drained|
    decreases |drained|
  {
    if drained == [] then Trace(live, [])
    else
      var next := Upsert(live, drained[0]);
      var rest := Run(next, drained[1..]);
      Trace(rest.live, Cycle(next) + rest.calls)
  }

  /** The loop as started by `main`: with an empty dict. */
  function ProcessEventLoop(drained: seq<Widget>): (t: Trace)
    ensures |t.calls| == 5 * |drained|
  {
    Run([], drained)
  }

  /** The live set the loop ends with is the reference fold of upserts. */
  lemma {:induction false} RunLive(live: LiveSet, drained: seq<Widget>)
    ensures Run(live, drained).live == Drain(live, drained)
    decreases |drained|
  {
    if drained != [] {
      RunLive(Upsert(live, drained[0]), drained[1..]);
    }
  }

  /** Draining a prefix of length i+1 is the first upsert followed by draining i more. */
  lemma DrainPrefix(live: LiveSet, drained: seq<Widget>, i: nat)
    requires i < |drained|
    ensures Drain(live, drained[..i + 1]) == Drain(Upsert(live, drained[0]), drained[1..][..i])
  {
    assert drained[..i + 1][0] == drained[0];
    assert drained[..i + 1][1..] == drained[1..][..i];
  }

  /** One step of the loop: the first widget's cycle, then the rest of the run. */
  lemma RunUnfold(live: LiveSet, drained: seq<Widget>)
    requires drained != []
    ensures Run(live, drained).calls ==
              Cycle(Upsert(live, drained[0])) + Run(Upsert(live, drained[0]), drained[1..]).calls
  {
  }

  /** The first five calls of a log that starts with a cycle are that cycle. */
  lemma HeadCycle(c: seq<Call>, r: seq<Call>)
    requires |c| == 5
    ensures (c + r)[0..5] == c
  {
  }

  /** Skipping a five-call cycle at the front shifts every later cycle back by one. */
  lemma SliceAfterCycle(c: seq<Call>, r: seq<Call>, i: nat)
    requires |c| == 5 && 1 <= i && 5 * i + 5 <= |c| + |r|
    ensures (c + r)[5 * i .. 5 * i + 5] == r[5 * (i - 1) .. 5 * (i - 1) + 5]
  {
  }

  /**
   * The i-th drained widget gets its own cycle: `init`, `Clear`, one `display` of
   * the live set as it stands after draining the first i+1 widgets, the settle
   * pause, then `sleep`.
   */
  lemma {:induction false} RunCycles(live: LiveSet, drained: seq<Widget>, i: nat)
    requires i < |drained|
    ensures Run(live, drained).calls[5 * i .. 5 * i + 5] == Cycle(Drain(live, drained[..i + 1]))
    decreases |drained|
  {
    var next := Upsert(live, drained[0]);
    var rest := Run(next, drained[1..]).calls;
    RunUnfold(live, drained);
    DrainPrefix(live, drained, i);
    if i == 0 {
      assert drained[1..][..0] == [];
      HeadCycle(Cycle(next), rest);
    } else {
      RunCycles(next, drained[1..], i - 1);
      SliceAfterCycle(Cycle(next), rest, i);
    }
  }

  /** Number of `display` calls in a call log. */
  function DisplayCount(calls: seq<Call>): nat
  {
    if calls == [] then 0 else (if calls[0].Display? then 1 else 0) + DisplayCount(calls[1..])
  }

  lemma {:induction false} DisplayCountConcat(a: seq<Call>, b: seq<Call>)
    ensures DisplayCount(a + b) == DisplayCount(a) + DisplayCount(b)
  {
    if a == [] {
      assert a + b == b;
    } else {
      assert (a + b)[0] == a[0];
      assert (a + b)[1..] == a[1..] + b;
      DisplayCountConcat(a[1..], b);
    }
  }

  /** A cycle writes to the display once. */
  lemma CycleDisplaysOnce(live: LiveSet)
    ensures DisplayCount(Cycle(live)) == 1
  {
    var c := Cycle(live);
    assert c[1..][1..][1..][1..][1..] == [];
    assert DisplayCount(c[1..][1..][1..][1..]) == 0;
    assert DisplayCount(c[1..][1..][1..]) == 0;
    assert DisplayCount(c[1..][1..]) == 1;
  }

  /** Exactly one display write per drained widget: no coalescing, no skipping. */
  lemma {:induction false} OneDisplayPerWidget(live: LiveSet, drained: seq<Widget>)
    ensures DisplayCount(Run(live, drained).calls) == |drained|
    decreases |drained|
  {
    if drained != [] {
      var next := Upsert(live, drained[0]);
      var rest := Run(next, drained[1..]);
      assert Run(live, drained).calls == Cycle(next) + rest.calls;
      OneDisplayPerWidget(next, drained[1..]);
      DisplayCountConcat(Cycle(next), rest.calls);
      CycleDisplaysOnce(next);
    }
  }

  /** The latest widget named `name` among `drained`. */
  function LastNamed(drained: seq<Widget>, name: string): Option<Widget>
  {
    if drained == [] then None
    else match LastNamed(drained[1..], name)
      case Some(w) => Some(w)
      case None => if drained[0].name == name then Some(drained[0]) else None
  }

  /**
   * Draining keeps names unique, grows the set by at most one entry per widget, and
   * leaves every name mapped to its most recently drained widget, or to what it
   * mapped to before if no widget of that name was drained.
   */
  lemma {:induction false} DrainSemantics(live: LiveSet, drained: seq<Widget>, name: string)
    requires UniqueNames(live)
    ensures UniqueNames(Drain(live, drained))
    ensures |Drain(live, drained)| <= |live| + |drained|
    ensures Lookup(Drain(live, drained), name) ==
              match LastNamed(drained, name) case Some(w) => Some(w) case None => Lookup(live, name)
    decreases |drained|
  {
    if drained != [] {
      var w := drained[0];
      UpsertKeys(live, w);
      UpsertLookup(live, w, name);
      DrainSemantics(Upsert(live, w), drained[1..], name);
    }
  }

  /** The live sets and layer orders of the two boot iterations. */
  lemma BootLiveSets(background: Widget, mewo: Widget)
    requires background.z == -100 && mewo.z == -99 && background.name != mewo.name
    ensures Drain([], [background, mewo][..1]) == [background]
    ensures Drain([], [background, mewo][..2]) == [background, mewo]
    ensures SortByZ([background]) == [background]
    ensures SortByZ([background, mewo]) == [background, mewo]
  {
    var drained := [background, mewo];
    assert drained[..1] == [background];
    assert drained[..2] == drained;
    assert Upsert([], background) == [background];
    assert [background][1..] == [];
    assert Upsert([background], mewo) == drained;
    assert drained[1..] == [mewo];
    assert drained[1..][1..] == [];
    assert Drain([], drained) == Drain([background], [mewo]);
    assert Drain([background], [mewo]) == Drain(drained, []);
    assert SortByZ([mewo]) == [mewo];
    assert Insert(background, [mewo]) == drained;
  }

  /** The display call of a cycle shows the frame composed from its live set. */
  lemma CycleShows(calls: seq<Call>, i: nat, live: LiveSet)
    requires 5 * i + 5 <= |calls| && calls[5 * i .. 5 * i + 5] == Cycle(live)
    ensures calls[5 * i + 2] == Display(Compose(live))
  {
    assert calls[5 * i + 2] == calls[5 * i .. 5 * i + 5][2];
  }

  /** The first iteration displays the live set with the first drained widget upserted. */
  lemma FirstDisplay(live: LiveSet, drained: seq<Widget>)
    requires |drained| >= 1
    ensures Run(live, drained).calls[2] == Display(Compose(Upsert(live, drained[0])))
  {
    var next := Upsert(live, drained[0]);
    assert Run(live, drained).calls == Cycle(next) + Run(next, drained[1..]).calls;
  }

  /** The second boot iteration shows the background under the mewo sprite. */
  lemma SecondBootDisplay(background: Widget, mewo: Widget)
    requires background.z == -100 && mewo.z == -99 && background.name != mewo.name
    ensures ProcessEventLoop([background, mewo]).calls[7] == Display(Compose([background, mewo]))
  {
    var drained := [background, mewo];
    RunCycles([], drained, 1);
    BootLiveSets(background, mewo);
    CycleShows(ProcessEventLoop(drained).calls, 1, drained);
  }

  /**
   * Boot: the background widget, then the mewo sprite, starting from the empty dict.
   * Each gets its own display write; the second shows the background under the sprite.
   */
  lemma BackgroundThenMewo(background: Widget, mewo: Widget)
    requires background.z == -100 && mewo.z == -99 && background.name != mewo.name
    ensures var t := ProcessEventLoop([background, mewo]);
      && DisplayCount(t.calls) == 2
      && t.calls[2] == Display(Frame(Canvas(WIDTH, HEIGHT, TRANSPARENT_WHITE),
                                     Canvas(WIDTH, HEIGHT, TRANSPARENT_WHITE), [background]))
      && t.calls[7] == Display(Frame(Canvas(WIDTH, HEIGHT, TRANSPARENT_WHITE),
                                     Canvas(WIDTH, HEIGHT, TRANSPARENT_WHITE), [background, mewo]))
  {
    OneDisplayPerWidget([], [background, mewo]);
    FirstDisplay([], [background, mewo]);
    assert Upsert([], background) == [background];
    SecondBootDisplay(background, mewo);
    BootLiveSets(background, mewo);
  }
}
