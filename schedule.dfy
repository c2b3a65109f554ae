/**
 * fullRun and the event wiring: a virtual clock in milliseconds and the list
 * of pending timers stand in for setTimeout/clearTimeout, and each event
 * handler is a method that arms or cancels timers at the current time.
 */
module Schedule {
  import opened Wrappers
  import opened Viewport
  import opened Curves
  import opened Placement

  const RESIZE_DEBOUNCE: int := 160
  const ORIENTATION_DELAY: int := 180
  const SETTLE_FIRST: int := 100
  const SETTLE_SECOND: int := 250
  const MENU_OPEN_DELAY: int := 250
  const MENU_CLOSE_DELAY: int := 150

  /** What a timer runs when it fires. */
  datatype Task = FullRun | PlaceOnly

  /** Which handler armed a timer (a label for stating properties; the browser does not keep it). */
  datatype Origin = ResizeHandler | OrientationHandler | SettleRetry | MenuOpened | MenuClosed

  /** A pending setTimeout: its handle, the time it is due, and what it runs. */
  datatype Timer = Timer(id: nat, due: int, task: Task, origin: Origin)

  /** The two placement-only passes fullRun queues at time `at`, under handles id and id + 1. */
  function Retries(id: nat, at: int): (r: seq<Timer>)
    ensures |r| == 2 && r[0].id == id && r[1].id == id + 1
    ensures r[0].due == at + 100 && r[1].due == at + 250
    ensures forall t :: t in r ==> t.task == PlaceOnly && t.origin == SettleRetry
  {
    [Timer(id, at + SETTLE_FIRST, PlaceOnly, SettleRetry), Timer(id + 1, at + SETTLE_SECOND, PlaceOnly, SettleRetry)]
  }

  /**
   * What the page looks like to one pass: the reported viewport widths,
   * which of the svg root and the two path elements exist, and the geometry
   * the placement queries.
   */
  datatype Env = Env(innerWidth: int, clientWidth: int, svg: bool, topPath: bool, bottomPath: bool, scene: Query)

  /**
   * The placement pass looks up the svg root and the lower path before it
   * queries any geometry: without either, it skips.
   */
  function PlacementQuery(env: Env): (q: Query)
    ensures !env.svg || !env.bottomPath ==> q == Missing
    ensures env.svg && env.bottomPath ==> q == env.scene
  {
    if env.svg && env.bottomPath then env.scene else Missing
  }

  /** The path data after a redraw: rewritten when all three elements exist, kept otherwise. */
  function PathsAfter(env: Env, prev: Option<Paths>): (r: Option<Paths>)
    ensures env.svg && env.topPath && env.bottomPath ==> r == Some(PathsOf(FixedLayout()))
    ensures !(env.svg && env.topPath && env.bottomPath) ==> r == prev
  {
    var drawn := RecomputePaths(env.svg, env.topPath, env.bottomPath);
    if drawn.Some? then drawn else prev
  }

  /** clearTimeout(id): the pending timers without the one with that handle. */
  function Cancel(q: seq<Timer>, id: nat): (r: seq<Timer>)
    ensures forall t :: t in r <==> t in q && t.id != id
    ensures (forall t :: t in q ==> t.id != id) ==> r == q
    ensures |r| <= |q|
  {
    if q == [] then []
    else if q[0].id == id then Cancel(q[1..], id)
    else [q[0]] + Cancel(q[1..], id)
  }

  /** The pending timers armed by one handler, in arming order. */
  function ArmedBy(q: seq<Timer>, o: Origin): (r: seq<Timer>)
    ensures forall t :: t in r <==> t in q && t.origin == o
    ensures |r| <= |q|
  {
    if q == [] then []
    else if q[0].origin == o then [q[0]] + ArmedBy(q[1..], o)
    else ArmedBy(q[1..], o)
  }

  /** Arming a timer adds it at the end of its handler's list and leaves the other lists alone. */
  lemma {:induction false} ArmedByAppend(q: seq<Timer>, t: Timer, o: Origin)
    ensures ArmedBy(q + [t], o) == ArmedBy(q, o) + (if t.origin == o then [t] else [])
  {
    if q == [] {
      assert q + [t] == [t];
    } else {
      assert (q + [t])[1..] == q[1..] + [t];
      ArmedByAppend(q[1..], t, o);
    }
  }

  /** A list none of whose timers a handler armed has no timers of that handler. */
  lemma {:induction false} NoneArmed(q: seq<Timer>, o: Origin)
    requires forall t :: t in q ==> t.origin != o
    ensures ArmedBy(q, o) == []
  {
    if q != [] {
      NoneArmed(q[1..], o);
    }
  }

  /**
   * When every timer of a handler carries one handle, clearing that handle
   * leaves none of the handler's timers pending.
   */
  lemma {:induction false} CancelClearsHandler(q: seq<Timer>, id: nat, o: Origin)
    requires forall t :: t in q && t.origin == o ==> t.id == id
    ensures ArmedBy(Cancel(q, id), o) == []
  {
    if q != [] {
      CancelClearsHandler(q[1..], id, o);
      if q[0].id != id {
        assert Cancel(q, id) == [q[0]] + Cancel(q[1..], id);
        assert ([q[0]] + Cancel(q[1..], id))[1..] == Cancel(q[1..], id);
      }
    }
  }

  /**
   * The timer that fires next: the earliest due, and among equally due ones
   * the first armed.
   */
  function NextDue(q: seq<Timer>): (k: nat)
    requires q != []
    ensures k < |q|
    ensures forall j :: 0 <= j < |q| ==> q[k].due <= q[j].due
    ensures forall j :: 0 <= j < k ==> q[j].due > q[k].due
  {
    if |q| == 1 then 0
    else
      var k' := NextDue(q[1..]);
      if q[0].due <= q[1..][k'].due then 0 else k' + 1
  }

  /** The pending timers without position k. */
  function RemoveAt(q: seq<Timer>, k: nat): (r: seq<Timer>)
    requires k < |q|
    ensures |r| == |q| - 1
    ensures forall t :: t in r ==> t in q
  {
    q[..k] + q[k + 1..]
  }

  /**
   * The resize listener's timer list: the timer with the pending handle (if
   * any) cleared, then t appended.
   */
  function Rearm(q: seq<Timer>, handle: Option<nat>, t: Timer): (r: seq<Timer>)
    ensures forall x :: x in r <==> x == t || (x in q && (handle.None? || x.id != handle.value))
  {
    (if handle.Some? then Cancel(q, handle.value) else q) + [t]
  }

  /**
   * When every pending timer of t's handler carries the cleared handle,
   * t is afterwards the only timer of its handler.
   */
  lemma RearmLeavesOne(q: seq<Timer>, handle: Option<nat>, t: Timer)
    requires forall x :: x in q && x.origin == t.origin ==> handle == Some(x.id)
    ensures ArmedBy(Rearm(q, handle, t), t.origin) == [t]
  {
    var kept := if handle.Some? then Cancel(q, handle.value) else q;
    if handle.Some? {
      CancelClearsHandler(q, handle.value, t.origin);
    } else {
      NoneArmed(q, t.origin);
    }
    ArmedByAppend(kept, t, t.origin);
  }

  /**
   * The script's state: the tunables and the image element it rewrites, the
   * virtual clock and pending timers, the `resizeTimer` handle, whether the
   * resize/orientation listeners are registered yet, and the menu toggle's
   * active flag.
   */
  class Page {
    const tunables: Tunables
    const image: Image
    const menuPresent: bool    // both #menu-toggle and #mobile-menu exist
    var now: int
    var timers: seq<Timer>     // pending, in arming order
    var nextId: nat            // handle of the next timer armed
    var resizeTimer: Option<nat>
    var listening: bool        // fonts are ready and the window listeners are bound
    var menuActive: bool
    var paths: Option<Paths>   // the last path data written, if any

    ghost predicate Valid()
      reads this, tunables
    {
      && tunables.pathSamples > 0
      && (forall t :: t in timers ==> now <= t.due && t.id < nextId)
      && (forall t :: t in timers && t.origin == ResizeHandler ==> resizeTimer == Some(t.id))
      && (resizeTimer.Some? ==> listening)
    }

    /** The script as loaded: nothing pending, the menu closed, listeners not yet bound. */
    constructor (menuPresent: bool, img: Attrs)
      ensures Valid()
      ensures this.menuPresent == menuPresent && image.Current() == img && tunables.Current() == INITIAL
      ensures now == 0 && timers == [] && nextId == 0 && resizeTimer == None && !listening && !menuActive && paths == None
      ensures fresh(tunables) && fresh(image)
    {
      this.menuPresent := menuPresent;
      tunables := new Tunables();
      image := new Image(img);
      now, timers, nextId := 0, [], 0;
      resizeTimer, listening, menuActive, paths := None, false, false, None;
    }

    /** setTimeout(task, delay) at the current time; returns the handle. */
    method Arm(delay: nat, task: Task, origin: Origin) returns (id: nat)
      requires Valid() && origin != ResizeHandler
      modifies this
      ensures Valid()
      ensures id == old(nextId) && nextId == old(nextId) + 1
      ensures timers == old(timers) + [Timer(id, now + delay, task, origin)]
      ensures now == old(now) && resizeTimer == old(resizeTimer) && listening == old(listening)
      ensures menuActive == old(menuActive) && paths == old(paths)
    {
      id := nextId;
      timers := timers + [Timer(id, now + delay, task, origin)];
      nextId := nextId + 1;
    }

    /**
     * fullRun: adapt the tunables, rewrite the paths, run one placement pass
     * (header height is not modelled), then queue two placement-only passes
     * at +100 and +250.
     */
    method RunFull(env: Env) returns (r: Outcome)
      requires Valid()
      modifies this, tunables, image
      ensures Valid()
      ensures tunables.Current() == SelectProfile(EffectiveWidth(env.innerWidth, env.clientWidth))
      ensures paths == PathsAfter(env, old(paths))
      ensures PassEffect(tunables.Current(), PlacementQuery(env), old(image.Current()), image.Current(), r)
      ensures timers == old(timers) + Retries(old(nextId), now)
      ensures nextId == old(nextId) + 2
      ensures now == old(now) && resizeTimer == old(resizeTimer) && listening == old(listening)
      ensures menuActive == old(menuActive)
    {
      tunables.Adapt(env.innerWidth, env.clientWidth);
      var drawn := RecomputePaths(env.svg, env.topPath, env.bottomPath);
      if drawn.Some? {
        paths := drawn;
      }
      r := image.Place(tunables.Current(), PlacementQuery(env));
      var _ := Arm(SETTLE_FIRST, PlaceOnly, SettleRetry);
      var _ := Arm(SETTLE_SECOND, PlaceOnly, SettleRetry);
    }

    /** The one-shot fonts-ready signal: a full run, then the window listeners are bound. */
    method FontsReady(env: Env) returns (r: Outcome)
      requires Valid() && !listening
      modifies this, tunables, image
      ensures Valid() && listening && resizeTimer == None
      ensures tunables.Current() == SelectProfile(EffectiveWidth(env.innerWidth, env.clientWidth))
      ensures PassEffect(tunables.Current(), PlacementQuery(env), old(image.Current()), image.Current(), r)
      ensures timers == old(timers) + Retries(old(nextId), now)
      ensures nextId == old(nextId) + 2 && now == old(now) && menuActive == old(menuActive)
      ensures paths == PathsAfter(env, old(paths))
    {
      r := RunFull(env);
      listening := true;
    }

    /**
     * The resize listener: clear the pending resize timer, arm a full run 160
     * ms from now. Before fonts are ready no listener is bound. Afterwards
     * exactly one resize timer is pending, due 160 ms after this event.
     */
    method Resize()
      requires Valid()
      modifies this
      ensures Valid()
      ensures !old(listening) ==> timers == old(timers) && resizeTimer == old(resizeTimer) && nextId == old(nextId)
      ensures old(listening) ==>
        timers == Rearm(old(timers), old(resizeTimer), Timer(old(nextId), now + RESIZE_DEBOUNCE, FullRun, ResizeHandler))
      ensures old(listening) ==>
        ArmedBy(timers, ResizeHandler) == [Timer(old(nextId), now + RESIZE_DEBOUNCE, FullRun, ResizeHandler)]
      ensures old(listening) ==> resizeTimer == Some(old(nextId)) && nextId == old(nextId) + 1
      ensures now == old(now) && listening == old(listening) && menuActive == old(menuActive) && paths == old(paths)
    {
      if !listening {
        return;
      }
      var t := Timer(nextId, now + RESIZE_DEBOUNCE, FullRun, ResizeHandler);
      RearmLeavesOne(timers, resizeTimer, t);
      timers := Rearm(timers, resizeTimer, t);
      resizeTimer := Some(nextId);
      nextId := nextId + 1;
    }

    /** The orientationchange listener: a full run 180 ms from now, never cancelled. */
    method OrientationChange()
      requires Valid()
      modifies this
      ensures Valid()
      ensures !old(listening) ==> timers == old(timers) && nextId == old(nextId)
      ensures old(listening) ==>
        timers == old(timers) + [Timer(old(nextId), now + ORIENTATION_DELAY, FullRun, OrientationHandler)]
        && nextId == old(nextId) + 1
      ensures now == old(now) && resizeTimer == old(resizeTimer) && listening == old(listening)
      ensures menuActive == old(menuActive) && paths == old(paths)
    {
      if listening {
        var _ := Arm(ORIENTATION_DELAY, FullRun, OrientationHandler);
      }
    }

    /**
     * openMenu: mark the toggle active and queue a full run 250 ms from now.
     * It exists only when both menu elements do.
     */
    method OpenMenu()
      requires Valid() && menuPresent
      modifies this
      ensures Valid() && menuActive
      ensures timers == old(timers) + [Timer(old(nextId), now + MENU_OPEN_DELAY, FullRun, MenuOpened)]
      ensures nextId == old(nextId) + 1
      ensures now == old(now) && resizeTimer == old(resizeTimer) && listening == old(listening) && paths == old(paths)
    {
      menuActive := true;
      var _ := Arm(MENU_OPEN_DELAY, FullRun, MenuOpened);
    }

    /**
     * closeMenu: mark the toggle inactive and queue a full run 150 ms from
     * now, whether or not the menu was open. It exists only when both menu
     * elements do.
     */
    method CloseMenu()
      requires Valid() && menuPresent
      modifies this
      ensures Valid() && !menuActive
      ensures timers == old(timers) + [Timer(old(nextId), now + MENU_CLOSE_DELAY, FullRun, MenuClosed)]
      ensures nextId == old(nextId) + 1
      ensures now == old(now) && resizeTimer == old(resizeTimer) && listening == old(listening) && paths == old(paths)
    {
      menuActive := false;
      var _ := Arm(MENU_CLOSE_DELAY, FullRun, MenuClosed);
    }

    /**
     * A click on the toggle (its propagation stops, so the document handler
     * does not see it): close when active, open otherwise. Without the menu
     * elements no handler is bound.
     */
    method ToggleClick()
      requires Valid()
      modifies this
      ensures Valid()
      ensures !menuPresent ==> timers == old(timers) && menuActive == old(menuActive) && nextId == old(nextId)
      ensures menuPresent ==> nextId == old(nextId) + 1
      ensures menuPresent ==> menuActive == !old(menuActive)
      ensures menuPresent ==>
        timers == old(timers) + [if old(menuActive) then Timer(old(nextId), now + MENU_CLOSE_DELAY, FullRun, MenuClosed)
                                 else Timer(old(nextId), now + MENU_OPEN_DELAY, FullRun, MenuOpened)]
      ensures now == old(now) && resizeTimer == old(resizeTimer) && listening == old(listening) && paths == old(paths)
    {
      if !menuPresent {
        return;
      }
      if menuActive {
        CloseMenu();
      } else {
        OpenMenu();
      }
    }

    /** A click anywhere else: outside both the toggle and the menu it closes the menu (even a closed one). */
    method DocumentClick(insideMenu: bool)
      requires Valid()
      modifies this
      ensures Valid()
      ensures menuPresent && !insideMenu ==>
        !menuActive && timers == old(timers) + [Timer(old(nextId), now + MENU_CLOSE_DELAY, FullRun, MenuClosed)]
      ensures menuPresent && !insideMenu ==> nextId == old(nextId) + 1
      ensures !menuPresent || insideMenu ==> timers == old(timers) && menuActive == old(menuActive) && nextId == old(nextId)
      ensures now == old(now) && resizeTimer == old(resizeTimer) && listening == old(listening) && paths == old(paths)
    {
      if menuPresent && !insideMenu {
        CloseMenu();
      }
    }

    /** A key press: Escape closes the menu (even a closed one). */
    method KeyDown(key: string)
      requires Valid()
      modifies this
      ensures Valid()
      ensures menuPresent && key == "Escape" ==>
        !menuActive && timers == old(timers) + [Timer(old(nextId), now + MENU_CLOSE_DELAY, FullRun, MenuClosed)]
      ensures menuPresent && key == "Escape" ==> nextId == old(nextId) + 1
      ensures !menuPresent || key != "Escape" ==> timers == old(timers) && menuActive == old(menuActive) && nextId == old(nextId)
      ensures now == old(now) && resizeTimer == old(resizeTimer) && listening == old(listening) && paths == old(paths)
    {
      if menuPresent && key == "Escape" {
        CloseMenu();
      }
    }

    /**
     * JesterControl.adjustY: FINE_TUNE_Y := y, then a full run, whose
     * adaptTunables overwrites it. The offset y has no effect: the tunables
     * and the placement are those of the breakpoint table.
     */
    method AdjustY(y: real, env: Env) returns (r: Outcome)
      requires Valid()
      modifies this, tunables, image
      ensures Valid()
      ensures tunables.Current() == SelectProfile(EffectiveWidth(env.innerWidth, env.clientWidth))
      ensures PassEffect(tunables.Current(), PlacementQuery(env), old(image.Current()), image.Current(), r)
      ensures timers == old(timers) + Retries(old(nextId), now)
      ensures nextId == old(nextId) + 2 && now == old(now) && resizeTimer == old(resizeTimer)
      ensures listening == old(listening) && menuActive == old(menuActive)
      ensures paths == PathsAfter(env, old(paths))
    {
      tunables.SetFineTuneY(y);
      r := RunFull(env);
    }

    /** JesterControl.recalc: a full run on demand. */
    method Recalc(env: Env) returns (r: Outcome)
      requires Valid()
      modifies this, tunables, image
      ensures Valid()
      ensures tunables.Current() == SelectProfile(EffectiveWidth(env.innerWidth, env.clientWidth))
      ensures PassEffect(tunables.Current(), PlacementQuery(env), old(image.Current()), image.Current(), r)
      ensures timers == old(timers) + Retries(old(nextId), now)
      ensures nextId == old(nextId) + 2 && now == old(now) && resizeTimer == old(resizeTimer)
      ensures listening == old(listening) && menuActive == old(menuActive)
      ensures paths == PathsAfter(env, old(paths))
    {
      r := RunFull(env);
    }

    /** Time passes up to t without any timer falling due before t. */
    method Idle(t: int)
      requires Valid() && now <= t
      requires forall p :: p in timers ==> t <= p.due
      modifies this
      ensures Valid() && now == t
      ensures timers == old(timers) && resizeTimer == old(resizeTimer) && menuActive == old(menuActive)
      ensures listening == old(listening) && nextId == old(nextId) && paths == old(paths)
    {
      now := t;
    }

    /** The clock moves to the next timer's due time and that timer leaves the pending list. */
    method Fire() returns (fired: Timer)
      requires Valid() && timers != []
      modifies this
      ensures Valid()
      ensures fired == old(timers)[NextDue(old(timers))] && now == fired.due
      ensures timers == RemoveAt(old(timers), NextDue(old(timers)))
      ensures nextId == old(nextId) && paths == old(paths) && resizeTimer == old(resizeTimer)
      ensures menuActive == old(menuActive) && listening == old(listening)
    {
      var k := NextDue(timers);
      fired := timers[k];
      forall t | t in RemoveAt(timers, k)
        ensures fired.due <= t.due
      {
        var j :| 0 <= j < |timers| && timers[j] == t;
      }
      now := fired.due;
      timers := RemoveAt(timers, k);
    }

    /**
     * The task of a fired timer: a placement-only pass with the tunables as
     * they stand, or a full run.
     */
    method RunTask(task: Task, env: Env) returns (r: Outcome)
      requires Valid()
      modifies this, tunables, image
      ensures Valid()
      ensures task == PlaceOnly ==>
        && tunables.Current() == old(tunables.Current())
        && PassEffect(tunables.Current(), PlacementQuery(env), old(image.Current()), image.Current(), r)
        && timers == old(timers) && nextId == old(nextId) && paths == old(paths)
      ensures task == FullRun ==>
        && tunables.Current() == SelectProfile(EffectiveWidth(env.innerWidth, env.clientWidth))
        && PassEffect(tunables.Current(), PlacementQuery(env), old(image.Current()), image.Current(), r)
        && timers == old(timers) + Retries(old(nextId), now)
        && nextId == old(nextId) + 2 && paths == PathsAfter(env, old(paths))
      ensures now == old(now) && resizeTimer == old(resizeTimer) && menuActive == old(menuActive)
      ensures listening == old(listening)
    {
      if task == PlaceOnly {
        r := image.Place(tunables.Current(), PlacementQuery(env));
      } else {
        r := RunFull(env);
      }
    }

    /**
     * The next timer fires: the clock moves to its due time, it leaves the
     * pending list, and its task runs with the tunables as they stand
     * (a placement-only pass) or after adapting them (a full run).
     */
    method Tick(env: Env) returns (fired: Timer, r: Outcome)
      requires Valid() && timers != []
      modifies this, tunables, image
      ensures Valid()
      ensures fired == old(timers)[NextDue(old(timers))] && now == fired.due
      ensures fired.task == PlaceOnly ==>
        && tunables.Current() == old(tunables.Current())
        && PassEffect(tunables.Current(), PlacementQuery(env), old(image.Current()), image.Current(), r)
        && timers == RemoveAt(old(timers), NextDue(old(timers)))
        && nextId == old(nextId) && paths == old(paths)
      ensures fired.task == FullRun ==>
        && tunables.Current() == SelectProfile(EffectiveWidth(env.innerWidth, env.clientWidth))
        && PassEffect(tunables.Current(), PlacementQuery(env), old(image.Current()), image.Current(), r)
        && timers == RemoveAt(old(timers), NextDue(old(timers))) + Retries(old(nextId), now)
        && nextId == old(nextId) + 2 && paths == PathsAfter(env, old(paths))
      ensures resizeTimer == old(resizeTimer) && menuActive == old(menuActive) && listening == old(listening)
    {
      fired := Fire();
      r := RunTask(fired.task, env);
    }
  }

  /** Clearing the handle of the last of three timers with other handles leaves the first two. */
  lemma CancelLast(a: Timer, b: Timer, c: Timer)
    requires a.id != c.id && b.id != c.id
    ensures Cancel([a, b, c], c.id) == [a, b]
  {
    assert [c][1..] == [];
    assert Cancel([c], c.id) == [];
    assert [b, c][1..] == [c];
    assert Cancel([b, c], c.id) == [b];
    assert [a, b, c][1..] == [b, c];
  }

  /**
   * Fonts ready at t = 0 and a first resize event at t = 0: the full run's
   * two retries and one resize full run, due at 160, are pending.
   */
  method Startup(env: Env) returns (page: Page)
    ensures fresh(page) && fresh(page.tunables) && fresh(page.image) && page.Valid()
    ensures page.now == 0 && page.listening && page.resizeTimer == Some(2) && page.nextId == 3
    ensures page.timers == [Timer(0, 100, PlaceOnly, SettleRetry), Timer(1, 250, PlaceOnly, SettleRetry),
                            Timer(2, 160, FullRun, ResizeHandler)]
  {
    page := new Page(false, Attrs(0.0, 0.0, 0.0, 0.0));
    var _ := page.FontsReady(env);
    assert Retries(0, 0) == [Timer(0, 100, PlaceOnly, SettleRetry), Timer(1, 250, PlaceOnly, SettleRetry)];
    page.Resize();
  }

  /**
   * Fonts ready at t = 0, then resize events at t = 0, 50 and 100: the
   * earlier resize timers are cleared, and the pending list holds the first
   * run's two placement-only retries and one resize full run at 260.
   */
  method ResizeBurst(env: Env) returns (page: Page)
    ensures fresh(page) && fresh(page.tunables) && fresh(page.image) && page.Valid()
    ensures page.now == 100 && page.listening
    ensures page.timers == [Timer(0, 100, PlaceOnly, SettleRetry), Timer(1, 250, PlaceOnly, SettleRetry),
                            Timer(4, 260, FullRun, ResizeHandler)]
  {
    var retry1 := Timer(0, 100, PlaceOnly, SettleRetry);
    var retry2 := Timer(1, 250, PlaceOnly, SettleRetry);
    page := Startup(env);
    IdleThenResize(page, 50, retry1, retry2, Timer(2, 160, FullRun, ResizeHandler));
    IdleThenResize(page, 100, retry1, retry2, Timer(3, 210, FullRun, ResizeHandler));
  }

  /**
   * A resize event at time t while two other timers and the resize timer
   * c are pending: c is cleared and a new resize timer is due at t + 160.
   */
  method IdleThenResize(page: Page, t: int, a: Timer, b: Timer, c: Timer)
    requires page.Valid() && page.listening && page.now <= t
    requires page.timers == [a, b, c] && page.resizeTimer == Some(c.id) && a.id != c.id && b.id != c.id
    requires t <= a.due && t <= b.due && t <= c.due
    modifies page
    ensures page.Valid() && page.now == t && page.listening
    ensures page.timers == [a, b, Timer(old(page.nextId), t + RESIZE_DEBOUNCE, FullRun, ResizeHandler)]
    ensures page.resizeTimer == Some(old(page.nextId)) && page.nextId == old(page.nextId) + 1
  {
    page.Idle(t);
    CancelLast(a, b, c);
    page.Resize();
  }

  /**
   * After that burst, the timers fire in due order: the first run's two
   * placement-only retries at 100 and 250, then the single resize full run
   * at 260 = 100 + 160. The three resizes cause one full run.
   */
  method DebounceScenario(env: Env) returns (firings: seq<Timer>)
    ensures |firings| == 3
    ensures firings[0].due == 100 && firings[0].task == PlaceOnly
    ensures firings[1].due == 250 && firings[1].task == PlaceOnly
    ensures firings[2].due == 260 && firings[2].task == FullRun && firings[2].origin == ResizeHandler
  {
    var page := ResizeBurst(env);
    var retry2 := Timer(1, 250, PlaceOnly, SettleRetry);
    var last := Timer(4, 260, FullRun, ResizeHandler);
    assert NextDue(page.timers) == 0;
    var f1, _ := page.Tick(env);
    assert page.timers == [retry2, last];
    assert NextDue([retry2, last]) == 0;
    var f2, _ := page.Tick(env);
    assert page.timers == [last];
    var f3, _ := page.Tick(env);
    firings := [f1, f2, f3];
  }
}
