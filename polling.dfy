/**
 * The listener thread: one poll cycle reads the player, fetches and fits the
 * cover, publishes the three entries of `shared_data` together and binds the
 * button; any failure skips the rest of the cycle.  The variables `handle` and
 * `status` that the button's closure reads keep whatever the cycle assigned
 * before it failed.  Every cycle ends with an interval sleep, and the
 * "no device" path sleeps once more in its handler.
 */
module Polling {
  import opened Base
  import opened Store
  import opened Player

  const UPDATE_INTERVAL: nat := 5
  const TARGET_WIDTH: nat := 1000
  const TARGET_HEIGHT: nat := 1000

  /** What `MediaPlayer.get_handle()` did. */
  datatype Lookup =
    | NotFound              // raised `DeviceNotFoundError`
    | BusError              // D-Bus itself raised some other exception
    | Found(handle: Handle)

  /**
   * Everything the collaborators did in one cycle.  `track` and `status` are the
   * `Track` and `Status` properties of the handle (`None`: reading raised);
   * `fetch` is the Last.fm cover lookup (a URL, or `None` when it raised),
   * `display` the download and decode of that URL, `fitOk` whether `ImageOps.fit` returned.
   */
  datatype Outcome = Outcome(
    lookup: Lookup,
    track: Option<map<string, string>>,
    status: Option<string>,
    fetch: (string, string) -> Option<string>,
    display: string -> Option<Image>,
    fitOk: bool)

  /** The two handlers of the cycle's `try`. */
  datatype Error = DeviceNotFoundError | Unexpected

  /** How the body of the `try` ended. */
  datatype Result = Published(snapshot: Snapshot) | Raised(error: Error)

  /**
   * What one cycle did: the values it assigned to `handle` and `status`
   * (`None`: it raised before that assignment) and how it ended.
   */
  datatype Effect = Effect(handle: Option<Handle>, status: Option<string>, result: Result)

  /**
   * The state the cycles act on: the published snapshot, the current values of
   * the closure's two variables, whether the button has a closure bound, and the
   * sleeps taken so far.
   */
  datatype World = World(snapshot: Snapshot, handle: Option<Handle>, status: Option<string>, bound: bool, sleeps: nat)

  /** The state at process start. */
  function Initial(): World
  {
    World(Placeholder(), None, None, false, 0)
  }

  /** `metadata.get('Artist', 'Unknown Artist')`. */
  function Artist(metadata: map<string, string>): (a: string)
    ensures "Artist" in metadata ==> a == metadata["Artist"]
    ensures "Artist" !in metadata ==> a == "Unknown Artist"
  {
    Get(metadata, "Artist", "Unknown Artist")
  }

  /** `metadata.get('Album', 'Unknown Album')`. */
  function Album(metadata: map<string, string>): (a: string)
    ensures "Album" in metadata ==> a == metadata["Album"]
    ensures "Album" !in metadata ==> a == "Unknown Album"
  {
    Get(metadata, "Album", "Unknown Album")
  }

  /** `metadata.get('Title', 'Unknown Track')`. */
  function Title(metadata: map<string, string>): (t: string)
    ensures "Title" in metadata ==> t == metadata["Title"]
    ensures "Title" !in metadata ==> t == "Unknown Track"
  {
    Get(metadata, "Title", "Unknown Track")
  }

  /** `ImageOps.fit(img, (1000, 1000), ...)`: only the target dimensions and the source are kept. */
  function Fit(src: Image): (img: Image)
    ensures img.width == TARGET_WIDTH && img.height == TARGET_HEIGHT
    ensures img.pixels.Fitted? && img.pixels.source == src
  {
    Image(TARGET_WIDTH, TARGET_HEIGHT, Fitted(src))
  }

  /**
   * What one cycle's `try` body does.  `handle` is assigned once the lookup
   * succeeds and `status` once both properties are read, whatever happens
   * after.  Only a missing device is a `DeviceNotFoundError`; the cycle
   * publishes exactly when every step succeeds, and then the snapshot is the
   * fitted cover requested with (artist, album), the defaulted artist and the
   * defaulted title.
   */
  function CycleEffect(o: Outcome): (e: Effect)
    ensures e.handle == (if o.lookup.Found? then Some(o.lookup.handle) else None)
    ensures e.status == (if o.lookup.Found? && o.track.Some? then o.status else None)
    ensures e.result.Raised? ==> (e.result.error == DeviceNotFoundError <==> o.lookup.NotFound?)
    ensures e.result.Published? <==>
      && o.lookup.Found? && o.track.Some? && o.status.Some? && o.fitOk
      && o.fetch(Artist(o.track.value), Album(o.track.value)).Some?
      && o.display(o.fetch(Artist(o.track.value), Album(o.track.value)).value).Some?
    ensures e.result.Published? ==>
      && e.result.snapshot.author == Artist(o.track.value)
      && e.result.snapshot.track == Title(o.track.value)
      && e.result.snapshot.img.width == TARGET_WIDTH && e.result.snapshot.img.height == TARGET_HEIGHT
      && e.result.snapshot.img.pixels
         == Fitted(o.display(o.fetch(Artist(o.track.value), Album(o.track.value)).value).value)
  {
    match o.lookup
    case NotFound => Effect(None, None, Raised(DeviceNotFoundError))
    case BusError => Effect(None, None, Raised(Unexpected))
    case Found(handle) =>
      if o.track.None? then Effect(Some(handle), None, Raised(Unexpected))
      else if o.status.None? then Effect(Some(handle), None, Raised(Unexpected))
      else
        var metadata := o.track.value;
        var cover := o.fetch(Artist(metadata), Album(metadata));
        var result :=
          if cover.None? then Raised(Unexpected)
          else
            var img := o.display(cover.value);
            if img.None? || !o.fitOk then Raised(Unexpected)
            else Published(Snapshot(Fit(img.value), Artist(metadata), Title(metadata)));
        Effect(Some(handle), o.status, result)
  }

  /** Sleeps a cycle takes: the `finally` one, plus the handler's own for a missing device. */
  function SleepsFor(r: Result): (n: nat)
    ensures 1 <= n <= 2
    ensures n == 2 <==> r == Raised(DeviceNotFoundError)
  {
    if r == Raised(DeviceNotFoundError) then 2 else 1
  }

  /** Keeps the old value of a variable unless the cycle assigned it. */
  function Assigned<T>(current: Option<T>, written: Option<T>): Option<T>
  {
    if written.Some? then written else current
  }

  /**
   * One cycle on the abstract state.  A cycle that does not publish leaves the
   * snapshot and whether a closure is bound as they were; one that publishes
   * replaces the whole snapshot and leaves a closure bound.  Each of the
   * closure's variables takes the value this cycle read, if it got that far.
   */
  function Step(w: World, o: Outcome): (r: World)
    ensures CycleEffect(o).result.Raised? ==> r.snapshot == w.snapshot && r.bound == w.bound
    ensures CycleEffect(o).result.Published? ==> r.snapshot == CycleEffect(o).result.snapshot && r.bound
    ensures r.handle == (if o.lookup.Found? then Some(o.lookup.handle) else w.handle)
    ensures r.status == (if o.lookup.Found? && o.track.Some? && o.status.Some? then o.status else w.status)
    ensures r.sleeps == w.sleeps + (if o.lookup.NotFound? then 2 else 1)
  {
    var e := CycleEffect(o);
    var snapshot := if e.result.Published? then e.result.snapshot else w.snapshot;
    World(snapshot, Assigned(w.handle, e.handle), Assigned(w.status, e.status),
          w.bound || e.result.Published?, w.sleeps + SleepsFor(e.result))
  }

  /** A finite prefix of the endless loop: the cycles run in order, and each one sleeps. */
  function Replay(w: World, os: seq<Outcome>): (r: World)
    ensures r.sleeps >= w.sleeps + |os|
    ensures w.bound ==> r.bound
    decreases |os|
  {
    if os == [] then w else Step(Replay(w, os[..|os| - 1]), os[|os| - 1])
  }

  /** What a press does in state `w`: nothing while unbound, else the closure on the current variables. */
  function PressOf(w: World): PressResult
  {
    if w.bound then Press(w.handle, w.status) else Issued([])
  }

  /** A bound closure never meets an unassigned variable. */
  predicate Coherent(w: World)
  {
    w.bound ==> w.handle.Some? && w.status.Some?
  }

  predicate Publishes(o: Outcome)
  {
    CycleEffect(o).result.Published?
  }

  /** The cycle assigns `status` (and, before it, `handle`). */
  predicate ReadsStatus(o: Outcome)
  {
    o.lookup.Found? && o.track.Some? && o.status.Some?
  }

  /** Number of cycles in which no device was found. */
  function NotFoundCount(os: seq<Outcome>): nat
    decreases |os|
  {
    if os == [] then 0
    else NotFoundCount(os[..|os| - 1]) + (if os[|os| - 1].lookup.NotFound? then 1 else 0)
  }

  /** Cycles that do not publish leave what readers see, and whether a closure is bound, as they were. */
  lemma {:induction false} FailuresKeepState(w: World, os: seq<Outcome>)
    requires forall i :: 0 <= i < |os| ==> !Publishes(os[i])
    ensures Replay(w, os).snapshot == w.snapshot
    ensures Replay(w, os).bound == w.bound
  {
    if os != [] {
      FailuresKeepState(w, os[..|os| - 1]);
    }
  }

  /** Before any cycle succeeds, readers see the placeholder and a press does nothing. */
  lemma PlaceholderUntilFirstSuccess(os: seq<Outcome>)
    requires forall i :: 0 <= i < |os| ==> !Publishes(os[i])
    ensures Replay(Initial(), os).snapshot == Placeholder()
    ensures !Replay(Initial(), os).bound
    ensures PressOf(Replay(Initial(), os)) == Issued([])
  {
    FailuresKeepState(Initial(), os);
  }

  /** The most recent successful cycle decides the snapshot, and a closure stays bound from then on. */
  lemma {:induction false} LastPublishWins(w: World, os: seq<Outcome>, k: nat)
    requires k < |os| && Publishes(os[k])
    requires forall i :: k < i < |os| ==> !Publishes(os[i])
    ensures Replay(w, os).snapshot == CycleEffect(os[k]).result.snapshot
    ensures Replay(w, os).bound
  {
    if k < |os| - 1 {
      LastPublishWins(w, os[..|os| - 1], k);
    }
  }

  /** `handle` holds the device of the most recent cycle whose lookup succeeded, whether or not it published. */
  lemma {:induction false} LastLookupWins(w: World, os: seq<Outcome>, j: nat)
    requires j < |os| && os[j].lookup.Found?
    requires forall i :: j < i < |os| ==> !os[i].lookup.Found?
    ensures Replay(w, os).handle == Some(os[j].lookup.handle)
  {
    if j < |os| - 1 {
      LastLookupWins(w, os[..|os| - 1], j);
    }
  }

  /** `status` holds the status of the most recent cycle that read it, whether or not it published. */
  lemma {:induction false} LastStatusWins(w: World, os: seq<Outcome>, j: nat)
    requires j < |os| && ReadsStatus(os[j])
    requires forall i :: j < i < |os| ==> !ReadsStatus(os[i])
    ensures Replay(w, os).status == os[j].status
  {
    if j < |os| - 1 {
      LastStatusWins(w, os[..|os| - 1], j);
    }
  }

  /** Once a closure is bound, both variables it reads have been assigned, and they stay so. */
  lemma {:induction false} StaysCoherent(w: World, os: seq<Outcome>)
    requires Coherent(w)
    ensures Coherent(Replay(w, os))
    ensures Replay(w, os).bound ==> PressOf(Replay(w, os)).Issued?
  {
    if os != [] {
      StaysCoherent(w, os[..|os| - 1]);
    }
  }

  /** Each cycle sleeps one interval, and a cycle without a device sleeps one more. */
  lemma {:induction false} SleepCount(w: World, os: seq<Outcome>)
    ensures Replay(w, os).sleeps == w.sleeps + |os| + NotFoundCount(os)
  {
    if os != [] {
      SleepCount(w, os[..|os| - 1]);
    }
  }

  /** What readers see is always the placeholder or a fitted 1000x1000 cover. */
  lemma {:induction false} AlwaysFormed(os: seq<Outcome>)
    ensures var s := Replay(Initial(), os).snapshot;
      s == Placeholder()
      || (s.img.width == TARGET_WIDTH && s.img.height == TARGET_HEIGHT && s.img.pixels.Fitted?)
  {
    if os != [] {
      AlwaysFormed(os[..|os| - 1]);
    }
  }

  /**
   * After some cycle has published, a press acts on the status read by the most
   * recent cycle that read one, on the handle of the most recent successful
   * lookup: one Pause for "playing", one Play for "paused", nothing otherwise.
   */
  lemma ButtonFollowsLastReads(w: World, os: seq<Outcome>, k: nat, i: nat, j: nat)
    requires k < |os| && Publishes(os[k])
    requires i < |os| && os[i].lookup.Found? && forall n :: i < n < |os| ==> !os[n].lookup.Found?
    requires j < |os| && ReadsStatus(os[j]) && forall n :: j < n < |os| ==> !ReadsStatus(os[n])
    ensures var h, st := os[i].lookup.handle, os[j].status.value;
      && (st == "playing" ==> PressOf(Replay(w, os)) == Issued([Call(h, Pause)]))
      && (st == "paused" ==> PressOf(Replay(w, os)) == Issued([Call(h, Play)]))
      && (st != "playing" && st != "paused" ==> PressOf(Replay(w, os)) == Issued([]))
  {
    BoundAfter(w, os, k);
    LastLookupWins(w, os, i);
    LastStatusWins(w, os, j);
  }

  /** A publish leaves a closure bound for the rest of the run. */
  lemma {:induction false} BoundAfter(w: World, os: seq<Outcome>, k: nat)
    requires k < |os| && Publishes(os[k])
    ensures Replay(w, os).bound
  {
    if k < |os| - 1 {
      BoundAfter(w, os[..|os| - 1], k);
    }
  }

  /** Missing metadata keys are defaulted, present ones are used unchanged, and the cover is requested with the album. */
  lemma PublishedDefaults(o: Outcome)
    requires Publishes(o)
    ensures var m := o.track.value; var s := CycleEffect(o).result.snapshot;
      && s.author == (if "Artist" in m then m["Artist"] else "Unknown Artist")
      && s.track == (if "Title" in m then m["Title"] else "Unknown Track")
      && o.fetch(s.author, if "Album" in m then m["Album"] else "Unknown Album").Some?
  {
  }

  /**
   * A cycle that reads artist "Radiohead", album "OK Computer" and title
   * "Paranoid Android" and gets a 300x300 cover publishes that author and track
   * with a 1000x1000 image; a next cycle that reads status "paused" and then
   * fails its cover lookup leaves the snapshot alone, but a press now plays.
   */
  lemma PublishThenLookupFailure(h: Handle)
    ensures var meta := map["Artist" := "Radiohead", "Album" := "OK Computer", "Title" := "Paranoid Android"];
      var ok := Outcome(Found(h), Some(meta), Some("playing"),
        (a, b) => if a == "Radiohead" && b == "OK Computer" then Some("cover") else None,
        u => Some(Image(300, 300, Decoded(0))), true);
      var miss := Outcome(Found(h), Some(meta), Some("paused"), (a, b) => None, u => None, true);
      var w1 := Step(Initial(), ok);
      var w2 := Step(w1, miss);
      && w1.snapshot.author == "Radiohead" && w1.snapshot.track == "Paranoid Android"
      && w1.snapshot.img.width == 1000 && w1.snapshot.img.height == 1000
      && PressOf(w1) == Issued([Call(h, Pause)])
      && w2.snapshot == w1.snapshot
      && PressOf(w2) == Issued([Call(h, Play)])
  {
    var meta := map["Artist" := "Radiohead", "Album" := "OK Computer", "Title" := "Paranoid Android"];
    assert Artist(meta) == "Radiohead" && Album(meta) == "OK Computer" && Title(meta) == "Paranoid Android";
  }

  /**
   * A cycle on a second device that reads Track, then fails reading Status,
   * moves `handle` to that device but keeps the earlier status: a press now
   * pauses the second device.
   */
  lemma LaterLookupRetargetsPress(h1: Handle, h2: Handle, meta: map<string, string>, w: World)
    requires w.bound && w.handle == Some(h1) && w.status == Some("playing")
    ensures var o := Outcome(Found(h2), Some(meta), None, (a, b) => None, u => None, true);
      && Step(w, o).snapshot == w.snapshot
      && PressOf(Step(w, o)) == Issued([Call(h2, Pause)])
  {
  }

  /** The listener thread, holding the shared dictionary, the button and the variables of its `run`. */
  class Listener {
    const interval: nat
    const shared: SharedData
    const button: Button
    const scope: Scope
    var sleeps: nat

    /** The dictionary is well formed, and the bound closure, if any, reads this run's assigned variables. */
    predicate Valid()
      reads this, shared, button, scope
    {
      && shared.Valid()
      && (button.whenPressed.Some? ==>
            button.whenPressed.value == scope && scope.handle.Some? && scope.status.Some?)
    }

    /** The abstract state the cycle specification speaks about. */
    function State(): (w: World)
      reads this, shared, button, scope
      requires Valid()
      ensures Coherent(w)
    {
      World(shared.Current(), scope.handle, scope.status, button.whenPressed.Some?, sleeps)
    }

    constructor (shared: SharedData, button: Button, interval: nat)
      requires shared.Valid() && button.whenPressed.None?
      ensures this.shared == shared && this.button == button && this.interval == interval
      ensures fresh(scope)
      ensures Valid() && State() == World(shared.Current(), None, None, false, 0)
    {
      this.shared := shared;
      this.button := button;
      this.interval := interval;
      scope := new Scope();
      sleeps := 0;
    }

    /** One pass of the `while True` body, with its handlers and its `finally`. */
    method Cycle(o: Outcome)
      requires Valid()
      modifies this, shared, button, scope
      ensures Valid()
      ensures State() == Step(old(State()), o)
    {
      var raised: Option<Error> := None;
      match o.lookup {
        case NotFound =>
          raised := Some(DeviceNotFoundError);
        case BusError =>
          raised := Some(Unexpected);
        case Found(h) =>
          scope.handle := Some(h);
          if o.track.None? || o.status.None? {
            raised := Some(Unexpected);
          } else {
            var metadata := o.track.value;
            scope.status := o.status;
            var author := Get(metadata, "Artist", "Unknown Artist");
            var album := Get(metadata, "Album", "Unknown Album");
            var track := Get(metadata, "Title", "Unknown Track");
            var cover := o.fetch(author, album);
            if cover.None? {
              raised := Some(Unexpected);
            } else {
              var img := o.display(cover.value);
              if img.None? || !o.fitOk {
                raised := Some(Unexpected);
              } else {
                shared.Publish(Snapshot(Fit(img.value), author, track));
                button.Bind(scope);
              }
            }
          }
      }
      if raised == Some(DeviceNotFoundError) {
        sleeps := sleeps + 1;
      }
      sleeps := sleeps + 1;
    }

    /** A finite run of the endless loop over the given cycle outcomes; no outcome stops it. */
    method Run(outcomes: seq<Outcome>)
      requires Valid()
      modifies this, shared, button, scope
      ensures Valid()
      ensures State() == Replay(old(State()), outcomes)
    {
      var i := 0;
      while i < |outcomes|
        invariant 0 <= i <= |outcomes|
        invariant Valid()
        invariant State() == Replay(old(State()), outcomes[..i])
      {
        assert outcomes[..i + 1][..i] == outcomes[..i];
        Cycle(outcomes[i]);
        i := i + 1;
      }
      assert outcomes[..|outcomes|] == outcomes;
    }

    /** A press of the button now: what the bound closure does; it never meets an unassigned variable. */
    method Press() returns (r: PressResult)
      requires Valid()
      ensures r == PressOf(State())
      ensures r.Issued?
    {
      r := button.Pressed();
    }
  }

  /** Process start: the shared dictionary, the unbound button and the listener with the default interval. */
  method Start() returns (listener: Listener)
    ensures fresh(listener) && fresh(listener.shared) && fresh(listener.button) && fresh(listener.scope)
    ensures listener.Valid() && listener.State() == Initial()
    ensures listener.interval == UPDATE_INTERVAL
  {
    var shared := new SharedData();
    var button := new Button();
    listener := new Listener(shared, button, UPDATE_INTERVAL);
  }
}
