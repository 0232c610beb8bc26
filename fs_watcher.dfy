/** The auto-deployer's file-system watch: the extension filter applied to
    changed paths, and the loop that races a two-second timer against the
    poll watcher's events, running the callback on each event and leaving
    once a timer tick sees the termination flag raised. The timer, the
    flag's value at each tick and the event channel become a script of
    wake-ups; the watcher's set-up is an outcome given as input. */
module FsWatcher {
  import opened Wrappers
  import opened Paths

  /** Seconds between two looks at the termination flag. */
  const CheckTerminationFlagTimeout: nat := 2
  /** The poll watcher's interval, in seconds. */
  const PollSeconds: nat := 10

  /** `is_filetype`: the path has an extension and it is exactly the given
      one (without the dot, case-sensitive). */
  function IsFiletype(path: Path, extension: string): bool
  {
    if Extension(path).None? then false
    else if Extension(path).value == extension then true
    else false
  }

  /** For an extension free of `.` and `/`: a path with no extension is never
      of the type, and a path is of the type exactly when it ends with the
      dot and the extension and the dot is not the first character of the
      final component. */
  lemma IsFiletypeSpec(path: Path, extension: string)
    requires extension != ""
    requires forall j :: 0 <= j < |extension| ==> extension[j] != '.' && extension[j] != '/'
    ensures Extension(path).None? ==> !IsFiletype(path, extension)
    ensures IsFiletype(path, extension)
        <==> && |path| >= |extension| + 2
             && path[|path| - |extension| - 1..] == "." + extension
             && path[|path| - |extension| - 2] != '/'
  {
    ExtensionIff(path, extension);
  }

  /** The extension is the text after the last dot. */
  lemma IsFiletypeLastDot()
    ensures IsFiletype("a.tar.json", "json")
  {
    IsFiletypeSpec("a.tar.json", "json");
    assert "a.tar.json"[5..] == ".json";
  }

  /** A name whose only dot is its first character has no extension. */
  lemma IsFiletypeLeadingDot()
    ensures !IsFiletype(".json", "json")
    ensures !IsFiletype("manifests/.json", "json")
  {
    IsFiletypeSpec(".json", "json");
    IsFiletypeSpec("manifests/.json", "json");
    assert "manifests/.json"[9] == '/';
  }

  /** The comparison is case-sensitive. */
  lemma IsFiletypeCaseSensitive()
    ensures !IsFiletype("a.JSON", "json")
  {
    IsFiletypeSpec("a.JSON", "json");
    assert "a.JSON"[1..][1] == 'J';
  }

  /** What wakes the loop: a timer tick, carrying the value of the
      termination flag the tick read (another thread raises the flag), or an
      event (or watcher error) received from the channel. */
  datatype Wake<E, X> = Tick(flagSeen: bool) | Received(event: Result<E, X>)

  /** How the watch ended: on the tick at `at` that saw the flag raised, on
      the watcher error received at `at`, on a failed set-up, or not at all
      within the script. */
  datatype WatchEnd<X> = Terminated(at: nat) | EventFailed(error: X, at: nat) | SetupFailed(error: X) | StillWatching

  /** Where in a script of length `n` the loop stopped. */
  function StopPosition<X>(end: WatchEnd<X>, n: nat): nat
  {
    match end
    case Terminated(at) => at
    case EventFailed(_, at) => at
    case _ => n
  }

  /** The events of successfully received wake-ups, in order. */
  function OkEvents<E, X>(ws: seq<Wake<E, X>>): seq<E>
  {
    if ws == [] then []
    else (if ws[0].Received? && ws[0].event.Ok? then [ws[0].event.value] else []) + OkEvents(ws[1..])
  }

  /** The loop from position `i`: how it ends and the events passed to
      the callback. */
  function Watch<E, X>(script: seq<Wake<E, X>>, i: nat): (WatchEnd<X>, seq<E>)
    requires i <= |script|
    decreases |script| - i
  {
    if i == |script| then (StillWatching, [])
    else match script[i]
      case Tick(seen) => if seen then (Terminated(i), []) else Watch(script, i + 1)
      case Received(Err(x)) => (EventFailed(x, i), [])
      case Received(Ok(e)) =>
        var (end, rest) := Watch(script, i + 1);
        (end, [e] + rest)
  }

  /** The loop leaves only on the first tick that sees the flag raised, or
      on the first watcher error, which it returns; every event received
      before then is passed to the callback once, in order, and events
      never end the loop by themselves. */
  lemma {:induction false} WatchSpec<E, X>(script: seq<Wake<E, X>>, i: nat)
    requires i <= |script|
    ensures var (end, handled) := Watch(script, i);
            var stop := StopPosition(end, |script|);
            && !end.SetupFailed?
            && i <= stop <= |script|
            && handled == OkEvents(script[i..stop])
            && (forall j :: i <= j < stop && script[j].Tick? ==> !script[j].flagSeen)
            && (forall j :: i <= j < stop && script[j].Received? ==> script[j].event.Ok?)
            && (end.Terminated? ==> stop < |script| && script[stop] == Tick(true))
            && (end.EventFailed? ==> stop < |script| && script[stop] == Received(Err(end.error)))
    decreases |script| - i
  {
    if i < |script| {
      var (end, handled) := Watch(script, i);
      var stop := StopPosition(end, |script|);
      if !(script[i].Tick? && script[i].flagSeen) && !(script[i].Received? && script[i].event.Err?) {
        WatchSpec(script, i + 1);
        assert script[i..stop][0] == script[i];
        assert script[i..stop][1..] == script[i + 1..stop];
      }
    }
  }

  /** While no tick sees the flag raised, the loop never terminates by
      itself. */
  lemma WatchFlagDown<E, X>(script: seq<Wake<E, X>>, i: nat)
    requires i <= |script|
    requires forall j :: i <= j < |script| && script[j].Tick? ==> !script[j].flagSeen
    ensures !Watch(script, i).0.Terminated?
  {
    WatchSpec(script, i);
  }

  /** `async_watch`: set the watcher up, then loop. */
  method AsyncWatch<E, X>(setup: Outcome<X>, script: seq<Wake<E, X>>)
      returns (end: WatchEnd<X>, handled: seq<E>)
    ensures setup.Fail? ==> end == SetupFailed(setup.error) && handled == []
    ensures setup.Pass? ==> (end, handled) == Watch(script, 0)
  {
    handled := [];
    if setup.Fail? {
      return SetupFailed(setup.error), [];
    }
    var i := 0;
    ghost var whole := Watch(script, 0);
    assert whole.1 == handled + whole.1;
    while i < |script|
      invariant i <= |script|
      invariant whole.0 == Watch(script, i).0
      invariant whole.1 == handled + Watch(script, i).1
      decreases |script| - i
    {
      match script[i] {
        case Tick(seen) =>
          if seen {
            assert handled + [] == handled;
            return Terminated(i), handled;
          }
        case Received(r) =>
          if r.Err? {
            assert Watch(script, i).1 == [];
            assert handled + [] == handled;
            return EventFailed(r.error, i), handled;
          }
          assert Watch(script, i).1 == [r.value] + Watch(script, i + 1).1;
          handled := handled + [r.value];
      }
      i := i + 1;
    }
    assert handled + [] == handled;
    return StillWatching, handled;
  }
}
