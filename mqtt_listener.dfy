/** The auto-deployer's hand-off listener: while the lock file exists it
    listens for the vehicle update manager's feedback messages, and on the
    first one reporting the status `IDENTIFIED` it renames the lock to
    `*.disabled` and raises the termination flag for the watch loop. The
    MQTT connection is a script of notifications; each connection error
    carries the outcome of the resubscribe attempt it provokes. */
module MqttListener {
  import opened Wrappers
  import opened Paths
  import opened Host

  /** The status after which the update manager takes over. */
  const VumStatusIdentified: string := "IDENTIFIED"
  /** The reconnect back-off step, in seconds. */
  const ReconnectTimeout: nat := 2
  const LockDirectory: Path := "/var/lib/kanto-auto-deployer/"
  /** The lock path used when none is configured at build time. */
  const DefaultLockPath: Path := LockDirectory + "KAD.enabled"
  const DisabledExtension: string := "disabled"

  type Bytes = seq<bv8>

  /** The feedback envelope, reduced to the fields the listener decodes. */
  datatype FeedbackMsg = FeedbackMsg(activityId: string, timestamp: nat, status: string)

  datatype ListenerError =
    | LockNotEnabled(lock: Path)
    | ExtensionNotChanged(lock: Path)
    | RenameFailed(from: Path, to: Path)
    | Undecodable
    | NotIdentified(status: string)
    | SubscribeFailed

  /** The lock is a regular file that exists. */
  predicate KadEnabled(entries: Entries, lock: Path)
  {
    IsRegularFile(entries, lock)
  }

  /** `disable_kad` on the file system: check the lock, compute the path with
      the `disabled` extension, rename. */
  function Disable(entries: Entries, lock: Path): Result<Entries, ListenerError>
  {
    if !KadEnabled(entries, lock) then Err(LockNotEnabled(lock))
    else match SetExtension(lock, DisabledExtension)
      case None => Err(ExtensionNotChanged(lock))
      case Some(target) =>
        match Renamed(entries, lock, target)
        case None => Err(RenameFailed(lock, target))
        case Some(moved) => Ok(moved)
  }

  /** A lock that is not enabled is an error and nothing is renamed; on
      success the lock file now sits at the same path with extension
      `disabled` (same directory, same stem), the old path is gone unless
      it already had that extension, and no other path changes. */
  lemma DisableSpec(entries: Entries, lock: Path)
    ensures !KadEnabled(entries, lock) ==> Disable(entries, lock) == Err(LockNotEnabled(lock))
    ensures Disable(entries, lock).Ok? ==>
              && KadEnabled(entries, lock)
              && SetExtension(lock, DisabledExtension).Some?
              && var target := SetExtension(lock, DisabledExtension).value;
                 var r := Disable(entries, lock).value;
                 && Extension(target) == Some(DisabledExtension)
                 && FileStem(target) == FileStem(lock)
                 && Parent(target) == Parent(lock)
                 && KadEnabled(r, target)
                 && (lock in r <==> target == lock)
                 && (forall p :: p != lock && p != target ==> (p in r <==> p in entries))
                 && (forall p :: p != lock && p != target && p in r ==> r[p] == entries[p])
  {
    if Disable(entries, lock).Ok? {
      var target := SetExtension(lock, DisabledExtension).value;
      SetExtensionSpec(lock, DisabledExtension);
      RenamedSpec(entries, lock, target);
    }
  }

  /** With the default lock path, an enabled lock `KAD.enabled` becomes
      `KAD.disabled` in the same directory. */
  lemma DisableDefaultLock(entries: Entries)
    requires KadEnabled(entries, DefaultLockPath)
    requires LockDirectory + "KAD.disabled" !in entries
    ensures Disable(entries, DefaultLockPath)
         == Ok((entries - {DefaultLockPath})[LockDirectory + "KAD.disabled" := RegularFile])
  {
    SetExtensionExample(LockDirectory);
  }

  /** A lock that already carries the `disabled` extension is "renamed" onto
      itself: the call succeeds and the lock stays where it was. */
  lemma DisableAlreadyDisabled(entries: Entries, lock: Path)
    requires KadEnabled(entries, lock)
    requires Extension(lock) == Some(DisabledExtension)
    ensures Disable(entries, lock) == Ok(entries)
    ensures KadEnabled(Disable(entries, lock).value, lock)
  {
    SetExtensionIdempotent(lock, DisabledExtension);
  }

  /** The state the listener shares with the rest of the daemon. */
  datatype Shared = Shared(entries: Entries, flag: bool)

  /** `handle_mqtt_payload`, given what decoding the payload produced. */
  function HandlePayload(s: Shared, lock: Path, decoded: Option<FeedbackMsg>): (Outcome<ListenerError>, Shared)
  {
    match decoded
    case None => (Fail(Undecodable), s)
    case Some(msg) =>
      if msg.status != VumStatusIdentified then (Fail(NotIdentified(msg.status)), s)
      else match Disable(s.entries, lock)
        case Err(e) => (Fail(e), s)
        case Ok(moved) => (Pass, Shared(moved, true))
  }

  /** Handling succeeds exactly for a decodable `IDENTIFIED` message whose
      rename succeeds, and only then is the flag raised; a failure leaves the
      file system and the flag as they were; the flag is never lowered. */
  lemma HandlePayloadSpec(s: Shared, lock: Path, decoded: Option<FeedbackMsg>)
    ensures var (o, t) := HandlePayload(s, lock, decoded);
      && (o.Pass? <==> decoded.Some? && decoded.value.status == VumStatusIdentified && Disable(s.entries, lock).Ok?)
      && (o.Pass? ==> t == Shared(Disable(s.entries, lock).value, true))
      && (o.Fail? ==> t == s)
      && (decoded.None? ==> o == Fail(Undecodable))
      && (decoded.Some? && decoded.value.status != VumStatusIdentified ==> o == Fail(NotIdentified(decoded.value.status)))
      && (s.flag ==> t.flag)
  {
  }

  /** `handle_mqtt_payload`: decode, check the status, disable the lock and
      only then raise the flag. */
  method HandleMqttPayload(payload: Bytes, decode: Bytes -> Option<FeedbackMsg>, lock: Path,
                           fs: FileStore, flag: AtomicFlag)
      returns (res: Outcome<ListenerError>)
    modifies fs, flag
    ensures (res, Shared(fs.entries, flag.value))
         == HandlePayload(Shared(old(fs.entries), old(flag.value)), lock, decode(payload))
  {
    var msg := decode(payload);
    if msg.None? {
      return Fail(Undecodable);
    }
    if msg.value.status != VumStatusIdentified {
      return Fail(NotIdentified(msg.value.status));
    }
    res := DisableKad(lock, fs);
    if res.Fail? {
      return;
    }
    flag.value := true;
  }

  /** `disable_kad`, renaming the lock in the store. */
  method DisableKad(lock: Path, fs: FileStore) returns (res: Outcome<ListenerError>)
    modifies fs
    ensures var d := Disable(old(fs.entries), lock);
            && (res.Pass? <==> d.Ok?)
            && (d.Err? ==> res == Fail(d.error) && fs.entries == old(fs.entries))
            && (d.Ok? ==> fs.entries == d.value)
  {
    if !KadEnabled(fs.entries, lock) {
      return Fail(LockNotEnabled(lock));
    }
    var target := SetExtension(lock, DisabledExtension);
    if target.None? {
      return Fail(ExtensionNotChanged(lock));
    }
    var ok := fs.Rename(lock, target.value);
    if !ok {
      return Fail(RenameFailed(lock, target.value));
    }
    return Pass;
  }

  /** The timeout after a reconnect attempt: reset on a successful
      resubscribe, one step longer on a failed one. */
  function NextTimeout(timeout: nat, delta: nat, resubscribed: bool): nat
  {
    if resubscribed then delta else timeout + delta
  }

  /** `try_mqtt_reconnect`: resubscribe; on failure lengthen the timeout and
      sleep for the new one (`slept`), on success reset it. */
  method TryMqttReconnect(timeout: nat, delta: nat, resubscribed: bool) returns (next: nat, slept: Option<nat>)
    ensures next == NextTimeout(timeout, delta, resubscribed)
    ensures slept == if resubscribed then None else Some(next)
  {
    if !resubscribed {
      next := timeout + delta;
      slept := Some(next);
    } else {
      next := delta;
      slept := None;
    }
  }

  /** What the MQTT connection yields: an incoming publish, any other
      packet, or a connection error (with the outcome of the resubscribe
      attempt it leads to). */
  datatype Notification = Publish(payload: Bytes) | OtherPacket | ConnectionError(resubscribed: bool)

  /** The listener between two notifications: the shared state, the current
      reconnect timeout and the sleeps taken so far. */
  datatype Listener = Listener(shared: Shared, timeout: nat, sleeps: seq<nat>)

  /** One notification: returns the new listener and whether the loop ends. */
  function Step(l: Listener, n: Notification, lock: Path, delta: nat, decode: Bytes -> Option<FeedbackMsg>): (Listener, bool)
  {
    match n
    case Publish(payload) =>
      var (o, s) := HandlePayload(l.shared, lock, decode(payload));
      (l.(shared := s), o.Pass?)
    case OtherPacket => (l, false)
    case ConnectionError(ok) =>
      var t := NextTimeout(l.timeout, delta, ok);
      (l.(timeout := t, sleeps := l.sleeps + if ok then [] else [t]), false)
  }

  /** The notification loop from position `i`: the final listener and the
      position of the message whose handling ended it, if any. */
  function Listen(l: Listener, script: seq<Notification>, i: nat, lock: Path, delta: nat,
                  decode: Bytes -> Option<FeedbackMsg>): (Listener, Option<nat>)
    requires i <= |script|
    decreases |script| - i
  {
    if i == |script| then (l, None)
    else
      var (next, stop) := Step(l, script[i], lock, delta, decode);
      if stop then (next, Some(i)) else Listen(next, script, i + 1, lock, delta, decode)
  }

  /** The loop stops at the first message whose handling succeeds: it ends
      there with the flag raised, nothing after it is looked at, and up to it
      the loop ran without stopping; when it runs to the end, the file
      system and the flag are as they were. */
  lemma {:induction false} ListenStops(l: Listener, script: seq<Notification>, i: nat, lock: Path, delta: nat,
                                       decode: Bytes -> Option<FeedbackMsg>)
    requires i <= |script|
    ensures var (fin, at) := Listen(l, script, i, lock, delta, decode);
      && (at.Some? ==>
            && i <= at.value < |script|
            && script[at.value].Publish?
            && fin.shared.flag
            && Listen(l, script[..at.value], i, lock, delta, decode).1 == None
            && Listen(l, script[..at.value + 1], i, lock, delta, decode) == (fin, at))
      && (at.None? ==> fin.shared == l.shared)
    decreases |script| - i
  {
    if i < |script| {
      var (next, stop) := Step(l, script[i], lock, delta, decode);
      if !stop {
        ListenStops(next, script, i + 1, lock, delta, decode);
        var at := Listen(l, script, i, lock, delta, decode).1;
        if at.Some? {
          PrefixListen(l, script, at.value, i, lock, delta, decode);
          PrefixListen(l, script, at.value + 1, i, lock, delta, decode);
        }
        if script[i].Publish? {
          HandlePayloadSpec(l.shared, lock, decode(script[i].payload));
        }
      } else {
        assert script[..i + 1][i] == script[i];
        HandlePayloadSpec(l.shared, lock, decode(script[i].payload));
      }
    }
  }

  /** Where the loop stops, it stops within the script. */
  lemma {:induction false} ListenAt(l: Listener, script: seq<Notification>, i: nat, lock: Path, delta: nat,
                                    decode: Bytes -> Option<FeedbackMsg>)
    requires i <= |script|
    ensures var at := Listen(l, script, i, lock, delta, decode).1;
            at.Some? ==> i <= at.value < |script|
    decreases |script| - i
  {
    if i < |script| {
      var (next, stop) := Step(l, script[i], lock, delta, decode);
      if !stop {
        ListenAt(next, script, i + 1, lock, delta, decode);
      }
    }
  }

  /** Running over a prefix that extends past the stopping point gives the
      same result as running over the whole script; running over a prefix
      that ends at or before it does not stop. */
  lemma {:induction false} PrefixListen(l: Listener, script: seq<Notification>, k: nat, i: nat, lock: Path, delta: nat,
                                        decode: Bytes -> Option<FeedbackMsg>)
    requires i <= k <= |script|
    ensures var at := Listen(l, script, i, lock, delta, decode).1;
            && (at.Some? && at.value < k ==> Listen(l, script[..k], i, lock, delta, decode) == Listen(l, script, i, lock, delta, decode))
            && (at.Some? && k <= at.value ==> Listen(l, script[..k], i, lock, delta, decode).1 == None)
    decreases |script| - i
  {
    var at := Listen(l, script, i, lock, delta, decode).1;
    ListenAt(l, script, i, lock, delta, decode);
    if i < k && at.Some? {
      assert script[..k][i] == script[i];
      var (next, stop) := Step(l, script[i], lock, delta, decode);
      if !stop {
        PrefixListen(next, script, k, i + 1, lock, delta, decode);
      }
    }
  }

  /** While the loop runs, the timeout and every sleep stay positive
      multiples of the back-off step. */
  lemma {:induction false} ListenBackoffMultiple(l: Listener, script: seq<Notification>, i: nat, lock: Path, delta: nat,
                                                 decode: Bytes -> Option<FeedbackMsg>)
    requires i <= |script|
    requires delta > 0
    requires l.timeout > 0 && l.timeout % delta == 0
    requires forall j :: 0 <= j < |l.sleeps| ==> l.sleeps[j] > 0 && l.sleeps[j] % delta == 0
    ensures var fin := Listen(l, script, i, lock, delta, decode).0;
            && fin.timeout > 0 && fin.timeout % delta == 0
            && forall j :: 0 <= j < |fin.sleeps| ==> fin.sleeps[j] > 0 && fin.sleeps[j] % delta == 0
    decreases |script| - i
  {
    if i < |script| {
      var (next, stop) := Step(l, script[i], lock, delta, decode);
      if script[i].ConnectionError? && !script[i].resubscribed {
        AddStepMultiple(l.timeout, delta);
      }
      if !stop {
        ListenBackoffMultiple(next, script, i + 1, lock, delta, decode);
      }
    }
  }

  lemma AddStepMultiple(t: nat, delta: nat)
    requires delta > 0 && t % delta == 0
    ensures (t + delta) % delta == 0
  {
    var q := t / delta;
    var q2 := (t + delta) / delta;
    var r2 := (t + delta) % delta;
    assert t == delta * q;
    assert t + delta == delta * q2 + r2;
    var e := q + 1 - q2;
    assert r2 == delta * e;
  }

  /** The sleeps taken by `k` consecutive failed resubscribes from
      timeout `t`: `t + delta`, ..., `t + k * delta`. */
  function Backoffs(t: nat, delta: nat, k: nat): seq<nat>
  {
    seq(k, j => t + (j + 1) * delta)
  }

  /** After `k` consecutive failed resubscribes starting from timeout `t`,
      the timeout is `t + k * delta` and the sleeps taken were
      `t + delta`, ..., `t + k * delta`; from the initial timeout `delta`
      this is `(k + 1) * delta`. */
  lemma {:induction false} ConsecutiveFailures(l: Listener, k: nat, lock: Path, delta: nat,
                                               decode: Bytes -> Option<FeedbackMsg>)
    ensures var script := seq(k, _ => ConnectionError(false));
            var fin := Listen(l, script, 0, lock, delta, decode);
            && fin.1 == None
            && fin.0.shared == l.shared
            && fin.0.timeout == l.timeout + k * delta
            && fin.0.sleeps == l.sleeps + Backoffs(l.timeout, delta, k)
    decreases k
  {
    var script := seq(k, _ => ConnectionError(false));
    if k > 0 {
      var next := Step(l, script[0], lock, delta, decode).0;
      ConsecutiveFailures(next, k - 1, lock, delta, decode);
      ShiftListen(l, script, lock, delta, decode);
      assert script[1..] == seq(k - 1, _ => ConnectionError(false));
      assert next.sleeps == l.sleeps + [l.timeout + delta];
      var b := Backoffs(l.timeout, delta, k);
      var b' := Backoffs(next.timeout, delta, k - 1);
      forall j | 0 <= j < k ensures b[j] == ([l.timeout + delta] + b')[j] {
        if j > 0 {
          assert (j + 1) * delta == j * delta + delta;
        }
      }
      assert b == [l.timeout + delta] + b';
      assert (k - 1) * delta + delta == k * delta;
    }
  }

  /** A run of failed resubscribes from position 0 is the first step and
      then the same run, one shorter, from position 0. */
  lemma ShiftListen(l: Listener, script: seq<Notification>, lock: Path, delta: nat,
                    decode: Bytes -> Option<FeedbackMsg>)
    requires |script| > 0
    requires forall j :: 0 <= j < |script| ==> script[j] == ConnectionError(false)
    ensures Listen(l, script, 0, lock, delta, decode)
         == Listen(Step(l, script[0], lock, delta, decode).0, script[1..], 0, lock, delta, decode)
  {
    ShiftListenFrom(Step(l, script[0], lock, delta, decode).0, script, 1, lock, delta, decode);
  }

  lemma {:induction false} ShiftListenFrom(l: Listener, script: seq<Notification>, i: nat, lock: Path, delta: nat,
                                           decode: Bytes -> Option<FeedbackMsg>)
    requires 1 <= i <= |script|
    requires forall j :: 0 <= j < |script| ==> script[j] == ConnectionError(false)
    ensures Listen(l, script, i, lock, delta, decode) == Listen(l, script[1..], i - 1, lock, delta, decode)
    decreases |script| - i
  {
    if i < |script| {
      assert script[1..][i - 1] == script[i];
      ShiftListenFrom(Step(l, script[i], lock, delta, decode).0, script, i + 1, lock, delta, decode);
    }
  }

  /** `mqtt_main`: do nothing when the lock is not enabled; otherwise
      subscribe and run the notification loop, starting with the timeout
      `ReconnectTimeout`, until a message hands over or the connection's
      notifications run out. */
  method MqttMain(lock: Path, subscribed: bool, script: seq<Notification>,
                  decode: Bytes -> Option<FeedbackMsg>, fs: FileStore, flag: AtomicFlag)
      returns (res: Outcome<ListenerError>, subscribing: bool, stoppedAt: Option<nat>, sleeps: seq<nat>)
    modifies fs, flag
    ensures subscribing == KadEnabled(old(fs.entries), lock)
    ensures !subscribing ==> res == Pass && stoppedAt == None && sleeps == []
                             && fs.entries == old(fs.entries) && flag.value == old(flag.value)
    ensures subscribing && !subscribed ==> res == Fail(SubscribeFailed) && stoppedAt == None && sleeps == []
                                           && fs.entries == old(fs.entries) && flag.value == old(flag.value)
    ensures subscribing && subscribed ==>
              && res == Pass
              && var init := Listener(Shared(old(fs.entries), old(flag.value)), ReconnectTimeout, []);
                 Listen(init, script, 0, lock, ReconnectTimeout, decode)
                   == (Listener(Shared(fs.entries, flag.value), Listen(init, script, 0, lock, ReconnectTimeout, decode).0.timeout, sleeps), stoppedAt)
  {
    subscribing := KadEnabled(fs.entries, lock);
    if !subscribing {
      return Pass, false, None, [];
    }
    if !subscribed {
      return Fail(SubscribeFailed), true, None, [];
    }
    var delta := ReconnectTimeout;
    var timeout := delta;
    ghost var init := Listener(Shared(fs.entries, flag.value), timeout, []);
    sleeps := [];
    res := Pass;
    stoppedAt := None;
    var i := 0;
    while i < |script|
      invariant i <= |script|
      invariant Listen(Listener(Shared(fs.entries, flag.value), timeout, sleeps), script, i, lock, delta, decode)
             == Listen(init, script, 0, lock, delta, decode)
      decreases |script| - i
    {
      ghost var before := Listener(Shared(fs.entries, flag.value), timeout, sleeps);
      ghost var step := Step(before, script[i], lock, delta, decode);
      match script[i] {
        case Publish(payload) =>
          var handled := HandleMqttPayload(payload, decode, lock, fs, flag);
          if handled.Pass? {
            stoppedAt := Some(i);
            return;
          }
        case OtherPacket =>
        case ConnectionError(ok) =>
          var slept;
          timeout, slept := TryMqttReconnect(timeout, delta, ok);
          if slept.Some? {
            sleeps := sleeps + [slept.value];
          }
      }
      assert !step.1 && step.0 == Listener(Shared(fs.entries, flag.value), timeout, sleeps);
      i := i + 1;
    }
  }
}
