/** The sequential deployer: build the glob pattern from the command line,
    connect to container management, and for every matching manifest file
    in turn read it, decode it, create the container and start it, stopping
    at the first error. The gRPC service, the file contents, the decoder
    and the glob enumeration are inputs; the calls the deployer makes are
    recorded as a trace. */
module Deployer {
  import opened Wrappers
  import opened Paths

  /** Where container management listens. */
  const SocketPath: string := "/run/container-management/container-management.sock"

  /** What the deployer does to the outside world, in order. */
  datatype Call<C> = ReadFile(path: Path) | CreateRpc(container: C) | StartRpc(id: string)

  datatype DeployError =
    | ConnectFailed
    | BadPattern(pattern: string)
    | GlobEntryFailed(reason: string)
    /** `read_to_string(..).expect(..)` fails: the process panics. */
    | ReadPanic(path: Path)
    | Undecodable(path: Path)
    | CreateFailed(status: string)
    | StartFailed(status: string)

  /** The world the deployer talks to: file contents, the manifest decoder,
      and the replies of container management to create (the id of the
      created container, if the reply carries one) and start requests. */
  datatype Env<!C> = Env(
    files: map<Path, string>,
    decode: string -> Option<C>,
    create: C -> Result<Option<string>, string>,
    start: string -> Outcome<string>)

  /** The pattern `main` globs for: the single argument as directory, or the
      current directory. */
  function Pattern(args: seq<string>): string
  {
    (if |args| == 2 then args[1] + "/" else "./") + "*.json"
  }

  /** The pattern selects `.json` files in the chosen directory: its
      directory part is the argument followed by `/` (or `./` without an
      argument), and its extension is `json`. */
  lemma PatternSpec(args: seq<string>)
    ensures Extension(Pattern(args)) == Some("json")
    ensures |args| == 2 ==> Parent(Pattern(args)) == args[1] + "/"
    ensures |args| != 2 ==> Parent(Pattern(args)) == "./"
  {
    var dir := if |args| == 2 then args[1] + "/" else "./";
    var p := Pattern(args);
    assert p == dir + "*.json";
    LastIndexOfAppend(dir, "*.json", '/');
    assert dir[|dir| - 1] == '/';
    assert NameStart(p) == |dir|;
    assert p[|dir|..] == "*" + "." + "json";
    StemAndExtension(p, |dir|, "*", "json");
  }

  /** The pattern construction of `main`, appending to `file_path` step by
      step; `dir` is the directory prefix it also keeps. */
  method GlobPattern(args: seq<string>) returns (filePath: string, dir: string)
    ensures filePath == Pattern(args)
    ensures filePath == dir + "*.json"
  {
    filePath := "";
    dir := "";
    if |args| == 2 {
      filePath := filePath + args[1];
      filePath := filePath + "/";
      dir := dir + filePath;
    } else {
      filePath := filePath + "./";
      dir := dir + filePath;
    }
    filePath := filePath + "*.json";
  }

  /** `start`: one start request for `id`. */
  function StartSpec<C>(env: Env<C>, id: string): (Outcome<DeployError>, seq<Call<C>>)
  {
    match env.start(id)
    case Fail(status) => (Fail(StartFailed(status)), [StartRpc(id)])
    case Pass => (Pass, [StartRpc(id)])
  }

  /** `create` for one file: read it (a missing file panics), decode it,
      create the container, then start it under the id the reply carries,
      or the empty id when the reply has no container. */
  function CreateSpec<C>(env: Env<C>, path: Path): (Outcome<DeployError>, seq<Call<C>>)
  {
    if path !in env.files then (Fail(ReadPanic(path)), [ReadFile(path)])
    else match env.decode(env.files[path])
      case None => (Fail(Undecodable(path)), [ReadFile(path)])
      case Some(c) =>
        match env.create(c)
        case Err(status) => (Fail(CreateFailed(status)), [ReadFile(path), CreateRpc(c)])
        case Ok(created) =>
          var (o, calls) := StartSpec(env, created.GetOr(""));
          (o, [ReadFile(path), CreateRpc(c)] + calls)
  }

  /** The loop over the glob entries, from entry `i`: an entry the glob
      could not produce, or a failing file, ends it with that error. */
  function DeployFrom<C>(env: Env<C>, entries: seq<Result<Path, string>>, i: nat): (Outcome<DeployError>, seq<Call<C>>)
    requires i <= |entries|
    decreases |entries| - i
  {
    if i == |entries| then (Pass, [])
    else match entries[i]
      case Err(reason) => (Fail(GlobEntryFailed(reason)), [])
      case Ok(path) =>
        var (o, calls) := CreateSpec(env, path);
        if o.Fail? then (o, calls)
        else
          var (o', rest) := DeployFrom(env, entries, i + 1);
          (o', calls + rest)
  }

  /** One round of the loop over the entries: an entry the glob could not
      produce ends the loop with its error. */
  lemma DeployFromErr<C>(env: Env<C>, entries: seq<Result<Path, string>>, i: nat)
    requires i < |entries| && entries[i].Err?
    ensures DeployFrom(env, entries, i) == (Fail(GlobEntryFailed(entries[i].error)), [])
  {
  }

  /** One round of the loop over the entries: a failing file ends the loop
      with that file's outcome and calls; otherwise its calls come before
      those of the rest of the loop. */
  lemma DeployFromOk<C>(env: Env<C>, entries: seq<Result<Path, string>>, i: nat,
                        o: Outcome<DeployError>, calls: seq<Call<C>>)
    requires i < |entries| && entries[i].Ok?
    requires (o, calls) == CreateSpec(env, entries[i].value)
    ensures o.Fail? ==> DeployFrom(env, entries, i) == (o, calls)
    ensures o.Pass? ==> DeployFrom(env, entries, i)
                        == (DeployFrom(env, entries, i + 1).0, calls + DeployFrom(env, entries, i + 1).1)
  {
  }

  /** All of `main` after argument parsing: connect, glob, deploy. */
  function MainSpec<C>(env: Env<C>, args: seq<string>, connected: bool,
                       glob: string -> Result<seq<Result<Path, string>>, string>): (Outcome<DeployError>, seq<Call<C>>)
  {
    if !connected then (Fail(ConnectFailed), [])
    else match glob(Pattern(args))
      case Err(_) => (Fail(BadPattern(Pattern(args))), [])
      case Ok(entries) => DeployFrom(env, entries, 0)
  }

  /** The calls of one file: a read of that file first; a create only after
      a successful decode; a start, with the id from the create reply or
      the empty id, exactly when the create succeeded; and the outcome is a
      success exactly when both requests succeeded. */
  lemma CreateSpecOrder<C>(env: Env<C>, path: Path)
    ensures var (o, calls) := CreateSpec(env, path);
      && 1 <= |calls| <= 3
      && calls[0] == ReadFile(path)
      && (|calls| >= 2 <==> path in env.files && env.decode(env.files[path]).Some?)
      && (|calls| >= 2 ==> calls[1] == CreateRpc(env.decode(env.files[path]).value))
      && (|calls| == 3 <==> |calls| >= 2 && env.create(calls[1].container).Ok?)
      && (|calls| == 3 ==> calls[2] == StartRpc(env.create(calls[1].container).value.GetOr("")))
      && (o.Pass? <==> |calls| == 3 && env.start(calls[2].id).Pass?)
  {
  }

  /** The reads: the paths of the files attempted, in order. */
  function Reads<C>(calls: seq<Call<C>>): seq<Path>
  {
    if calls == [] then []
    else (if calls[0].ReadFile? then [calls[0].path] else []) + Reads(calls[1..])
  }

  /** The paths of the first `n` entries, which are all produced. */
  function EntryPaths(entries: seq<Result<Path, string>>): seq<Path>
    requires forall j :: 0 <= j < |entries| ==> entries[j].Ok?
  {
    if entries == [] then [] else [entries[0].value] + EntryPaths(entries[1..])
  }

  lemma {:induction false} ReadsAppend<C>(a: seq<Call<C>>, b: seq<Call<C>>)
    ensures Reads(a + b) == Reads(a) + Reads(b)
  {
    if a == [] {
      assert a + b == b;
    } else {
      var head := if a[0].ReadFile? then [a[0].path] else [];
      assert (a + b)[0] == a[0];
      assert (a + b)[1..] == a[1..] + b;
      calc {
        Reads(a + b);
        head + Reads(a[1..] + b);
        { ReadsAppend(a[1..], b); }
        head + (Reads(a[1..]) + Reads(b));
      }
    }
  }

  lemma CreateSpecReads<C>(env: Env<C>, path: Path)
    ensures Reads(CreateSpec(env, path).1) == [path]
  {
    var calls := CreateSpec(env, path).1;
    CreateSpecOrder(env, path);
    assert calls == [calls[0]] + calls[1..];
    ReadsAppend([calls[0]], calls[1..]);
    if |calls| >= 2 {
      assert calls[1..] == [calls[1]] + calls[2..];
      ReadsAppend([calls[1]], calls[2..]);
      if |calls| == 3 {
        assert calls[2..] == [calls[2]];
      }
    }
  }

  /** Where the loop over the entries stops: at the first entry the glob
      could not produce or whose file fails, or after the last one. */
  function StopAt<C>(env: Env<C>, entries: seq<Result<Path, string>>, i: nat): (stop: nat)
    requires i <= |entries|
    ensures i <= stop <= |entries|
    ensures forall j :: i <= j < stop ==> entries[j].Ok? && CreateSpec(env, entries[j].value).0.Pass?
    ensures stop < |entries| ==> entries[stop].Err? || CreateSpec(env, entries[stop].value).0.Fail?
    decreases |entries| - i
  {
    if i == |entries| || entries[i].Err? || CreateSpec(env, entries[i].value).0.Fail? then i
    else StopAt(env, entries, i + 1)
  }

  /** The loop succeeds exactly when it gets past the last entry; otherwise
      it fails with the error of the entry where it stopped. */
  lemma {:induction false} DeployFromOutcome<C>(env: Env<C>, entries: seq<Result<Path, string>>, i: nat)
    requires i <= |entries|
    ensures var o := DeployFrom(env, entries, i).0;
            var stop := StopAt(env, entries, i);
            && (o.Pass? <==> stop == |entries|)
            && (stop < |entries| && entries[stop].Err? ==> o == Fail(GlobEntryFailed(entries[stop].error)))
            && (stop < |entries| && entries[stop].Ok? ==> o == CreateSpec(env, entries[stop].value).0)
    decreases |entries| - i
  {
    if i < |entries| && entries[i].Ok? && CreateSpec(env, entries[i].value).0.Pass? {
      DeployFromOutcome(env, entries, i + 1);
    }
  }

  /** The files read are exactly those of the entries from `i` up to the
      stopping one, each once and in enumeration order, together with the
      stopping entry's file when that file is what failed: later files get
      no calls at all. */
  lemma {:induction false} DeployFromReads<C>(env: Env<C>, entries: seq<Result<Path, string>>, i: nat)
    requires i <= |entries|
    ensures var stop := StopAt(env, entries, i);
            Reads(DeployFrom(env, entries, i).1)
              == EntryPaths(entries[i..stop])
                 + (if stop < |entries| && entries[stop].Ok? then [entries[stop].value] else [])
    decreases |entries| - i
  {
    var stop := StopAt(env, entries, i);
    if i == |entries| || entries[i].Err? {
      assert entries[i..stop] == [];
    } else {
      var path := entries[i].value;
      var (o1, calls1) := CreateSpec(env, path);
      CreateSpecReads(env, path);
      if o1.Fail? {
        assert entries[i..stop] == [];
      } else {
        DeployFromReads(env, entries, i + 1);
        ReadsAppend(calls1, DeployFrom(env, entries, i + 1).1);
        assert entries[i..stop][1..] == entries[i + 1..stop];
        assert EntryPaths(entries[i..stop]) == [path] + EntryPaths(entries[i + 1..stop]);
      }
    }
  }

  /** A connection failure means no file is touched. */
  lemma MainNoConnection<C>(env: Env<C>, args: seq<string>,
                            glob: string -> Result<seq<Result<Path, string>>, string>)
    ensures MainSpec(env, args, false, glob) == (Fail(ConnectFailed), [])
  {
  }

  /** `start`. */
  method Start<C>(env: Env<C>, id: string) returns (res: Outcome<DeployError>, calls: seq<Call<C>>)
    ensures (res, calls) == StartSpec(env, id)
  {
    calls := [StartRpc(id)];
    var reply := env.start(id);
    if reply.Fail? {
      return Fail(StartFailed(reply.error)), calls;
    }
    res := Pass;
  }

  /** `create`. */
  method Create<C>(env: Env<C>, filePath: Path) returns (res: Outcome<DeployError>, calls: seq<Call<C>>)
    ensures (res, calls) == CreateSpec(env, filePath)
  {
    calls := [ReadFile(filePath)];
    if filePath !in env.files {
      return Fail(ReadPanic(filePath)), calls;
    }
    var containerStr := env.files[filePath];
    var container := env.decode(containerStr);
    if container.None? {
      return Fail(Undecodable(filePath)), calls;
    }
    calls := calls + [CreateRpc(container.value)];
    assert calls == [ReadFile(filePath), CreateRpc(container.value)];
    var response := env.create(container.value);
    if response.Err? {
      return Fail(CreateFailed(response.error)), calls;
    }
    var id := "";
    if response.value.Some? {
      id := response.value.value;
    }
    var started;
    res, started := Start(env, id);
    calls := calls + started;
  }

  /** `main`: build the pattern, connect, and deploy the files the glob
      yields. */
  method DeployMain<C>(env: Env<C>, args: seq<string>, connected: bool,
                 glob: string -> Result<seq<Result<Path, string>>, string>)
      returns (res: Outcome<DeployError>, calls: seq<Call<C>>)
    ensures (res, calls) == MainSpec(env, args, connected, glob)
  {
    var filePath, _ := GlobPattern(args);
    if !connected {
      return Fail(ConnectFailed), [];
    }
    var listing := glob(filePath);
    if listing.Err? {
      return Fail(BadPattern(filePath)), [];
    }
    res, calls := DeployEntries(env, listing.value);
  }

  /** The `for` loop of `main`: deploy the entries one after the other;
      `fullName` holds the current entry's path and is cleared after each
      file. */
  method DeployEntries<C>(env: Env<C>, entries: seq<Result<Path, string>>)
      returns (res: Outcome<DeployError>, calls: seq<Call<C>>)
    ensures (res, calls) == DeployFrom(env, entries, 0)
  {
    ghost var whole := DeployFrom(env, entries, 0);
    calls := [];
    var fullName := "";
    var i := 0;
    assert whole.1 == calls + whole.1;
    while i < |entries|
      invariant i <= |entries|
      invariant fullName == ""
      invariant whole.0 == DeployFrom(env, entries, i).0
      invariant whole.1 == calls + DeployFrom(env, entries, i).1
      decreases |entries| - i
    {
      if entries[i].Err? {
        DeployFromErr(env, entries, i);
        assert calls + [] == calls;
        return Fail(GlobEntryFailed(entries[i].error)), calls;
      }
      var name := entries[i].value;
      fullName := fullName + name;
      assert fullName == name;
      var created, made := Create(env, fullName);
      DeployFromOk(env, entries, i, created, made);
      ghost var prev := calls;
      calls := calls + made;
      if created.Fail? {
        return created, calls;
      }
      ghost var rest := DeployFrom(env, entries, i + 1).1;
      assert prev + (made + rest) == calls + rest;
      fullName := "";
      i := i + 1;
    }
    assert calls + [] == calls;
    res := Pass;
  }
}
