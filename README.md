# leda-utils: auto-deployer, terminal UI helpers and zeroconf publisher, in Dafny

This project models three small programs of the Eclipse Leda utilities and
proves properties of the model.

- **kanto-auto-deployer** deploys container manifests to Kanto container
  management. The model covers:
  - the sequential deployer of `main.rs`, which builds a glob pattern, reads,
    decodes, creates and starts the container of every matching file, and
    stops at the first error;
  - the manifest normaliser, which expands a simplified manifest over the
    full-option template with JSON Merge Patch (section 2 of RFC 7386), then
    copies eight top-level keys onto a fresh template;
  - the file-system watch loop and its extension filter;
  - the MQTT hand-off listener. On the update manager's `IDENTIFIED` status
    it renames the lock file from `*.enabled` to `*.disabled` and raises the
    termination flag; connection errors lead to resubscribes with a linear
    back-off.
- **kanto-tui** is a terminal UI. The model covers:
  - the key-binding notation of its configuration file (`x`, `^x` for Ctrl,
    `@x` for Alt): printing, serialising (which writes the printed form) and
    reading;
  - the container table: cells, column comparisons, and the projection of a
    container listing to rows sorted by id. Both the current table-view file
    and the older one are modelled.
- **kantocm-zeroconf** polls the container listing. It diffs each listing
  against the snapshot of the previous poll and publishes or unpublishes one
  DNS-SD service per container through a caching zeroconf client.

Stateful parts are classes:
- `Host.FileStore`: the file system as a map from paths to entry kinds.
- `Host.AtomicFlag`: the termination flag.
- `Zeroconf.ZeroconfClient`: the service cache and the log of registrations.
- `Zeroconf.KantocmZeroconf`: the snapshot of the last poll.

Each method is proved against a function of the old state. The properties
are proved about those functions.

Things that come from outside become inputs:
- Decoders, RPC replies and file contents are function-typed parameters or
  maps.
- The glob enumeration is a parameter.
- The MQTT connection, the watcher's wake-ups and the zeroconf polls are
  scripts (sequences).

Rust's `std::path` operations that the code relies on (`extension`,
`file_stem`, `set_extension`) are modelled in `Paths`. `fs::rename` is
modelled in `Host`. Rust's `slice::sort_by` and Python's `sorted` are both
modelled by the stable sort in `StableSort`.

Where the deployer's intended design and its code disagree, the model
follows the code:
- The deployer is sequential and stops at the first failing file. There is
  no concurrent batch, no connection retry policy, no "no manifests found"
  error (an empty glob succeeds), and no list/decide/recreate reconciliation:
  each file is created and then started.
- The lock file's extension is replaced (`set_extension`), not appended to.
  The default lock is `/var/lib/kanto-auto-deployer/KAD.enabled`, a
  build-time constant, not a file in the manifest directory.
- A failed rename is an error of the payload handler. The termination flag
  is then not raised, and the listener keeps listening.
- A simplified manifest without `image` is not rejected when the template
  has an `image` member: the data keys are looked up in the expanded
  document, which holds every template member, so the template's own image
  is copied. `ManifestParser.NormaliseMissingImageKeepsTemplate` states this.

Behaviour of the zeroconf publisher, as written:
- A container whose ports change while it keeps running is "republished".
  But the client reuses the service info cached at the first publication,
  so the old port stays advertised (`Zeroconf.RepublishKeepsCachedPort`).
- Unpublishing never drops a cached info (`Zeroconf.ApplyAllKeepsCache`).

## Model

| member | source | states |
|---|---|---|
| Lex.Compare | src/rust/kanto-tui/src/ui/containers_table_view.rs:56-61 | String comparison gives `Less` exactly when the first string sorts strictly before the second, `Equal` exactly when they are equal, and `Greater` exactly when the second sorts before the first. |
| StableSort.SortCorrect | src/rust/kanto-tui/src/ui/containers_table_view.rs:83 | For a strict total order on keys, the sort has the input's length. It is a permutation of the input, it is ordered by key, and it is stable: for every key, the elements carrying it keep their input order. |
| Json.MergePatchMembers | src/rust/kanto-auto-deployer/src/manifest_parser.rs:112-119 | Merge Patch per section 2 of RFC 7386. A non-object patch replaces the target. With an object patch, a `null` member deletes its key and any other member is merged recursively into the target's value (or `null`). Target keys the patch does not name are kept unchanged. |
| Json.MergePatchIdempotent | src/rust/kanto-auto-deployer/src/manifest_parser.rs:112-119 | Merging the same patch twice gives the same result as merging it once. |
| Json.MergePatchKeys | src/rust/kanto-auto-deployer/src/manifest_parser.rs:112-119 | For an object target and patch, the result's keys are those of both, less the keys the patch sets to `null`. |
| ManifestParser.UpdateTemplate | src/rust/kanto-auto-deployer/src/manifest_parser.rs:31-47 | A missing template key is reported first, then a missing data key. The update succeeds exactly when both keys are present. Failure leaves the template unchanged. Success replaces only the template key's value, by the data value, and keeps the key set. |
| ManifestParser.UpdateOptional | src/rust/kanto-auto-deployer/src/manifest_parser.rs:49-54 | A failed optional update is only logged. The document then keeps every value it had, so the overlay grows by the key whether or not the update succeeded. |
| ManifestParser.MapMandatory | src/rust/kanto-auto-deployer/src/manifest_parser.rs:67-70 | `name`, then `image`: the first failure is the re-mapping's error. On success the re-mapping succeeds and both mandatory keys are copied. |
| ManifestParser.MapOptional | src/rust/kanto-auto-deployer/src/manifest_parser.rs:71-108 | After the six optional updates, in order, every mapped target whose manifest key is present is overwritten. The rest keep their template values. |
| ManifestParser.MapToInternalStateManifest | src/rust/kanto-auto-deployer/src/manifest_parser.rs:60-110 | The imperative re-mapping returns exactly the declarative re-mapping `Remapped`: the errors for a non-object template or manifest, a missing mandatory pair, and otherwise the overwritten template. |
| ManifestParser.RemappedMandatory | src/rust/kanto-auto-deployer/src/manifest_parser.rs:67-70 | Re-mapping two objects succeeds if and only if both mandatory pairs are present. A missing `container_name` is reported before a missing `image`. |
| ManifestParser.RemappedFromTemplate | src/rust/kanto-auto-deployer/src/manifest_parser.rs:60-110 | The result has exactly the template's keys. Keys outside the eight targets keep the template value. An optional target whose manifest key is absent keeps its default. A target whose manifest key is present takes the manifest's value. |
| ManifestParser.NormaliseNonObject | src/rust/kanto-auto-deployer/src/manifest_parser.rs:114-131 | A manifest that is not a JSON object replaces the template in the merge, and re-mapping rejects it. |
| ManifestParser.NormaliseMissingName | src/rust/kanto-auto-deployer/src/manifest_parser.rs:69 | Suppose the template has no `container_name` member, and the simplified manifest lacks `container_name` or sets it to `null`. Then normalisation fails with the mapping error naming `container_name`. |
| ManifestParser.NormaliseMissingImageKeepsTemplate | src/rust/kanto-auto-deployer/src/manifest_parser.rs:70 | When the template has an `image` member, a manifest without `image` still normalises successfully, and the result carries the template's image. |
| ManifestParser.NormaliseOptionalDefault | src/rust/kanto-auto-deployer/src/manifest_parser.rs:71-108 | An optional target whose manifest key the simplified manifest omits takes the template's value for that manifest key when the template has one. Otherwise it keeps its own template default. |
| ManifestParser.TryParseManifestTemplateFree | src/rust/kanto-auto-deployer/src/manifest_parser.rs:121-134 | Text that the container decoder accepts is returned as decoded, with no expansion, whatever the template. Text that is neither a container nor JSON is `NotJson`, whatever the template. |
| ManifestParser.TryParseManifestSimplified | src/rust/kanto-auto-deployer/src/manifest_parser.rs:127-144 | Take a simplified manifest that sets `container_name` (to a non-object) and `image`, over a template with `name` and `image`. The document handed to the container decoder has the template's keys. Its `name` is the manifest's `container_name`. Its `image` is the manifest's `image` merged over the template's. The result is that decoding, or `NotCanonical` when the decoder refuses it. |
| ManifestParser.TryParseManifestNotObject | src/rust/kanto-auto-deployer/src/manifest_parser.rs:131-134 | JSON text that is not a container and not an object is rejected with `ManifestNotObject`. |
| ManifestParser.TryParseManifestMissingName | src/rust/kanto-auto-deployer/src/manifest_parser.rs:131-134 | A simplified manifest without `container_name` (or with it `null`), over a template without that member, is rejected with the error naming `container_name`. |
| Paths.ExtensionIff | src/rust/kanto-auto-deployer/src/fs_watcher.rs:84-88 | For an extension without `.` or `/`, a path has that extension if and only if it ends with the dot and the extension, and the dot is not the first character of the final component. |
| Paths.SetExtensionSpec | src/rust/kanto-auto-deployer/src/mqtt_listener.rs:68-73 | When `set_extension` succeeds, the new path has the requested extension, the same stem and the same directory part. |
| Paths.SetExtensionShape | src/rust/kanto-auto-deployer/src/mqtt_listener.rs:68-73 | The new path is the old one up to the end of the stem, followed by a dot and the new extension. |
| Paths.SetExtensionIdempotent | src/rust/kanto-auto-deployer/src/mqtt_listener.rs:68-73 | Setting the extension a path already has gives back the same path. |
| Paths.SetExtensionReplaces | src/rust/kanto-auto-deployer/src/mqtt_listener.rs:68-73 | `dir/stem.from` becomes `dir/stem.to`: the old extension is replaced, not appended to. |
| Paths.SetExtensionExample | src/rust/kanto-auto-deployer/src/mqtt_listener.rs:30-37 | The default lock `.../KAD.enabled` with extension `disabled` becomes `.../KAD.disabled`. |
| Paths.StemAndExtension | src/rust/kanto-auto-deployer/src/fs_watcher.rs:84-88 | A final component `stem.ext` with a non-empty stem and a dot-free extension has exactly that stem and that extension. |
| Host.RenamedSpec | src/rust/kanto-auto-deployer/src/mqtt_listener.rs:74 | For a regular-file source, the rename fails if and only if the source is missing or the target is an existing directory. On success the target holds the source's entry. The source is gone unless it is the target. Every other path is untouched. |
| Host.FileStore.Rename | src/rust/kanto-auto-deployer/src/mqtt_listener.rs:74 | Reports success exactly when `Renamed` succeeds. The store then holds `Renamed`'s result; on failure it is unchanged. |
| MqttListener.DisableSpec | src/rust/kanto-auto-deployer/src/mqtt_listener.rs:59-77 | A lock that is not an existing regular file is an error and nothing changes. On success the lock is a regular file at the path with the `disabled` extension, in the same directory with the same stem. The old path is gone unless it already had that extension, and no other path changes. |
| MqttListener.DisableDefaultLock | src/rust/kanto-auto-deployer/src/mqtt_listener.rs:30-37 | With the default lock path and nothing yet at `KAD.disabled`, disabling moves `KAD.enabled` to `KAD.disabled`. |
| MqttListener.DisableAlreadyDisabled | src/rust/kanto-auto-deployer/src/mqtt_listener.rs:68-74 | A lock that already has the `disabled` extension is renamed onto itself. The call succeeds and the lock stays in place. |
| MqttListener.HandlePayloadSpec | src/rust/kanto-auto-deployer/src/mqtt_listener.rs:79-100 | Handling succeeds exactly for a decodable `IDENTIFIED` message whose lock is disabled successfully, and only then is the flag raised. Any failure leaves the file system and the flag unchanged. Undecodable and non-`IDENTIFIED` messages get their own errors. The flag is never lowered. |
| MqttListener.HandleMqttPayload | src/rust/kanto-auto-deployer/src/mqtt_listener.rs:79-100 | The method's outcome, new file system and new flag are those of `HandlePayload` on the old state. |
| MqttListener.DisableKad | src/rust/kanto-auto-deployer/src/mqtt_listener.rs:59-77 | Succeeds exactly when `Disable` does. The store then holds `Disable`'s result; on failure it is unchanged and the error is `Disable`'s. |
| MqttListener.TryMqttReconnect | src/rust/kanto-auto-deployer/src/mqtt_listener.rs:102-115 | A failed resubscribe lengthens the timeout by the step and sleeps for the new timeout. A successful one resets the timeout to the step and does not sleep. |
| MqttListener.ListenStops | src/rust/kanto-auto-deployer/src/mqtt_listener.rs:144-159 | The loop stops exactly at the first message whose handling succeeds. That is a publish, the flag is then raised, nothing after it is looked at, and the loop did not stop before it. A loop that runs to the end leaves the file system and the flag unchanged. |
| MqttListener.PrefixListen | src/rust/kanto-auto-deployer/src/mqtt_listener.rs:144-159 | The loop's result depends only on the notifications up to its stopping point. |
| MqttListener.ListenBackoffMultiple | src/rust/kanto-auto-deployer/src/mqtt_listener.rs:138-159 | Starting from a positive multiple of the step, the timeout and every sleep stay positive multiples of the step. |
| MqttListener.ConsecutiveFailures | src/rust/kanto-auto-deployer/src/mqtt_listener.rs:102-115 | After `k` consecutive failed resubscribes from timeout `t`, the loop has not stopped and the shared state is unchanged. The timeout is `t + k*delta`, and the sleeps were `t + delta`, ..., `t + k*delta`. |
| MqttListener.MqttMain | src/rust/kanto-auto-deployer/src/mqtt_listener.rs:117-162 | Without an enabled lock, nothing is subscribed or changed. A failed subscribe is an error that changes nothing. Otherwise the final file system, flag, sleeps and stopping point are those of the loop `Listen`, started with timeout `ReconnectTimeout`. |
| FsWatcher.IsFiletypeSpec | src/rust/kanto-auto-deployer/src/fs_watcher.rs:83-93 | A path without an extension is never of the type. A path is of the type exactly when it ends with the dot and the extension, and the dot does not start the final component. |
| FsWatcher.IsFiletypeLastDot | src/rust/kanto-auto-deployer/src/fs_watcher.rs:83-93 | The extension is the text after the last dot (`a.tar.json` is a `json` file). |
| FsWatcher.IsFiletypeLeadingDot | src/rust/kanto-auto-deployer/src/fs_watcher.rs:83-93 | A name whose only dot comes first (`.json`) has no extension. |
| FsWatcher.IsFiletypeCaseSensitive | src/rust/kanto-auto-deployer/src/fs_watcher.rs:88 | The comparison is case-sensitive. |
| FsWatcher.WatchSpec | src/rust/kanto-auto-deployer/src/fs_watcher.rs:63-80 | The loop leaves only on the first tick that sees the flag raised, or on the first watcher error, which it returns. Every event received before then goes to the callback once, in order. |
| FsWatcher.WatchFlagDown | src/rust/kanto-auto-deployer/src/fs_watcher.rs:68-74 | While no tick sees the flag raised, the loop never terminates by itself. |
| FsWatcher.AsyncWatch | src/rust/kanto-auto-deployer/src/fs_watcher.rs:49-81 | A failed set-up is returned with no event handled. Otherwise the end and the handled events are those of `Watch`. |
| Deployer.PatternSpec | src/rust/kanto-auto-deployer/src/main.rs:59-70 | The pattern's extension is `json`. Its directory part is the single argument followed by `/`, or `./` when there is not exactly one argument. |
| Deployer.GlobPattern | src/rust/kanto-auto-deployer/src/main.rs:59-70 | The step-by-step pattern construction yields `Pattern(args)`, which is its directory prefix followed by `*.json`. |
| Deployer.CreateSpecOrder | src/rust/kanto-auto-deployer/src/main.rs:38-55 | Each file is read first. A create follows only after a successful decode. A start follows exactly when the create succeeded, with the reply's id or the empty id. The outcome is a success exactly when both requests succeeded. |
| Deployer.CreateSpecReads | src/rust/kanto-auto-deployer/src/main.rs:38-55 | Handling one file reads exactly that file. |
| Deployer.StopAt | src/rust/kanto-auto-deployer/src/main.rs:81-87 | The stopping entry is the first entry the glob could not produce or whose file fails; every entry before it succeeds. |
| Deployer.DeployFromOutcome | src/rust/kanto-auto-deployer/src/main.rs:81-87 | The loop succeeds if and only if it gets past the last entry. Otherwise it fails with the error of the entry where it stopped. |
| Deployer.DeployFromReads | src/rust/kanto-auto-deployer/src/main.rs:81-87 | The files read are those of the entries up to the stopping one, once each and in enumeration order. The stopping file is included when it is the one that failed. Later files are never touched. |
| Deployer.DeployFromErr | src/rust/kanto-auto-deployer/src/main.rs:82-83 | An entry the glob could not produce ends the loop with its error and no calls. |
| Deployer.DeployFromOk | src/rust/kanto-auto-deployer/src/main.rs:82-86 | A failing file ends the loop with that file's outcome and calls. A succeeding file's calls come before those of the rest of the loop. |
| Deployer.MainNoConnection | src/rust/kanto-auto-deployer/src/main.rs:72-76 | A connection failure touches no file. |
| Deployer.Start | src/rust/kanto-auto-deployer/src/main.rs:28-36 | One start request, whose failure is the outcome. |
| Deployer.Create | src/rust/kanto-auto-deployer/src/main.rs:38-55 | The outcome and calls are those of `CreateSpec`. |
| Deployer.DeployMain | src/rust/kanto-auto-deployer/src/main.rs:57-90 | The outcome and calls are those of `MainSpec`: connect, glob, then the loop over the entries. |
| Deployer.DeployEntries | src/rust/kanto-auto-deployer/src/main.rs:81-87 | The loop's outcome and calls are those of `DeployFrom` from the first entry. |
| KantuiConfig.FilterSpec | src/rust/kanto-tui/src/kantui_config.rs:92-95 | The filter never lengthens the text and its output holds only ASCII non-whitespace characters. It leaves text made only of such characters unchanged. |
| KantuiConfig.FilterKeepsCounts | src/rust/kanto-tui/src/kantui_config.rs:92-95 | Every ASCII non-whitespace character of the input appears in the output exactly as often as in the input. Every other character is dropped entirely. |
| KantuiConfig.FilterAppend | src/rust/kanto-tui/src/kantui_config.rs:92-95 | The filter distributes over concatenation. |
| KantuiConfig.RoundTrip | src/rust/kanto-tui/src/kantui_config.rs:66-113 | Printing then reading gives back every character binding on an ASCII non-whitespace character. The exceptions are the plain keys `^` and `@`, which read back as an incomplete Ctrl or Alt binding. |
| KantuiConfig.OtherEventNotReadable | src/rust/kanto-tui/src/kantui_config.rs:72 | Any other event prints as the empty string, which reads as "no first character". |
| KantuiConfig.ReadPrintRead | src/rust/kanto-tui/src/kantui_config.rs:66-113 | Any binding that was read prints to a form that reads back to the same binding. |
| KantuiConfig.IgnoresRest | src/rust/kanto-tui/src/kantui_config.rs:97-109 | Once the kept characters name a complete binding, anything appended is ignored. |
| KantuiConfig.DeserializeCases | src/rust/kanto-tui/src/kantui_config.rs:97-111 | No kept character, or a lone `^` or `@`, is the matching error. A binding that was read prints as a prefix of the kept characters. |
| KantuiConfig.DeserializeSkipsWhitespace | src/rust/kanto-tui/src/kantui_config.rs:92-95 | Whitespace and non-ASCII characters anywhere are skipped (` ^ é\tq` is Ctrl+q). |
| ContainersTable.ToColumnRebuildsRow | src/rust/kanto-tui/src/ui/containers_table_view.rs:43-50 | Each column shows exactly its own field, so the four cells give back the row. |
| ContainersTable.CmpIsCellOrder | src/rust/kanto-tui/src/ui/containers_table_view.rs:52-62 | Comparing on a column is the lexicographic order of the cells shown in that column, in all three outcomes. |
| ContainersTable.CmpAntisymmetric | src/rust/kanto-tui/src/ui/containers_table_view.rs:52-62 | Swapping the rows swaps `Less` and `Greater` and keeps `Equal`. |
| ContainersTable.Rows | src/rust/kanto-tui/src/ui/containers_table_view.rs:74-82 | There is one row per container, in listing order. |
| ContainersTable.ToRowCells | src/rust/kanto-tui/src/ui/containers_table_view.rs:65-82 | Id and name are copied. The image cell is `N/A` without an image. The state cell is the status, or `Unknown?` without a state. |
| ContainersTable.LegacyAgrees | src/rust/kanto-tui/src/containers_table_view.rs:71-84 | Where the older view can build a row, it is the current view's row, and its image cell is the container's image name. |
| ContainersTable.ItemsToColumns | src/rust/kanto-tui/src/ui/containers_table_view.rs:72-85 | One row per container. The result is a permutation of the containers' rows, in ascending id order, and rows with equal ids keep their listing order. |
| ContainersTable.LegacyItemsToColumns | src/rust/kanto-tui/src/containers_table_view.rs:71-84 | Panics if and only if some container has no image. Otherwise the result is as for the current view. |
| Zeroconf.ReplaceChar | src/python/kantocm-zeroconf/kantocm_zeroconf.py:186 | Same length, with every space replaced by an underscore and every other character kept. |
| Zeroconf.RemoveCharSpec | src/python/kantocm-zeroconf/kantocm_zeroconf.py:188 | Removing a character leaves none of it and adds no character. Every other character is kept as often as it occurs. A name without that character comes back unchanged. |
| Zeroconf.DropIfLong | src/python/kantocm-zeroconf/kantocm_zeroconf.py:187-190 | Never lengthens and adds no character. Every other character is kept as often as it occurs. A name longer than 15 characters loses every occurrence of the character. A name of at most 15 characters comes back unchanged. |
| Zeroconf.Truncate | src/python/kantocm-zeroconf/kantocm_zeroconf.py:191-192 | The result is a prefix of the input: its first 15 characters, or the whole input when it has at most 15. |
| Zeroconf.ValidServiceNameLong | src/python/kantocm-zeroconf/kantocm_zeroconf.py:185-193 | A name longer than 15 characters with no space and no underscore, such as a container id, loses its hyphens and is then cut to the first 15 characters of what remains. |
| Zeroconf.ValidServiceNameValid | src/python/kantocm-zeroconf/kantocm_zeroconf.py:185-193 | The service name has at most 15 characters and no space. A name longer than 15 characters keeps no underscore. |
| Zeroconf.ValidServiceNameMinimal | src/python/kantocm-zeroconf/kantocm_zeroconf.py:185-193 | A name of at most 15 characters only has its spaces replaced, and comes back unchanged if it has none. A name that fits once its underscores are gone keeps its hyphens. |
| Zeroconf.PortPairs | src/python/kantocm-zeroconf/kantocm_zeroconf.py:73-74 | One `(host_port, protocol)` pair per mapping, in order. |
| Zeroconf.PortBelowIsStrictTotalOrder | src/python/kantocm-zeroconf/kantocm_zeroconf.py:73 | Python's order on `(int, str)` tuples is a strict total order. |
| Zeroconf.PortsSpec | src/python/kantocm-zeroconf/kantocm_zeroconf.py:72-76 | A `TypeError` gives no ports. Otherwise the ports are exactly the container's pairs, in ascending order. |
| Zeroconf.PublishSpec | src/python/kantocm-zeroconf/kantocm_zeroconf.py:153-182 | Publishing registers the info cached for the container if there is one, whatever the current ports. Otherwise it registers and caches a new info. Its type is `_<valid id>._<protocol>.local.`, its name is the container name, a `.`, then that type, its port is the first host port. No other id enters or leaves the cache, and every other cached info stays as it was. |
| Zeroconf.UpdateServiceNoOps | src/python/kantocm-zeroconf/kantocm_zeroconf.py:119-124 | A publish without ports, or an unpublish of an uncached container, does nothing. An unpublish of a cached one logs its unregistration and keeps the cache. |
| Zeroconf.RepublishKeepsCachedPort | src/python/kantocm-zeroconf/kantocm_zeroconf.py:153-157 | Republishing after a port change registers the cached info, which still advertises the old port. |
| Zeroconf.ApplyAllKeepsCache | src/python/kantocm-zeroconf/kantocm_zeroconf.py:153-170 | Over any run of requests, cached infos are never replaced or dropped, and the log only grows. |
| Zeroconf.ApplyAllConcat | src/python/kantocm-zeroconf/kantocm_zeroconf.py:119-124 | Applying two runs of requests in turn is the same as applying their concatenation. |
| Zeroconf.ZeroconfClient.constructor | src/python/kantocm-zeroconf/kantocm_zeroconf.py:146-151 | An empty cache and log; the server is `<hostname>.local.`. |
| Zeroconf.ZeroconfClient.CreateServiceInfo | src/python/kantocm-zeroconf/kantocm_zeroconf.py:172-182 | Returns the new info for the container and caches it under the container's id. The log is unchanged. |
| Zeroconf.ZeroconfClient.PublishService | src/python/kantocm-zeroconf/kantocm_zeroconf.py:153-162 | The new cache and log are those of `Publish`. |
| Zeroconf.ZeroconfClient.UnpublishService | src/python/kantocm-zeroconf/kantocm_zeroconf.py:164-170 | The new cache and log are those of `Unpublish`. |
| Zeroconf.LastOccurrence | src/python/kantocm-zeroconf/kantocm_zeroconf.py:89 | Returns the position of the last listed container with the id (no later one has it), or -1. |
| Zeroconf.SnapshotSpec | src/python/kantocm-zeroconf/kantocm_zeroconf.py:69-89 | The snapshot holds exactly the listed ids, each with the status of its last occurrence in the listing. |
| Zeroconf.SnapshotKeys | src/python/kantocm-zeroconf/kantocm_zeroconf.py:89 | An id is in the snapshot if and only if some listed container has it. |
| Zeroconf.SnapshotKeyedById | src/python/kantocm-zeroconf/kantocm_zeroconf.py:78-89 | Every status in a snapshot is stored under its own id. |
| Zeroconf.AddedRequestsSpec | src/python/kantocm-zeroconf/kantocm_zeroconf.py:85-87 | The first phase issues exactly publishes of the listed containers whose ids the previous snapshot lacks, each with its current status. |
| Zeroconf.AddedNoneKnown | src/python/kantocm-zeroconf/kantocm_zeroconf.py:86-87 | Containers all known to the previous snapshot cause no publish. |
| Zeroconf.RemovedRequestsSpec | src/python/kantocm-zeroconf/kantocm_zeroconf.py:92-93 | Each container gone since the previous snapshot is unpublished exactly once, with its previous status, and nothing else is unpublished. |
| Zeroconf.DiffRequestSpec | src/python/kantocm-zeroconf/kantocm_zeroconf.py:96-112 | A container in both snapshots gets a request if and only if its running state changed, or it runs with changed ports. The request is a publish if and only if it now runs and either started or still has ports. A publish for a container that started carries the previous snapshot's status, and one for a port change carries the current status. An unpublish carries the previous status. |
| Zeroconf.ChangedRequestsSame | src/python/kantocm-zeroconf/kantocm_zeroconf.py:96-112 | Containers whose status is the same in both snapshots cause no request. |
| Zeroconf.SteadyState | src/python/kantocm-zeroconf/kantocm_zeroconf.py:65-114 | Polling the same listing twice issues nothing the second time: no id is new, none is gone, and none changed. |
| Zeroconf.KantocmZeroconf.constructor | src/python/kantocm-zeroconf/kantocm_zeroconf.py:45-52 | An empty snapshot and a fresh, empty zeroconf client. |
| Zeroconf.KantocmZeroconf.UpdateServiceCall | src/python/kantocm-zeroconf/kantocm_zeroconf.py:119-124 | The client's new state is that of `UpdateService`. |
| Zeroconf.KantocmZeroconf.PublishAdded | src/python/kantocm-zeroconf/kantocm_zeroconf.py:71-89 | Builds the new snapshot and issues the first phase's publishes, `AddedRequests`, in listing order. The client state is theirs applied in turn. |
| Zeroconf.KantocmZeroconf.UnpublishRemoved | src/python/kantocm-zeroconf/kantocm_zeroconf.py:91-93 | Visits each gone id exactly once, in some order, and issues its unpublish. The client state is those unpublishes applied in turn. |
| Zeroconf.KantocmZeroconf.Reconcile | src/python/kantocm-zeroconf/kantocm_zeroconf.py:97-112 | The client's new state is that of applying `DiffRequest` for the container. |
| Zeroconf.KantocmZeroconf.ApplyChanges | src/python/kantocm-zeroconf/kantocm_zeroconf.py:95-112 | Visits each id in both snapshots exactly once, in some order, and issues its `DiffRequest`. The client state is those requests applied in turn. |
| Zeroconf.KantocmZeroconf.UpdatePass | src/python/kantocm-zeroconf/kantocm_zeroconf.py:66-114 | After a round, the snapshot is the listing's. The calls made are the added, then removed, then changed requests, with each id set visited exactly once. The client state is all of them applied in turn. |
| Zeroconf.KantocmZeroconf.UpdateContainers | src/python/kantocm-zeroconf/kantocm_zeroconf.py:65-117 | After the polls, the snapshot is that of the last listing, or unchanged if there was none. The calls made are `Rounds`: for each poll in turn, its added, removed and changed requests from the snapshot the previous poll left, with each round's id sets visited exactly once. The client state is all calls applied in turn. |
| Zeroconf.RoundsSnoc | src/python/kantocm-zeroconf/kantocm_zeroconf.py:65-117 | One more poll appends that poll's round, from the snapshot the earlier polls left, to the run's calls. |
| Zeroconf.RepeatedPollQuiet | src/python/kantocm-zeroconf/kantocm_zeroconf.py:65-117 | A poll that returns the same listing as the one before it adds no calls to the run. |
| Zeroconf.KantocmZeroconf.UnpublishAllContainers | src/python/kantocm-zeroconf/kantocm_zeroconf.py:126-128 | Unpublishes each id of the snapshot exactly once, in some order. |
| Zeroconf.UnpublishAllEffect | src/python/kantocm-zeroconf/kantocm_zeroconf.py:126-128 | Unpublishing every container keeps the cache. It only appends one unregistration per container with a cached info, in visiting order. |
| Zeroconf.Run | src/python/kantocm-zeroconf/kantocm_zeroconf.py:54-57 | The calls are `Rounds` over the polls, then one unpublish for each id of the last snapshot, exactly once each. The client state is all calls applied in turn. |

## Left out

- Logging is not modelled, including `try_or_print`, which only logs.
- Debug pretty-printing and `log_enabled` checks are not modelled.
- Parsing the built-in template text is not modelled. The template is a JSON parameter, assumed to be a valid document.
- Serde's decoders (manifest to container, text to JSON, JSON to container, feedback message) are function parameters. Their internals, field aliases and the proto types are not modelled.
- `serde_json::to_value` of a map cannot fail and is modelled as the identity.
- JSON numbers are integers. Floating point is not modelled (`POLL_SECONDS` is 10.0 and kept as the integer 10).
- Paths are taken as normalised strings (no trailing `/`, no `.` components). `std::path`'s component normalisation and non-UTF-8 paths are not modelled.
- `fs::rename` errors other than a missing source and directory clashes (permissions, cross-device moves, I/O errors) are not modelled.
- Host.Renamed: renaming a directory is not modelled faithfully. The table of entries is flat, so a directory's descendants are not carried, and renaming onto an empty directory (which rename(2) allows) is refused. The auto-deployer only renames its lock file.
- `Path::exists` and `is_file` follow the map of entries. Symbolic links are not modelled.
- `KAD_LOCK_PATH`, the build-time override of the lock path, is a parameter of the listener. The default is a constant.
- The MQTT client library, its options, keep-alive and topic are not modelled. The notification stream is a finite script, and each connection error carries the resubscribe's outcome.
- Sleeps are recorded as the list of their durations. Timers, the tokio runtime and `PollWatcher` construction are not modelled. The watcher's set-up result and its wake-ups (timer ticks and received events) are inputs.
- The listener thread and the watch task run concurrently in the daemon. The watch loop's reading of the flag at each tick is part of its input script. Interleaving with the listener's store is not modelled.
- The gRPC channel, the Unix-socket connection and container management are not modelled. Connecting is a boolean input, and RPC replies are functions of the request.
- The glob crate's enumeration is a parameter: the pattern's listing, or its error.
- `read_to_string(..).expect(..)` panicking is an error outcome (`ReadPanic`) that ends the run.
- The order in which Python iterates a dict (`unpublish_all_containers`) or a set (the removed and changed passes) is not modelled. The model picks an arbitrary order and states each pass's calls by the multiset of ids visited.
- The zeroconf library's own checks are not modelled: `BadTypeInNameException` for an invalid service type, and `NonUniqueNameException`, which the code only logs. Every register and unregister request is recorded as asked.
- The poll interval and the stop signal of `update_containers` are not modelled. The loop is a script of listings: the polls made before the stop was seen.
- `socket.gethostname()` is a parameter of the client's constructor.
- Zeroconf.RemoveChar: its own contract gives only the length bound. What is removed and what is kept is stated separately by `Zeroconf.RemoveCharSpec`.
- The terminal UI's rendering, views, dialogs and callbacks are not part of this model.
- The UI's request plumbing, RPC wrappers and configuration-file loading are not part of this model.
- The blueprint-selector tool is not part of this model.
