/** The host resources the auto-deployer's threads share: the file system,
    seen as a map from paths to the kind of entry found there, and the
    `AtomicBool` termination flag the MQTT listener raises and the watch
    loop polls. */
module Host {
  import opened Wrappers
  import opened Paths

  datatype Kind = RegularFile | Directory | Special

  type Entries = map<Path, Kind>

  /** `Path::exists() && Path::is_file()`. */
  predicate IsRegularFile(entries: Entries, p: Path)
  {
    p in entries && entries[p] == RegularFile
  }

  /** `fs::rename` (rename(2)) on a flat table of entries, as the
      auto-deployer uses it on a regular file: it fails when the source is
      missing or the target is an existing directory; renaming a path to
      itself succeeds and changes nothing; otherwise the file moves,
      replacing a file at the target. The table has no nesting, so a
      directory source is only moved onto a free path (its descendants are
      not carried) and is refused over any existing entry. */
  function Renamed(entries: Entries, from: Path, to: Path): Option<Entries>
  {
    if from !in entries then None
    else if from == to then Some(entries)
    else if to in entries && (entries[to] == Directory || entries[from] == Directory) then None
    else Some((entries - {from})[to := entries[from]])
  }

  /** What a rename promises: when it succeeds the target holds what the
      source held, the source is gone unless it is the target, and every
      other path is untouched; it fails exactly in the cases listed above
      (for a regular-file source: missing, or a directory at the target). */
  lemma RenamedSpec(entries: Entries, from: Path, to: Path)
    ensures Renamed(entries, from, to).None?
        <==> from !in entries
             || (from != to && to in entries && (entries[to] == Directory || entries[from] == Directory))
    ensures Renamed(entries, from, to).Some? ==>
              var r := Renamed(entries, from, to).value;
              && to in r && r[to] == entries[from]
              && (from in r <==> from == to)
              && (forall p :: p != from && p != to ==> (p in r <==> p in entries))
              && (forall p :: p != from && p != to && p in r ==> r[p] == entries[p])
  {
  }

  /** The file system, updated in place by `fs::rename`. */
  class FileStore {
    var entries: Entries

    constructor (entries: Entries)
      ensures this.entries == entries
    {
      this.entries := entries;
    }

    method Rename(from: Path, to: Path) returns (ok: bool)
      modifies this
      ensures ok == Renamed(old(entries), from, to).Some?
      ensures entries == if ok then Renamed(old(entries), from, to).value else old(entries)
    {
      var r := Renamed(entries, from, to);
      if r.Some? {
        entries := r.value;
        ok := true;
      } else {
        ok := false;
      }
    }
  }

  /** The termination flag shared by the listener and the watch loop; its
      relaxed loads and stores are plain reads and writes of `value`. */
  class AtomicFlag {
    var value: bool

    constructor (value: bool)
      ensures this.value == value
    {
      this.value := value;
    }
  }
}
