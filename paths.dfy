/** The parts of Rust's `std::path` the deployer relies on: the final
    component of a path, its extension (`Path::extension`), its stem
    (`Path::file_stem`) and `PathBuf::set_extension`. Paths are strings
    taken as already normalised: no trailing `/` and no `.` components, so
    the final component is the text after the last `/`. */
module Paths {
  import opened Wrappers

  type Path = string

  /** The index of the last `c` in `s`, or -1. */
  function LastIndexOf(s: string, c: char): (i: int)
    ensures -1 <= i < |s|
    ensures i >= 0 ==> s[i] == c
    ensures forall j :: i < j < |s| ==> s[j] != c
  {
    if |s| == 0 then -1
    else if s[|s| - 1] == c then |s| - 1
    else LastIndexOf(s[..|s| - 1], c)
  }

  /** Where the final component starts. */
  function NameStart(p: Path): nat
  {
    LastIndexOf(p, '/') + 1
  }

  /** `Path::file_name`: the final component, absent when it is empty, `.`
      or `..`. */
  function FileName(p: Path): Option<string>
  {
    var name := p[NameStart(p)..];
    if name == "" || name == "." || name == ".." then None else Some(name)
  }

  /** std's split of a file name at its last dot, as (before, after): no
      dot gives (None, name); a name whose only dot comes first, and `..`,
      give (name, None). */
  function SplitAtDot(name: string): (Option<string>, Option<string>)
  {
    if name == ".." then (Some(name), None)
    else
      var i := LastIndexOf(name, '.');
      if i < 0 then (None, Some(name))
      else if i == 0 then (Some(name), None)
      else (Some(name[..i]), Some(name[i + 1..]))
  }

  /** `Path::extension`: the text after the last dot of the final component,
      provided that dot is not its first character. */
  function Extension(p: Path): Option<string>
  {
    match FileName(p)
    case None => None
    case Some(name) =>
      var (before, after) := SplitAtDot(name);
      if before.Some? && after.Some? then after else None
  }

  /** `Path::file_stem`: the final component without its extension. */
  function FileStem(p: Path): Option<string>
  {
    match FileName(p)
    case None => None
    case Some(name) =>
      var (before, after) := SplitAtDot(name);
      if before.Some? then before else after
  }

  /** `PathBuf::set_extension`: keep everything up to the end of the stem and
      append `.` and the new extension (nothing when it is empty); absent,
      meaning `false` in Rust, when the path has no file name. */
  function SetExtension(p: Path, ext: string): Option<Path>
  {
    match FileStem(p)
    case None => None
    case Some(stem) =>
      Some(p[..NameStart(p) + |stem|] + (if ext == "" then "" else "." + ext))
  }

  /** Everything before the final component (the directory part, with its
      trailing `/`). */
  function Parent(p: Path): string
  {
    p[..NameStart(p)]
  }

  lemma {:induction false} LastIndexOfAppend(s: string, t: string, c: char)
    requires forall j :: 0 <= j < |t| ==> t[j] != c
    ensures LastIndexOf(s + t, c) == LastIndexOf(s, c)
    decreases |t|
  {
    if |t| > 0 {
      assert (s + t)[..|s + t| - 1] == s + t[..|t| - 1];
      LastIndexOfAppend(s, t[..|t| - 1], c);
    } else {
      assert s + t == s;
    }
  }

  /** Within the final component there is no `/`. */
  lemma NameHasNoSlash(p: Path)
    ensures forall j :: NameStart(p) <= j < |p| ==> p[j] != '/'
  {
  }

  /** A name made of a non-empty part, a dot and a dot-free non-empty
      extension splits at that dot. */
  lemma SplitAtLastDot(pre: string, e: string)
    requires pre != "" && e != ""
    requires forall j :: 0 <= j < |e| ==> e[j] != '.'
    ensures SplitAtDot(pre + "." + e) == (Some(pre), Some(e))
  {
    var name := pre + "." + e;
    LastIndexOfAppend(pre + ".", e, '.');
    assert name[..|pre|] == pre && name[|pre| + 1..] == e;
    assert name[|name| - 1] == e[|e| - 1];
  }

  /** Appending text without `/` leaves the final component's start
      where it was. */
  lemma NameStartAppend(s: Path, t: string)
    requires forall j :: 0 <= j < |t| ==> t[j] != '/'
    ensures NameStart(s + t) == NameStart(s)
  {
    LastIndexOfAppend(s, t, '/');
  }

  /** The directory part ends where the final component starts. */
  lemma NameStartOfParent(p: Path)
    ensures NameStart(Parent(p)) == NameStart(p)
  {
    var n := NameStart(p);
    if n > 0 {
      assert Parent(p)[n - 1] == '/';
    }
  }

  lemma ExtensionIf(p: Path, e: string)
    requires e != ""
    requires forall j :: 0 <= j < |e| ==> e[j] != '.' && e[j] != '/'
    requires |p| >= |e| + 2 && p[|p| - |e| - 1..] == "." + e && p[|p| - |e| - 2] != '/'
    ensures Extension(p) == Some(e)
  {
    var r := p[..|p| - |e| - 1];
    assert p == r + ("." + e);
    NameStartAppend(r, "." + e);
    var n := NameStart(p);
    assert n < |r| by {
      assert r[|r| - 1] != '/';
    }
    var pre := r[n..];
    assert p[n..] == pre + "." + e;
    StemAndExtension(p, n, pre, e);
  }

  /** Where the extension's dot sits: after a non-empty stem, inside the
      final component. */
  lemma ExtensionParts(p: Path)
    requires Extension(p).Some?
    ensures var n := NameStart(p);
            var i := LastIndexOf(p[n..], '.');
            && 0 < i && n + i < |p| && p[n + i] == '.'
            && FileStem(p) == Some(p[n..n + i]) && Extension(p) == Some(p[n + i + 1..])
  {
    var n := NameStart(p);
    var name := p[n..];
    assert FileName(p) == Some(name);
    var i := LastIndexOf(name, '.');
    assert SplitAtDot(name) == (Some(name[..i]), Some(name[i + 1..]));
    assert name[..i] == p[n..n + i] && name[i + 1..] == p[n + i + 1..];
  }

  lemma ExtensionOnlyIf(p: Path, e: string)
    requires Extension(p) == Some(e)
    ensures |p| >= |e| + 2 && p[|p| - |e| - 1..] == "." + e && p[|p| - |e| - 2] != '/'
  {
    ExtensionParts(p);
    var n := NameStart(p);
    var i := LastIndexOf(p[n..], '.');
    assert |p| - |e| - 1 == n + i;
    NameHasNoSlash(p);
    assert p[n + i - 1] != '/';
  }

  /** An extension `e` free of `.` and `/` is the extension of `p` exactly
      when `p` ends with `.` followed by `e` and the dot is preceded, within
      the final component, by at least one character. So `a.tar.json` has
      extension `json` and `.json` has none. */
  lemma ExtensionIff(p: Path, e: string)
    requires e != ""
    requires forall j :: 0 <= j < |e| ==> e[j] != '.' && e[j] != '/'
    ensures Extension(p) == Some(e)
        <==> |p| >= |e| + 2 && p[|p| - |e| - 1..] == "." + e && p[|p| - |e| - 2] != '/'
  {
    if Extension(p) == Some(e) {
      ExtensionOnlyIf(p, e);
    }
    if |p| >= |e| + 2 && p[|p| - |e| - 1..] == "." + e && p[|p| - |e| - 2] != '/' {
      ExtensionIf(p, e);
    }
  }

  /** The path `set_extension` builds: the same directory part, then the
      stem, a dot and the extension. */
  lemma SetExtensionShape(p: Path, ext: string)
    requires ext != ""
    requires forall j :: 0 <= j < |ext| ==> ext[j] != '/'
    requires SetExtension(p, ext).Some?
    ensures var q := SetExtension(p, ext).value;
            var stem := FileStem(p).value;
            NameStart(q) == NameStart(p) && q == p[..NameStart(p)] + (stem + "." + ext)
  {
    var q := SetExtension(p, ext).value;
    var n := NameStart(p);
    var stem := FileStem(p).value;
    StemNonEmpty(p);
    NameHasNoSlash(p);
    assert q == p[..n] + (stem + "." + ext);
    NameStartOfParent(p);
    NameStartAppend(p[..n], stem + "." + ext);
  }

  /** After `set_extension(ext)` the path has extension `ext`, the same stem
      and the same directory part (for an extension free of `.` and `/`). */
  lemma SetExtensionSpec(p: Path, ext: string)
    requires ext != ""
    requires forall j :: 0 <= j < |ext| ==> ext[j] != '.' && ext[j] != '/'
    requires SetExtension(p, ext).Some?
    ensures var q := SetExtension(p, ext).value;
            Extension(q) == Some(ext) && FileStem(q) == FileStem(p) && Parent(q) == Parent(p)
  {
    var q := SetExtension(p, ext).value;
    var stem := FileStem(p).value;
    StemNonEmpty(p);
    SetExtensionShape(p, ext);
    var name := stem + "." + ext;
    assert q[NameStart(q)..] == name;
    SplitAtLastDot(stem, ext);
    assert name[|name| - 1] == ext[|ext| - 1];
    assert FileName(q) == Some(name);
  }

  /** The stem, when present, is a non-empty prefix of the final component. */
  lemma StemNonEmpty(p: Path)
    requires FileStem(p).Some?
    ensures var stem := FileStem(p).value;
            stem != "" && NameStart(p) + |stem| <= |p| && p[NameStart(p)..NameStart(p) + |stem|] == stem
  {
  }

  /** A path whose final component is a non-empty stem, a dot and a
      dot-free non-empty extension. */
  lemma StemAndExtension(p: Path, n: nat, stem: string, e: string)
    requires n <= |p| && NameStart(p) == n
    requires stem != "" && e != ""
    requires forall j :: 0 <= j < |e| ==> e[j] != '.'
    requires p[n..] == stem + "." + e
    ensures FileStem(p) == Some(stem) && Extension(p) == Some(e)
  {
    var name := stem + "." + e;
    SplitAtLastDot(stem, e);
    assert name[|name| - 1] == e[|e| - 1];
    assert FileName(p) == Some(name);
  }

  /** Setting the extension a path already has gives back the same path. */
  lemma SetExtensionIdempotent(p: Path, e: string)
    requires e != ""
    requires Extension(p) == Some(e)
    ensures SetExtension(p, e) == Some(p)
  {
    ExtensionParts(p);
    var n := NameStart(p);
    var i := LastIndexOf(p[n..], '.');
    assert SetExtension(p, e) == Some(p[..n + i] + ("." + e));
    assert p == p[..n + i] + ([p[n + i]] + p[n + i + 1..]);
  }

  lemma NoSlashInName(stem: string, e: string)
    requires forall j :: 0 <= j < |stem| ==> stem[j] != '/'
    requires forall j :: 0 <= j < |e| ==> e[j] != '/'
    ensures forall j :: 0 <= j < |stem + "." + e| ==> (stem + "." + e)[j] != '/'
  {
    forall j | 0 <= j < |stem + "." + e| ensures (stem + "." + e)[j] != '/' {
      if j > |stem| {
        assert (stem + "." + e)[j] == e[j - |stem| - 1];
      }
    }
  }

  /** Replacing a dot-free extension: `<dir><stem>.<from>` becomes
      `<dir><stem>.<to>`. */
  lemma SetExtensionReplaces(dir: Path, stem: string, from: string, to: string)
    requires dir != "" && dir[|dir| - 1] == '/'
    requires stem != "" && from != "" && to != ""
    requires forall j :: 0 <= j < |stem| ==> stem[j] != '/'
    requires forall j :: 0 <= j < |from| ==> from[j] != '.' && from[j] != '/'
    ensures SetExtension(dir + (stem + "." + from), to) == Some(dir + stem + ("." + to))
  {
    var name := stem + "." + from;
    var p := dir + name;
    NoSlashInName(stem, from);
    NameStartAppend(dir, name);
    assert NameStart(dir) == |dir|;
    assert p[|dir|..] == name;
    StemAndExtension(p, |dir|, stem, from);
    assert p[..|dir| + |stem|] == dir + stem;
  }

  /** The lock file of the auto-deployer, as an example:
      `/var/lib/kanto-auto-deployer/KAD.enabled` becomes
      `/var/lib/kanto-auto-deployer/KAD.disabled`. */
  lemma SetExtensionExample(dir: Path)
    requires dir == "/var/lib/kanto-auto-deployer/"
    ensures SetExtension(dir + "KAD.enabled", "disabled") == Some(dir + "KAD.disabled")
  {
    SetExtensionReplaces(dir, "KAD", "enabled", "disabled");
    assert "KAD" + "." + "enabled" == "KAD.enabled";
    assert dir + "KAD" + ("." + "disabled") == dir + "KAD.disabled";
  }
}
