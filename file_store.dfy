/** internal/store/store.go: a namespaced file store over a filesystem. Every stored file
    lives under `<namespace>/`; `Save`, `Remove` and `Open` refuse any other name before
    touching the filesystem. */
module FileStore {
  import opened Wrappers
  import opened Ints
  import GoPath
  import Utf8

  type Bytes = seq<bv8>

  /** The outcome of a call that returns only an error. Go's slice expression panics when the
      bounds are out of range; `Panic` is that run-time failure. */
  datatype Outcome = Ok | Err(msg: string) | Panic(msg: string)

  const SliceOutOfRange: string := "runtime error: slice bounds out of range"
  const InvalidFilename: string := "Invalid filename when trying to store file: '"
  const InvalidNamespace: string := "Invalid namespace when trying to store file: '"
  const ForNamespace: string := "' (for "

  /** The errors of the in-memory filesystem. */
  function MkdirError(path: string): string {
    "mkdir " + path + ": not a directory"
  }

  function WriteError(name: string): string {
    "open " + name + ": is a directory"
  }

  /** Every call the store makes on its filesystem, in order. */
  datatype FsCall = MkdirAllCall(path: string) | WriteCall(name: string) | RemoveCall(name: string) | OpenCall(name: string)

  /** An in-memory filesystem: regular files with their contents, and directories.
      `MkdirAll` fails when a regular file has the directory's name, writing fails when a
      directory has the file's name, and `Remove` and `Open` fail on a name that is not a file. */
  class Fs {
    var files: map<string, Bytes>
    var dirs: set<string>
    var calls: seq<FsCall>

    constructor ()
      ensures files == map[] && dirs == {} && calls == []
    {
      files, dirs, calls := map[], {}, [];
    }

    method MkdirAll(path: string) returns (err: Option<string>)
      modifies this
      ensures calls == old(calls) + [MkdirAllCall(path)]
      ensures err == if path in old(files) then Some(MkdirError(path)) else None
      ensures files == old(files)
      ensures dirs == if err.None? then old(dirs) + {path} else old(dirs)
    {
      calls := calls + [MkdirAllCall(path)];
      if path in files {
        err := Some(MkdirError(path));
      } else {
        err := None;
        dirs := dirs + {path};
      }
    }

    method WriteReader(name: string, contents: Bytes) returns (err: Option<string>)
      modifies this
      ensures calls == old(calls) + [WriteCall(name)]
      ensures err == if name in old(dirs) then Some(WriteError(name)) else None
      ensures dirs == old(dirs)
      ensures files == if err.None? then old(files)[name := contents] else old(files)
    {
      calls := calls + [WriteCall(name)];
      if name in dirs {
        err := Some(WriteError(name));
      } else {
        err := None;
        files := files[name := contents];
      }
    }

    method Remove(name: string) returns (err: Option<string>)
      modifies this
      ensures calls == old(calls) + [RemoveCall(name)]
      ensures err.None? <==> name in old(files)
      ensures dirs == old(dirs)
      ensures files == old(files) - {name}
    {
      calls := calls + [RemoveCall(name)];
      if name in files {
        err := None;
        files := files - {name};
      } else {
        err := Some("remove " + name + ": file does not exist");
      }
    }

    method Open(name: string) returns (r: Result<Bytes>)
      modifies this
      ensures calls == old(calls) + [OpenCall(name)]
      ensures files == old(files) && dirs == old(dirs)
      ensures r.Success? <==> name in files
      ensures r.Success? ==> r.value == files[name]
    {
      calls := calls + [OpenCall(name)];
      if name in files {
        r := Success(files[name]);
      } else {
        r := Failure("open " + name + ": file does not exist");
      }
    }
  }

  /** `defOriginalFn`: `"<id>.<ext>"`. */
  function DefOriginalFn(id: uint64, ext: string): string {
    DecimalString(id) + "." + ext
  }

  /** `defPreviewFn`: `"<id>_preview.<ext>"`. */
  function DefPreviewFn(id: uint64, ext: string): string {
    DecimalString(id) + "_preview." + ext
  }

  /** `check`: a file name is accepted iff it is not empty and starts with `namespace + "/"`.
      Go's `len` and slice expression count UTF-8 bytes, so a name with fewer bytes than
      `namespace + "/"` makes the slice expression panic, however many characters it has. */
  function Check(namespace: string, filename: string): (r: Outcome)
    ensures r == Ok <==> |filename| > 0 && |namespace| + 1 <= |filename| && filename[..|namespace| + 1] == namespace + "/"
    ensures |filename| == 0 ==> r.Err?
    ensures r.Panic? <==> 0 < |Utf8.Encode(filename)| < |Utf8.Encode(namespace)| + 1
  {
    var name, prefix := Utf8.Encode(filename), Utf8.Encode(namespace + "/");
    Utf8.EncodeAppend(namespace, "/");
    Utf8.EncodePrefix(namespace + "/", filename);
    if |name| == 0 then
      Err(InvalidFilename + filename + ForNamespace + namespace + ")")
    else if |name| < |prefix| then
      Panic(SliceOutOfRange)
    else if name[..|prefix|] != prefix then
      Err(InvalidNamespace + filename + ForNamespace + namespace + ")")
    else
      Ok
  }

  /** The bounds are in bytes: the two-byte "\u00e9" is long enough to be compared with "a/",
      and it is refused as outside the namespace; "ab" is too short for the three bytes of
      "\u00e9/", and the slice panics. */
  lemma CheckCountsBytes()
    ensures Check("a", "\U{e9}") == Err(InvalidNamespace + "\U{e9}" + ForNamespace + "a)")
    ensures Check("\U{e9}", "ab") == Panic(SliceOutOfRange)
  {
    assert Utf8.Encode("\U{e9}") == [0xC3, 0xA9];
    assert Utf8.Encode("a/") == [0x61, 0x2F];
    assert Utf8.Encode("ab") == [0x61, 0x62];
    assert Utf8.Encode("\U{e9}/") == [0xC3, 0xA9, 0x2F];
  }

  /** What `Save` returns on a filesystem holding `files` and `dirs`: the check's refusal, the
      error of creating the name's directory, the error of writing the file, or success. */
  function SaveOutcome(namespace: string, files: map<string, Bytes>, dirs: set<string>, filename: string): (r: Outcome)
    ensures r == Ok <==>
      Check(namespace, filename) == Ok && GoPath.Dir(filename) !in files && filename !in dirs && filename != GoPath.Dir(filename)
    ensures Check(namespace, filename) != Ok ==> r == Check(namespace, filename)
  {
    var dir := GoPath.Dir(filename);
    if Check(namespace, filename) != Ok then Check(namespace, filename)
    else if dir in files then Err(MkdirError(dir))
    else if filename in dirs + {dir} then Err(WriteError(filename))
    else Ok
  }

  /** The name of an original under the default name scheme. */
  function OriginalName(namespace: string, id: uint64, ext: string): string {
    GoPath.Join(namespace, DefOriginalFn(id, ext))
  }

  /** The name of a preview under the default name scheme. */
  function PreviewName(namespace: string, id: uint64, ext: string): string {
    GoPath.Join(namespace, DefPreviewFn(id, ext))
  }

  class Store {
    const fs: Fs
    const namespace: string
    const originalFn: (uint64, string) -> string
    const previewFn: (uint64, string) -> string

    /** `NewWithAfero`: keeps the filesystem and namespace and installs the default name scheme. */
    constructor NewWithAfero(fs: Fs, namespace: string)
      ensures this.fs == fs && this.namespace == namespace
      ensures originalFn == DefOriginalFn && previewFn == DefPreviewFn
    {
      this.fs := fs;
      this.namespace := namespace;
      this.originalFn := DefOriginalFn;
      this.previewFn := DefPreviewFn;
    }

    function Namespace(): (ns: string)
      ensures ns == namespace
    {
      namespace
    }

    function Original(id: uint64, ext: string): (name: string)
      ensures originalFn == DefOriginalFn ==> name == OriginalName(namespace, id, ext)
    {
      GoPath.Join(namespace, originalFn(id, ext))
    }

    function Preview(id: uint64, ext: string): (name: string)
      ensures previewFn == DefPreviewFn ==> name == PreviewName(namespace, id, ext)
    {
      GoPath.Join(namespace, previewFn(id, ext))
    }

    /** `Save`: checks the name, creates its directory, then writes the contents. */
    method Save(filename: string, contents: Bytes) returns (out: Outcome)
      modifies fs
      ensures out == SaveOutcome(namespace, old(fs.files), old(fs.dirs), filename)
      ensures Check(namespace, filename) != Ok ==> out == Check(namespace, filename) && unchanged(fs)
      ensures Check(namespace, filename) == Ok ==>
        var dir := GoPath.Dir(filename);
        if dir in old(fs.files) then
          out.Err? && fs.calls == old(fs.calls) + [MkdirAllCall(dir)] && fs.files == old(fs.files)
        else
          fs.dirs == old(fs.dirs) + {dir} &&
          fs.calls == old(fs.calls) + [MkdirAllCall(dir), WriteCall(filename)] &&
          (out == Ok <==> filename !in fs.dirs) &&
          fs.files == if out == Ok then old(fs.files)[filename := contents] else old(fs.files)
    {
      out := Check(namespace, filename);
      if out != Ok {
        return;
      }
      var folder := GoPath.Dir(filename);
      var err := fs.MkdirAll(folder);
      if err.Some? {
        return Err(err.value);
      }
      err := fs.WriteReader(filename, contents);
      out := if err.Some? then Err(err.value) else Ok;
    }

    /** `Remove`: checks the name, then removes the file. */
    method Remove(filename: string) returns (out: Outcome)
      modifies fs
      ensures Check(namespace, filename) != Ok ==> out == Check(namespace, filename) && unchanged(fs)
      ensures Check(namespace, filename) == Ok ==>
        fs.calls == old(fs.calls) + [RemoveCall(filename)] &&
        fs.files == old(fs.files) - {filename} && fs.dirs == old(fs.dirs) &&
        (out == Ok <==> filename in old(fs.files))
    {
      out := Check(namespace, filename);
      if out != Ok {
        return;
      }
      var err := fs.Remove(filename);
      out := if err.Some? then Err(err.value) else Ok;
    }

    /** `Open`: checks the name, then opens the file. A failed check yields no file. */
    method Open(filename: string) returns (file: Option<Bytes>, out: Outcome)
      modifies fs
      ensures Check(namespace, filename) != Ok ==> file.None? && out == Check(namespace, filename) && unchanged(fs)
      ensures Check(namespace, filename) == Ok ==>
        fs.calls == old(fs.calls) + [OpenCall(filename)] &&
        fs.files == old(fs.files) && fs.dirs == old(fs.dirs) &&
        (out == Ok <==> filename in fs.files) &&
        (file.Some? <==> out == Ok) &&
        (file.Some? ==> file.value == fs.files[filename])
    {
      out := Check(namespace, filename);
      if out != Ok {
        return None, out;
      }
      var r := fs.Open(filename);
      if r.Success? {
        file, out := Some(r.value), Ok;
      } else {
        file, out := None, Err(r.error);
      }
    }
  }

  lemma DecimalHasNoSlash(n: nat)
    ensures '/' !in DecimalString(n) && '.' != DecimalString(n)[0]
  {
    var d := DecimalString(n);
    assert forall i :: 0 <= i < |d| ==> IsDigit(d[i]);
  }

  /** The default names are single path elements when the extension has no slash. */
  lemma DefaultNamesAreNormal(id: uint64, ext: string)
    requires '/' !in ext
    ensures GoPath.NormalSegment(DefOriginalFn(id, ext))
    ensures GoPath.NormalSegment(DefPreviewFn(id, ext))
  {
    DecimalHasNoSlash(id);
    var d := DecimalString(id);
    var o, p := DefOriginalFn(id, ext), DefPreviewFn(id, ext);
    assert o[0] == d[0] && p[0] == d[0];
    assert forall i :: 0 <= i < |o| ==> o[i] != '/' by {
      forall i | 0 <= i < |o| ensures o[i] != '/' {
        if i < |d| { assert o[i] == d[i]; }
        else if i == |d| { assert o[i] == '.'; }
        else { assert o[i] == ext[i - |d| - 1]; }
      }
    }
    assert forall i :: 0 <= i < |p| ==> p[i] != '/' by {
      forall i | 0 <= i < |p| ensures p[i] != '/' {
        if i < |d| { assert p[i] == d[i]; }
        else if i < |d| + 9 { assert p[i] == "_preview."[i - |d|]; }
        else { assert p[i] == ext[i - |d| - 9]; }
      }
    }
  }

  /** Under a clean relative namespace, the default names are `<namespace>/<id>.<ext>` and
      `<namespace>/<id>_preview.<ext>`, and `check` accepts both. */
  lemma DefaultNamesPassCheck(namespace: string, id: uint64, ext: string)
    requires GoPath.IsCleanRelative(namespace) && '/' !in ext
    ensures OriginalName(namespace, id, ext) == namespace + "/" + DefOriginalFn(id, ext)
    ensures PreviewName(namespace, id, ext) == namespace + "/" + DefPreviewFn(id, ext)
    ensures Check(namespace, OriginalName(namespace, id, ext)) == Ok
    ensures Check(namespace, PreviewName(namespace, id, ext)) == Ok
  {
    DefaultNamesAreNormal(id, ext);
    GoPath.JoinCleanRelative(namespace, DefOriginalFn(id, ext));
    GoPath.JoinCleanRelative(namespace, DefPreviewFn(id, ext));
    var o := namespace + "/" + DefOriginalFn(id, ext);
    var p := namespace + "/" + DefPreviewFn(id, ext);
    assert o[..|namespace| + 1] == namespace + "/";
    assert p[..|namespace| + 1] == namespace + "/";
  }

  /** With an empty namespace the default original name has no leading slash, so `check`
      rejects it: a non-empty namespace is needed for stored names to be accepted. */
  lemma EmptyNamespaceRejectsOriginal(id: uint64, ext: string)
    requires '/' !in ext
    ensures Check("", OriginalName("", id, ext)).Err?
  {
    DefaultNamesAreNormal(id, ext);
    var name := DefOriginalFn(id, ext);
    assert GoPath.IsCleanRelative(name) by {
      GoPath.SplitNoSlash(name);
    }
    GoPath.CleanOfCleanRelative(name);
    assert OriginalName("", id, ext) == name;
    assert name[..1] != "/";
  }

  /** The directory `Save` creates for a default name is the namespace itself. */
  lemma SaveFolderIsNamespace(namespace: string, id: uint64, ext: string)
    requires GoPath.IsCleanRelative(namespace) && '/' !in ext
    ensures GoPath.Dir(OriginalName(namespace, id, ext)) == namespace
    ensures GoPath.Dir(PreviewName(namespace, id, ext)) == namespace
  {
    DefaultNamesPassCheck(namespace, id, ext);
    DefaultNamesAreNormal(id, ext);
    GoPath.DirOfJoined(namespace, DefOriginalFn(id, ext));
    GoPath.DirOfJoined(namespace, DefPreviewFn(id, ext));
  }
}
