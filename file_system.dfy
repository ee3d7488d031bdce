/**
 * The recordings file manager: its options and their defaults, the
 * extension and path checks, and the save path with its search for a free
 * file name.
 *
 * The file system itself is out of reach: which names exist is a finite set
 * given as a parameter (a name exists when `getFileInfo` succeeds on it), and
 * the directory creation and the write either succeed or fail as the
 * arguments say. `saveFile` reports the calls it makes.
 */
module FileSystem {
  import opened Common
  import opened Strings

  datatype FileSystemOptions = FileSystemOptions(
    baseDirectory: Option<string>,
    maxFileSize: Option<int>,
    allowedExtensions: Option<seq<string>>)

  datatype Settings = Settings(baseDirectory: string, maxFileSize: int, allowedExtensions: seq<string>)

  const DefaultBaseDirectory := "recordings"
  const DefaultMaxFileSize := 1024 * 1024 * 1024
  const DefaultExtensions := ["mp4", "gif", "webm"]

  /**
   * The constructor's `||` defaults: a missing or empty directory and a
   * missing or zero size fall back to the defaults; an empty extension list
   * is truthy and is kept.
   */
  function Resolve(o: FileSystemOptions): (s: Settings)
    ensures s.baseDirectory == (if o.baseDirectory.None? || o.baseDirectory.value == "" then "recordings" else o.baseDirectory.value)
    ensures s.maxFileSize == (if o.maxFileSize.None? || o.maxFileSize.value == 0 then 1073741824 else o.maxFileSize.value)
    ensures s.allowedExtensions == (if o.allowedExtensions.None? then ["mp4", "gif", "webm"] else o.allowedExtensions.value)
    ensures s.baseDirectory != ""
  {
    Settings(
      if o.baseDirectory.None? || o.baseDirectory.value == "" then DefaultBaseDirectory else o.baseDirectory.value,
      if o.maxFileSize.None? || o.maxFileSize.value == 0 then DefaultMaxFileSize else o.maxFileSize.value,
      if o.allowedExtensions.None? then DefaultExtensions else o.allowedExtensions.value)
  }

  /** `name.split('.').pop()?.toLowerCase()`: the text after the last dot, lower-cased. */
  function Extension(name: string): string {
    Lower(LastField(name, '.'))
  }

  /** With a dot, the extension is what follows the last one; without, it is the whole name; either way lower-cased. */
  lemma ExtensionOf(base: string, ext: string, plain: string)
    requires '.' !in ext && '.' !in plain
    ensures Extension(base + "." + ext) == Lower(ext)
    ensures Extension(plain) == Lower(plain)
  {
    LastFieldAfterSep(base, '.', ext);
    LastFieldNoSep(plain, '.');
  }

  /** An allowed, non-empty extension. */
  predicate ExtensionAllowed(name: string, allowed: seq<string>) {
    Extension(name) != "" && Extension(name) in allowed
  }

  /** `validateFilePath`. */
  function ValidateFilePath(path: string, allowed: seq<string>): (ok: bool)
    ensures ok <==> (forall i :: !OccursAt(path, "..", i)) && Extension(path) != "" && Extension(path) in allowed
  {
    ContainsIff(path, "..");
    !Contains(path, "..") && ExtensionAllowed(path, allowed)
  }

  /** `validateDirectoryPath`. */
  function ValidateDirectoryPath(path: string): (ok: bool)
    ensures ok <==> forall i :: !OccursAt(path, "..", i)
  {
    ContainsIff(path, "..");
    !Contains(path, "..")
  }

  /** `base/temp`, the directory `cleanupTempFiles` removes. */
  function TempDirectory(base: string): (r: string)
    ensures |r| == |base| + 5 && r[..|base|] == base && r[|base|..] == "/temp"
  {
    base + "/temp"
  }

  /** The text before the extension and its dot: `filename.slice(0, -(extension.length + 1))`, clamped at 0. */
  function BaseName(name: string): (b: string)
    ensures |LastField(name, '.')| < |name| ==> name == b + "." + LastField(name, '.')
    ensures |LastField(name, '.')| == |name| ==> b == ""
  {
    var ext := LastField(name, '.');
    if |ext| < |name| then name[..|name| - |ext| - 1] else ""
  }

  /** The `k`-th name tried: `${baseName}_${k}.${extension}`. */
  function Candidate(name: string, k: nat): string {
    BaseName(name) + "_" + NatToString(k) + "." + LastField(name, '.')
  }

  /** Different counters give different names, and no candidate is the original name. */
  lemma CandidatesDistinct(name: string, j: nat, k: nat)
    ensures Candidate(name, j) == Candidate(name, k) ==> j == k
    ensures Candidate(name, k) != name
  {
    var b, e := BaseName(name), LastField(name, '.');
    var cj, ck := Candidate(name, j), Candidate(name, k);
    if cj == ck {
      var dj, dk := NatToString(j), NatToString(k);
      assert |dj| == |dk|;
      assert cj[|b| + 1..|b| + 1 + |dj|] == dj;
      assert ck[|b| + 1..|b| + 1 + |dk|] == dk;
      NatToStringInjective(j, k);
    }
    assert |ck| > |name|;
  }

  /** What `saveFile` asks of the outside world, in order. */
  datatype IoCall = CreateDirectory(path: string) | WriteFile(path: string)

  datatype SaveError = TooLarge | ExtensionNotAllowed | CreateDirectoryFailed | WriteFailed

  class Manager {
    const settings: Settings

    /** The private constructor: the options with their defaults. */
    constructor (o: FileSystemOptions)
      ensures settings == Resolve(o)
    {
      settings := Resolve(o);
    }

    /**
     * `generateUniqueFilename`: the name itself when it does not exist,
     * otherwise `base_k.ext` for the least `k >= 1` that does not. Existence
     * is asked of the bare name.
     */
    method GenerateUniqueFilename(name: string, existing: set<string>) returns (unique: string)
      ensures unique !in existing
      ensures name !in existing ==> unique == name
      ensures name in existing ==> exists k :: (k >= 1 && unique == Candidate(name, k) &&
                                                forall j :: 1 <= j < k ==> Candidate(name, j) in existing)
    {
      var counter := 1;
      unique := name;
      ghost var tried: set<string> := {};
      while unique in existing
        invariant counter >= 1
        invariant unique == if counter == 1 then name else Candidate(name, counter - 1)
        invariant name in existing || counter == 1
        invariant forall j :: 1 <= j < counter - 1 ==> Candidate(name, j) in existing
        invariant tried <= existing
        invariant |tried| == counter - 1
        invariant counter == 1 ==> tried == {}
        invariant forall j :: j >= 1 && j >= counter - 1 ==> Candidate(name, j) !in tried
        decreases |existing| - |tried|
      {
        var next := Candidate(name, counter);
        ghost var added := if counter == 1 then name else Candidate(name, counter - 1);
        assert added == unique && added !in tried;
        forall j | j >= counter ensures Candidate(name, j) != added {
          CandidatesDistinct(name, j, counter - 1);
          CandidatesDistinct(name, 0, j);
        }
        tried := tried + {added};
        SubsetSize(tried, existing);
        unique := next;
        counter := counter + 1;
      }
    }

    /**
     * `saveFile`: the size check, then the extension check, both before any
     * call; then the directory, the free name and the write. The path is the
     * base directory, `/` and the free name.
     */
    method SaveFile(size: int, name: string, existing: set<string>, directoryOk: bool, writeOk: bool)
      returns (r: Result<string, SaveError>, calls: seq<IoCall>)
      ensures size > settings.maxFileSize ==> r == Err(TooLarge) && calls == []
      ensures size <= settings.maxFileSize && !ExtensionAllowed(name, settings.allowedExtensions) ==>
        r == Err(ExtensionNotAllowed) && calls == []
      ensures r.Ok? <==> size <= settings.maxFileSize && ExtensionAllowed(name, settings.allowedExtensions) && directoryOk && writeOk
      ensures r.Ok? ==> calls == [CreateDirectory(settings.baseDirectory), WriteFile(r.value)]
      ensures r.Ok? ==> exists u :: (u !in existing && r.value == settings.baseDirectory + "/" + u &&
                                     (name !in existing ==> u == name))
      ensures r == Err(CreateDirectoryFailed) <==>
        size <= settings.maxFileSize && ExtensionAllowed(name, settings.allowedExtensions) && !directoryOk
      ensures r == Err(WriteFailed) <==>
        size <= settings.maxFileSize && ExtensionAllowed(name, settings.allowedExtensions) && directoryOk && !writeOk
    {
      calls := [];
      if size > settings.maxFileSize {
        return Err(TooLarge), calls;
      }
      if !ExtensionAllowed(name, settings.allowedExtensions) {
        return Err(ExtensionNotAllowed), calls;
      }
      calls := calls + [CreateDirectory(settings.baseDirectory)];
      if !directoryOk {
        return Err(CreateDirectoryFailed), calls;
      }
      var unique := GenerateUniqueFilename(name, existing);
      var path := settings.baseDirectory + "/" + unique;
      calls := calls + [WriteFile(path)];
      if !writeOk {
        return Err(WriteFailed), calls;
      }
      r := Ok(path);
    }

    /**
     * `cleanupTempFiles`: asks to delete `base/temp` when it exists, and
     * fails (rethrows) exactly when that deletion fails.
     */
    method CleanupTempFiles(existing: set<string>, deleteOk: bool) returns (deleted: Option<string>, ok: bool)
      ensures deleted.Some? <==> TempDirectory(settings.baseDirectory) in existing
      ensures deleted.Some? ==> deleted.value == TempDirectory(settings.baseDirectory)
      ensures !ok <==> TempDirectory(settings.baseDirectory) in existing && !deleteOk
    {
      var temp := TempDirectory(settings.baseDirectory);
      ok := true;
      if temp in existing {
        deleted := Some(temp);
        ok := deleteOk;
      } else {
        deleted := None;
      }
    }
  }

  /**
   * The free-name search asks about the bare name, but the file is written
   * under the base directory: with `recordings/a.mp4` already there and no
   * bare `a.mp4`, saving `a.mp4` writes over the existing file.
   */
  method SavedPathMayExist() returns (existing: set<string>, r: Result<string, SaveError>, calls: seq<IoCall>)
    ensures existing == {DefaultBaseDirectory + "/a.mp4"}
    ensures r == Ok(DefaultBaseDirectory + "/a.mp4") && r.value in existing
    ensures calls == [CreateDirectory(DefaultBaseDirectory), WriteFile(DefaultBaseDirectory + "/a.mp4")]
  {
    var m := new Manager(FileSystemOptions(None, None, None));
    Mp4Extension();
    assert DefaultBaseDirectory + "/" + "a.mp4" == DefaultBaseDirectory + "/a.mp4";
    assert |"a.mp4"| < |DefaultBaseDirectory + "/a.mp4"|;
    existing := {DefaultBaseDirectory + "/a.mp4"};
    assert "a.mp4" !in existing;
    assert m.settings.allowedExtensions == DefaultExtensions;
    assert ExtensionAllowed("a.mp4", m.settings.allowedExtensions);
    r, calls := m.SaveFile(0, "a.mp4", existing, true, true);
  }

  /** The name `a.mp4` has the extension `mp4`, the first default. */
  lemma Mp4Extension()
    ensures Extension("a.mp4") == "mp4" == DefaultExtensions[0]
  {
    var ext := "mp4";
    assert '.' !in ext;
    assert "a.mp4" == "a" + ['.'] + ext;
    LastFieldAfterSep("a", '.', ext);
    LowerMp4();
  }

  lemma LowerMp4()
    ensures Lower("mp4") == "mp4"
  {
    var r := Lower("mp4");
    assert r[0] == 'm' && r[1] == 'p' && r[2] == '4';
  }

}
