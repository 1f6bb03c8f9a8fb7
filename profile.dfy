/**
  The user-data folder handed to `CreateCoreWebView2EnvironmentWithOptions` by the
  Windows adapters: the temporary directory, or the `APPDATA` directory, joined with the
  stem of the executable's file name. The OS lookups are inputs. Strings are wide
  character buffers; the C API reads such a buffer up to its first NUL.
 */
module Profile {

  import opened Native

  /** `MAX_PATH` */
  const MaxPath: nat := 260
  /** The v1 adapter's `APPDATA` buffer: `1 << 15` characters. */
  const V1AppDataCapacity: nat := 0x8000

  const Nul: char := '\0'

  predicate IsSeparator(c: char) { c == '\\' || c == '/' }

  predicate NulFree(s: string) {
    forall i :: 0 <= i < |s| ==> s[i] != Nul
  }

  function Nuls(n: nat): (r: string)
    ensures |r| == n
    ensures forall i :: 0 <= i < n ==> r[i] == Nul
  {
    if n == 0 then [] else Nuls(n - 1) + [Nul]
  }

  /** What a C API reads from a buffer: everything before the first NUL. */
  function CString(s: string): string {
    if s == [] || s[0] == Nul then [] else [s[0]] + CString(s[1..])
  }

  /** What is read is a NUL-free prefix of the buffer, ended by a NUL or by the buffer's end. */
  lemma {:induction false} CStringReadsPrefix(s: string)
    ensures var r := CString(s);
      && |r| <= |s| && r == s[..|r|] && NulFree(r)
      && (|r| < |s| ==> s[|r|] == Nul)
    decreases |s|
  {
    if s != [] && s[0] != Nul {
      CStringReadsPrefix(s[1..]);
      var rest := CString(s[1..]);
      assert s[..1 + |rest|] == [s[0]] + s[1..][..|rest|];
    }
  }

  /** Any NUL-free prefix followed by a NUL or by the end is exactly what `CString` reads. */
  lemma {:induction false} CStringUpToNul(a: string, b: string)
    requires NulFree(a) && (b == [] || b[0] == Nul)
    ensures CString(a + b) == a
    decreases |a|
  {
    if a != [] {
      assert (a + b)[1..] == a[1..] + b;
      CStringUpToNul(a[1..], b);
    } else {
      assert a + b == b;
    }
  }

  /** `std::basic_string::resize(n)`: truncate, or pad with NULs. */
  function Resize(s: string, n: nat): string {
    if n <= |s| then s[..n] else s + Nuls(n - |s|)
  }

  lemma ResizeKeepsPrefix(s: string, n: nat)
    ensures |Resize(s, n)| == n
    ensures n <= |s| ==> Resize(s, n) == s[..n]
    ensures n > |s| ==> Resize(s, n)[..|s|] == s && Resize(s, n)[|s|..] == Nuls(n - |s|)
  {
  }

  /**
    `GetEnvironmentVariable(name, buffer, capacity)` into a buffer of `capacity` NUL
    characters: the buffer afterwards (the value and its NUL terminator when it fits,
    untouched otherwise) and the returned length (0 when the variable is unset, the
    value's length when it fits, the required size counting the terminator otherwise).
   */
  datatype EnvRead = EnvRead(buffer: string, length: nat)

  function GetEnvironmentVariable(value: Option<string>, capacity: nat): EnvRead {
    match value
    case None => EnvRead(Nuls(capacity), 0)
    case Some(v) => if |v| < capacity then EnvRead(v + Nuls(capacity - |v|), |v|) else EnvRead(Nuls(capacity), |v| + 1)
  }

  lemma GetEnvironmentVariableFills(value: Option<string>, capacity: nat)
    ensures var r := GetEnvironmentVariable(value, capacity);
      && |r.buffer| == capacity
      && (value.None? ==> r.length == 0)
      && (value.Some? && |value.value| < capacity ==>
            r.length == |value.value| && r.buffer[..r.length] == value.value
            && r.buffer[r.length..] == Nuls(capacity - r.length))
      && (value.Some? && |value.value| >= capacity ==> r.length == |value.value| + 1 && r.buffer == Nuls(capacity))
  {
    if value.Some? && |value.value| < capacity {
      var buffer := value.value + Nuls(capacity - |value.value|);
      assert buffer[..|value.value|] == value.value;
    }
  }

  /** The index just past the last separator of `path` (0 when there is none). */
  function FileNameStart(path: string): (k: nat)
    ensures k <= |path|
  {
    if path == [] then 0
    else if IsSeparator(path[|path| - 1]) then |path|
    else FileNameStart(path[..|path| - 1])
  }

  /** The file name starts right after a separator, or at the beginning, and holds no separator. */
  lemma {:induction false} FileNameStartAfterLastSeparator(path: string)
    ensures var k := FileNameStart(path);
      && (k > 0 ==> IsSeparator(path[k - 1]))
      && (forall i :: k <= i < |path| ==> !IsSeparator(path[i]))
    decreases |path|
  {
    if path != [] && !IsSeparator(path[|path| - 1]) {
      FileNameStartAfterLastSeparator(path[..|path| - 1]);
    }
  }

  /** The index of the last '.' in `name`, if any. */
  function LastDot(name: string): (r: Option<nat>)
    ensures r.Some? ==> r.value < |name|
  {
    if name == [] then None
    else if name[|name| - 1] == '.' then Some(|name| - 1)
    else LastDot(name[..|name| - 1])
  }

  /** The dot found is a dot with none after it; none is found only in a name without dots. */
  lemma {:induction false} LastDotIsLast(name: string)
    ensures var r := LastDot(name);
      && (r.Some? ==> name[r.value] == '.' && forall i :: r.value < i < |name| ==> name[i] != '.')
      && (r.None? ==> forall i :: 0 <= i < |name| ==> name[i] != '.')
    decreases |name|
  {
    if name != [] && name[|name| - 1] != '.' {
      LastDotIsLast(name[..|name| - 1]);
    }
  }

  /**
    `std::filesystem::path::stem()`: the file name without its last extension; a file
    name that is "." or "..", or whose only dot is its first character, is its own stem.
   */
  function Stem(path: string): string {
    var name := path[FileNameStart(path)..];
    if name == "." || name == ".." then name
    else match LastDot(name)
      case None => name
      case Some(d) => if d == 0 then name else name[..d]
  }

  /** The stem is a prefix of the file name, so it holds no separator. */
  lemma StemPrefixOfFileName(path: string)
    ensures var name := path[FileNameStart(path)..];
      |Stem(path)| <= |name| && Stem(path) == name[..|Stem(path)|]
    ensures forall i :: 0 <= i < |Stem(path)| ==> !IsSeparator(Stem(path)[i])
  {
    FileNameStartAfterLastSeparator(path);
    var k := FileNameStart(path);
    var name := path[k..];
    var r := Stem(path);
    assert |r| <= |name| && r == name[..|r|] by {
      if name != "." && name != ".." && LastDot(name).Some? && LastDot(name).value != 0 {
        assert r == name[..LastDot(name).value];
      }
    }
    forall i | 0 <= i < |r| ensures !IsSeparator(r[i]) {
      assert r[i] == name[i] == path[k + i];
    }
  }

  /** `base / name` for a relative `name`: a separator is inserted when `base` ends in a file name. */
  function Join(base: string, name: string): string {
    if |base| > 0 && !IsSeparator(base[|base| - 1]) then base + "\\" + name else base + name
  }

  /** The joined path starts with the base and ends with the name. */
  lemma JoinKeepsBoth(base: string, name: string)
    ensures |base| + |name| <= |Join(base, name)| && Join(base, name)[..|base|] == base
    ensures Join(base, name)[|Join(base, name)| - |name|..] == name
  {
  }

  /** The base folder of the v3 adapter: the buffer resized to the length `GetEnvironmentVariable` returned. */
  function AppDataBaseV3(appData: Option<string>): string {
    var read := GetEnvironmentVariable(appData, MaxPath);
    if read.length != 0 then Resize(read.buffer, read.length) else read.buffer
  }

  /** A set `APPDATA` shorter than `MAX_PATH` is read back exactly. */
  lemma AppDataBaseV3Reads(appData: string)
    requires |appData| < MaxPath && appData != ""
    ensures AppDataBaseV3(Some(appData)) == appData
  {
    GetEnvironmentVariableFills(Some(appData), MaxPath);
  }

  /** The base folder of the v1 adapter as written: `shrink_to_fit` does not change the size, so the NUL padding stays. */
  function AppDataBaseV1AsWritten(appData: Option<string>): string {
    GetEnvironmentVariable(appData, V1AppDataCapacity).buffer
  }

  /** As written, the v1 base folder is always the whole buffer: a set value keeps its NUL padding. */
  lemma AppDataBaseV1AsWrittenKeepsPadding(appData: Option<string>)
    ensures |AppDataBaseV1AsWritten(appData)| == V1AppDataCapacity
    ensures appData.Some? && |appData.value| < V1AppDataCapacity ==>
      AppDataBaseV1AsWritten(appData) == appData.value + Nuls(V1AppDataCapacity - |appData.value|)
  {
    GetEnvironmentVariableFills(appData, V1AppDataCapacity);
  }

  /** The base folder of the v1 adapter as evidently intended: the buffer cut to the returned length. */
  function AppDataBaseV1(appData: Option<string>): string {
    var read := GetEnvironmentVariable(appData, V1AppDataCapacity);
    if read.length != 0 then Resize(read.buffer, read.length) else read.buffer
  }

  /** A set `APPDATA` shorter than the v1 buffer is read back exactly by the corrected reader. */
  lemma AppDataBaseV1Reads(appData: string)
    requires |appData| < V1AppDataCapacity && appData != ""
    ensures AppDataBaseV1(Some(appData)) == appData
  {
    GetEnvironmentVariableFills(Some(appData), V1AppDataCapacity);
  }

  /** The folder the environment is created in: what the C API reads of `base / stem(exe)`. */
  function EnvironmentFolder(useTemp: bool, tempDir: string, appDataBase: string, exe: string): string {
    CString(Join(if useTemp then tempDir else appDataBase, Stem(exe)))
  }

  predicate WellFormedFolder(s: string) {
    s != "" && NulFree(s) && !IsSeparator(s[|s| - 1])
  }

  /** A well-formed folder joined with a NUL-free executable's stem reads back whole. */
  lemma FolderJoinStem(folder: string, exe: string)
    requires WellFormedFolder(folder) && NulFree(exe)
    ensures CString(Join(folder, Stem(exe))) == folder + "\\" + Stem(exe)
  {
    StemNulFree(exe);
    CStringUpToNul(folder + "\\" + Stem(exe), []);
    assert folder + "\\" + Stem(exe) + [] == folder + "\\" + Stem(exe);
  }

  /** With the temp folder chosen, the folder is `<temp>\<stem>`, whatever `APPDATA` holds. */
  lemma EnvironmentFolderTemp(tempDir: string, appDataBase: string, exe: string)
    requires WellFormedFolder(tempDir) && NulFree(exe)
    ensures EnvironmentFolder(true, tempDir, appDataBase, exe) == tempDir + "\\" + Stem(exe)
  {
    FolderJoinStem(tempDir, exe);
  }

  /** With `APPDATA` set and the temp folder not chosen, the v3 folder is `APPDATA\<stem>`. */
  lemma EnvironmentFolderV3(tempDir: string, appData: string, exe: string)
    requires WellFormedFolder(appData) && |appData| < MaxPath && NulFree(exe)
    ensures EnvironmentFolder(false, tempDir, AppDataBaseV3(Some(appData)), exe) == appData + "\\" + Stem(exe)
  {
    AppDataBaseV3Reads(appData);
    FolderJoinStem(appData, exe);
  }

  /** The corrected v1 folder is likewise `APPDATA\<stem>`. */
  lemma EnvironmentFolderV1(tempDir: string, appData: string, exe: string)
    requires WellFormedFolder(appData) && |appData| < V1AppDataCapacity && NulFree(exe)
    ensures EnvironmentFolder(false, tempDir, AppDataBaseV1(Some(appData)), exe) == appData + "\\" + Stem(exe)
  {
    AppDataBaseV1Reads(appData);
    FolderJoinStem(appData, exe);
  }

  /** As written, the v1 folder the C API reads is `APPDATA` itself: the executable's stem is lost behind the padding. */
  lemma EnvironmentFolderV1AsWrittenDropsStem(tempDir: string, appData: string, exe: string)
    requires WellFormedFolder(appData) && |appData| < V1AppDataCapacity
    ensures EnvironmentFolder(false, tempDir, AppDataBaseV1AsWritten(Some(appData)), exe) == appData
  {
    AppDataBaseV1AsWrittenKeepsPadding(Some(appData));
    var pad := Nuls(V1AppDataCapacity - |appData|);
    var base := appData + pad;
    assert base[|base| - 1] == Nul;
    assert Join(base, Stem(exe)) == appData + (pad + "\\" + Stem(exe));
    CStringUpToNul(appData, pad + "\\" + Stem(exe));
  }

  lemma StemNulFree(path: string)
    requires NulFree(path)
    ensures NulFree(Stem(path))
  {
    StemPrefixOfFileName(path);
    var name := path[FileNameStart(path)..];
    var r := Stem(path);
    forall i | 0 <= i < |r| ensures r[i] != Nul {
      assert r[i] == name[i] == path[FileNameStart(path) + i];
    }
  }

  lemma StemOfExample()
    ensures Stem("C:\\apps\\demo.exe") == "demo"
  {
    var exe := "C:\\apps\\demo.exe";
    assert IsSeparator(exe[7]) && exe[8..] == "demo.exe";
    assert forall i :: 8 <= i < |exe| ==> !IsSeparator(exe[i]);
    FileNameStartAfterLastSeparator(exe);
    assert FileNameStart(exe) == 8;
    assert "demo.exe"[..7] == "demo.ex" && "demo.ex"[..6] == "demo.e" && "demo.e"[..5] == "demo.";
    assert LastDot("demo.exe") == Some(4);
  }

  /**
    For every well-formed `APPDATA` folder, the v1 adapter as written creates the
    environment in `APPDATA` itself, while the intended folder is `APPDATA\<stem>`.
   */
  lemma V1AsWrittenDiffers(appData: string, exe: string)
    requires WellFormedFolder(appData) && |appData| < V1AppDataCapacity && NulFree(exe)
    ensures EnvironmentFolder(false, "", AppDataBaseV1AsWritten(Some(appData)), exe) == appData
    ensures EnvironmentFolder(false, "", AppDataBaseV1(Some(appData)), exe) == appData + "\\" + Stem(exe)
    ensures EnvironmentFolder(false, "", AppDataBaseV1AsWritten(Some(appData)), exe)
         != EnvironmentFolder(false, "", AppDataBaseV1(Some(appData)), exe)
  {
    EnvironmentFolderV1AsWrittenDropsStem("", appData, exe);
    EnvironmentFolderV1("", appData, exe);
    assert |appData + "\\" + Stem(exe)| > |appData|;
  }
}
