/**
  Shared-file metadata (common/file_metadata.py): the validity check, the storage-name
  sanitiser, the dictionary form and the MIME lookup.
 */
module FileMetadataModel {
  import opened Wrappers
  import opened JsonModel
  import opened Text

  /** 100 MiB, the largest file the metadata check accepts. */
  const MaxFileSize: int := 100 * 1024 * 1024
  /** The longest storage name `get_safe_filename` produces (when the extension allows). */
  const MaxFilenameLength: nat := 255
  /** Characters `get_safe_filename` always replaces by '_'. */
  const DangerousChars: seq<char> := ['<', '>', ':', '"', '|', '?', '*']

  datatype FileMetadata = FileMetadata(
    filename: string,
    filesize: int,
    uploaderId: string,
    fileId: string,
    uploadTime: real,
    fileHash: Option<string>,
    mimeType: Option<string>,
    description: Option<string>)

  /** `FileMetadata(...)`: an id and an upload time are generated only when not given. */
  function NewFileMetadata(filename: string, filesize: int, uploaderId: string, fileId: Option<string>,
                           uploadTime: Option<real>, fileHash: Option<string>, mimeType: Option<string>,
                           description: Option<string>, freshId: string, now: real): (m: FileMetadata)
    ensures m.filename == filename && m.filesize == filesize && m.uploaderId == uploaderId
    ensures m.fileId == (if fileId.Some? then fileId.value else freshId)
    ensures m.uploadTime == (if uploadTime.Some? then uploadTime.value else now)
    ensures m.fileHash == fileHash && m.mimeType == mimeType && m.description == description
  {
    FileMetadata(filename, filesize, uploaderId,
                 match fileId case Some(i) => i case None => freshId,
                 match uploadTime case Some(t) => t case None => now,
                 fileHash, mimeType, description)
  }

  /** Two adjacent dots somewhere in `s` (`'..' in s`). */
  predicate HasDotDot(s: string)
  {
    exists i :: 0 <= i < |s| - 1 && s[i] == '.' && s[i + 1] == '.'
  }

  /** `FileMetadata.is_valid` */
  predicate IsValid(m: FileMetadata)
  {
    && m.filename != ""
    && m.filesize >= 0
    && m.uploaderId != ""
    && m.fileId != ""
    && Strip(m.filename) != ""
    && !HasDotDot(m.filename) && '/' !in m.filename && '\\' !in m.filename
    && m.filesize <= MaxFileSize
  }

  /**
    What the validity check accepts: a name with a non-whitespace character and neither ".." nor
    a separator, a non-empty uploader and id, and a size in [0, 100 MiB]; so no valid name can
    climb out of the storage directory or name a sub-path.
   */
  lemma ValidMeans(m: FileMetadata)
    ensures IsValid(m) <==> && (exists i :: 0 <= i < |m.filename| && !IsSpace(m.filename[i]))
                            && (forall i :: 0 <= i < |m.filename| - 1 ==> !(m.filename[i] == '.' && m.filename[i + 1] == '.'))
                            && '/' !in m.filename && '\\' !in m.filename
                            && m.uploaderId != "" && m.fileId != ""
                            && 0 <= m.filesize <= MaxFileSize
  {
    StripEmptyIffBlank(m.filename);
  }

  /** `s.replace(c, d)` for single characters. */
  function ReplaceChar(s: string, c: char, d: char): (r: string)
    ensures |r| == |s|
    ensures forall i :: 0 <= i < |s| ==> r[i] == (if s[i] == c then d else s[i])
  {
    if s == [] then [] else [if s[0] == c then d else s[0]] + ReplaceChar(s[1..], c, d)
  }

  /** `s.replace('..', '_')`: pairs of dots are replaced left to right without overlap. */
  function ReplaceDotDot(s: string): (r: string)
    ensures r != [] && r[0] == '.' ==> s != [] && s[0] == '.'
    ensures |r| <= |s|
  {
    if |s| >= 2 && s[0] == '.' && s[1] == '.' then "_" + ReplaceDotDot(s[2..])
    else if s == [] then []
    else [s[0]] + ReplaceDotDot(s[1..])
  }

  /** After the replacement no two dots are adjacent, however many there were. */
  lemma {:induction false} ReplaceDotDotLeavesNone(s: string)
    ensures !HasDotDot(ReplaceDotDot(s))
    decreases |s|
  {
    var r := ReplaceDotDot(s);
    if |s| >= 2 && s[0] == '.' && s[1] == '.' {
      ReplaceDotDotLeavesNone(s[2..]);
      assert r == "_" + ReplaceDotDot(s[2..]);
      assert forall i :: 1 <= i < |r| ==> r[i] == ReplaceDotDot(s[2..])[i - 1];
    } else if s != [] {
      var t := ReplaceDotDot(s[1..]);
      ReplaceDotDotLeavesNone(s[1..]);
      assert r == [s[0]] + t;
      assert forall i :: 1 <= i < |r| ==> r[i] == t[i - 1];
      if s[0] == '.' && t != [] {
        assert t[0] != '.';
      }
    }
  }

  /** The replacement brings in only underscores. */
  lemma {:induction false} ReplaceDotDotAddsNothing(s: string, c: char)
    requires c != '_' && c !in s
    ensures c !in ReplaceDotDot(s)
    decreases |s|
  {
    if |s| >= 2 && s[0] == '.' && s[1] == '.' {
      ReplaceDotDotAddsNothing(s[2..], c);
      assert ReplaceDotDot(s) == "_" + ReplaceDotDot(s[2..]);
    } else if s != [] {
      ReplaceDotDotAddsNothing(s[1..], c);
      assert ReplaceDotDot(s) == [s[0]] + ReplaceDotDot(s[1..]);
    }
  }

  /** The position of the last `c` in `s`, if any (`str.rfind`). */
  function RFind(s: string, c: char): (r: Option<nat>)
    ensures r.Some? ==> r.value < |s| && s[r.value] == c && forall j :: r.value < j < |s| ==> s[j] != c
    ensures r.None? ==> c !in s
  {
    if s == [] then None
    else if s[|s| - 1] == c then Some(|s| - 1)
    else RFind(s[..|s| - 1], c)
  }

  /**
    `os.path.splitext` (POSIX): the extension starts at the last dot of the last path
    component, provided a character other than a dot precedes it in that component.
   */
  function SplitExt(p: string): (r: (string, string))
    ensures r.0 + r.1 == p
    ensures r.1 == [] || (r.1[0] == '.' && exists k :: 0 <= k < |r.0| && r.0[k] != '.')
    ensures '/' !in r.1 && (r.1 != [] ==> '.' !in r.1[1..])
  {
    var sepEnd := match RFind(p, '/') case Some(i) => i + 1 case None => 0;
    match RFind(p, '.')
    case None => (p, [])
    case Some(dot) =>
      if dot >= sepEnd && exists k :: sepEnd <= k < dot && p[k] != '.' then (p[..dot], p[dot..])
      else (p, [])
  }

  /** Python's `s[:n]`, where a negative `n` counts from the end. */
  function PySliceTo(s: string, n: int): (r: string)
    ensures |r| <= |s| && r == s[..|r|]
    ensures n >= 0 ==> |r| == if n <= |s| then n else |s|
  {
    if n >= 0 then (if n <= |s| then s[..n] else s)
    else if -n >= |s| then [] else s[..|s| + n]
  }

  /** One of `<>:"|?*`, which the sanitiser always replaces by '_'. */
  predicate IsDangerous(c: char)
  {
    c == '<' || c == '>' || c == ':' || c == '"' || c == '|' || c == '?' || c == '*'
  }

  /** The loop over the dangerous characters, each replaced by '_' wherever it occurs. */
  function ReplaceDangerous(s: string): (r: string)
    ensures |r| == |s|
    ensures forall i :: 0 <= i < |s| ==> r[i] == (if IsDangerous(s[i]) then '_' else s[i])
  {
    if s == [] then [] else [if IsDangerous(s[0]) then '_' else s[0]] + ReplaceDangerous(s[1..])
  }

  /** Cutting a long name down to 255 characters, keeping the extension. */
  function LimitLength(s: string): (r: string)
    ensures |s| <= MaxFilenameLength ==> r == s
  {
    if |s| > MaxFilenameLength then
      var (name, ext) := SplitExt(s);
      PySliceTo(name, MaxFilenameLength - |ext|) + ext
    else s
  }

  /** A character the sanitiser lets through: never a dangerous one, and no separator when the path check refused. */
  predicate SafeChar(c: char, pathSafe: bool)
  {
    !IsDangerous(c) && (!pathSafe ==> c != '/' && c != '\\')
  }

  /** The cut keeps a prefix of the name and the whole extension, so it brings in no character. */
  lemma LimitLengthKeeps(s: string, pathSafe: bool)
    requires forall i :: 0 <= i < |s| ==> SafeChar(s[i], pathSafe)
    ensures forall i :: 0 <= i < |LimitLength(s)| ==> SafeChar(LimitLength(s)[i], pathSafe)
  {
    if |s| > MaxFilenameLength {
      var (name, ext) := SplitExt(s);
      var head := PySliceTo(name, MaxFilenameLength - |ext|);
      var r := head + ext;
      assert s == name + ext;
      assert forall i :: 0 <= i < |head| ==> head[i] == s[i];
      assert forall i :: 0 <= i < |ext| ==> ext[i] == s[|name| + i];
      assert forall i :: 0 <= i < |r| ==> r[i] == if i < |head| then head[i] else ext[i - |head|];
    }
  }

  /** A long name whose extension is shorter than the limit comes out at exactly 255 characters, extension kept. */
  lemma LongNamesAreCut(s: string)
    requires |s| > MaxFilenameLength && |SplitExt(s).1| < MaxFilenameLength
    ensures |LimitLength(s)| == MaxFilenameLength
    ensures LimitLength(s)[MaxFilenameLength - |SplitExt(s).1|..] == SplitExt(s).1
  {
    var (name, ext) := SplitExt(s);
    assert |name| + |ext| == |s|;
  }

  /** The name before the length limit: separators and dot pairs rewritten only when the path check refuses. */
  function Sanitised(name: string, pathSafe: bool): (r: string)
  {
    ReplaceDangerous(if !pathSafe then ReplaceDotDot(ReplaceChar(ReplaceChar(name, '/', '_'), '\\', '_')) else name)
  }

  /**
    `get_safe_filename`. `pathSafe` is the verdict of the platform's path-safety check,
    which resolves the name against the working directory.
   */
  function GetSafeFilename(m: FileMetadata, pathSafe: bool): (r: string)
    ensures |Sanitised(m.filename, pathSafe)| <= MaxFilenameLength ==> r == Sanitised(m.filename, pathSafe)
  {
    LimitLength(Sanitised(m.filename, pathSafe))
  }

  /** No dangerous character survives; with the path check refusing, neither does a separator. */
  lemma SafeFilenameCharacters(m: FileMetadata, pathSafe: bool)
    ensures var r := GetSafeFilename(m, pathSafe);
            forall i :: 0 <= i < |r| ==> SafeChar(r[i], pathSafe)
  {
    var base := if !pathSafe then ReplaceDotDot(ReplaceChar(ReplaceChar(m.filename, '/', '_'), '\\', '_')) else m.filename;
    if !pathSafe {
      var t := ReplaceChar(ReplaceChar(m.filename, '/', '_'), '\\', '_');
      assert '/' !in t && '\\' !in t;
      ReplaceDotDotAddsNothing(t, '/');
      ReplaceDotDotAddsNothing(t, '\\');
      assert forall i :: 0 <= i < |base| ==> base[i] != '/' && base[i] != '\\';
    }
    var s := ReplaceDangerous(base);
    assert s == Sanitised(m.filename, pathSafe);
    assert forall i :: 0 <= i < |s| ==> SafeChar(s[i], pathSafe);
    LimitLengthKeeps(s, pathSafe);
  }

  /** With the path check refusing, a name within the limit carries no "..". */
  lemma {:induction false} UnsafeNamesLoseDotDot(m: FileMetadata)
    requires |Sanitised(m.filename, false)| <= MaxFilenameLength
    ensures !HasDotDot(GetSafeFilename(m, false))
  {
    var base := ReplaceDotDot(ReplaceChar(ReplaceChar(m.filename, '/', '_'), '\\', '_'));
    ReplaceDotDotLeavesNone(ReplaceChar(ReplaceChar(m.filename, '/', '_'), '\\', '_'));
    var cleaned := ReplaceDangerous(base);
    assert forall i :: 0 <= i < |cleaned| ==> (cleaned[i] == '.' <==> base[i] == '.');
  }

  /** A name without dangerous characters is left alone. */
  lemma CleanIsUnchanged(s: string)
    requires forall i :: 0 <= i < |s| ==> !IsDangerous(s[i])
    ensures ReplaceDangerous(s) == s
  {
  }

  /** The path check resolves names, so an accepted name keeps its "../" untouched. */
  lemma SafePathKeepsParentReference()
    ensures GetSafeFilename(FileMetadata("../notes.txt", 10, "u", "f", 0.0, None, None, None), true) == "../notes.txt"
  {
    CleanIsUnchanged("../notes.txt");
  }

  // ---------------------------------------------------------------- dictionary form

  function OptStr(o: Option<string>): Json
  {
    match o case None => JNull case Some(s) => JStr(s)
  }

  /** `to_dict` (`asdict`) */
  function ToDict(m: FileMetadata): (r: map<string, Json>)
    ensures r.Keys == FieldNames
    ensures r["filename"] == JStr(m.filename) && r["filesize"] == JInt(m.filesize) && r["uploader_id"] == JStr(m.uploaderId)
  {
    map["filename" := JStr(m.filename), "filesize" := JInt(m.filesize), "uploader_id" := JStr(m.uploaderId),
        "file_id" := JStr(m.fileId), "upload_time" := JFloat(m.uploadTime), "file_hash" := OptStr(m.fileHash),
        "mime_type" := OptStr(m.mimeType), "description" := OptStr(m.description)]
  }

  const FieldNames: set<string> :=
    {"filename", "filesize", "uploader_id", "file_id", "upload_time", "file_hash", "mime_type", "description"}

  /** An optional string keyword: missing or null is None. */
  function OptionalText(d: map<string, Json>, key: string): Option<Option<string>>
  {
    if key !in d then Some(None)
    else match d[key] case JNull => Some(None) case JStr(s) => Some(Some(s)) case _ => None
  }

  /**
    `from_dict` (`cls(**data)`): only the dataclass's keywords, the first three required;
    the id and time are generated when missing or null.
   */
  function FromDict(d: map<string, Json>, freshId: string, now: real): (r: Result<FileMetadata, string>)
    ensures r.Ok? ==> d.Keys <= FieldNames && {"filename", "filesize", "uploader_id"} <= d.Keys
  {
    if !(d.Keys <= FieldNames) || "filename" !in d || "filesize" !in d || "uploader_id" !in d then
      Err("unexpected or missing keyword")
    else if !d["filename"].JStr? || !d["filesize"].JInt? || !d["uploader_id"].JStr? then
      Err("unsupported field type")
    else
      var id := OptionalText(d, "file_id");
      var time := if "upload_time" !in d then Some(None)
                  else match d["upload_time"]
                    case JNull => Some(None)
                    case JFloat(t) => Some(Some(t))
                    case JInt(i) => Some(Some(i as real))
                    case _ => None;
      var hash := OptionalText(d, "file_hash");
      var mime := OptionalText(d, "mime_type");
      var desc := OptionalText(d, "description");
      if id.None? || time.None? || hash.None? || mime.None? || desc.None? then Err("unsupported field type")
      else Ok(NewFileMetadata(d["filename"].s, d["filesize"].i, d["uploader_id"].s, id.value, time.value,
                              hash.value, mime.value, desc.value, freshId, now))
  }

  /** `from_dict(to_dict(m)) == m`, whatever id and clock the constructor would have used. */
  lemma DictRoundTrip(m: FileMetadata, freshId: string, now: real)
    ensures FromDict(ToDict(m), freshId, now) == Ok(m)
  {
    var d := ToDict(m);
    assert d.Keys == FieldNames;
  }

  // ---------------------------------------------------------------- MIME types

  const DefaultMimeType := "application/octet-stream"

  const MimeTypes: map<string, string> := map[
    ".txt" := "text/plain", ".pdf" := "application/pdf", ".doc" := "application/msword",
    ".docx" := "application/vnd.openxmlformats-officedocument.wordprocessingml.document",
    ".xls" := "application/vnd.ms-excel",
    ".xlsx" := "application/vnd.openxmlformats-officedocument.spreadsheetml.sheet",
    ".ppt" := "application/vnd.ms-powerpoint",
    ".pptx" := "application/vnd.openxmlformats-officedocument.presentationml.presentation",
    ".jpg" := "image/jpeg", ".jpeg" := "image/jpeg", ".png" := "image/png", ".gif" := "image/gif",
    ".bmp" := "image/bmp", ".svg" := "image/svg+xml", ".mp3" := "audio/mpeg", ".wav" := "audio/wav",
    ".mp4" := "video/mp4", ".avi" := "video/x-msvideo", ".mov" := "video/quicktime",
    ".zip" := "application/zip", ".rar" := "application/x-rar-compressed",
    ".7z" := "application/x-7z-compressed", ".tar" := "application/x-tar", ".gz" := "application/gzip",
    ".py" := "text/x-python", ".js" := "application/javascript", ".html" := "text/html",
    ".css" := "text/css", ".json" := "application/json", ".xml" := "application/xml",
    ".md" := "text/markdown", ".csv" := "text/csv", ".log" := "text/plain"]

  /** `FileValidator.get_mime_type` */
  function GetMimeType(filename: string): (r: string)
    ensures r == DefaultMimeType || exists ext :: ext in MimeTypes && MimeTypes[ext] == r
  {
    var ext := SplitExt(Lower(filename)).1;
    if ext in MimeTypes then MimeTypes[ext] else DefaultMimeType
  }

  /** Reading off `rfind` from where the last occurrence is. */
  lemma RFindAt(s: string, c: char, k: nat)
    requires k < |s| && s[k] == c && forall j :: k < j < |s| ==> s[j] != c
    ensures RFind(s, c) == Some(k)
  {
  }

  /** The extension `GetMimeType` looks up, from the position of the last dot of a name with neither a separator nor a leading dot. */
  lemma ExtensionAt(p: string, dot: nat)
    requires 0 < dot < |p| && p[dot] == '.' && p[0] != '.' && '/' !in p
    requires forall j :: dot < j < |p| ==> p[j] != '.'
    ensures SplitExt(p) == (p[..dot], p[dot..])
  {
    RFindAt(p, '.', dot);
    assert RFind(p, '/') == None;
  }

  /** The lookup ignores case: lower-casing a name first changes nothing. */
  lemma MimeIgnoresCase(filename: string)
    ensures GetMimeType(Lower(filename)) == GetMimeType(filename)
  {
    assert Lower(Lower(filename)) == Lower(filename);
  }

  /**
    A name is typed by its last extension alone, lower-cased: "Backup.TAR.GZ" is looked up as
    ".gz". The stem must not start with a dot (".txt" has no extension at all).
   */
  lemma MimeUsesLastExtension(stem: string, ext: string)
    requires stem != [] && stem[0] != '.' && '/' !in stem
    requires ext != [] && ext[0] == '.' && '/' !in ext && '.' !in ext[1..]
    ensures GetMimeType(stem + ext) == if Lower(ext) in MimeTypes then MimeTypes[Lower(ext)] else DefaultMimeType
  {
    var p := Lower(stem + ext);
    assert p == Lower(stem) + Lower(ext) by { LowerConcat(stem, ext); }
    forall j | 0 <= j < |p| ensures p[j] != '/' { }
    forall j | |stem| < j < |p| ensures p[j] != '.' {
      assert p[j] == LowerChar(ext[j - |stem|]) && ext[j - |stem|] == ext[1..][j - |stem| - 1];
    }
    ExtensionAt(p, |stem|);
  }

  lemma {:induction false} LowerConcat(a: string, b: string)
    ensures Lower(a + b) == Lower(a) + Lower(b)
  {
    var l := Lower(a + b);
    assert forall i :: 0 <= i < |l| ==> l[i] == (Lower(a) + Lower(b))[i];
  }

  /** A leading dot does not start an extension, so ".txt" is of the default type. */
  lemma MimeLeadingDot()
    ensures GetMimeType(".txt") == DefaultMimeType
  {
    var low := Lower(".txt");
    assert low == ".txt";
    RFindAt(low, '.', 0);
    assert SplitExt(low) == (".txt", []);
  }
}
