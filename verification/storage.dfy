/**
 * Upload handling: filename sanitisation, the extension whitelist, the size
 * limits and the URL under which a stored upload is served. The random file
 * name and the disk write are parameters.
 */
module Storage {
  import opened Common
  import opened Strings
  import opened Config

  // ---------------------------------------------------------------------------
  // Filename sanitisation
  // ---------------------------------------------------------------------------

  /** The text after the last `c` in `s`; all of `s` when `c` does not occur. */
  function AfterLast(s: string, c: char): (r: string)
    ensures c !in r
    ensures |r| <= |s| && r == s[|s| - |r|..]
    ensures |r| < |s| ==> s[|s| - |r| - 1] == c
  {
    if s == [] then []
    else if s[|s| - 1] == c then []
    else AfterLast(s[..|s| - 1], c) + [s[|s| - 1]]
  }

  /** `os.path.basename` on POSIX paths: everything after the last `/`. */
  function Basename(path: string): (r: string)
    ensures '/' !in r
  {
    AfterLast(path, '/')
  }

  /** The characters `[\w.-]` that survive sanitisation. */
  predicate KeptChar(c: char) { IsWordChar(c) || c == '.' || c == '-' }

  /** `re.sub(r'[^\w\.\-]', '', s)`. */
  function KeepOnly(s: string): (r: string)
    ensures AllChars(r, KeptChar)
    ensures |r| <= |s|
    ensures AllChars(s, KeptChar) ==> r == s
  {
    if s == [] then []
    else (if KeptChar(s[0]) then [s[0]] else []) + KeepOnly(s[1..])
  }

  const FallbackName: string := "file"

  /** `sanitize_filename`: the kept characters of the basename, or "file" if none are kept. */
  function SanitizeFilename(name: string): (r: string)
    ensures r != []
    ensures AllChars(r, KeptChar) && '/' !in r
    ensures KeepOnly(Basename(name)) == [] ==> r == FallbackName
    ensures KeepOnly(Basename(name)) != [] ==> r == KeepOnly(Basename(name))
  {
    var kept := KeepOnly(Basename(name));
    if kept == [] then FallbackName else kept
  }

  /** Sanitising an already sanitised name changes nothing. */
  lemma SanitizeIdempotent(name: string)
    ensures SanitizeFilename(SanitizeFilename(name)) == SanitizeFilename(name)
  {
    var r := SanitizeFilename(name);
    AfterLastAbsent(r, '/');
  }

  /** Without `c`, the text after the last `c` is the whole text. */
  lemma {:induction false} AfterLastAbsent(s: string, c: char)
    requires c !in s
    ensures AfterLast(s, c) == s
  {
    if s != [] {
      AfterLastAbsent(s[..|s| - 1], c);
    }
  }

  // ---------------------------------------------------------------------------
  // Extension
  // ---------------------------------------------------------------------------

  /** `name.split(".")[-1].lower() if "." in name else ""`. */
  function Extension(name: string): (r: string)
    ensures '.' !in name ==> r == []
    ensures '.' !in r
  {
    if '.' in name then Lower(AfterLast(name, '.')) else []
  }

  /** The last piece of `split(c)` is the text after the last `c`. */
  lemma {:induction false} LastSplitPiece(s: string, c: char)
    ensures Split(s, c)[|Split(s, c)| - 1] == AfterLast(s, c)
    decreases |s|
  {
    if s == [] {
    } else if c in s[1..] {
      LastSplitPiece(s[1..], c);
      AfterLastShift(s, c);
      SplitSeveral(s[1..], c);
      SplitLastOfTail(s, c);
    } else if s[0] == c {
      SplitNoSep(s[1..], c);
      AfterLastAfterSep(s, c);
    } else {
      assert s == [s[0]] + s[1..];
      SplitNoSep(s, c);
      AfterLastAbsent(s, c);
    }
  }

  /** When the tail splits into several pieces, the last piece is the tail's last piece. */
  lemma SplitLastOfTail(s: string, c: char)
    requires s != [] && |Split(s[1..], c)| >= 2
    ensures Split(s, c)[|Split(s, c)| - 1] == Split(s[1..], c)[|Split(s[1..], c)| - 1]
  {
  }

  /** A text containing the separator splits into at least two pieces. */
  lemma {:induction false} SplitSeveral(s: string, c: char)
    requires c in s
    ensures |Split(s, c)| >= 2
  {
    if s[0] != c {
      assert c in s[1..] by {
        var i :| 0 <= i < |s| && s[i] == c;
        assert s[1..][i - 1] == c;
      }
      SplitSeveral(s[1..], c);
    }
  }

  /** When `c` occurs after the first character, dropping that character keeps what follows the last `c`. */
  lemma {:induction false} AfterLastShift(s: string, c: char)
    requires s != [] && c in s[1..]
    ensures AfterLast(s, c) == AfterLast(s[1..], c)
    decreases |s|
  {
    var n := |s|;
    if s[n - 1] != c {
      assert s[1..][..n - 2] == s[..n - 1][1..];
      assert c in s[..n - 1][1..] by {
        var i :| 0 <= i < |s[1..]| && s[1..][i] == c;
        assert i < n - 2;
        assert s[..n - 1][1..][i] == c;
      }
      AfterLastShift(s[..n - 1], c);
    }
  }

  /** A text that starts with `c` and has no other `c` yields its tail. */
  lemma AfterLastAfterSep(s: string, c: char)
    requires s != [] && s[0] == c && c !in s[1..]
    ensures AfterLast(s, c) == s[1..]
  {
    AfterLastAbsent(s[1..], c);
  }

  const AllowedExtensions: seq<string> := ["jpg", "jpeg", "png", "webp"]

  /** Content types that pass without a warning. */
  const AcceptableContentTypes: seq<string> := ["image/jpeg", "image/jpg", "image/png", "image/webp", "application/octet-stream"]

  // ---------------------------------------------------------------------------
  // save_file
  // ---------------------------------------------------------------------------

  /**
   * An uploaded file as the handler sees it. `filename` is absent or empty
   * when the client sent none; `writeFails` stands for a disk error.
   */
  datatype Upload = Upload(filename: Option<string>, contentType: Option<string>, size: nat, writeFails: bool)

  /** A stored upload: its URL, and whether an unexpected content type was logged. */
  datatype Saved = Saved(url: string, warned: bool)

  function MaxBytes(cfg: Settings): nat { cfg.maxFileSizeMb * 1024 * 1024 }

  const UploadPrefix: string := "/uploads/"

  /** `save_file`: the checks run in order filename, extension, emptiness, size, write. */
  function SaveFile(f: Upload, uuid: string, cfg: Settings): (r: Result<Saved, HttpError>)
    ensures (f.filename.None? || f.filename.value == []) ==> r == Err(HttpError(BadRequest, "Filename is required"))
    ensures r.Ok? ==> f.filename.Some? && f.filename.value != []
    ensures r.Ok? ==> Extension(SanitizeFilename(f.filename.value)) in AllowedExtensions
    ensures r.Ok? ==> 0 < f.size <= MaxBytes(cfg) && !f.writeFails
    ensures (f.filename.Some? && f.filename.value != []
             && Extension(SanitizeFilename(f.filename.value)) in AllowedExtensions
             && 0 < f.size <= MaxBytes(cfg) && !f.writeFails) ==> r.Ok?
    ensures r.Ok? ==>
      (r.value.warned <==> (f.contentType.Some? && f.contentType.value != []
                            && f.contentType.value !in AcceptableContentTypes))
    ensures r.Ok? ==> r.value.url == UploadPrefix + uuid + "." + Extension(SanitizeFilename(f.filename.value))
    ensures r.Err? ==> r.error.code == BadRequest || (r.error.code == InternalServerError && f.writeFails)
  {
    if f.filename.None? || f.filename.value == [] then Err(HttpError(BadRequest, "Filename is required"))
    else
      var ext := Extension(SanitizeFilename(f.filename.value));
      if ext !in AllowedExtensions then
        Err(HttpError(BadRequest, "Invalid file extension. Allowed: jpg, jpeg, png, webp"))
      else
        var warned := f.contentType.Some? && f.contentType.value != [] && f.contentType.value !in AcceptableContentTypes;
        if f.size == 0 then Err(HttpError(BadRequest, "File is empty"))
        else if f.size > MaxBytes(cfg) then
          Err(HttpError(BadRequest, "File too large. Max size: " + NatToString(cfg.maxFileSizeMb) + "MB"))
        else if f.writeFails then Err(HttpError(InternalServerError, "Failed to save file"))
        else Ok(Saved(UploadPrefix + uuid + "." + ext, warned))
  }

  /** The content type never decides acceptance: only the logged warning differs. */
  lemma ContentTypeNeverRejects(f: Upload, other: Option<string>, uuid: string, cfg: Settings)
    ensures SaveFile(f, uuid, cfg).Ok? <==> SaveFile(f.(contentType := other), uuid, cfg).Ok?
    ensures SaveFile(f, uuid, cfg).Ok? ==> SaveFile(f, uuid, cfg).value.url == SaveFile(f.(contentType := other), uuid, cfg).value.url
  {
  }

  /** A file of exactly the maximum size is accepted; one byte more, or an empty file, is refused. */
  lemma SizeBoundary(f: Upload, uuid: string, cfg: Settings)
    requires f.filename.Some? && f.filename.value != []
    requires Extension(SanitizeFilename(f.filename.value)) in AllowedExtensions
    requires !f.writeFails && cfg.maxFileSizeMb > 0
    ensures SaveFile(f.(size := MaxBytes(cfg)), uuid, cfg).Ok?
    ensures SaveFile(f.(size := MaxBytes(cfg) + 1), uuid, cfg).Err?
    ensures SaveFile(f.(size := 0), uuid, cfg).Err?
  {
    var m := MaxBytes(cfg);
    assert m >= 1048576;
    var g := f.(size := m);
    assert g.filename == f.filename && g.size == m;
  }

  /** The stored URL ends in the validated extension: reading the extension back from it gives the same one. */
  lemma UrlCarriesExtension(f: Upload, uuid: string, cfg: Settings)
    requires SaveFile(f, uuid, cfg).Ok?
    ensures Extension(SaveFile(f, uuid, cfg).value.url) == Extension(SanitizeFilename(f.filename.value))
    ensures IsPrefix(UploadPrefix, SaveFile(f, uuid, cfg).value.url)
  {
    var ext := Extension(SanitizeFilename(f.filename.value));
    var url := SaveFile(f, uuid, cfg).value.url;
    var head := UploadPrefix + uuid;
    assert url == head + ['.'] + ext;
    assert '.' !in ext;
    AfterLastSuffix(head, '.', ext);
    assert '.' in url by {
      assert url[|head|] == '.';
    }
    LowerIdempotentOnAllowed(ext);
    assert url[..|UploadPrefix|] == UploadPrefix;
  }

  /** Appending `c` and a `c`-free tail makes that tail the text after the last `c`. */
  lemma {:induction false} AfterLastSuffix(head: string, c: char, tail: string)
    requires c !in tail
    ensures AfterLast(head + [c] + tail, c) == tail
    decreases |tail|
  {
    var s := head + [c] + tail;
    if tail != [] {
      var t := tail[..|tail| - 1];
      assert s[..|s| - 1] == head + [c] + t;
      AfterLastSuffix(head, c, t);
      assert tail == t + [tail[|tail| - 1]];
    } else {
      assert s[|s| - 1] == c;
    }
  }

  /** The whitelisted extensions are already lower case. */
  lemma LowerIdempotentOnAllowed(ext: string)
    requires ext in AllowedExtensions
    ensures Lower(ext) == ext
  {
    assert AllChars(ext, IsLower);
    LowerOfLowercase(ext);
  }

  lemma {:induction false} LowerOfLowercase(s: string)
    requires AllChars(s, IsLower)
    ensures Lower(s) == s
  {
    if s != [] {
      LowerOfLowercase(s[1..]);
    }
  }
}
