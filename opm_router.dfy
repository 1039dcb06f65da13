/** The backend's generation routes: each checks the requested language,
    the diagram's file name and its size (and, for a refinement, the
    previous code and the fix instructions) in a fixed order, raising a 400
    for the first rule that fails, and only then calls the AI agent, whose
    exceptions become a 500. */
module OpmRouter {
  import opened Text
  import opened Remote
  import opened Http

  const AllowedExtensions: set<string> := {".jpg", ".jpeg", ".png"}
  const MaxFileSize: nat := 5 * 1024 * 1024
  const AllowedLanguages: seq<string> := ["python", "java", "csharp", "cpp"]

  /** Some character before `end` and after the last '/' is not a '.'. */
  predicate VisibleStem(name: string, end: int)
    requires end <= |name|
  {
    exists k :: LastIndexOf(name, '/') < k < end && name[k] != '.'
  }

  /** The second half of `os.path.splitext(name)` for POSIX paths: from the
      last '.' on, provided that '.' is in the last path component and is not
      one of the dots the component starts with; "" otherwise. */
  function Splitext(name: string): (ext: string)
    ensures ext != "" ==> |ext| <= |name| && ext == name[|name| - |ext|..]
    ensures ext != "" ==> ext[0] == '.' && '.' !in ext[1..] && '/' !in ext
  {
    var sep := LastIndexOf(name, '/');
    var dot := LastIndexOf(name, '.');
    if dot > sep && VisibleStem(name, dot) then
      assert forall i :: dot < i < |name| ==> name[i] != '.' && name[i] != '/';
      name[dot..]
    else ""
  }

  /** `validate_extension`. */
  predicate ValidateExtension(filename: string) {
    ToLower(Splitext(filename)) in AllowedExtensions
  }

  /** An independent reading of the extension rule: the name ends, ignoring
      case, in an accepted extension, and what precedes it within the last
      path component is not made of dots only. */
  predicate HasImageExtension(name: string) {
    exists e :: e in AllowedExtensions && EndsWithIgnoringCase(name, e) && VisibleStem(name, |name| - |e|)
  }

  lemma ValidatedHasImageExtension(name: string)
    requires ValidateExtension(name)
    ensures HasImageExtension(name)
  {
    var ext := Splitext(name);
    var e := ToLower(ext);
    assert ext == name[LastIndexOf(name, '.')..];
    assert EndsWithIgnoringCase(name, e);
  }

  /** Each accepted extension is one leading '.' followed by no other. */
  lemma ExtensionShape(e: string)
    requires e in AllowedExtensions
    ensures |e| > 0 && e[0] == '.' && '.' !in e[1..]
  {
    assert e == ".jpg" || e == ".jpeg" || e == ".png";
  }

  lemma SuffixValidates(name: string, e: string)
    requires e in AllowedExtensions && EndsWithIgnoringCase(name, e) && VisibleStem(name, |name| - |e|)
    ensures ValidateExtension(name)
  {
    ExtensionShape(e);
    DottedSuffixIsLast(name, e);
    var dot := |name| - |e|;
    assert LastIndexOf(name, '/') < dot;
    assert Splitext(name) == name[dot..];
    assert ToLower(Splitext(name)) == e;
  }

  lemma ImageExtensionValidates(name: string)
    requires HasImageExtension(name)
    ensures ValidateExtension(name)
  {
    var e :| e in AllowedExtensions && EndsWithIgnoringCase(name, e) && VisibleStem(name, |name| - |e|);
    SuffixValidates(name, e);
  }

  lemma ValidateExtensionIff(name: string)
    ensures ValidateExtension(name) <==> HasImageExtension(name)
  {
    if ValidateExtension(name) { ValidatedHasImageExtension(name); }
    if HasImageExtension(name) { ImageExtensionValidates(name); }
  }

  lemma LowerTwice(s: string)
    ensures ToLower(ToLower(s)) == ToLower(s)
  {
  }

  /** The extension rule ignores the case of the whole name. */
  lemma ValidateExtensionIgnoresCase(name: string)
    ensures ValidateExtension(ToLower(name)) == ValidateExtension(name)
  {
    var t := ToLower(name);
    LastIndexOfLower(name, '/');
    LastIndexOfLower(name, '.');
    var dot := LastIndexOf(name, '.');
    if VisibleStem(name, dot) {
      var k :| LastIndexOf(name, '/') < k < dot && name[k] != '.';
      LowerKeeps(name[k], '.');
      assert t[k] != '.';
    }
    if VisibleStem(t, dot) {
      var k :| LastIndexOf(t, '/') < k < dot && t[k] != '.';
      LowerKeeps(name[k], '.');
      assert name[k] != '.';
    }
    if dot > LastIndexOf(name, '/') && VisibleStem(name, dot) {
      assert t[dot..] == ToLower(name[dot..]);
      LowerTwice(name[dot..]);
    }
  }

  /** A diagram upload: the client's file name, its declared content type and its bytes. */
  datatype Upload = Upload(filename: string, contentType: string, contents: seq<bv8>)

  function UnsupportedLanguage(language: string): HttpError {
    HttpError(400, "Unsupported language: " + language)
  }
  const InvalidFormat: HttpError := HttpError(400, "Invalid file format. Allowed: JPG, JPEG, PNG")
  /** The size error; the MB figure that follows in the detail is not modelled. */
  const TooLarge: HttpError := HttpError(400, "File exceeds 5MB.")
  const NoPreviousCode: HttpError := HttpError(400, "Previous code is required")
  const NoInstructions: HttpError := HttpError(400, "Fix instructions are required")

  /** The checks both routes run first: language, then format, then size. */
  function UploadCheck(language: string, file: Upload): (r: Option<HttpError>)
    ensures r == None <==>
              language in AllowedLanguages && HasImageExtension(file.filename) && |file.contents| <= MaxFileSize
    ensures language !in AllowedLanguages ==> r == Some(UnsupportedLanguage(language))
    ensures language in AllowedLanguages && !HasImageExtension(file.filename) ==> r == Some(InvalidFormat)
    ensures language in AllowedLanguages && HasImageExtension(file.filename) && |file.contents| > MaxFileSize ==>
              r == Some(TooLarge)
  {
    ValidateExtensionIff(file.filename);
    if language !in AllowedLanguages then Some(UnsupportedLanguage(language))
    else if !ValidateExtension(file.filename) then Some(InvalidFormat)
    else if |file.contents| > MaxFileSize then Some(TooLarge)
    else None
  }

  /** The checks of the refine route: those of `UploadCheck`, then previous
      code and fix instructions that `strip()` would leave empty. */
  function RefineCheck(language: string, file: Upload, previousCode: string, fixInstructions: string): (r: Option<HttpError>)
    ensures UploadCheck(language, file).Some? ==> r == UploadCheck(language, file)
    ensures UploadCheck(language, file).None? && IsBlank(Py, previousCode) ==> r == Some(NoPreviousCode)
    ensures UploadCheck(language, file).None? && !IsBlank(Py, previousCode) && IsBlank(Py, fixInstructions) ==>
              r == Some(NoInstructions)
    ensures r == None <==>
              UploadCheck(language, file).None? && !IsBlank(Py, previousCode) && !IsBlank(Py, fixInstructions)
  {
    TrimEmptyIffBlank(Py, previousCode);
    TrimEmptyIffBlank(Py, fixInstructions);
    var upload := UploadCheck(language, file);
    if upload.Some? then upload
    else if Trim(Py, previousCode) == "" then Some(NoPreviousCode)
    else if Trim(Py, fixInstructions) == "" then Some(NoInstructions)
    else None
  }

  /** `generate_code`, with the agent call's outcome as `agent`. */
  function GenerateCode<T>(language: string, file: Upload, agent: Attempt<T>): Result<T> {
    match UploadCheck(language, file)
    case Some(e) => Err(e)
    case None =>
      match agent
      case Completed(body) => Ok(body)
      case Raised(message) => Err(HttpError(500, "Failed to generate code: " + message))
  }

  /** `refine_code`, with the agent call's outcome as `agent`. */
  function RefineCode<T>(language: string, file: Upload, previousCode: string, fixInstructions: string,
                         agent: Attempt<T>): Result<T> {
    match RefineCheck(language, file, previousCode, fixInstructions)
    case Some(e) => Err(e)
    case None =>
      match agent
      case Completed(body) => Ok(body)
      case Raised(message) => Err(HttpError(500, "Failed to refine code: " + message))
  }

  /** Every rejection before the agent call is a 400, and the agent's
      outcome plays no part in it. */
  lemma RejectionsPrecedeAgent<T>(language: string, file: Upload, previousCode: string, fixInstructions: string,
                                  a: Attempt<T>, b: Attempt<T>)
    ensures UploadCheck(language, file).Some? ==>
              GenerateCode(language, file, a) == GenerateCode(language, file, b) == Err(UploadCheck(language, file).value)
              && UploadCheck(language, file).value.status == 400
    ensures RefineCheck(language, file, previousCode, fixInstructions).Some? ==>
              RefineCode(language, file, previousCode, fixInstructions, a)
                == RefineCode(language, file, previousCode, fixInstructions, b)
              && RefineCode(language, file, previousCode, fixInstructions, a).error.status == 400
  {
    var upload := UploadCheck(language, file);
    if upload.Some? {
      if language !in AllowedLanguages {
        assert upload.value == UnsupportedLanguage(language);
      } else if !HasImageExtension(file.filename) {
        assert upload.value == InvalidFormat;
      } else {
        assert upload.value == TooLarge;
      }
    } else if RefineCheck(language, file, previousCode, fixInstructions).Some? {
      if IsBlank(Py, previousCode) {
        assert RefineCheck(language, file, previousCode, fixInstructions) == Some(NoPreviousCode);
      } else {
        assert RefineCheck(language, file, previousCode, fixInstructions) == Some(NoInstructions);
      }
    }
  }

  /** Once every check passes, the body the agent produced is the answer,
      and an exception it raised is a 500 carrying its text. */
  lemma AgentOutcomeDecides<T>(language: string, file: Upload, previousCode: string, fixInstructions: string,
                               body: T, message: string)
    ensures UploadCheck(language, file).None? ==>
              GenerateCode(language, file, Completed(body)) == Ok(body)
              && GenerateCode<T>(language, file, Raised(message)) == Err(HttpError(500, "Failed to generate code: " + message))
    ensures RefineCheck(language, file, previousCode, fixInstructions).None? ==>
              RefineCode(language, file, previousCode, fixInstructions, Completed(body)) == Ok(body)
              && RefineCode<T>(language, file, previousCode, fixInstructions, Raised(message))
                   == Err(HttpError(500, "Failed to refine code: " + message))
  {
  }

  /** The declared content type is never consulted. */
  lemma ContentTypeIgnored<T>(language: string, file: Upload, contentType: string, previousCode: string,
                              fixInstructions: string, agent: Attempt<T>)
    ensures GenerateCode(language, file.(contentType := contentType), agent) == GenerateCode(language, file, agent)
    ensures RefineCode(language, file.(contentType := contentType), previousCode, fixInstructions, agent)
              == RefineCode(language, file, previousCode, fixInstructions, agent)
  {
  }

  /** Exactly 5 MiB is accepted, one byte more is refused with the size error. */
  lemma SizeBoundary(language: string, name: string, contentType: string, contents: seq<bv8>)
    requires language in AllowedLanguages && HasImageExtension(name)
    ensures |contents| == MaxFileSize ==> UploadCheck(language, Upload(name, contentType, contents)) == None
    ensures |contents| == MaxFileSize + 1 ==> UploadCheck(language, Upload(name, contentType, contents)) == Some(TooLarge)
  {
  }

  /** A name that is all leading dots before its extension has none. */
  lemma DotfileHasNoExtension()
    ensures !ValidateExtension(".png") && !ValidateExtension("..jpeg")
  {
    LastIndexOfAbsent(".png", '/');
    LastIndexOfAt(".png", '.', 0);
    LastIndexOfAbsent("..jpeg", '/');
    LastIndexOfAt("..jpeg", '.', 1);
  }

  /** Only the last path component has an extension. */
  lemma DirectoryDotIgnored()
    ensures !ValidateExtension("scans.png/diagram")
  {
    LastIndexOfAt("scans.png/diagram", '/', 9);
    LastIndexOfAt("scans.png/diagram", '.', 5);
  }
}
