/** The upload page of the code generator: the client-side gate on the
    diagram file (format, then size; exactly one file), and the form whose
    submission sends the diagram and the target language for generation. */
module UploadGate {
  import opened Text
  import opened Remote

  /** A file offered by drag-and-drop or by the file picker. */
  datatype UploadFile = UploadFile(name: string, mimeType: string, size: nat)

  const AllowedFormats: seq<string> := ["image/jpeg", "image/png", "image/jpg"]
  const AllowedExtensions: seq<string> := [".jpg", ".jpeg", ".png"]
  const MaxFileSize: nat := 5 * 1024 * 1024
  const LanguageOptions: seq<string> := ["python", "java", "csharp", "cpp"]
  const DefaultLanguage: string := "python"

  const TooManyFiles: string := "Please upload only one file at a time"

  /** Why a file was refused: first failed rule wins. */
  datatype FileError = InvalidFormat | TooLarge(size: nat)

  /** The message stored under `errors.file`; the size message's MB figure is not modelled. */
  function Message(e: FileError): string {
    match e
    case InvalidFormat => "Invalid file format. Supported formats: JPG, JPEG, PNG"
    case TooLarge(_) => "File size exceeds 5 MB."
  }

  /** `name.substring(name.lastIndexOf(".")).toLowerCase()`. `substring`
      treats the -1 of a missing '.' as 0, so the whole name is taken. */
  function Extension(name: string): (r: string)
    ensures |r| <= |name| && r == ToLower(name[|name| - |r|..])
    ensures '.' in name ==> r != [] && name[|name| - |r|] == '.' && '.' !in name[|name| - |r| + 1..]
    ensures '.' !in name ==> |r| == |name|
  {
    var i := LastIndexOf(name, '.');
    ToLower(name[if i < 0 then 0 else i..])
  }

  /** The format rule: an accepted declared type, or else an accepted extension. */
  predicate FormatOk(f: UploadFile) {
    f.mimeType in AllowedFormats || Extension(f.name) in AllowedExtensions
  }

  /** `validateFile`: None is the empty error object. */
  function ValidateFile(f: UploadFile): (r: Option<FileError>)
    ensures r == Some(InvalidFormat) <==> !FormatOk(f)
    ensures r == Some(TooLarge(f.size)) <==> FormatOk(f) && f.size > MaxFileSize
    ensures r == None <==> FormatOk(f) && f.size <= MaxFileSize
  {
    if f.mimeType !in AllowedFormats && Extension(f.name) !in AllowedExtensions then Some(InvalidFormat)
    else if f.size > MaxFileSize then Some(TooLarge(f.size))
    else None
  }

  /** The error object that `validateFile` returns. */
  function ErrorsOf(v: Option<FileError>): map<string, string> {
    match v
    case None => map[]
    case Some(e) => map["file" := Message(e)]
  }

  /** An independent reading of the extension rule: the name ends, ignoring case, in one of the accepted suffixes. */
  predicate HasImageSuffix(name: string) {
    EndsWithIgnoringCase(name, ".jpg") || EndsWithIgnoringCase(name, ".jpeg") || EndsWithIgnoringCase(name, ".png")
  }

  lemma SuffixIsExtension(name: string, ext: string)
    requires ext in AllowedExtensions
    requires EndsWithIgnoringCase(name, ext)
    ensures Extension(name) == ext
  {
    assert '.' !in ext[1..];
    DottedSuffixIsLast(name, ext);
  }

  /** The extension check passes exactly when the name ends, ignoring case,
      in .jpg, .jpeg or .png: whatever precedes the last '.', it is the part
      from the last '.' on that counts. */
  lemma ExtensionCheckIffSuffix(name: string)
    ensures Extension(name) in AllowedExtensions <==> HasImageSuffix(name)
  {
    if HasImageSuffix(name) {
      if EndsWithIgnoringCase(name, ".jpg") { SuffixIsExtension(name, ".jpg"); }
      else if EndsWithIgnoringCase(name, ".jpeg") { SuffixIsExtension(name, ".jpeg"); }
      else { SuffixIsExtension(name, ".png"); }
    }
    if Extension(name) in AllowedExtensions {
      assert EndsWithIgnoringCase(name, Extension(name));
    }
  }

  /** A name without any '.' never passes the extension check: the whole
      name becomes the "extension", and every accepted one starts with '.'. */
  lemma NoDotFailsExtension(name: string)
    requires '.' !in name
    ensures Extension(name) !in AllowedExtensions
  {
    assert LastIndexOf(name, '.') == -1;
    if name != [] {
      LowerKeeps(name[0], '.');
      assert Extension(name)[0] != '.';
    }
  }

  /** A declared type of image/jpeg, image/png or image/jpg passes the format rule, whatever the name. */
  lemma DeclaredTypeSuffices(f: UploadFile)
    requires f.mimeType in AllowedFormats
    ensures ValidateFile(f) != Some(InvalidFormat)
  {
  }

  /** Format is checked before size: a bad-format file reports only the format message, oversize or not. */
  lemma FormatBeforeSize(f: UploadFile)
    requires f.mimeType !in AllowedFormats && !HasImageSuffix(f.name)
    ensures ErrorsOf(ValidateFile(f)) == map["file" := "Invalid file format. Supported formats: JPG, JPEG, PNG"]
  {
    ExtensionCheckIffSuffix(f.name);
  }

  /** A well-formatted file of exactly 5 MiB passes; one byte more fails with the size message. */
  lemma SizeBoundary(name: string, mimeType: string)
    requires mimeType in AllowedFormats || HasImageSuffix(name)
    ensures ValidateFile(UploadFile(name, mimeType, 5 * 1024 * 1024)) == None
    ensures ValidateFile(UploadFile(name, mimeType, 5 * 1024 * 1024 + 1)) == Some(TooLarge(5 * 1024 * 1024 + 1))
  {
    ExtensionCheckIffSuffix(name);
  }

  /** What a submission sends: the file and the chosen language. */
  datatype GenerationRequest = GenerationRequest(file: UploadFile, targetLanguage: string)

  /** The state of the upload form: `file`, `selectedLanguage`, `errors`,
      `isLoading` and `uploadProgress`. Handlers run as atomic steps. */
  class GeneratorPage {
    var file: Option<UploadFile>
    var selectedLanguage: string
    var errors: map<string, string>
    var isLoading: bool
    var uploadProgress: int

    /** Between handler steps nothing is loading, no code path ever sets a
        progress other than 0, and a selected file passed the gate. */
    ghost predicate Valid()
      reads this
    {
      !isLoading && uploadProgress == 0 && (file.Some? ==> ValidateFile(file.value) == None)
    }

    constructor ()
      ensures Valid()
      ensures file == None && selectedLanguage == DefaultLanguage && errors == map[]
    {
      file := None;
      selectedLanguage := DefaultLanguage;
      errors := map[];
      isLoading := false;
      uploadProgress := 0;
    }

    /** The generate button is enabled. */
    predicate CanSubmit()
      reads this
    {
      !isLoading && file.Some?
    }

    /** `handleDrop` and `handleFileSelect`: more than one file is an error
        that keeps the current file; no file changes nothing; one file is
        gated and either becomes the file or clears it. */
    method OfferFiles(files: seq<UploadFile>)
      requires Valid()
      modifies this
      ensures Valid()
      ensures selectedLanguage == old(selectedLanguage)
      ensures |files| > 1 ==> errors == map["file" := TooManyFiles] && file == old(file)
      ensures |files| == 0 ==> errors == old(errors) && file == old(file)
      ensures |files| == 1 && ValidateFile(files[0]).Some? ==>
                errors == ErrorsOf(ValidateFile(files[0])) && errors != map[] && file == None
      ensures |files| == 1 && ValidateFile(files[0]) == None ==> errors == map[] && file == Some(files[0])
    {
      if |files| > 1 {
        errors := map["file" := TooManyFiles];
      } else if |files| == 1 {
        var v := ValidateFile(files[0]);
        var newErrors := ErrorsOf(v);
        var newFile := if v.Some? then None else Some(files[0]);
        assert v.Some? ==> "file" in newErrors;
        errors, file := newErrors, newFile;
      }
    }

    /** `handleRemoveFile`. */
    method RemoveFile()
      requires Valid()
      modifies this
      ensures Valid()
      ensures file == None && errors == map[] && uploadProgress == 0
      ensures selectedLanguage == old(selectedLanguage)
    {
      file := None;
      errors := map[];
      uploadProgress := 0;
    }

    /** The language radio buttons' `onChange`. */
    method SelectLanguage(language: string)
      requires Valid()
      modifies this
      ensures Valid()
      ensures selectedLanguage == language && file == old(file) && errors == old(errors)
    {
      selectedLanguage := language;
    }

    /** `handleGenerateCode`, with the awaited `generateCode` as the input
        `outcome`. Returns the request it sent, if any, and the code
        download it started, if any. */
    method GenerateCode(outcome: Outcome<CodeResponse>) returns (sent: Option<GenerationRequest>, download: Option<Download>)
      requires Valid()
      modifies this
      ensures Valid()
      ensures old(file) == None ==>
                sent == None && download == None && errors == map["file" := "Please upload an OPM diagram"]
                && file == old(file) && selectedLanguage == old(selectedLanguage)
      ensures old(file) != None && old(selectedLanguage) == "" ==>
                sent == None && download == None && errors == map["language" := "Please select a programming language"]
                && file == old(file) && selectedLanguage == old(selectedLanguage)
      ensures old(file) != None && old(selectedLanguage) != "" ==>
                sent == Some(GenerationRequest(old(file).value, old(selectedLanguage)))
      ensures sent.Some? && outcome.Returned? && outcome.value.status == "valid" ==>
                file == None && errors == map[] && selectedLanguage == DefaultLanguage
                && download == Some(Download(outcome.value.code, outcome.value.filename))
      ensures sent.Some? && outcome.Returned? && outcome.value.status != "valid" ==>
                errors == map["diagram" := if outcome.value.explanation != "" then outcome.value.explanation else "Diagram is invalid."]
                && file == old(file) && selectedLanguage == old(selectedLanguage) && download == None
      ensures sent.Some? && outcome.Threw? ==>
                errors == map["submit" := ErrorText(outcome.error, "Failed to generate code")]
                && file == old(file) && selectedLanguage == old(selectedLanguage) && download == None
    {
      sent, download := None, None;
      if file == None {
        errors := map["file" := "Please upload an OPM diagram"];
        return;
      }
      if selectedLanguage == "" {
        errors := map["language" := "Please select a programming language"];
        return;
      }
      isLoading := true;
      errors := map[];
      sent := Some(GenerationRequest(file.value, selectedLanguage));
      match outcome {
        case Returned(response) =>
          if response.status == "valid" {
            download := Some(Download(response.code, response.filename));
            file := None;
            errors := map[];
            uploadProgress := 0;
            selectedLanguage := DefaultLanguage;
          } else {
            errors := map["diagram" := if response.explanation != "" then response.explanation else "Diagram is invalid."];
          }
        case Threw(e) =>
          errors := map["submit" := ErrorText(e, "Failed to generate code")];
      }
      isLoading := false;
      uploadProgress := 0;
    }
  }

  /** A short run of the page: a bad file is refused, a good one accepted,
      a second offer of two files keeps it, and an accepted generation
      resets the form. */
  method UploadScenario(bad: UploadFile, good: UploadFile, response: CodeResponse)
    requires !FormatOk(bad)
    requires good.mimeType in AllowedFormats && good.size <= MaxFileSize
    requires response.status == "valid"
  {
    var page := new GeneratorPage();
    page.OfferFiles([bad]);
    assert page.file == None;
    page.OfferFiles([good]);
    assert page.file == Some(good);
    page.OfferFiles([bad, good]);
    assert page.file == Some(good);
    var sent, download := page.GenerateCode(Returned(response));
    assert sent == Some(GenerationRequest(good, DefaultLanguage));
    assert page.file == None && page.errors == map[] && download == Some(Download(response.code, response.filename));
  }
}
