/**
 * Server-side upload validation: the extension rule `allowed_file` and the
 * ordered early-return checks at the top of the `/api/predict` route, which
 * decide every 400 response before anything is written to disk.
 */
module Upload {
  import opened Wrappers
  import Ascii

  /** `ALLOWED_EXTENSIONS`. */
  const AllowedExtensions: set<string> := {"png", "jpg", "jpeg", "gif", "bmp"}

  /** Index of the last occurrence of `c` in `s`, if any. */
  function LastIndexOf(s: string, c: char): (r: Option<nat>)
    ensures r.None? <==> c !in s
    ensures r.Some? ==> r.value < |s| && s[r.value] == c && c !in s[r.value + 1..]
    decreases |s|
  {
    if s == [] then None
    else if s[|s| - 1] == c then Some(|s| - 1)
    else
      var r := LastIndexOf(s[..|s| - 1], c);
      assert s == s[..|s| - 1] + [s[|s| - 1]];
      r
  }

  /** `filename.rsplit('.', 1)[1]` when the name holds a dot: the text after the last dot. */
  function Extension(filename: string): (r: Option<string>)
    ensures r.None? <==> '.' !in filename
    ensures r.Some? ==> |r.value| < |filename|
                        && filename[|filename| - |r.value| - 1] == '.'
                        && filename[|filename| - |r.value|..] == r.value
                        && '.' !in r.value
  {
    match LastIndexOf(filename, '.')
    case None => None
    case Some(i) => Some(filename[i + 1..])
  }

  /** `allowed_file`: there is a dot, and the lower-cased text after the last dot is an allowed extension. */
  predicate AllowedFile(filename: string)
    ensures AllowedFile(filename) ==>
              '.' in filename && Extension(filename).Some? && 3 <= |Extension(filename).value| <= 4
  {
    match Extension(filename)
    case None => false
    case Some(ext) => Ascii.Lower(ext) in AllowedExtensions
  }

  /**
   * Reference characterisation of `allowed_file`: some dot of the name has no
   * dot after it, and the lower-cased text after it is an allowed extension.
   */
  lemma AllowedFileIff(filename: string)
    ensures AllowedFile(filename) <==>
              exists i :: 0 <= i < |filename| && filename[i] == '.' && '.' !in filename[i + 1..]
                          && Ascii.Lower(filename[i + 1..]) in AllowedExtensions
  {
  }

  /** Two names equal up to case agree on where their dots are and on their lower-cased suffixes. */
  lemma SuffixesAgree(a: string, b: string, i: nat)
    requires Ascii.Lower(a) == Ascii.Lower(b) && i < |a|
    ensures (a[i] == '.') == (b[i] == '.')
    ensures ('.' in a[i + 1..]) == ('.' in b[i + 1..])
    ensures Ascii.Lower(a[i + 1..]) == Ascii.Lower(b[i + 1..])
  {
  }

  /** Whether a name is accepted does not depend on the case of its letters. */
  lemma AllowedFileIgnoresCase(a: string, b: string)
    requires Ascii.Lower(a) == Ascii.Lower(b)
    ensures AllowedFile(a) == AllowedFile(b)
  {
    AllowedFileIff(a);
    AllowedFileIff(b);
    if AllowedFile(a) {
      var i :| 0 <= i < |a| && a[i] == '.' && '.' !in a[i + 1..] && Ascii.Lower(a[i + 1..]) in AllowedExtensions;
      SuffixesAgree(a, b, i);
    }
    if AllowedFile(b) {
      var i :| 0 <= i < |b| && b[i] == '.' && '.' !in b[i + 1..] && Ascii.Lower(b[i + 1..]) in AllowedExtensions;
      SuffixesAgree(a, b, i);
    }
  }

  /** Names from the rule's intended behaviour: case-insensitive, and the last dot decides. */
  lemma UpperCaseExtensionAccepted()
    ensures AllowedFile("a.PNG")
  {
    assert LastIndexOf("a.PNG", '.') == Some(1);
    assert "a.PNG"[2..] == "PNG";
    assert Ascii.Lower("PNG") == "png";
  }

  lemma LastOfSeveralDotsDecides()
    ensures AllowedFile("x.tar.jpg")
    ensures !AllowedFile("a.png.txt")
  {
    assert LastIndexOf("x.tar.jpg", '.') == Some(5);
    assert "x.tar.jpg"[6..] == "jpg";
    assert Ascii.Lower("jpg") == "jpg";
    assert LastIndexOf("a.png.txt", '.') == Some(5);
    assert "a.png.txt"[6..] == "txt";
    assert Ascii.Lower("txt") == "txt";
  }

  lemma MissingOrEmptyExtensionRejected()
    ensures !AllowedFile("png")
    ensures !AllowedFile("a.")
    ensures !AllowedFile("")
  {
  }

  /** The part of a multipart request the route reads: the uploaded file's client-side name. */
  datatype FileStorage = FileStorage(filename: string)

  /** The three 400 outcomes of the route's early checks. */
  datatype Rejection = NoFileProvided | NoFileSelected | InvalidFormat

  const BadRequest := 400

  function RejectionMessage(r: Rejection): (m: string)
    ensures m != ""
  {
    match r
    case NoFileProvided => "No file provided"
    case NoFileSelected => "No file selected"
    case InvalidFormat => "Invalid file format. Allowed: png, jpg, jpeg, gif, bmp"
  }

  /**
   * The early-return checks of the upload route, in their order: the `file`
   * field is missing, then its name is empty, then its extension is not allowed.
   * Success hands back the file that passes on to be saved.
   */
  function CheckUpload(files: map<string, FileStorage>): (r: Result<FileStorage, Rejection>)
    ensures r == Failure(NoFileProvided) <==> "file" !in files
    ensures r == Failure(NoFileSelected) <==> "file" in files && files["file"].filename == ""
    ensures r == Failure(InvalidFormat) <==>
              "file" in files && files["file"].filename != "" && !AllowedFile(files["file"].filename)
    ensures r.Success? <==> "file" in files && AllowedFile(files["file"].filename)
    ensures r.Success? ==> r.value == files["file"] && r.value.filename != ""
  {
    if "file" !in files then Failure(NoFileProvided)
    else
      var file := files["file"];
      if file.filename == "" then Failure(NoFileSelected)
      else if !AllowedFile(file.filename) then Failure(InvalidFormat)
      else Success(file)
  }
}
