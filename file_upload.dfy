// The upload gate of the server (backend/utils/file_upload.py) and the
// extension set it checks against (backend/config.py).
module FileUpload {
  import opened Text
  import opened Wrappers

  /** ALLOWED_EXTENSIONS of the server configuration. */
  const AllowedExtensions: set<string> := {"txt", "pdf", "png", "jpg", "jpeg", "gif", "mp3", "wav", "mp4"}

  /** Index of the last '.' in `name`, or -1 when there is none. */
  function LastDot(name: string): (k: int)
    ensures -1 <= k < |name|
    ensures k == -1 <==> '.' !in name
    ensures k >= 0 ==> name[k] == '.' && forall j :: k < j < |name| ==> name[j] != '.'
  {
    if name == [] then -1
    else if name[|name| - 1] == '.' then |name| - 1
    else LastDot(name[..|name| - 1])
  }

  /** `name.rsplit('.', 1)[1]`: everything after the last dot. */
  function Extension(name: string): string
    requires '.' in name
  {
    name[LastDot(name) + 1..]
  }

  /** allowed_file: there is a dot, and the lower-cased text after the last
      dot is an allowed extension. */
  predicate AllowedFile(filename: string)
  {
    '.' in filename && Lower(Extension(filename)) in AllowedExtensions
  }

  /** An accepted name ends with a dot followed by an allowed extension
      written in any case. */
  lemma AcceptedNameShape(filename: string)
    requires AllowedFile(filename)
    ensures exists e :: e in AllowedExtensions && |e| < |filename| && filename[|filename| - |e| - 1] == '.'
                        && Lower(filename[|filename| - |e|..]) == e
  {
    var e := Lower(Extension(filename));
    assert filename[|filename| - |e|..] == Extension(filename);
  }

  /** A name without a dot is rejected. */
  lemma NoDotRejected(filename: string)
    requires '.' !in filename
    ensures !AllowedFile(filename)
  {
  }

  /** Only the text after the last dot is looked at: for any stem (dots
      allowed) and any dot-free extension, the name is accepted exactly when
      the lower-cased extension is allowed. With the previous lemma this
      decides every file name. */
  lemma AllowedFileOfSplit(stem: string, ext: string)
    requires '.' !in ext
    ensures '.' in stem + "." + ext
    ensures Extension(stem + "." + ext) == ext
    ensures AllowedFile(stem + "." + ext) <==> Lower(ext) in AllowedExtensions
  {
    var name := stem + "." + ext;
    assert name[|stem|] == '.';
    assert forall j :: |stem| < j < |name| ==> name[j] == ext[j - |stem| - 1];
    assert name[|stem| + 1..] == ext;
  }

  /** Every dotted name splits at its last dot into a stem and a dot-free
      extension. */
  lemma SplitAtLastDot(filename: string)
    requires '.' in filename
    ensures '.' !in Extension(filename)
    ensures filename == filename[..LastDot(filename)] + "." + Extension(filename)
  {
  }

  /** A double extension is judged by its last part. */
  lemma DoubleExtensionExample()
    ensures AllowedFile("a.tar.png")
  {
    AllowedFileOfSplit("a.tar", "png");
    assert "a.tar" + "." + "png" == "a.tar.png";
    assert Lower("png") == "png";
  }

  /** Case is ignored on the name's side. */
  lemma UpperCaseExample()
    ensures AllowedFile("X.JPG")
  {
    AllowedFileOfSplit("X", "JPG");
    assert "X" + "." + "JPG" == "X.JPG";
    assert Lower("JPG") == "jpg";
  }

  /** A bare ".png" has the extension "png" and is accepted. */
  lemma DotFileExample()
    ensures AllowedFile(".png")
  {
    AllowedFileOfSplit("", "png");
    assert "" + "." + "png" == ".png";
    assert Lower("png") == "png";
  }

  /** A listed extension is accepted. */
  lemma ListedExtensionExample()
    ensures AllowedFile("clip.mp4")
  {
    AllowedFileOfSplit("clip", "mp4");
    assert "clip" + "." + "mp4" == "clip.mp4";
    assert Lower("mp4") == "mp4";
  }

  /** An unlisted extension is rejected. */
  lemma UnlistedExtensionExample()
    ensures !AllowedFile("setup.exe")
  {
    AllowedFileOfSplit("setup", "exe");
    assert "setup" + "." + "exe" == "setup.exe";
    assert Lower("exe") == "exe";
  }

  /** A trailing dot leaves an empty extension, which is not allowed. */
  lemma TrailingDotExample()
    ensures !AllowedFile("name.")
  {
    AllowedFileOfSplit("name", "");
    assert "name" + "." + "" == "name.";
  }

  // ---------------------------------------------------------------------------
  // save_uploaded_file
  // ---------------------------------------------------------------------------

  newtype byte = x: int | 0 <= x < 256

  /** An uploaded file as the request carries it. */
  datatype UploadedFile = UploadedFile(filename: string, data: seq<byte>)

  /** Python's posixpath.join of two components. */
  function PathJoin(a: string, b: string): (p: string)
    ensures b != [] && b[0] == '/' ==> p == b
    ensures |p| >= |b| && p[|p| - |b|..] == b
  {
    if b != [] && b[0] == '/' then b
    else if a == [] || a[|a| - 1] == '/' then a + b
    else a + "/" + b
  }

  /** The gate of save_uploaded_file. A request file is falsy when its name is
      empty, and an empty name has no dot, so testing the name suffices. */
  predicate UploadAccepted(file: Option<UploadedFile>)
  {
    file.Some? && AllowedFile(file.value.filename)
  }

  /** The upload folder on disk: the directories that exist and the saved
      files by path. */
  class UploadFolder {
    const root: string
    var dirs: set<string>
    var files: map<string, seq<byte>>

    constructor (root: string)
      ensures this.root == root && dirs == {} && files == map[]
    {
      this.root := root;
      dirs := {};
      files := map[];
    }

    /** save_uploaded_file. The time stamp, the random hex and the sanitised
        name are computed outside (clock, uuid4 and secure_filename) and passed
        in. A missing file or a disallowed name raises ValueError and nothing
        is written; otherwise the user's directory exists afterwards and the
        data is stored under "<stamp>_<hex>_<name>" inside it. */
    method SaveUploadedFile(file: Option<UploadedFile>, userId: nat, stamp: string, hex: string, safeName: string)
      returns (r: Result<string, string>)
      modifies this
      ensures !UploadAccepted(file) ==> r == Err("Invalid file type") && dirs == old(dirs) && files == old(files)
      ensures UploadAccepted(file) ==>
        var userDir := PathJoin(root, Decimal(userId));
        var path := PathJoin(userDir, stamp + "_" + hex + "_" + safeName);
        && r == Ok(path)
        && dirs == old(dirs) + {userDir}
        && files == old(files)[path := file.value.data]
    {
      if file.Some? && AllowedFile(file.value.filename) {
        var userDir := PathJoin(root, Decimal(userId));
        if userDir !in dirs {
          dirs := dirs + {userDir};
        }
        var uniqueFilename := stamp + "_" + hex + "_" + safeName;
        var filePath := PathJoin(userDir, uniqueFilename);
        files := files[filePath := file.value.data];
        return Ok(filePath);
      }
      return Err("Invalid file type");
    }
  }
}
