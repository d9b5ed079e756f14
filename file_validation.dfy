/** The boot-time file gate (src/server/utils/fileValidation.ts): the data
    directory and the four XML files are checked in a fixed order and the
    first failure is the one reported. */
module FileValidation {
  import opened Wrappers
  import opened Platform

  /** `FileValidationError`: the one error kind the gate reports. */
  datatype FileValidationError = FileValidationError(message: string)

  datatype Outcome = Pass | Fail(error: FileValidationError)

  /** `XML_FILE_NAMES`, in checking order. */
  const XmlFileNames: seq<string> := [
    "1_Response20230320_Cases.XML",
    "2_Response20230320_Cases_Events.XML",
    "3_Response20230320_Cases_Messages.XML",
    "4_Response20230320_Cases_DocDetails.XML"
  ]

  /** 100 MiB, the largest accepted file size in bytes. */
  const MaxFileSize: nat := 100 * 1024 * 1024

  /** `getXmlFilePath`: the data directory joined with the file name. */
  function GetXmlFilePath(dir: string, name: string): (path: string)
    ensures name != "" ==> path == JoinPrefix(dir) + name
  {
    Join(dir, name)
  }

  /** The four files live at four different paths. */
  lemma FilePathsDistinct(dir: string)
    ensures forall i, j | 0 <= i < j < |XmlFileNames| ::
      GetXmlFilePath(dir, XmlFileNames[i]) != GetXmlFilePath(dir, XmlFileNames[j])
  {
    forall i, j | 0 <= i < j < |XmlFileNames|
      ensures GetXmlFilePath(dir, XmlFileNames[i]) != GetXmlFilePath(dir, XmlFileNames[j])
    {
      assert XmlFileNames[i][0] != XmlFileNames[j][0];
      if GetXmlFilePath(dir, XmlFileNames[i]) == GetXmlFilePath(dir, XmlFileNames[j]) {
        JoinInjective(dir, XmlFileNames[i], XmlFileNames[j]);
        assert false;
      }
    }
  }

  function DirNotAccessible(dir: string): string { "XML files directory not accessible: " + dir }
  function EmptyFile(name: string): string { "XML file is empty: " + name }
  function TooLarge(name: string): string { "XML file too large: " + name }
  function CannotAccess(name: string): string { "Cannot access XML file: " + name }
  function InvalidStructure(name: string, t: Thrown): string {
    "Invalid XML structure in file " + name + ": " + MessageOr(t, "Unknown error")
  }

  /** What the `try` block around one file's checks can throw: a
      `FileValidationError` it raised itself, or anything else. */
  datatype Raised = Validation(error: FileValidationError) | Other(thrown: Thrown)

  /** The `catch` around one file: a `FileValidationError` propagates with its
      message unchanged, anything else becomes "cannot access". */
  function Rewrap(x: Raised, name: string): (e: FileValidationError)
    ensures x.Validation? ==> e == x.error
    ensures x.Other? ==> e.message == CannotAccess(name)
  {
    match x
    case Validation(e) => e
    case Other(_) => FileValidationError(CannotAccess(name))
  }

  /** A file passes every check: it is accessible, its size is in 1..100 MiB,
      it can be read and its text parses. */
  predicate FileAcceptable(fs: FileSystem, parse: Parser, path: string) {
    && fs.access(path).Ok?
    && fs.stat(path).Ok?
    && 0 < fs.stat(path).value <= MaxFileSize
    && fs.readFile(path).Ok?
    && parse(fs.readFile(path).value).Ok?
  }

  /** The verdict on one file: the failure of the first check it fails. */
  function CheckFile(fs: FileSystem, parse: Parser, dir: string, name: string): (o: Outcome)
    ensures o.Pass? <==> FileAcceptable(fs, parse, GetXmlFilePath(dir, name))
  {
    var path := GetXmlFilePath(dir, name);
    if fs.access(path).Err? || fs.stat(path).Err? then Fail(FileValidationError(CannotAccess(name)))
    else if fs.stat(path).value == 0 then Fail(FileValidationError(EmptyFile(name)))
    else if fs.stat(path).value > MaxFileSize then Fail(FileValidationError(TooLarge(name)))
    else if fs.readFile(path).Err? then Fail(FileValidationError(InvalidStructure(name, fs.readFile(path).error)))
    else if parse(fs.readFile(path).value).Err? then
      Fail(FileValidationError(InvalidStructure(name, parse(fs.readFile(path).value).error)))
    else Pass
  }

  /** The files checked in order, stopping at the first failure. */
  function FilesOutcome(fs: FileSystem, parse: Parser, dir: string, names: seq<string>): Outcome {
    if names == [] then Pass
    else
      var o := CheckFile(fs, parse, dir, names[0]);
      if o.Fail? then o else FilesOutcome(fs, parse, dir, names[1..])
  }

  /** The gate's verdict: the directory first, then the files in order. */
  function ValidationOutcome(fs: FileSystem, parse: Parser, dir: string): Outcome {
    if fs.access(dir).Err? then Fail(FileValidationError(DirNotAccessible(dir)))
    else FilesOutcome(fs, parse, dir, XmlFileNames)
  }

  /** `validateXmlFiles`, step by step: `fs.access` on the directory, then per
      file `fs.access`, `fs.stat`, the size bounds and, inside a nested
      `try`, `fs.readFile` and the parser, with the `catch` clauses of the
      source. */
  method ValidateXmlFiles(fs: FileSystem, parse: Parser, dir: string) returns (r: Outcome)
    ensures r == ValidationOutcome(fs, parse, dir)
    ensures fs.access(dir).Err? ==> r == Fail(FileValidationError(DirNotAccessible(dir)))
  {
    if fs.access(dir).Err? {
      return Fail(FileValidationError(DirNotAccessible(dir)));
    }
    for i := 0 to |XmlFileNames|
      invariant FilesOutcome(fs, parse, dir, XmlFileNames) == FilesOutcome(fs, parse, dir, XmlFileNames[i..])
    {
      var name := XmlFileNames[i];
      var path := GetXmlFilePath(dir, name);
      var raised: Option<Raised> := None;
      var accessed := fs.access(path);
      if accessed.Err? {
        raised := Some(Other(accessed.error));
      } else {
        var stats := fs.stat(path);
        if stats.Err? {
          raised := Some(Other(stats.error));
        } else if stats.value == 0 {
          raised := Some(Validation(FileValidationError(EmptyFile(name))));
        } else if stats.value > MaxFileSize {
          raised := Some(Validation(FileValidationError(TooLarge(name))));
        } else {
          // the nested try: a failed read or parse is reported as invalid structure
          var parseError: Option<Thrown> := None;
          var content := fs.readFile(path);
          if content.Err? {
            parseError := Some(content.error);
          } else {
            var parsed := parse(content.value);
            if parsed.Err? {
              parseError := Some(parsed.error);
            }
          }
          if parseError.Some? {
            raised := Some(Validation(FileValidationError(InvalidStructure(name, parseError.value))));
          }
        }
      }
      if raised.Some? {
        assert XmlFileNames[i..][0] == name;
        return Fail(Rewrap(raised.value, name));
      }
      assert XmlFileNames[i..][1..] == XmlFileNames[i + 1..];
    }
    assert XmlFileNames[|XmlFileNames|..] == [];
    return Pass;
  }

  /** The files pass exactly when every one of them is acceptable. */
  lemma {:induction false} FilesPassIff(fs: FileSystem, parse: Parser, dir: string, names: seq<string>)
    ensures FilesOutcome(fs, parse, dir, names).Pass? <==>
      forall i | 0 <= i < |names| :: FileAcceptable(fs, parse, GetXmlFilePath(dir, names[i]))
  {
    if names != [] {
      FilesPassIff(fs, parse, dir, names[1..]);
      assert forall i | 1 <= i < |names| :: names[i] == names[1..][i - 1];
    }
  }

  /** The gate passes exactly when the directory is accessible and all four
      files are accessible, of size 1..100 MiB, readable and parseable. */
  lemma GatePassesIff(fs: FileSystem, parse: Parser, dir: string)
    ensures ValidationOutcome(fs, parse, dir).Pass? <==>
      && fs.access(dir).Ok?
      && forall i | 0 <= i < |XmlFileNames| :: FileAcceptable(fs, parse, GetXmlFilePath(dir, XmlFileNames[i]))
  {
    FilesPassIff(fs, parse, dir, XmlFileNames);
  }

  /** A failure names the first failing file: every earlier file passed and the
      reported error is that file's own. */
  lemma {:induction false} FirstFailureReported(fs: FileSystem, parse: Parser, dir: string, names: seq<string>)
    requires FilesOutcome(fs, parse, dir, names).Fail?
    ensures exists k | 0 <= k < |names| ::
      && (forall j | 0 <= j < k :: CheckFile(fs, parse, dir, names[j]).Pass?)
      && CheckFile(fs, parse, dir, names[k]) == FilesOutcome(fs, parse, dir, names)
  {
    if CheckFile(fs, parse, dir, names[0]).Pass? {
      FirstFailureReported(fs, parse, dir, names[1..]);
      var k :| 0 <= k < |names[1..]|
        && (forall j | 0 <= j < k :: CheckFile(fs, parse, dir, names[1..][j]).Pass?)
        && CheckFile(fs, parse, dir, names[1..][k]) == FilesOutcome(fs, parse, dir, names[1..]);
      assert forall j | 1 <= j < k + 1 :: names[j] == names[1..][j - 1];
      assert names[k + 1] == names[1..][k];
    } else {
      assert CheckFile(fs, parse, dir, names[0]) == FilesOutcome(fs, parse, dir, names);
    }
  }

  /** Two file systems that look the same at a path. */
  predicate SameAt(fs1: FileSystem, fs2: FileSystem, path: string) {
    fs1.access(path) == fs2.access(path) && fs1.stat(path) == fs2.stat(path) && fs1.readFile(path) == fs2.readFile(path)
  }

  /** Files after the first failing one are never examined: once the first `k`
      files already fail, what the file system holds for the later files does
      not affect the outcome. */
  lemma {:induction false} LaterFilesNotExamined(fs1: FileSystem, fs2: FileSystem, parse: Parser, dir: string,
                                                 names: seq<string>, k: nat)
    requires k <= |names|
    requires forall j | 0 <= j < k :: SameAt(fs1, fs2, GetXmlFilePath(dir, names[j]))
    requires FilesOutcome(fs1, parse, dir, names[..k]).Fail?
    ensures FilesOutcome(fs2, parse, dir, names) == FilesOutcome(fs1, parse, dir, names)
    ensures FilesOutcome(fs1, parse, dir, names) == FilesOutcome(fs1, parse, dir, names[..k])
  {
    assert k > 0;
    assert names[..k][0] == names[0];
    assert CheckFile(fs1, parse, dir, names[0]) == CheckFile(fs2, parse, dir, names[0]);
    if CheckFile(fs1, parse, dir, names[0]).Pass? {
      assert names[..k][1..] == names[1..][..k - 1];
      assert forall j | 0 <= j < k - 1 :: names[1..][j] == names[j + 1];
      LaterFilesNotExamined(fs1, fs2, parse, dir, names[1..], k - 1);
    }
  }

  /** Which message a failing file gets: an access or stat failure becomes
      "cannot access"; a failed read or parse, both inside the nested `try`,
      becomes "invalid XML structure" carrying what was thrown. */
  lemma FileFailureMessages(fs: FileSystem, parse: Parser, dir: string, name: string)
    ensures var path := GetXmlFilePath(dir, name);
      (fs.access(path).Err? || fs.stat(path).Err?) ==>
        CheckFile(fs, parse, dir, name) == Fail(FileValidationError(CannotAccess(name)))
    ensures var path := GetXmlFilePath(dir, name);
      fs.access(path).Ok? && fs.stat(path).Ok? && 0 < fs.stat(path).value <= MaxFileSize && fs.readFile(path).Err? ==>
        CheckFile(fs, parse, dir, name) == Fail(FileValidationError(InvalidStructure(name, fs.readFile(path).error)))
    ensures var path := GetXmlFilePath(dir, name);
      fs.access(path).Ok? && fs.stat(path).Ok? && 0 < fs.stat(path).value <= MaxFileSize && fs.readFile(path).Ok?
      && parse(fs.readFile(path).value).Err? ==>
        CheckFile(fs, parse, dir, name)
          == Fail(FileValidationError(InvalidStructure(name, parse(fs.readFile(path).value).error)))
  {
  }

  /** The size bounds: an empty file and any file over 100 MiB fail with their
      own messages before the file is read, while a file of exactly 100 MiB
      that reads and parses passes. */
  lemma SizeBoundary(fs: FileSystem, parse: Parser, dir: string, name: string)
    requires fs.access(GetXmlFilePath(dir, name)).Ok? && fs.stat(GetXmlFilePath(dir, name)).Ok?
    ensures fs.stat(GetXmlFilePath(dir, name)).value == 0 ==>
      CheckFile(fs, parse, dir, name) == Fail(FileValidationError(EmptyFile(name)))
    ensures fs.stat(GetXmlFilePath(dir, name)).value > MaxFileSize ==>
      CheckFile(fs, parse, dir, name) == Fail(FileValidationError(TooLarge(name)))
    ensures (&& fs.stat(GetXmlFilePath(dir, name)).value == MaxFileSize
             && fs.readFile(GetXmlFilePath(dir, name)).Ok?
             && parse(fs.readFile(GetXmlFilePath(dir, name)).value).Ok?) ==>
      CheckFile(fs, parse, dir, name) == Pass
  {
  }

}
