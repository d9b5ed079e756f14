/** What the server observes of its platform: thrown values, the XML parser
    (a foreign library), the file system and `path.join`. */
module Platform {
  import opened Wrappers
  import opened Json

  /** A thrown value: an `Error` instance, which carries a message, or any
      other thrown value. */
  datatype Thrown = Failure(message: string) | NonError

  /** `error instanceof Error ? error.message : fallback`. */
  function MessageOr(t: Thrown, fallback: string): string {
    match t
    case Failure(m) => m
    case NonError => fallback
  }

  /** The XML parser, left uninterpreted: `parser.parse(text)` either returns
      the parsed document as an object or throws. */
  type Parser = string -> Result<map<string, Value>, Thrown>

  /** The file system as the server observes it, by path: whether
      `fs.access(path, R_OK)` resolves, the size `fs.stat(path)` reports, and
      the text `fs.readFile(path, 'utf-8')` yields. Each may reject instead. */
  datatype FileSystem = FileSystem(
    access: string -> Result<(), Thrown>,
    stat: string -> Result<nat, Thrown>,
    readFile: string -> Result<string, Thrown>)

  /** The part of `path.join(dir, name)` that precedes a non-empty `name`. */
  function JoinPrefix(dir: string): (prefix: string)
    ensures prefix == dir || prefix == dir + "/"
  {
    if dir == "" || dir[|dir| - 1] == '/' then dir else dir + "/"
  }

  /** `path.join(dir, name)` for a directory and one plain file name: the two
      joined by exactly one separator; an empty part contributes nothing, and
      when both are empty the result is the current directory ".". */
  function Join(dir: string, name: string): (path: string)
    ensures name == "" && dir != "" ==> path == dir
    ensures name == "" && dir == "" ==> path == "."
    ensures name != "" && dir != "" && dir[|dir| - 1] != '/' ==> path == dir + "/" + name
    ensures name != "" && (dir == "" || dir[|dir| - 1] == '/') ==> path == dir + name
    ensures name != "" ==> |path| >= |name| && path[|path| - |name|..] == name
  {
    if name == "" then (if dir == "" then "." else dir) else JoinPrefix(dir) + name
  }

  /** Joining the same directory with two different names never gives the same path. */
  lemma JoinInjective(dir: string, a: string, b: string)
    requires dir != "" || (a != "" && b != "")
    requires Join(dir, a) == Join(dir, b)
    ensures a == b
  {
  }
}
