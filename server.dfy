/** The data-serving logic of the HTTP server (src/server/index.ts): the
    registry of data files, the `/api/data/:type` handler as a function from
    the request key and what the platform yields to the response, and the
    health body. */
module Server {
  import opened Wrappers
  import opened Json
  import opened Platform
  import Env
  import FileValidation
  import opened DataTypes

  /** `XML_FILES`: each data-type key mapped to its file under the data directory. */
  function XmlFiles(dir: string): (files: map<string, string>)
    ensures files.Keys == set key | key in DataTypeKeys
  {
    map[
      "cases" := Join(dir, "1_Response20230320_Cases.XML"),
      "events" := Join(dir, "2_Response20230320_Cases_Events.XML"),
      "messages" := Join(dir, "3_Response20230320_Cases_Messages.XML"),
      "docDetails" := Join(dir, "4_Response20230320_Cases_DocDetails.XML")
    ]
  }

  /** The registry serves, key by key in order, exactly the files the boot-time
      gate checks, and no two keys share a file. */
  lemma RegistryMatchesCheckedFiles(dir: string)
    ensures |DataTypeKeys| == |FileValidation.XmlFileNames|
    ensures forall i | 0 <= i < |DataTypeKeys| ::
      XmlFiles(dir)[DataTypeKeys[i]] == FileValidation.GetXmlFilePath(dir, FileValidation.XmlFileNames[i])
    ensures forall k1, k2 | k1 in XmlFiles(dir) && k2 in XmlFiles(dir) && k1 != k2 ::
      XmlFiles(dir)[k1] != XmlFiles(dir)[k2]
  {
    var files, names := XmlFiles(dir), FileValidation.XmlFileNames;
    assert files["cases"] == FileValidation.GetXmlFilePath(dir, names[0]);
    assert files["events"] == FileValidation.GetXmlFilePath(dir, names[1]);
    assert files["messages"] == FileValidation.GetXmlFilePath(dir, names[2]);
    assert files["docDetails"] == FileValidation.GetXmlFilePath(dir, names[3]);
    FileValidation.FilePathsDistinct(dir);
    forall k1, k2 | k1 in files && k2 in files && k1 != k2
      ensures files[k1] != files[k2]
    {
      var i :| 0 <= i < |DataTypeKeys| && DataTypeKeys[i] == k1;
      var j :| 0 <= j < |DataTypeKeys| && DataTypeKeys[j] == k2;
      if i < j {
        assert files[k1] == FileValidation.GetXmlFilePath(dir, FileValidation.XmlFileNames[i]);
      } else {
        assert files[k2] == FileValidation.GetXmlFilePath(dir, FileValidation.XmlFileNames[j]);
      }
    }
  }

  /** A status code and the value handed to `res.json`. A body of `undefined`
      is sent as an empty body. */
  datatype HttpResponse = HttpResponse(status: nat, body: Value)

  const InvalidTypeBody: Value := Obj(map["error" := Str("Invalid file type")])

  /** The body of a 500 response for a thrown value. */
  function ReadErrorBody(t: Thrown): (body: Value)
    ensures body.Obj? && body.fields.Keys == {"error", "message"}
    ensures body.fields["error"] == Str("Error reading XML file")
    ensures t.Failure? ==> body.fields["message"] == Str(t.message)
    ensures t.NonError? ==> body.fields["message"] == Str("Unknown error")
  {
    Obj(map["error" := Str("Error reading XML file"), "message" := Str(MessageOr(t, "Unknown error"))])
  }

  /** The success body: for `docDetails` the value under the document's
      `Response` key (`undefined` when it has none), for every other key the
      parsed document itself. */
  function Transform(key: string, document: map<string, Value>): (body: Value)
    ensures key == "docDetails" && "Response" in document ==> body == document["Response"]
    ensures key == "docDetails" && "Response" !in document ==> body.Undefined?
    ensures key != "docDetails" ==> body == Obj(document)
  {
    if key == "docDetails" then Field(document, "Response") else Obj(document)
  }

  /** The `/api/data/:type` handler: resolve the key, read the file, parse it,
      transform; an unknown key is a 400, anything thrown on the way a 500. */
  function HandleData(dir: string, key: string, fs: FileSystem, parse: Parser): (r: HttpResponse)
    ensures r.status in {200, 400, 500}
    ensures r.status == 400 <==> key !in DataTypeKeys
    ensures r.status == 400 ==> r.body == InvalidTypeBody
    ensures r.status == 200 <==>
      && key in XmlFiles(dir)
      && fs.readFile(XmlFiles(dir)[key]).Ok?
      && parse(fs.readFile(XmlFiles(dir)[key]).value).Ok?
  {
    if key !in XmlFiles(dir) then HttpResponse(400, InvalidTypeBody)
    else
      match fs.readFile(XmlFiles(dir)[key])
      case Err(t) => HttpResponse(500, ReadErrorBody(t))
      case Ok(text) =>
        match parse(text)
        case Err(t) => HttpResponse(500, ReadErrorBody(t))
        case Ok(document) => HttpResponse(200, Transform(key, document))
  }

  /** An unknown key gets the 400 body whatever the file system and the parser do. */
  lemma UnknownKeyReadsNothing(dir: string, key: string, fs1: FileSystem, fs2: FileSystem, p1: Parser, p2: Parser)
    requires key !in DataTypeKeys
    ensures HandleData(dir, key, fs1, p1) == HandleData(dir, key, fs2, p2) == HttpResponse(400, InvalidTypeBody)
  {
  }

  /** Only the file registered for the key is read: file systems that agree on
      that one path give the same response. */
  lemma OnlyResolvedPathRead(dir: string, key: string, fs1: FileSystem, fs2: FileSystem, parse: Parser)
    requires key in XmlFiles(dir)
    requires fs1.readFile(XmlFiles(dir)[key]) == fs2.readFile(XmlFiles(dir)[key])
    ensures HandleData(dir, key, fs1, parse) == HandleData(dir, key, fs2, parse)
  {
  }

  /** A failed read or parse yields 500 with the thrown message, or
      "Unknown error" when what was thrown is not an `Error`. */
  lemma FailureIs500(dir: string, key: string, fs: FileSystem, parse: Parser)
    requires key in XmlFiles(dir)
    ensures fs.readFile(XmlFiles(dir)[key]).Err? ==>
      HandleData(dir, key, fs, parse) == HttpResponse(500, ReadErrorBody(fs.readFile(XmlFiles(dir)[key]).error))
    ensures fs.readFile(XmlFiles(dir)[key]).Ok? && parse(fs.readFile(XmlFiles(dir)[key]).value).Err? ==>
      HandleData(dir, key, fs, parse) == HttpResponse(500, ReadErrorBody(parse(fs.readFile(XmlFiles(dir)[key]).value).error))
  {
  }

  /** On success, `docDetails` answers with the `Response` subtree and every
      other key with the whole parsed document, root element included. */
  lemma SuccessBody(dir: string, key: string, fs: FileSystem, parse: Parser, document: map<string, Value>)
    requires key in XmlFiles(dir) && fs.readFile(XmlFiles(dir)[key]).Ok?
    requires parse(fs.readFile(XmlFiles(dir)[key]).value) == Ok(document)
    ensures key == "docDetails" ==> HandleData(dir, key, fs, parse) == HttpResponse(200, Field(document, "Response"))
    ensures key != "docDetails" ==> HandleData(dir, key, fs, parse) == HttpResponse(200, Obj(document))
  {
  }

  /** Once the boot-time gate has passed over a file system, every key is
      served with 200 from that file system, provided the request-time parser
      accepts every text the validating parser accepts. */
  lemma GatePassedMeansServed(dir: string, key: string, fs: FileSystem, validatingParse: Parser, parse: Parser)
    requires FileValidation.ValidationOutcome(fs, validatingParse, dir).Pass?
    requires forall text :: validatingParse(text).Ok? ==> parse(text).Ok?
    requires key in DataTypeKeys
    ensures HandleData(dir, key, fs, parse).status == 200
  {
    FileValidation.GatePassesIff(fs, validatingParse, dir);
    RegistryMatchesCheckedFiles(dir);
    var i :| 0 <= i < |DataTypeKeys| && DataTypeKeys[i] == key;
    assert FileValidation.FileAcceptable(fs, validatingParse,
      FileValidation.GetXmlFilePath(dir, FileValidation.XmlFileNames[i]));
  }

  /** The health body: status "healthy", the mode, and the uptime in seconds. */
  function HealthBody(isDevelopment: bool, uptime: real): (body: Value)
    ensures body.Obj? && Field(body.fields, "status") == Str("healthy")
    ensures Field(body.fields, "environment") in {Str("development"), Str("production")}
    ensures Field(body.fields, "environment") == Str("development") <==> isDevelopment
  {
    Obj(map[
      "status" := Str("healthy"),
      "environment" := Str(if isDevelopment then "development" else "production"),
      "uptime" := Num(uptime)
    ])
  }

  /** The health body reports exactly the mode resolved from `NODE_ENV`. */
  lemma HealthReportsResolvedMode(env: map<string, string>, cwd: string, uptime: real)
    requires Env.LoadConfig(env, cwd).Ok?
    ensures Field(HealthBody(Env.LoadConfig(env, cwd).value.isDevelopment, uptime).fields, "environment")
         == Str(Env.ResolveNodeEnv(env).value)
  {
  }
}
