# Process-mining XML data server: a Dafny model of its data-serving core

The server exposes four fixed XML export files (cases, events, messages and
document-detail definitions) as JSON for a viewer front end. This project models the
core of that server in Dafny and proves properties of the model:

- **Configuration** (`env.dfy`, module `Env`). The environment map and the working
  directory become the configuration. `PORT` defaults to `"3000"` and is read with
  `parseInt(…, 10)`. `NODE_ENV` defaults to `development`, and any value other than
  `development` or `production` makes construction fail. `xmlFilesPath` is the working
  directory joined with `data`.
- **Registry and request handler** (`server.dfy`, module `Server`). `XML_FILES` maps the
  four data-type keys to their files. The `/api/data/:type` handler is a pure function
  from the key, the file system and the parser to a status and a body:
  - an unknown key gets 400 `{error: "Invalid file type"}`;
  - a failed read or parse gets 500 `{error: "Error reading XML file", message}`;
  - `docDetails` gets the `Response` subtree;
  - every other key gets the whole parsed document.

  The health body is also here.
- **Boot-time file gate** (`file_validation.dfy`, module `FileValidation`).
  `validateXmlFiles` is an imperative method. It checks the directory, then checks each
  of the four files in order: access, stat, the size bounds (0 < size ≤ 100 MiB), then
  read and parse. The first failure is returned with its exact message. The method is
  proved equal to a specification function. Lemmas show three more things:
  - the gate passes exactly when every file is acceptable;
  - a failure is the first failing file's own;
  - files after the first failure are never examined.
- **Structure and content validators** (`xml_validation.dfy`, module `XmlValidation`).
  `validateXMLStructure` turns the parser's outcome into a `ValidationResult`.
  `validateXMLContent` is the per-key presence check on `Response.<child>`. It is proved
  equal to a table-driven version.
- **Record schemas** (`schemas.dfy`, module `Schemas`). The zod schemas for Case, Event,
  Message and DocumentDetails appear twice: as acceptance predicates over an unknown
  value, and as decoders into typed records. The decoders are what the throwing
  `validate*` functions run. Each validator succeeds exactly when its schema accepts.
  Every typed record whose timestamp passes the datetime check, encoded as a value,
  validates back to itself, and every record a validator returns carries exactly the
  field values of its input.

The shared modules are `wrappers.dfy` (Option, Result), `data_types.dfy` (the four
data-type keys, defined once for the registry and the content validator), `json.dfy` (JavaScript values,
truthiness, property reads and optional chaining) and `platform.dfy`. `platform.dfy`
holds thrown values, the uninterpreted XML parser, the abstract file system and
`path.join`.

Inputs from the outside world are parameters:
- the file system, as functions from path to the outcome of `fs.access`, `fs.stat` and
  `fs.readFile`;
- the XML parser, as a function from text to the parsed document or a thrown value. The
  request-time parser and the validating parser of the gate are separate parameters;
- the environment map, the working directory and the uptime;
- the `datetime()` check of zod.

Three points where the code behaves differently from what its names or comments suggest. The model follows the code:
- A failed `fs.readFile` during the gate happens inside the nested `try`. It is reported
  as `Invalid XML structure in file <name>: <message>`, not as an access error
  (src/server/utils/fileValidation.ts:58-63).
- The gate is not called before the server starts listening (src/server/index.ts:99-104).
  So "no listener before validation" is not stated anywhere in this model.
- The comment at src/server/index.ts:63 says `docDetails` is returned without
  transformation. The code returns `data.Response`, and the model follows the code. When
  the document has no `Response` key, the body is `undefined`: Express then sends a 200
  with an empty body.

## Model

| member | source | states |
|---|---|---|
| Env.ResolveNodeEnv | src/server/config/env.ts:6-9 | NODE_ENV resolves exactly when it is unset or one of development/production; an unset NODE_ENV resolves to "development", a set one to the given value |
| Env.LoadConfig | src/server/config/env.ts:4-15 | configuration succeeds exactly when NODE_ENV is unset or valid; isDevelopment holds exactly when NODE_ENV is unset or "development"; xmlFilesPath is the working directory joined with "data" |
| Env.ParseDecimal | src/server/config/env.ts:12 | for every n up to 2^53 - 1, the largest integer a double holds exactly, parseInt in base 10 of the decimal notation of n is n |
| Env.DecimalStringValue | src/server/config/env.ts:12 | the digit value of a number's decimal notation is that number |
| Env.DefaultPortValue | src/server/config/env.ts:5 | the default port text "3000" reads as the number 3000 |
| Env.DefaultPortIs3000 | src/server/config/env.ts:5-12 | an unset PORT gives port 3000 |
| Env.DecimalPort | src/server/config/env.ts:12 | a PORT made only of decimal digits, leading zeros included, whose value is at most 2^53 - 1, gives that value as the port |
| Env.DefaultIsDevelopment | src/server/config/env.ts:6-13 | an unset NODE_ENV gives a valid configuration in development mode |
| Env.TrimStart | src/server/config/env.ts:12 | parseInt's leading white-space skip removes only white space, and what it leaves is a suffix of the input that does not start with white space |
| Env.DigitPrefix | src/server/config/env.ts:12 | parseInt reads the longest prefix of decimal digits: all digits, and the next character is not one |
| Env.ParseInt10 | src/server/config/env.ts:12 | parseInt in base 10 gives NaN for the empty string and for a string whose first character is not white space, a sign or a digit; a minus sign followed by a digit gives a number at most 0 |
| Env.AllDigitStrings | src/server/config/env.ts:12 | a non-empty string of decimal digits, leading zeros included, parses to the value of its digits |
| Platform.Join | src/server/utils/fileValidation.ts:43 | path.join of a directory and a non-empty name is the directory, then a separator unless the directory is empty or already ends with one, then the name; an empty name leaves a non-empty directory, and two empty parts give "." |
| Platform.JoinInjective | src/server/index.ts:11-16 | joining one directory with two different names never gives the same path, unless the directory and one name are empty ("" and "." both give ".") |
| FileValidation.GetXmlFilePath | src/server/utils/fileValidation.ts:84-86 | a file's path is the data directory, then one separator unless the directory is empty or already ends with one, then the file's name |
| FileValidation.FilePathsDistinct | src/server/utils/fileValidation.ts:13-18 | the four files are checked at four different paths |
| FileValidation.Rewrap | src/server/utils/fileValidation.ts:64-69 | a FileValidationError propagates unchanged; any other thrown value becomes "Cannot access XML file: <name>" |
| FileValidation.CheckFile | src/server/utils/fileValidation.ts:43-69 | one file passes exactly when it is accessible, its size is in 1..100 MiB, it reads and its text parses |
| FileValidation.ValidateXmlFiles | src/server/utils/fileValidation.ts:32-79 | the loop's verdict equals the ordered first-failure specification; an inaccessible directory fails with "XML files directory not accessible: <dir>" before any file is looked at |
| FileValidation.FilesPassIff | src/server/utils/fileValidation.ts:42-70 | a sequence of files passes exactly when every file in it is acceptable |
| FileValidation.GatePassesIff | src/server/utils/fileValidation.ts:32-72 | validation succeeds exactly when the directory is accessible and all four files are accessible, of size 1..100 MiB, readable and parseable |
| FileValidation.FirstFailureReported | src/server/utils/fileValidation.ts:42-70 | a failure is the error of some file all of whose predecessors passed |
| FileValidation.LaterFilesNotExamined | src/server/utils/fileValidation.ts:42-70 | once the files up to the first failure are fixed, nothing the file system holds for later files changes the verdict |
| FileValidation.FileFailureMessages | src/server/utils/fileValidation.ts:44-69 | a failed access or stat reports "Cannot access XML file: <name>"; a failed read or parse reports "Invalid XML structure in file <name>: <message or Unknown error>" |
| FileValidation.SizeBoundary | src/server/utils/fileValidation.ts:49-55 | an accessible file of size 0 fails with "XML file is empty: <name>" and one of any size above 100 MiB fails with "XML file too large: <name>", whatever its text; a file of exactly 100 MiB passes when it reads and parses |
| XmlValidation.ValidateXMLStructure | src/server/utils/xmlValidation.ts:9-25 | valid with no error exactly when the parse succeeds; otherwise the thrown message, or "Invalid XML structure" for a non-Error throw |
| XmlValidation.ValidateXMLContent | src/server/utils/xmlValidation.ts:28-61 | an unknown key is invalid with "Unknown file type" whatever the data; for a known key and non-nullish data it is valid exactly when Response.<child> is truthy, else invalid with that key's message; nullish data is invalid with an error, not an escaping exception |
| XmlValidation.ContentFollowsShapeTable | src/server/utils/xmlValidation.ts:30-54 | the branch per key agrees on every input with one generic check driven by the table key → (child of Response, message) |
| XmlValidation.ContentInspectsOnlyOwnPath | src/server/utils/xmlValidation.ts:30-54 | two documents whose Response.<child> for the key are equally truthy validate alike, whatever else they contain |
| XmlValidation.ShapeTableCoversDataTypes | src/server/utils/xmlValidation.ts:30-54 | the content validator knows a shape for exactly the four data-type keys the registry serves |
| Schemas.CaseAccepts | src/server/types/xml.ts:11-18 | the case schema accepts only objects holding at least id, timestamp, caseId and documentGroups |
| Schemas.EventAccepts | src/server/types/xml.ts:21-28 | the event schema accepts only objects holding at least id, timestamp, caseId, eventType, level and userId |
| Schemas.MessageAccepts | src/server/types/xml.ts:31-37 | the message schema accepts only objects holding at least id, timestamp, caseId, messageType, severity and content |
| Schemas.DocumentDetailsAccepts | src/server/types/xml.ts:40-51 | the document-details schema accepts only objects holding at least id, timestamp, caseId, fieldDefinitions and tableMappings |
| Schemas.AsString | src/server/types/xml.ts:5 | a string schema accepts exactly string values, and yields that string |
| Schemas.AsOptionalString | src/server/types/xml.ts:7 | an optional string accepts exactly undefined or a string, and yields absent or that string |
| Schemas.AsStringRecord | src/server/types/xml.ts:27 | a string record accepts exactly objects all of whose values are strings, and yields the record with the same keys and strings |
| Schemas.DecodeAll | src/server/types/xml.ts:13-17 | an array decodes exactly when every element does, to a sequence of the same length, element by element |
| Schemas.AsArray | src/server/types/xml.ts:13-17 | an array schema accepts exactly arrays whose every element decodes, and yields the elements decoded position by position |
| Schemas.AsArrayAccepts | src/server/types/xml.ts:13-17 | an array schema accepts exactly the arrays whose elements the element schema accepts |
| Schemas.DecodeBase | src/server/types/xml.ts:4-8 | the base entity accepts exactly a string id, a datetime timestamp and an absent-or-string version, and keeps the id, timestamp and version given |
| Schemas.DecodeDocumentGroup | src/server/types/xml.ts:13-17 | a document group decodes exactly when it has a string entityType, a string sequenceNumber and a numeric eventCount, and carries exactly those three values |
| Schemas.DecodeCase | src/server/types/xml.ts:11-18 | a Case decodes exactly when the case schema accepts; it carries the base entity, caseId and document groups the input holds, group by group |
| Schemas.DecodeLevel | src/server/types/xml.ts:24 | the level enum accepts exactly "HEADER" and "ITEM", and the level yielded is written as the input |
| Schemas.DecodeEvent | src/server/types/xml.ts:21-28 | an Event decodes exactly when the event schema accepts; it carries the base entity, caseId, eventType, level and userId the input holds, and details exactly when the input has them, with the same strings |
| Schemas.DecodeSeverity | src/server/types/xml.ts:34 | the severity enum accepts exactly "INFO", "WARNING" and "ERROR", and the severity yielded is written as the input |
| Schemas.DecodeMessage | src/server/types/xml.ts:31-37 | a Message decodes exactly when the message schema accepts; it carries the base entity, caseId, messageType, severity and content the input holds |
| Schemas.DecodeFieldDefinition | src/server/types/xml.ts:42-46 | a field definition decodes exactly when it has a string name and type and an optional string description, and carries exactly those values |
| Schemas.DecodeTableMapping | src/server/types/xml.ts:47-50 | a table mapping decodes exactly when it has a string tableName and an array of strings, and carries that name and those strings in order |
| Schemas.DecodeDocumentDetails | src/server/types/xml.ts:40-51 | DocumentDetails decode exactly when the schema accepts; they carry the base entity, caseId, field definitions and table mappings the input holds, element by element |
| Schemas.ValidateCase | src/server/types/xml.ts:60-62 | validateCase returns a record exactly when the schema accepts, and throws otherwise; the record returned is the one the input decodes to |
| Schemas.ValidateEvent | src/server/types/xml.ts:64-66 | validateEvent returns a record exactly when the schema accepts, and throws otherwise; the record returned is the one the input decodes to |
| Schemas.ValidateMessage | src/server/types/xml.ts:68-70 | validateMessage returns a record exactly when the schema accepts, and throws otherwise; the record returned is the one the input decodes to |
| Schemas.ValidateDocumentDetails | src/server/types/xml.ts:72-74 | validateDocumentDetails returns a record exactly when the schema accepts, and throws otherwise; the record returned is the one the input decodes to |
| Schemas.BaseRoundTrip | src/server/types/xml.ts:4-8 | the base fields of any entity with a datetime timestamp decode back to that entity |
| Schemas.CaseRoundTrip | src/server/types/xml.ts:11-18 | every Case with a datetime timestamp, written as a value, validates back to itself |
| Schemas.EventRoundTrip | src/server/types/xml.ts:21-28 | every Event with a datetime timestamp, written as a value, validates back to itself |
| Schemas.MessageRoundTrip | src/server/types/xml.ts:31-37 | every Message with a datetime timestamp, written as a value, validates back to itself |
| Schemas.FieldDefinitionRoundTrip | src/server/types/xml.ts:42-46 | every field definition, written as a value, decodes back to itself |
| Schemas.TableMappingRoundTrip | src/server/types/xml.ts:47-50 | every table mapping, written as a value, decodes back to itself |
| Schemas.DocumentDetailsRoundTrip | src/server/types/xml.ts:40-51 | every DocumentDetails with a datetime timestamp, written as a value, validates back to itself |
| Server.XmlFiles | src/server/index.ts:11-16 | the registry has exactly the keys cases, events, messages and docDetails |
| Server.RegistryMatchesCheckedFiles | src/server/index.ts:11-16 | key by key in order, the registry maps to the data directory joined with the file names the gate checks, and no two keys share a path |
| Server.HandleData | src/server/index.ts:49-84 | status is 200, 400 or 500; 400 with {error: "Invalid file type"} exactly for keys outside the four; 200 exactly when the registered file reads and parses |
| Server.Transform | src/server/index.ts:61-67 | docDetails answers with the document's Response value, undefined when there is none; every other key with the whole document |
| Server.ReadErrorBody | src/server/index.ts:79-82 | the 500 body has exactly the keys error and message; error is "Error reading XML file", message is the thrown Error's message or "Unknown error" for any other thrown value |
| Server.UnknownKeyReadsNothing | src/server/index.ts:52-56 | an unknown key gets the 400 response whatever the file system and the parser do |
| Server.OnlyResolvedPathRead | src/server/index.ts:53-58 | file systems that agree on the key's own path give the same response |
| Server.FailureIs500 | src/server/index.ts:71-83 | a failed read or parse gives 500 with error "Error reading XML file" and the thrown message, or "Unknown error" |
| Server.SuccessBody | src/server/index.ts:61-67 | on success docDetails answers with the document's Response subtree and every other key with the whole document, root included |
| Server.GatePassedMeansServed | src/server/index.ts:53-67 | after the gate has passed over a file system, every key is served with 200, provided the request-time parser accepts what the validating parser accepts |
| Server.HealthBody | src/server/index.ts:87-93 | the health body has status "healthy" and environment "development" exactly when in development mode, otherwise "production", never anything else |
| Server.HealthReportsResolvedMode | src/server/index.ts:90 | the health environment is exactly the mode resolved from NODE_ENV |

## Left out

- The XML parser (fast-xml-parser) is a foreign library. It is an uninterpreted function parameter. Trimming, attribute keys and the collapse of repeated siblings into ordered lists are not modelled. The request-time parser has no validation option, so the model does not claim that malformed XML always yields a 500.
- File-system I/O, `process.env`, `process.cwd()` and `process.uptime()` are parameters. The time at which each call happens is not modelled. So the state the gate sees and the state a later request sees are independent inputs.
- Express middleware (JSON body parsing, static files, compression, morgan request logging, rate limiting) is framework policy and is not modelled.
- The process lifecycle is not modelled: listening, graceful shutdown, signal and uncaught-error handlers, timers and `process.exit`. The startup wrapper in src/server/utils/startup.ts is not part of this model, since its only decision is a projection of the gate's outcome.
- Logging and request timing (console output, `Date.now()` durations) are side effects without influence on any result.
- The outer `catch` of `validateXmlFiles`, which would rewrap into "Failed to validate XML files", is not modelled. Every path in the `try` throws a `FileValidationError`, so that rewrap cannot happen.
- The registry is a closed four-key map. In JavaScript, inherited names such as `constructor` pass the 400 check and then fail with a 500. That prototype behaviour is not modelled.
- Platform.Join: `path.join` normalisation of `.`, `..` and repeated separators inside the directory is not modelled. The model covers one plain file name joined to a directory.
- Platform.JoinInjective: not stated when the directory and one of the names are empty, since `path.join("", "")` and `path.join("", ".")` are both `"."`. The server only joins non-empty file names.
- Env.ParseInt10: the result is an exact integer, not an IEEE-754 double. Digit strings worth more than 2^53 - 1, which JavaScript rounds or turns into `Infinity`, are not modelled faithfully, and the difference between `-0` and `0` is not represented.
- Env.ParseDecimal: the round trip is stated only up to 2^53 - 1, where the double `parseInt` returns is the exact integer.
- Env.DecimalPort: stated only for values up to 2^53 - 1, for the same reason.
- Json values: NaN, the infinities and the order of object keys are not represented. A JSON response's key order is therefore not modelled.
- Schemas: zod's `datetime()` format is an abstract predicate parameter. The issue list a failing schema throws is reduced to one error value. The output of a `validate*` function is the typed record, so zod's key stripping is captured only as far as the record's fields.
- XmlValidation.ValidateXMLContent: for nullish data, the error text is V8's TypeError message. Only "invalid, with some error" is promised for that case.
