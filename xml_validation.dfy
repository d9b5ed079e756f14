/** The structure and content validators (src/server/utils/xmlValidation.ts). */
module XmlValidation {
  import opened Wrappers
  import opened Json
  import opened Platform
  import opened DataTypes

  /** `{isValid, error?}`. */
  datatype ValidationResult = ValidationResult(isValid: bool, error: Option<string>)

  const Valid := ValidationResult(true, None)

  function Invalid(message: string): ValidationResult {
    ValidationResult(false, Some(message))
  }

  /** `validateXMLStructure`: run the validating parser over the text and turn
      whatever it throws into an invalid result. */
  function ValidateXMLStructure(text: string, parse: Parser): (r: ValidationResult)
    ensures r.isValid <==> parse(text).Ok?
    ensures r.isValid <==> r.error.None?
    ensures parse(text) == Err(NonError) ==> r.error == Some("Invalid XML structure")
    ensures forall m :: parse(text) == Err(Failure(m)) ==> r.error == Some(m)
  {
    match parse(text)
    case Ok(_) => Valid
    case Err(thrown) => Invalid(MessageOr(thrown, "Invalid XML structure"))
  }

  /** The value of `data.Response?.<child>`, for data that is not nullish. */
  function ResponseChild(data: Value, child: string): Value
    requires !Nullish(data)
  {
    OptionalProperty(Property(data, "Response"), child)
  }

  /** The message of the TypeError thrown by reading `Response` off a nullish
      value, as V8 (the engine Node.js runs on) words it. */
  function NullReadMessage(data: Value): string
    requires Nullish(data)
  {
    "Cannot read properties of " + (if data.Null? then "null" else "undefined") + " (reading 'Response')"
  }

  /** `validateXMLContent`: the `switch` on the type key. The key is decided
      before the data is touched, so an unknown key never reads the data; a
      known key reads `data.Response`, which throws on nullish data, and the
      catch turns that into an invalid result. */
  function ValidateXMLContent(data: Value, fileType: string): (r: ValidationResult)
    ensures fileType !in ExpectedShapes ==> r == Invalid("Unknown file type")
    ensures fileType in ExpectedShapes && !Nullish(data) ==>
      (r.isValid <==> Truthy(ResponseChild(data, ExpectedShapes[fileType].child)))
    ensures fileType in ExpectedShapes && !Nullish(data) && !r.isValid ==>
      r.error == Some(ExpectedShapes[fileType].missing)
    ensures fileType in ExpectedShapes && Nullish(data) ==> !r.isValid && r.error.Some?
    ensures r.isValid <==> r.error.None?
  {
    if fileType == "cases" then
      if Nullish(data) then Invalid(NullReadMessage(data))
      else if !Truthy(ResponseChild(data, "Cases")) then Invalid("Missing Cases data")
      else Valid
    else if fileType == "events" then
      if Nullish(data) then Invalid(NullReadMessage(data))
      else if !Truthy(ResponseChild(data, "Events")) then Invalid("Missing Events data")
      else Valid
    else if fileType == "messages" then
      if Nullish(data) then Invalid(NullReadMessage(data))
      else if !Truthy(ResponseChild(data, "Messages")) then Invalid("Missing Messages data")
      else Valid
    else if fileType == "docDetails" then
      if Nullish(data) then Invalid(NullReadMessage(data))
      else if !Truthy(ResponseChild(data, "Documents")) then Invalid("Missing Document details")
      else Valid
    else
      Invalid("Unknown file type")
  }

  /** The expected shape of one data type: the child of `Response` that must be
      present and truthy, and the message reported when it is not. */
  datatype Shape = Shape(child: string, missing: string)

  /** The table of expected shapes, one entry per data-type key. */
  const ExpectedShapes: map<string, Shape> := map[
    "cases" := Shape("Cases", "Missing Cases data"),
    "events" := Shape("Events", "Missing Events data"),
    "messages" := Shape("Messages", "Missing Messages data"),
    "docDetails" := Shape("Documents", "Missing Document details")
  ]

  /** The table has exactly one entry per data-type key. */
  lemma ShapeTableCoversDataTypes()
    ensures ExpectedShapes.Keys == set key | key in DataTypeKeys
  {
  }

  /** The same check driven by the table instead of a branch per key. */
  function ValidateByShape(data: Value, fileType: string): ValidationResult {
    if fileType !in ExpectedShapes then Invalid("Unknown file type")
    else if Nullish(data) then Invalid(NullReadMessage(data))
    else if !Truthy(ResponseChild(data, ExpectedShapes[fileType].child)) then Invalid(ExpectedShapes[fileType].missing)
    else Valid
  }

  /** The branch-per-key validator and the table-driven one agree on every input. */
  lemma ContentFollowsShapeTable(data: Value, fileType: string)
    ensures ValidateXMLContent(data, fileType) == ValidateByShape(data, fileType)
  {
  }

  /** Each key inspects only its own path: two documents whose `Response.<child>`
      have the same truthiness validate alike, whatever else they contain. */
  lemma ContentInspectsOnlyOwnPath(d1: Value, d2: Value, fileType: string)
    requires fileType in ExpectedShapes && !Nullish(d1) && !Nullish(d2)
    requires Truthy(ResponseChild(d1, ExpectedShapes[fileType].child))
         == Truthy(ResponseChild(d2, ExpectedShapes[fileType].child))
    ensures ValidateXMLContent(d1, fileType) == ValidateXMLContent(d2, fileType)
  {
  }
}
