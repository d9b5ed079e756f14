/** The record schemas (src/server/types/xml.ts). Each schema is stated twice:
    as an acceptance predicate over an unknown value, and as the decoder that
    the throwing `validate*` function runs, producing the typed record. */
module Schemas {
  import opened Wrappers
  import opened Json

  /** The `datetime()` refinement of a string schema, left abstract. */
  type DatetimeCheck = string -> bool

  /** What a failing schema throws; the list of issues it carries is not modelled. */
  datatype SchemaError = SchemaError

  // ---------------------------------------------------------------------------
  // Acceptance predicates

  predicate IsString(v: Value) { v.Str? }

  predicate IsOptionalString(v: Value) { v.Undefined? || v.Str? }

  predicate IsDatetime(v: Value, datetime: DatetimeCheck) { v.Str? && datetime(v.s) }

  predicate IsArrayOf(v: Value, accepts: Value -> bool) {
    v.Arr? && forall i | 0 <= i < |v.items| :: accepts(v.items[i])
  }

  /** `z.record(z.string())`: an object whose every value is a string. */
  predicate IsStringRecord(v: Value) {
    v.Obj? && forall k | k in v.fields :: v.fields[k].Str?
  }

  predicate IsOptionalStringRecord(v: Value) { v.Undefined? || IsStringRecord(v) }

  /** `baseEntitySchema`: a string `id`, a datetime `timestamp`, an optional string `version`. */
  predicate BaseAccepts(o: map<string, Value>, datetime: DatetimeCheck) {
    && IsString(Field(o, "id"))
    && IsDatetime(Field(o, "timestamp"), datetime)
    && IsOptionalString(Field(o, "version"))
  }

  predicate DocumentGroupAccepts(v: Value) {
    && v.Obj?
    && IsString(Field(v.fields, "entityType"))
    && IsString(Field(v.fields, "sequenceNumber"))
    && Field(v.fields, "eventCount").Num?
  }

  predicate CaseAccepts(v: Value, datetime: DatetimeCheck)
    ensures CaseAccepts(v, datetime) ==> v.Obj? && {"id", "timestamp", "caseId", "documentGroups"} <= v.fields.Keys
  {
    && v.Obj?
    && BaseAccepts(v.fields, datetime)
    && IsString(Field(v.fields, "caseId"))
    && IsArrayOf(Field(v.fields, "documentGroups"), DocumentGroupAccepts)
  }

  predicate EventAccepts(v: Value, datetime: DatetimeCheck)
    ensures EventAccepts(v, datetime) ==> v.Obj? && {"id", "timestamp", "caseId", "eventType", "level", "userId"} <= v.fields.Keys
  {
    && v.Obj?
    && BaseAccepts(v.fields, datetime)
    && IsString(Field(v.fields, "caseId"))
    && IsString(Field(v.fields, "eventType"))
    && Field(v.fields, "level") in {Str("HEADER"), Str("ITEM")}
    && IsString(Field(v.fields, "userId"))
    && IsOptionalStringRecord(Field(v.fields, "details"))
  }

  predicate MessageAccepts(v: Value, datetime: DatetimeCheck)
    ensures MessageAccepts(v, datetime) ==> v.Obj? && {"id", "timestamp", "caseId", "messageType", "severity", "content"} <= v.fields.Keys
  {
    && v.Obj?
    && BaseAccepts(v.fields, datetime)
    && IsString(Field(v.fields, "caseId"))
    && IsString(Field(v.fields, "messageType"))
    && Field(v.fields, "severity") in {Str("INFO"), Str("WARNING"), Str("ERROR")}
    && IsString(Field(v.fields, "content"))
  }

  predicate FieldDefinitionAccepts(v: Value) {
    && v.Obj?
    && IsString(Field(v.fields, "name"))
    && IsString(Field(v.fields, "type"))
    && IsOptionalString(Field(v.fields, "description"))
  }

  predicate TableMappingAccepts(v: Value) {
    && v.Obj?
    && IsString(Field(v.fields, "tableName"))
    && IsArrayOf(Field(v.fields, "fields"), IsString)
  }

  predicate DocumentDetailsAccepts(v: Value, datetime: DatetimeCheck)
    ensures DocumentDetailsAccepts(v, datetime) ==> v.Obj? && {"id", "timestamp", "caseId", "fieldDefinitions", "tableMappings"} <= v.fields.Keys
  {
    && v.Obj?
    && BaseAccepts(v.fields, datetime)
    && IsString(Field(v.fields, "caseId"))
    && IsArrayOf(Field(v.fields, "fieldDefinitions"), FieldDefinitionAccepts)
    && IsArrayOf(Field(v.fields, "tableMappings"), TableMappingAccepts)
  }

  // ---------------------------------------------------------------------------
  // The typed records the schemas infer

  datatype BaseEntity = BaseEntity(id: string, timestamp: string, version: Option<string>)
  datatype DocumentGroup = DocumentGroup(entityType: string, sequenceNumber: string, eventCount: real)
  datatype Case = Case(base: BaseEntity, caseId: string, documentGroups: seq<DocumentGroup>)
  datatype Level = Header | Item
  datatype Event = Event(base: BaseEntity, caseId: string, eventType: string, level: Level, userId: string,
                         details: Option<map<string, string>>)
  datatype Severity = Info | Warning | Error
  datatype Message = Message(base: BaseEntity, caseId: string, messageType: string, severity: Severity,
                             content: string)
  datatype FieldDefinition = FieldDefinition(name: string, typeName: string, description: Option<string>)
  datatype TableMapping = TableMapping(tableName: string, fields: seq<string>)
  datatype DocumentDetails = DocumentDetails(base: BaseEntity, caseId: string,
                                             fieldDefinitions: seq<FieldDefinition>,
                                             tableMappings: seq<TableMapping>)

  // ---------------------------------------------------------------------------
  // Decoders

  function AsString(v: Value): (r: Option<string>)
    ensures r.Some? <==> IsString(v)
    ensures r.Some? ==> v == Str(r.value)
  {
    if v.Str? then Some(v.s) else None
  }

  function AsOptionalString(v: Value): (r: Option<Option<string>>)
    ensures r.Some? <==> IsOptionalString(v)
    ensures r.Some? ==> v == OptionalStringValue(r.value)
  {
    if v.Undefined? then Some(None) else if v.Str? then Some(Some(v.s)) else None
  }

  function AsStringRecord(v: Value): (r: Option<map<string, string>>)
    ensures r.Some? <==> IsStringRecord(v)
    ensures r.Some? ==> StringRecordValue(r.value) == v
  {
    if IsStringRecord(v) then
      var m := map k | k in v.fields :: v.fields[k].s;
      assert StringRecordValue(m).fields == v.fields;
      Some(m)
    else None
  }

  /** Decodes every element, failing as soon as one element fails. */
  function DecodeAll<T>(vs: seq<Value>, decode: Value -> Option<T>): (r: Option<seq<T>>)
    ensures r.Some? <==> forall i | 0 <= i < |vs| :: decode(vs[i]).Some?
    ensures r.Some? ==> |r.value| == |vs| && forall i | 0 <= i < |vs| :: decode(vs[i]) == Some(r.value[i])
  {
    if vs == [] then Some([])
    else
      var head :- decode(vs[0]);
      var tail :- DecodeAll(vs[1..], decode);
      assert forall i | 1 <= i < |vs| :: vs[i] == vs[1..][i - 1];
      Some([head] + tail)
  }

  /** `v` is an array whose elements decode, position by position, to `xs`. */
  ghost predicate ElementsDecodeTo<T>(v: Value, decode: Value -> Option<T>, xs: seq<T>) {
    v.Arr? && |v.items| == |xs| && forall i | 0 <= i < |xs| :: decode(v.items[i]) == Some(xs[i])
  }

  function AsArray<T>(v: Value, decode: Value -> Option<T>): (r: Option<seq<T>>)
    ensures r.Some? <==> v.Arr? && forall i | 0 <= i < |v.items| :: decode(v.items[i]).Some?
    ensures r.Some? ==> ElementsDecodeTo(v, decode, r.value)
  {
    if v.Arr? then DecodeAll(v.items, decode) else None
  }

  /** An array decoder accepts exactly the arrays whose elements the matching predicate accepts. */
  lemma AsArrayAccepts<T>(v: Value, decode: Value -> Option<T>, accepts: Value -> bool)
    requires forall x :: decode(x).Some? <==> accepts(x)
    ensures AsArray(v, decode).Some? <==> IsArrayOf(v, accepts)
  {
  }

  function DecodeBase(o: map<string, Value>, datetime: DatetimeCheck): (r: Option<BaseEntity>)
    ensures r.Some? <==> BaseAccepts(o, datetime)
    ensures r.Some? ==> Field(o, "id") == Str(r.value.id) && Field(o, "timestamp") == Str(r.value.timestamp)
    ensures r.Some? ==> datetime(r.value.timestamp) && Field(o, "version") == OptionalStringValue(r.value.version)
  {
    var id :- AsString(Field(o, "id"));
    var timestamp :- AsString(Field(o, "timestamp"));
    var version :- AsOptionalString(Field(o, "version"));
    if datetime(timestamp) then Some(BaseEntity(id, timestamp, version)) else None
  }

  function DecodeDocumentGroup(v: Value): (r: Option<DocumentGroup>)
    ensures r.Some? <==> DocumentGroupAccepts(v)
    ensures r.Some? ==> && v.Obj?
                        && Field(v.fields, "entityType") == Str(r.value.entityType)
                        && Field(v.fields, "sequenceNumber") == Str(r.value.sequenceNumber)
                        && Field(v.fields, "eventCount") == Num(r.value.eventCount)
  {
    if !v.Obj? then None
    else
      var entityType :- AsString(Field(v.fields, "entityType"));
      var sequenceNumber :- AsString(Field(v.fields, "sequenceNumber"));
      var eventCount := Field(v.fields, "eventCount");
      if eventCount.Num? then Some(DocumentGroup(entityType, sequenceNumber, eventCount.n)) else None
  }

  function DecodeCase(v: Value, datetime: DatetimeCheck): (r: Option<Case>)
    ensures r.Some? <==> CaseAccepts(v, datetime)
    ensures r.Some? ==> && v.Obj?
                        && DecodeBase(v.fields, datetime) == Some(r.value.base)
                        && Field(v.fields, "caseId") == Str(r.value.caseId)
                        && ElementsDecodeTo(Field(v.fields, "documentGroups"), DecodeDocumentGroup,
                                            r.value.documentGroups)
  {
    if !v.Obj? then None
    else
      AsArrayAccepts(Field(v.fields, "documentGroups"), DecodeDocumentGroup, DocumentGroupAccepts);
      var base :- DecodeBase(v.fields, datetime);
      var caseId :- AsString(Field(v.fields, "caseId"));
      var groups :- AsArray(Field(v.fields, "documentGroups"), DecodeDocumentGroup);
      Some(Case(base, caseId, groups))
  }

  function DecodeLevel(v: Value): (r: Option<Level>)
    ensures r.Some? <==> v in {Str("HEADER"), Str("ITEM")}
    ensures r.Some? ==> LevelValue(r.value) == v
  {
    if v == Str("HEADER") then Some(Header) else if v == Str("ITEM") then Some(Item) else None
  }

  function DecodeEvent(v: Value, datetime: DatetimeCheck): (r: Option<Event>)
    ensures r.Some? <==> EventAccepts(v, datetime)
    ensures r.Some? ==> && v.Obj?
                        && DecodeBase(v.fields, datetime) == Some(r.value.base)
                        && Field(v.fields, "caseId") == Str(r.value.caseId)
                        && Field(v.fields, "eventType") == Str(r.value.eventType)
                        && Field(v.fields, "level") == LevelValue(r.value.level)
                        && Field(v.fields, "userId") == Str(r.value.userId)
                        && (r.value.details.None? <==> Field(v.fields, "details").Undefined?)
                        && (r.value.details.Some? ==>
                              Field(v.fields, "details") == StringRecordValue(r.value.details.value))
  {
    if !v.Obj? then None
    else
      var base :- DecodeBase(v.fields, datetime);
      var caseId :- AsString(Field(v.fields, "caseId"));
      var eventType :- AsString(Field(v.fields, "eventType"));
      var level :- DecodeLevel(Field(v.fields, "level"));
      var userId :- AsString(Field(v.fields, "userId"));
      var details := Field(v.fields, "details");
      if details.Undefined? then Some(Event(base, caseId, eventType, level, userId, None))
      else
        var record :- AsStringRecord(details);
        Some(Event(base, caseId, eventType, level, userId, Some(record)))
  }

  function DecodeSeverity(v: Value): (r: Option<Severity>)
    ensures r.Some? <==> v in {Str("INFO"), Str("WARNING"), Str("ERROR")}
    ensures r.Some? ==> SeverityValue(r.value) == v
  {
    if v == Str("INFO") then Some(Info)
    else if v == Str("WARNING") then Some(Warning)
    else if v == Str("ERROR") then Some(Error)
    else None
  }

  function DecodeMessage(v: Value, datetime: DatetimeCheck): (r: Option<Message>)
    ensures r.Some? <==> MessageAccepts(v, datetime)
    ensures r.Some? ==> && v.Obj?
                        && DecodeBase(v.fields, datetime) == Some(r.value.base)
                        && Field(v.fields, "caseId") == Str(r.value.caseId)
                        && Field(v.fields, "messageType") == Str(r.value.messageType)
                        && Field(v.fields, "severity") == SeverityValue(r.value.severity)
                        && Field(v.fields, "content") == Str(r.value.content)
  {
    if !v.Obj? then None
    else
      var base :- DecodeBase(v.fields, datetime);
      var caseId :- AsString(Field(v.fields, "caseId"));
      var messageType :- AsString(Field(v.fields, "messageType"));
      var severity :- DecodeSeverity(Field(v.fields, "severity"));
      var content :- AsString(Field(v.fields, "content"));
      Some(Message(base, caseId, messageType, severity, content))
  }

  function DecodeFieldDefinition(v: Value): (r: Option<FieldDefinition>)
    ensures r.Some? <==> FieldDefinitionAccepts(v)
    ensures r.Some? ==> && v.Obj?
                        && Field(v.fields, "name") == Str(r.value.name)
                        && Field(v.fields, "type") == Str(r.value.typeName)
                        && Field(v.fields, "description") == OptionalStringValue(r.value.description)
  {
    if !v.Obj? then None
    else
      var name :- AsString(Field(v.fields, "name"));
      var typeName :- AsString(Field(v.fields, "type"));
      var description :- AsOptionalString(Field(v.fields, "description"));
      Some(FieldDefinition(name, typeName, description))
  }

  function DecodeTableMapping(v: Value): (r: Option<TableMapping>)
    ensures r.Some? <==> TableMappingAccepts(v)
    ensures r.Some? ==> && v.Obj?
                        && Field(v.fields, "tableName") == Str(r.value.tableName)
                        && ElementsDecodeTo(Field(v.fields, "fields"), AsString, r.value.fields)
  {
    if !v.Obj? then None
    else
      AsArrayAccepts(Field(v.fields, "fields"), AsString, IsString);
      var tableName :- AsString(Field(v.fields, "tableName"));
      var fields :- AsArray(Field(v.fields, "fields"), AsString);
      Some(TableMapping(tableName, fields))
  }

  function DecodeDocumentDetails(v: Value, datetime: DatetimeCheck): (r: Option<DocumentDetails>)
    ensures r.Some? <==> DocumentDetailsAccepts(v, datetime)
    ensures r.Some? ==> && v.Obj?
                        && DecodeBase(v.fields, datetime) == Some(r.value.base)
                        && Field(v.fields, "caseId") == Str(r.value.caseId)
                        && ElementsDecodeTo(Field(v.fields, "fieldDefinitions"), DecodeFieldDefinition,
                                            r.value.fieldDefinitions)
                        && ElementsDecodeTo(Field(v.fields, "tableMappings"), DecodeTableMapping,
                                            r.value.tableMappings)
  {
    if !v.Obj? then None
    else
      AsArrayAccepts(Field(v.fields, "fieldDefinitions"), DecodeFieldDefinition, FieldDefinitionAccepts);
      AsArrayAccepts(Field(v.fields, "tableMappings"), DecodeTableMapping, TableMappingAccepts);
      var base :- DecodeBase(v.fields, datetime);
      var caseId :- AsString(Field(v.fields, "caseId"));
      var definitions :- AsArray(Field(v.fields, "fieldDefinitions"), DecodeFieldDefinition);
      var mappings :- AsArray(Field(v.fields, "tableMappings"), DecodeTableMapping);
      Some(DocumentDetails(base, caseId, definitions, mappings))
  }

  // ---------------------------------------------------------------------------
  // The throwing validators: a record when the schema accepts, a thrown error otherwise

  function Throwing<T>(decoded: Option<T>): (r: Result<T, SchemaError>)
    ensures r.Ok? <==> decoded.Some?
    ensures r.Ok? ==> decoded == Some(r.value)
  {
    match decoded
    case Some(x) => Ok(x)
    case None => Err(SchemaError)
  }

  function ValidateCase(data: Value, datetime: DatetimeCheck): (r: Result<Case, SchemaError>)
    ensures r.Ok? <==> CaseAccepts(data, datetime)
    ensures r.Ok? ==> DecodeCase(data, datetime) == Some(r.value)
  {
    Throwing(DecodeCase(data, datetime))
  }

  function ValidateEvent(data: Value, datetime: DatetimeCheck): (r: Result<Event, SchemaError>)
    ensures r.Ok? <==> EventAccepts(data, datetime)
    ensures r.Ok? ==> DecodeEvent(data, datetime) == Some(r.value)
  {
    Throwing(DecodeEvent(data, datetime))
  }

  function ValidateMessage(data: Value, datetime: DatetimeCheck): (r: Result<Message, SchemaError>)
    ensures r.Ok? <==> MessageAccepts(data, datetime)
    ensures r.Ok? ==> DecodeMessage(data, datetime) == Some(r.value)
  {
    Throwing(DecodeMessage(data, datetime))
  }

  function ValidateDocumentDetails(data: Value, datetime: DatetimeCheck): (r: Result<DocumentDetails, SchemaError>)
    ensures r.Ok? <==> DocumentDetailsAccepts(data, datetime)
    ensures r.Ok? ==> DecodeDocumentDetails(data, datetime) == Some(r.value)
  {
    Throwing(DecodeDocumentDetails(data, datetime))
  }

  // ---------------------------------------------------------------------------
  // Records back to values, and the round trips

  function EncodeAll<T>(xs: seq<T>, encode: T -> Value): (vs: seq<Value>)
    ensures |vs| == |xs| && forall i | 0 <= i < |xs| :: vs[i] == encode(xs[i])
  {
    seq(|xs|, i requires 0 <= i < |xs| => encode(xs[i]))
  }

  function OptionalStringValue(o: Option<string>): Value {
    if o.Some? then Str(o.value) else Undefined
  }

  function BaseFields(b: BaseEntity): map<string, Value> {
    map["id" := Str(b.id), "timestamp" := Str(b.timestamp), "version" := OptionalStringValue(b.version)]
  }

  function DocumentGroupValue(g: DocumentGroup): Value {
    Obj(map["entityType" := Str(g.entityType), "sequenceNumber" := Str(g.sequenceNumber),
            "eventCount" := Num(g.eventCount)])
  }

  function CaseValue(c: Case): Value {
    Obj(BaseFields(c.base)["caseId" := Str(c.caseId)]
          ["documentGroups" := Arr(EncodeAll(c.documentGroups, DocumentGroupValue))])
  }

  function LevelValue(l: Level): Value {
    match l
    case Header => Str("HEADER")
    case Item => Str("ITEM")
  }

  function StringRecordValue(m: map<string, string>): Value {
    Obj(map k | k in m :: Str(m[k]))
  }

  function EventValue(e: Event): Value {
    Obj(BaseFields(e.base)["caseId" := Str(e.caseId)]["eventType" := Str(e.eventType)]
          ["level" := LevelValue(e.level)]["userId" := Str(e.userId)]
          ["details" := if e.details.Some? then StringRecordValue(e.details.value) else Undefined])
  }

  function SeverityValue(s: Severity): Value {
    match s
    case Info => Str("INFO")
    case Warning => Str("WARNING")
    case Error => Str("ERROR")
  }

  function MessageValue(m: Message): Value {
    Obj(BaseFields(m.base)["caseId" := Str(m.caseId)]["messageType" := Str(m.messageType)]
          ["severity" := SeverityValue(m.severity)]["content" := Str(m.content)])
  }

  function FieldDefinitionValue(d: FieldDefinition): Value {
    Obj(map["name" := Str(d.name), "type" := Str(d.typeName), "description" := OptionalStringValue(d.description)])
  }

  function StringsValue(ss: seq<string>): Value {
    Arr(EncodeAll(ss, s => Str(s)))
  }

  function TableMappingValue(t: TableMapping): Value {
    Obj(map["tableName" := Str(t.tableName), "fields" := StringsValue(t.fields)])
  }

  function DocumentDetailsValue(d: DocumentDetails): Value {
    Obj(BaseFields(d.base)["caseId" := Str(d.caseId)]
          ["fieldDefinitions" := Arr(EncodeAll(d.fieldDefinitions, FieldDefinitionValue))]
          ["tableMappings" := Arr(EncodeAll(d.tableMappings, TableMappingValue))])
  }

  /** Decoding every encoded element gives the elements back. */
  lemma DecodeAllEncodeAll<T>(xs: seq<T>, encode: T -> Value, decode: Value -> Option<T>)
    requires forall x :: decode(encode(x)) == Some(x)
    ensures DecodeAll(EncodeAll(xs, encode), decode) == Some(xs)
  {
    var vs := EncodeAll(xs, encode);
    assert forall i | 0 <= i < |vs| :: decode(vs[i]) == Some(xs[i]);
    var r := DecodeAll(vs, decode);
    assert r.Some?;
    assert |r.value| == |xs|;
    assert forall i | 0 <= i < |xs| :: r.value[i] == xs[i];
    assert r.value == xs;
  }

  lemma BaseRoundTrip(b: BaseEntity, rest: map<string, Value>, datetime: DatetimeCheck)
    requires datetime(b.timestamp)
    requires "id" !in rest && "timestamp" !in rest && "version" !in rest
    ensures DecodeBase(BaseFields(b) + rest, datetime) == Some(b)
  {
  }

  /** Every Case, with a datetime timestamp, is accepted and validates to itself. */
  lemma CaseRoundTrip(c: Case, datetime: DatetimeCheck)
    requires datetime(c.base.timestamp)
    ensures ValidateCase(CaseValue(c), datetime) == Ok(c)
  {
    var groups := Arr(EncodeAll(c.documentGroups, DocumentGroupValue));
    var rest := map["caseId" := Str(c.caseId), "documentGroups" := groups];
    assert CaseValue(c).fields == BaseFields(c.base) + rest;
    BaseRoundTrip(c.base, rest, datetime);
    forall g ensures DecodeDocumentGroup(DocumentGroupValue(g)) == Some(g) {
    }
    DecodeAllEncodeAll(c.documentGroups, DocumentGroupValue, DecodeDocumentGroup);
  }

  lemma StringRecordRoundTrip(m: map<string, string>)
    ensures AsStringRecord(StringRecordValue(m)) == Some(m)
  {
    var v := StringRecordValue(m);
    assert (map k | k in v.fields :: v.fields[k].s) == m;
  }

  /** The fields of an encoded Event, as the Event decoder reads them. */
  lemma EventValueFields(e: Event, datetime: DatetimeCheck)
    requires datetime(e.base.timestamp)
    ensures EventValue(e).Obj?
    ensures DecodeBase(EventValue(e).fields, datetime) == Some(e.base)
    ensures Field(EventValue(e).fields, "caseId") == Str(e.caseId)
    ensures Field(EventValue(e).fields, "eventType") == Str(e.eventType)
    ensures Field(EventValue(e).fields, "level") == LevelValue(e.level)
    ensures Field(EventValue(e).fields, "userId") == Str(e.userId)
    ensures Field(EventValue(e).fields, "details")
         == if e.details.Some? then StringRecordValue(e.details.value) else Undefined
  {
    var details := if e.details.Some? then StringRecordValue(e.details.value) else Undefined;
    var rest := map["caseId" := Str(e.caseId), "eventType" := Str(e.eventType), "level" := LevelValue(e.level),
                    "userId" := Str(e.userId), "details" := details];
    assert EventValue(e).fields == BaseFields(e.base) + rest;
    BaseRoundTrip(e.base, rest, datetime);
  }

  /** Every Event, with a datetime timestamp, is accepted and validates to itself. */
  lemma EventRoundTrip(e: Event, datetime: DatetimeCheck)
    requires datetime(e.base.timestamp)
    ensures ValidateEvent(EventValue(e), datetime) == Ok(e)
  {
    var v := EventValue(e);
    EventValueFields(e, datetime);
    if e.details.Some? {
      StringRecordRoundTrip(e.details.value);
    }
    assert EventAccepts(v, datetime);
    var r := DecodeEvent(v, datetime).value;
    assert r.level == e.level by {
      assert LevelValue(r.level) == LevelValue(e.level);
    }
    assert r.details == e.details by {
      if e.details.Some? {
        StringRecordRoundTrip(r.details.value);
      }
    }
  }

  /** Every Message, with a datetime timestamp, is accepted and validates to itself. */
  lemma MessageRoundTrip(m: Message, datetime: DatetimeCheck)
    requires datetime(m.base.timestamp)
    ensures ValidateMessage(MessageValue(m), datetime) == Ok(m)
  {
  }

  lemma FieldDefinitionRoundTrip(f: FieldDefinition)
    ensures DecodeFieldDefinition(FieldDefinitionValue(f)) == Some(f)
  {
    var v := FieldDefinitionValue(f);
    assert Field(v.fields, "description") == OptionalStringValue(f.description);
  }

  lemma TableMappingRoundTrip(t: TableMapping)
    ensures DecodeTableMapping(TableMappingValue(t)) == Some(t)
  {
    DecodeAllEncodeAll(t.fields, s => Str(s), AsString);
  }

  /** Every DocumentDetails, with a datetime timestamp, is accepted and validates to itself. */
  lemma DocumentDetailsRoundTrip(d: DocumentDetails, datetime: DatetimeCheck)
    requires datetime(d.base.timestamp)
    ensures ValidateDocumentDetails(DocumentDetailsValue(d), datetime) == Ok(d)
  {
    var rest := map["caseId" := Str(d.caseId),
                    "fieldDefinitions" := Arr(EncodeAll(d.fieldDefinitions, FieldDefinitionValue)),
                    "tableMappings" := Arr(EncodeAll(d.tableMappings, TableMappingValue))];
    assert DocumentDetailsValue(d).fields == BaseFields(d.base) + rest;
    BaseRoundTrip(d.base, rest, datetime);
    forall f ensures DecodeFieldDefinition(FieldDefinitionValue(f)) == Some(f) {
      FieldDefinitionRoundTrip(f);
    }
    DecodeAllEncodeAll(d.fieldDefinitions, FieldDefinitionValue, DecodeFieldDefinition);
    forall t ensures DecodeTableMapping(TableMappingValue(t)) == Some(t) {
      TableMappingRoundTrip(t);
    }
    DecodeAllEncodeAll(d.tableMappings, TableMappingValue, DecodeTableMapping);
  }
}
