/** The error-code records (backend/src/models/errorCode.js): an error code, a step of its
    troubleshooting procedure and a recorded resolution. Each is built from a database row
    (snake_case columns) or from an argument object whose missing members take their
    defaults, and is rendered back as a camelCase object. The severity levels and the
    categories an error code may take are fixed lists. Rows and argument objects are maps
    from property names to JavaScript values; a missing property reads `undefined`. */
module ErrorCodeModel {
  import opened JsValue
  import opened Sequences

  type Object = map<string, Value>

  // ---------------------------------------------------------------------------
  // ErrorCode

  datatype ErrorCode = ErrorCode(
    id: Value, code: Value, equipmentId: Value, severityLevel: Value, title: Value,
    description: Value, category: Value, frequencyCount: Value,
    avgResolutionTimeMinutes: Value, createdAt: Value, updatedAt: Value)

  /** `new ErrorCode({...})`. */
  function NewErrorCode(args: Object): (r: ErrorCode)
    ensures Get(args, "frequencyCount") == Undefined ==> r.frequencyCount == Num(0.0)
    ensures Get(args, "frequencyCount") != Undefined ==> r.frequencyCount == Get(args, "frequencyCount")
  {
    ErrorCode(Get(args, "id"), Get(args, "code"), Get(args, "equipmentId"),
              Get(args, "severityLevel"), Get(args, "title"), Get(args, "description"),
              Get(args, "category"), Default(Get(args, "frequencyCount"), Num(0.0)),
              Get(args, "avgResolutionTimeMinutes"), Get(args, "createdAt"), Get(args, "updatedAt"))
  }

  /** `ErrorCode.fromDatabase(row)`. */
  function ErrorCodeFromDatabase(row: Object): ErrorCode {
    NewErrorCode(map[
      "id" := Get(row, "id"), "code" := Get(row, "code"),
      "equipmentId" := Get(row, "equipment_id"), "severityLevel" := Get(row, "severity_level"),
      "title" := Get(row, "title"), "description" := Get(row, "description"),
      "category" := Get(row, "category"), "frequencyCount" := Get(row, "frequency_count"),
      "avgResolutionTimeMinutes" := Get(row, "avg_resolution_time_minutes"),
      "createdAt" := Get(row, "created_at"), "updatedAt" := Get(row, "updated_at")])
  }

  /** `errorCode.toJSON()`. */
  function ErrorCodeJson(e: ErrorCode): Object {
    map[
      "id" := e.id, "code" := e.code, "equipmentId" := e.equipmentId,
      "severityLevel" := e.severityLevel, "title" := e.title, "description" := e.description,
      "category" := e.category, "frequencyCount" := e.frequencyCount,
      "avgResolutionTimeMinutes" := e.avgResolutionTimeMinutes, "createdAt" := e.createdAt,
      "updatedAt" := e.updatedAt]
  }

  const ErrorCodeProperties: set<string> := {
    "id", "code", "equipmentId", "severityLevel", "title", "description", "category",
    "frequencyCount", "avgResolutionTimeMinutes", "createdAt", "updatedAt"}

  /** The rendered error code has exactly its eleven properties. */
  lemma ErrorCodeJsonKeys(e: ErrorCode)
    ensures ErrorCodeJson(e).Keys == ErrorCodeProperties
  {
  }

  /** The fields read from a row, column by column. */
  lemma ErrorCodeFields(row: Object)
    ensures var e := ErrorCodeFromDatabase(row);
      e.id == Get(row, "id") && e.code == Get(row, "code") &&
      e.equipmentId == Get(row, "equipment_id") && e.severityLevel == Get(row, "severity_level") &&
      e.title == Get(row, "title") && e.description == Get(row, "description") &&
      e.category == Get(row, "category") &&
      e.frequencyCount == Default(Get(row, "frequency_count"), Num(0.0)) &&
      e.avgResolutionTimeMinutes == Get(row, "avg_resolution_time_minutes") &&
      e.createdAt == Get(row, "created_at") && e.updatedAt == Get(row, "updated_at")
  {
  }

  /** Reading a row and rendering it renames every snake_case column to its camelCase
      property and adds nothing else; a missing frequency count becomes 0, while a null one
      stays null. */
  lemma ErrorCodeRowToJson(row: Object)
    ensures var json := ErrorCodeJson(ErrorCodeFromDatabase(row));
      json.Keys == ErrorCodeProperties &&
      json["id"] == Get(row, "id") && json["code"] == Get(row, "code") &&
      json["equipmentId"] == Get(row, "equipment_id") &&
      json["severityLevel"] == Get(row, "severity_level") &&
      json["title"] == Get(row, "title") && json["description"] == Get(row, "description") &&
      json["category"] == Get(row, "category") &&
      json["frequencyCount"] == Default(Get(row, "frequency_count"), Num(0.0)) &&
      json["avgResolutionTimeMinutes"] == Get(row, "avg_resolution_time_minutes") &&
      json["createdAt"] == Get(row, "created_at") && json["updatedAt"] == Get(row, "updated_at")
  {
    var e := ErrorCodeFromDatabase(row);
    ErrorCodeFields(row);
    ErrorCodeJsonKeys(e);
  }

  // ---------------------------------------------------------------------------
  // TroubleshootingProcedure

  datatype TroubleshootingProcedure = TroubleshootingProcedure(
    id: Value, errorCodeId: Value, stepNumber: Value, title: Value, instruction: Value,
    estimatedTimeMinutes: Value, requiredTools: Value, safetyNotes: Value,
    successRate: Value, createdAt: Value)

  /** `new TroubleshootingProcedure({...})`. */
  function NewProcedure(args: Object): (r: TroubleshootingProcedure)
    ensures Get(args, "estimatedTimeMinutes") == Undefined ==> r.estimatedTimeMinutes == Num(5.0)
    ensures Get(args, "estimatedTimeMinutes") != Undefined ==> r.estimatedTimeMinutes == Get(args, "estimatedTimeMinutes")
    ensures Get(args, "requiredTools") == Undefined ==> r.requiredTools == List([])
    ensures Get(args, "requiredTools") != Undefined ==> r.requiredTools == Get(args, "requiredTools")
    ensures Get(args, "successRate") == Undefined ==> r.successRate == Num(0.0)
    ensures Get(args, "successRate") != Undefined ==> r.successRate == Get(args, "successRate")
  {
    TroubleshootingProcedure(
      Get(args, "id"), Get(args, "errorCodeId"), Get(args, "stepNumber"), Get(args, "title"),
      Get(args, "instruction"), Default(Get(args, "estimatedTimeMinutes"), Num(5.0)),
      Default(Get(args, "requiredTools"), List([])), Get(args, "safetyNotes"),
      Default(Get(args, "successRate"), Num(0.0)), Get(args, "createdAt"))
  }

  /** `TroubleshootingProcedure.fromDatabase(row)`. */
  function ProcedureFromDatabase(row: Object): TroubleshootingProcedure {
    NewProcedure(map[
      "id" := Get(row, "id"), "errorCodeId" := Get(row, "error_code_id"),
      "stepNumber" := Get(row, "step_number"), "title" := Get(row, "title"),
      "instruction" := Get(row, "instruction"),
      "estimatedTimeMinutes" := Get(row, "estimated_time_minutes"),
      "requiredTools" := Or(Get(row, "required_tools"), List([])),
      "safetyNotes" := Get(row, "safety_notes"),
      "successRate" := Num(FloatOrZero(Get(row, "success_rate"))),
      "createdAt" := Get(row, "created_at")])
  }

  /** `procedure.toJSON()`. */
  function ProcedureJson(p: TroubleshootingProcedure): Object {
    map[
      "id" := p.id, "errorCodeId" := p.errorCodeId, "stepNumber" := p.stepNumber,
      "title" := p.title, "instruction" := p.instruction,
      "estimatedTimeMinutes" := p.estimatedTimeMinutes, "requiredTools" := p.requiredTools,
      "safetyNotes" := p.safetyNotes, "successRate" := p.successRate, "createdAt" := p.createdAt]
  }

  /** A procedure read from a row always has a tool list (empty when the column is null or
      missing) and a success rate that is a number (0 when the column does not parse); the
      estimated time keeps the column as it is, so a null column stays null and only a
      missing one becomes 5. */
  lemma ProcedureFromRow(row: Object)
    ensures var p := ProcedureFromDatabase(row);
      (!IsTruthy(Get(row, "required_tools")) ==> p.requiredTools == List([])) &&
      (IsTruthy(Get(row, "required_tools")) ==> p.requiredTools == Get(row, "required_tools")) &&
      p.successRate.Num? &&
      (ParseFloat(Get(row, "success_rate")).None? ==> p.successRate == Num(0.0)) &&
      (ParseFloat(Get(row, "success_rate")).Some? ==> p.successRate == Num(ParseFloat(Get(row, "success_rate")).value)) &&
      (Get(row, "estimated_time_minutes") == Undefined ==> p.estimatedTimeMinutes == Num(5.0)) &&
      (Get(row, "estimated_time_minutes") != Undefined ==> p.estimatedTimeMinutes == Get(row, "estimated_time_minutes"))
  {
    var args := map[
      "id" := Get(row, "id"), "errorCodeId" := Get(row, "error_code_id"),
      "stepNumber" := Get(row, "step_number"), "title" := Get(row, "title"),
      "instruction" := Get(row, "instruction"),
      "estimatedTimeMinutes" := Get(row, "estimated_time_minutes"),
      "requiredTools" := Or(Get(row, "required_tools"), List([])),
      "safetyNotes" := Get(row, "safety_notes"),
      "successRate" := Num(FloatOrZero(Get(row, "success_rate"))),
      "createdAt" := Get(row, "created_at")];
    assert Get(args, "requiredTools") == Or(Get(row, "required_tools"), List([]));
    assert Get(args, "successRate") == Num(FloatOrZero(Get(row, "success_rate")));
    assert Get(args, "estimatedTimeMinutes") == Get(row, "estimated_time_minutes");
  }

  const ProcedureProperties: set<string> := {
    "id", "errorCodeId", "stepNumber", "title", "instruction", "estimatedTimeMinutes",
    "requiredTools", "safetyNotes", "successRate", "createdAt"}

  /** The rendered procedure has exactly its ten properties. */
  lemma ProcedureJsonKeys(p: TroubleshootingProcedure)
    ensures ProcedureJson(p).Keys == ProcedureProperties
    ensures ProcedureJson(p)["requiredTools"] == p.requiredTools
    ensures ProcedureJson(p)["successRate"] == p.successRate
  {
  }

  // ---------------------------------------------------------------------------
  // ErrorResolution

  datatype ErrorResolution = ErrorResolution(
    id: Value, errorCodeId: Value, equipmentId: Value, userId: Value,
    resolutionTimeMinutes: Value, successful: Value, procedureStepsFollowed: Value,
    notes: Value, resolvedAt: Value)

  /** `new ErrorResolution({...})`. */
  function NewResolution(args: Object): (r: ErrorResolution)
    ensures Get(args, "successful") == Undefined ==> r.successful == Bool(true)
    ensures Get(args, "successful") != Undefined ==> r.successful == Get(args, "successful")
    ensures Get(args, "procedureStepsFollowed") == Undefined ==> r.procedureStepsFollowed == List([])
    ensures Get(args, "procedureStepsFollowed") != Undefined ==> r.procedureStepsFollowed == Get(args, "procedureStepsFollowed")
  {
    ErrorResolution(
      Get(args, "id"), Get(args, "errorCodeId"), Get(args, "equipmentId"), Get(args, "userId"),
      Get(args, "resolutionTimeMinutes"), Default(Get(args, "successful"), Bool(true)),
      Default(Get(args, "procedureStepsFollowed"), List([])), Get(args, "notes"),
      Get(args, "resolvedAt"))
  }

  /** `ErrorResolution.fromDatabase(row)`. */
  function ResolutionFromDatabase(row: Object): ErrorResolution {
    NewResolution(map[
      "id" := Get(row, "id"), "errorCodeId" := Get(row, "error_code_id"),
      "equipmentId" := Get(row, "equipment_id"), "userId" := Get(row, "user_id"),
      "resolutionTimeMinutes" := Get(row, "resolution_time_minutes"),
      "successful" := Get(row, "successful"),
      "procedureStepsFollowed" := Or(Get(row, "procedure_steps_followed"), List([])),
      "notes" := Get(row, "notes"), "resolvedAt" := Get(row, "resolved_at")])
  }

  /** `resolution.toJSON()`. */
  function ResolutionJson(r: ErrorResolution): Object {
    map[
      "id" := r.id, "errorCodeId" := r.errorCodeId, "equipmentId" := r.equipmentId,
      "userId" := r.userId, "resolutionTimeMinutes" := r.resolutionTimeMinutes,
      "successful" := r.successful, "procedureStepsFollowed" := r.procedureStepsFollowed,
      "notes" := r.notes, "resolvedAt" := r.resolvedAt]
  }

  /** A resolution read from a row lists no followed steps when the column is null or
      missing; its success flag is the column as it is, so only a missing column means
      success and a null one stays null. */
  lemma ResolutionFromRow(row: Object)
    ensures var r := ResolutionFromDatabase(row);
      (!IsTruthy(Get(row, "procedure_steps_followed")) ==> r.procedureStepsFollowed == List([])) &&
      (IsTruthy(Get(row, "procedure_steps_followed")) ==> r.procedureStepsFollowed == Get(row, "procedure_steps_followed")) &&
      (Get(row, "successful") == Undefined ==> r.successful == Bool(true)) &&
      (Get(row, "successful") != Undefined ==> r.successful == Get(row, "successful")) &&
      ResolutionJson(r)["procedureStepsFollowed"] == r.procedureStepsFollowed
  {
    var args := map[
      "id" := Get(row, "id"), "errorCodeId" := Get(row, "error_code_id"),
      "equipmentId" := Get(row, "equipment_id"), "userId" := Get(row, "user_id"),
      "resolutionTimeMinutes" := Get(row, "resolution_time_minutes"),
      "successful" := Get(row, "successful"),
      "procedureStepsFollowed" := Or(Get(row, "procedure_steps_followed"), List([])),
      "notes" := Get(row, "notes"), "resolvedAt" := Get(row, "resolved_at")];
    assert Get(args, "procedureStepsFollowed") == Or(Get(row, "procedure_steps_followed"), List([]));
    assert Get(args, "successful") == Get(row, "successful");
  }

  // ---------------------------------------------------------------------------
  // Fixed vocabularies

  /** `Object.values(SEVERITY_LEVELS)`. */
  const SeverityLevels: seq<string> := ["LOW", "MEDIUM", "HIGH", "CRITICAL"]

  /** `Object.values(ERROR_CATEGORIES)`. */
  const ErrorCategories: seq<string> := [
    "Mechanical", "Electrical", "Hydraulic", "Pneumatic", "Sensor", "Communication",
    "Software", "Safety", "Thermal", "Optical", "Calibration", "Maintenance", "Lighting"]

  /** Four severity levels and thirteen categories, none listed twice. */
  lemma VocabulariesDistinct()
    ensures |SeverityLevels| == 4 && Distinct(SeverityLevels)
    ensures |ErrorCategories| == 13 && Distinct(ErrorCategories)
  {
  }
}
