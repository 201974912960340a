/** The base of the equipment-system adapters (backend/src/adapters/EquipmentAdapter.js): the
    adapter's connection and health state, its public description with secrets masked, the
    error handler, and the configuration record with its defaults and per-system validation.
    The concrete adapters and the clock are outside the model; the time of a health update is
    a parameter. */
module EquipmentAdapter {
  import opened Wrappers

  // ---------------------------------------------------------------------------
  // Configuration

  /** The object an `AdapterConfig` is built from; numbers may be absent. */
  datatype ConfigInput = ConfigInput(
    systemName: Option<string>, adapterType: Option<string>, connectionString: Option<string>,
    host: Option<string>, port: Option<int>, database: Option<string>, username: Option<string>,
    password: Option<string>, apiKey: Option<string>, apiUrl: Option<string>,
    timeout: Option<int>, retryAttempts: Option<int>, retryDelay: Option<int>,
    healthCheckInterval: Option<int>, enabled: Option<bool>)

  datatype AdapterConfig = AdapterConfig(
    systemName: Option<string>, adapterType: Option<string>, connectionString: Option<string>,
    host: Option<string>, port: Option<int>, database: Option<string>, username: Option<string>,
    password: Option<string>, apiKey: Option<string>, apiUrl: Option<string>,
    timeout: int, retryAttempts: int, retryDelay: int, healthCheckInterval: int, enabled: bool)

  /** JavaScript truthiness of an optional number: absent and 0 are falsy. */
  predicate TruthyNumber(n: Option<int>) { n.Some? && n.value != 0 }

  /** `value || fallback` on numbers. */
  function NumberOr(value: Option<int>, fallback: int): int {
    if TruthyNumber(value) then value.value else fallback
  }

  const DefaultTimeout: int := 30000
  const DefaultRetryAttempts: int := 3
  const DefaultRetryDelay: int := 1000
  const DefaultHealthCheckInterval: int := 300000

  /** `new AdapterConfig(config)`. */
  function ConfigOf(c: ConfigInput): AdapterConfig {
    AdapterConfig(c.systemName, c.adapterType, c.connectionString, c.host, c.port, c.database,
                  c.username, c.password, c.apiKey, c.apiUrl,
                  NumberOr(c.timeout, DefaultTimeout), NumberOr(c.retryAttempts, DefaultRetryAttempts),
                  NumberOr(c.retryDelay, DefaultRetryDelay),
                  NumberOr(c.healthCheckInterval, DefaultHealthCheckInterval),
                  c.enabled != Some(false))
  }

  /** Each number takes its default exactly when the given one is absent or 0, and the
      adapter is disabled only by an explicit `false`. */
  lemma ConfigDefaults(c: ConfigInput)
    ensures var a := ConfigOf(c);
      (a.timeout == 30000 <==> !TruthyNumber(c.timeout) || c.timeout.value == 30000) &&
      (a.retryAttempts == 3 <==> !TruthyNumber(c.retryAttempts) || c.retryAttempts.value == 3) &&
      (a.retryDelay == 1000 <==> !TruthyNumber(c.retryDelay) || c.retryDelay.value == 1000) &&
      (a.healthCheckInterval == 300000 <==> !TruthyNumber(c.healthCheckInterval) || c.healthCheckInterval.value == 300000) &&
      a.timeout != 0 && a.retryAttempts != 0 && a.retryDelay != 0 && a.healthCheckInterval != 0 &&
      (!a.enabled <==> c.enabled == Some(false))
  {
  }

  const SystemNameRequired: string := "systemName is required in adapter configuration"
  const TypeRequired: string := "type is required in adapter configuration"
  const PostgresRequires: string := "PostgreSQL adapter requires host, database, and username"
  const SapRequires: string := "SAP adapter requires host and username"
  const MaximoRequires: string := "Maximo adapter requires apiUrl and apiKey"
  const MesRequires: string := "MES adapter requires apiUrl"
  const ScadaRequires: string := "SCADA adapter requires host and port"

  /** `validate()`: `true`, or the message of the error thrown. */
  function Validate(a: AdapterConfig): Result<bool, string> {
    if !Truthy(a.systemName) then Failure(SystemNameRequired)
    else if !Truthy(a.adapterType) then Failure(TypeRequired)
    else
      match a.adapterType.value
      case "postgresql" =>
        if !Truthy(a.host) || !Truthy(a.database) || !Truthy(a.username) then Failure(PostgresRequires) else Success(true)
      case "sap" =>
        if !Truthy(a.host) || !Truthy(a.username) then Failure(SapRequires) else Success(true)
      case "maximo" =>
        if !Truthy(a.apiUrl) || !Truthy(a.apiKey) then Failure(MaximoRequires) else Success(true)
      case "mes" =>
        if !Truthy(a.apiUrl) then Failure(MesRequires) else Success(true)
      case "scada" =>
        if !Truthy(a.host) || !TruthyNumber(a.port) then Failure(ScadaRequires) else Success(true)
      case other => Failure("Unknown adapter type: " + other)
  }

  /** What each known system needs. */
  predicate Requirements(a: AdapterConfig, t: string) {
    match t
    case "postgresql" => Truthy(a.host) && Truthy(a.database) && Truthy(a.username)
    case "sap" => Truthy(a.host) && Truthy(a.username)
    case "maximo" => Truthy(a.apiUrl) && Truthy(a.apiKey)
    case "mes" => Truthy(a.apiUrl)
    case "scada" => Truthy(a.host) && TruthyNumber(a.port)
    case _ => false
  }

  /** Validation succeeds exactly for a named configuration of a known system type that has
      what that type needs, and then answers `true`; a missing name is reported first, then
      a missing type, then an unknown type by name. */
  lemma ValidateSpec(a: AdapterConfig)
    ensures Validate(a).Success? <==>
      Truthy(a.systemName) && Truthy(a.adapterType) && Requirements(a, a.adapterType.value)
    ensures Validate(a).Success? ==> Validate(a).value
    ensures !Truthy(a.systemName) ==> Validate(a) == Failure(SystemNameRequired)
    ensures Truthy(a.systemName) && !Truthy(a.adapterType) ==> Validate(a) == Failure(TypeRequired)
    ensures (Truthy(a.systemName) && Truthy(a.adapterType) &&
             a.adapterType.value !in {"postgresql", "sap", "maximo", "mes", "scada"}) ==>
              Validate(a) == Failure("Unknown adapter type: " + a.adapterType.value)
  {
  }

  // ---------------------------------------------------------------------------
  // Adapter state

  const Healthy: string := "HEALTHY"
  const Warning: string := "WARNING"
  const Error: string := "ERROR"
  const Unknown: string := "UNKNOWN"
  const Disconnected: string := "DISCONNECTED"

  /** What `getAdapterInfo` returns. */
  datatype AdapterInfo = AdapterInfo(systemName: Option<string>, isConnected: bool,
                                     lastHealthCheck: Option<int>, healthStatus: string,
                                     config: AdapterConfig)

  /** A secret is shown as '***' when set and left out otherwise. */
  function Mask(secret: Option<string>): (r: Option<string>)
    ensures r == None || r == Some("***")
    ensures r.Some? <==> Truthy(secret)
  {
    if Truthy(secret) then Some("***") else None
  }

  /** The operations a concrete adapter must supply. */
  datatype Operation = Connect | Disconnect | GetEquipment | SearchEquipment
                     | GetMaintenanceHistory | GetEquipmentStatus | HealthCheck

  function OperationName(op: Operation): string {
    match op
    case Connect => "connect"
    case Disconnect => "disconnect"
    case GetEquipment => "getEquipment"
    case SearchEquipment => "searchEquipment"
    case GetMaintenanceHistory => "getMaintenanceHistory"
    case GetEquipmentStatus => "getEquipmentStatus"
    case HealthCheck => "healthCheck"
  }

  class Adapter {
    const config: AdapterConfig
    const systemName: Option<string>
    var isConnected: bool
    var lastHealthCheck: Option<int>
    var healthStatus: string

    /** `new EquipmentAdapter(config)`: not connected, never checked, health unknown. */
    constructor (config: AdapterConfig)
      ensures this.config == config && systemName == config.systemName
      ensures !isConnected && lastHealthCheck == None && healthStatus == Unknown
    {
      this.config := config;
      systemName := config.systemName;
      isConnected := false;
      lastHealthCheck := None;
      healthStatus := Unknown;
    }

    /** `getAdapterInfo()`: the state, and the configuration with its secrets masked. */
    function Info(): AdapterInfo
      reads this
    {
      AdapterInfo(systemName, isConnected, lastHealthCheck, healthStatus,
                  config.(password := Mask(config.password), apiKey := Mask(config.apiKey)))
    }

    /** `updateHealthStatus(status)` at time `now` (the log line is left out). */
    method UpdateHealthStatus(status: string, now: int)
      modifies this
      ensures healthStatus == status && lastHealthCheck == Some(now)
      ensures isConnected == old(isConnected)
    {
      healthStatus := status;
      lastHealthCheck := Some(now);
    }

    /** `handleError(error, operation)` at time `now`: marks the adapter unhealthy and
        rethrows the same error. */
    method HandleError(error: string, operation: string, now: int) returns (r: Result<(), string>)
      modifies this
      ensures r == Failure(error)
      ensures healthStatus == Error && lastHealthCheck == Some(now)
      ensures isConnected == old(isConnected)
    {
      UpdateHealthStatus(Error, now);
      r := Failure(error);
    }

    /** Every operation of the base class throws; concrete adapters override them. */
    method Call(op: Operation) returns (r: Result<(), string>)
      ensures r == Failure(OperationName(op) + "() method must be implemented by concrete adapter")
    {
      r := Failure(OperationName(op) + "() method must be implemented by concrete adapter");
    }
  }

  /** The description never shows a secret: password and key read '***' when set and are
      absent otherwise; every other configuration field is shown as it is. */
  lemma InfoHidesSecrets(a: Adapter)
    ensures var info := a.Info();
      info.config.password == Mask(a.config.password) && info.config.apiKey == Mask(a.config.apiKey) &&
      (info.config.password.Some? ==> info.config.password.value == "***") &&
      (info.config.apiKey.Some? ==> info.config.apiKey.value == "***") &&
      info.config.(password := a.config.password, apiKey := a.config.apiKey) == a.config &&
      info.systemName == a.systemName && info.healthStatus == a.healthStatus
  {
  }

  /** Masking twice gives what masking once gives. */
  lemma MaskIdempotent(secret: Option<string>)
    ensures Mask(Mask(secret)) == Mask(secret)
  {
  }
}
