/** `remoteconfig/payload.go`: the decoded remote-config document and the
    request shape used to route bill-payment calls. */
module RemoteConfig {
  import opened Wrappers
  import opened AsciiText

  /** The status value that marks a feature as under maintenance. */
  const Maintenance: string := "MAINTENANCE"
  const MaintenanceMessage: string := "MAINTENANCE"

  /** The status of one feature in one environment. */
  datatype EnvironmentStatus = EnvironmentStatus(value: string)

  /** One feature flag: its in-app-default switch and its status per environment
      name (`conditionalValues`). */
  datatype FeatureFlagServices = FeatureFlagServices(
    useInAppDefault: bool,
    conditionalValues: map<string, EnvironmentStatus>)

  /** The "virgo feature flag" parameter group: feature name to flag. */
  datatype FeatureFlagGroup = FeatureFlagGroup(parameters: map<string, FeatureFlagServices>)

  datatype ParameterGroups = ParameterGroups(virgoFeatureFlag: FeatureFlagGroup)

  /** The decoded document. Its conditions and version block are never read
      by the gate and are not modelled. */
  datatype FbRemoteConfig = FbRemoteConfig(parameterGroups: ParameterGroups)

  /** The zero value: what the gate reads when the body is not JSON at all. */
  const EmptyConfig: FbRemoteConfig := FbRemoteConfig(ParameterGroups(FeatureFlagGroup(map[])))

  /** `payload.ParameterGroups.VirgoFeatureFlag.Parameters`. */
  function FeatureFlags(config: FbRemoteConfig): map<string, FeatureFlagServices>
  {
    config.parameterGroups.virgoFeatureFlag.parameters
  }

  /** The request payload coerced to the bill-payment shape. */
  datatype BillPaymentRequest = BillPaymentRequest(productType: int, providerId: string)

  const ZeroBillPaymentRequest: BillPaymentRequest := BillPaymentRequest(0, "")

  /** The coercion of an arbitrary request. `Some` holds what
      `mapstructure.Decode` filled in, including the fields that decoded when
      another one failed; `None`, a request from which nothing decoded,
      leaves the zero value. */
  function CoerceBillPayment(decoded: Option<BillPaymentRequest>): (r: BillPaymentRequest)
    ensures decoded.Some? ==> r == decoded.value
    ensures decoded.None? ==> r.productType == 0 && r.providerId == ""
  {
    decoded.GetOr(ZeroBillPaymentRequest)
  }

  lemma MaintenanceMessageIsSentinel()
    ensures MaintenanceMessage == Maintenance
  {
  }

  /** The sentinel has no lower-case letters, so upper-casing a stored value
      and comparing it with the sentinel accepts every case variant and
      nothing else. */
  lemma MaintenanceMatchIgnoresCase(v: string)
    ensures ToUpper(Maintenance) == Maintenance
    ensures ToUpper(v) == Maintenance <==> EqualFold(v, Maintenance)
  {
  }

  /** The zero-value document holds no flags. */
  lemma EmptyConfigHasNoFlags()
    ensures FeatureFlags(EmptyConfig) == map[]
  {
  }
}
