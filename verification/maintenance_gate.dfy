/** The maintenance gate of `grpc/interceptor.go`: given the decoded remote
    config, decide whether a call must be refused because its feature is
    under maintenance in the configured environment. The loops over flags and
    environments return at the first key that matches; since map keys are
    unique, each is a keyed lookup. The loop over `serviceMap` matches on
    values, which can repeat, and returns only at an entry that blocks; it is
    an existential decision. The `...Loop` methods and `MaintenanceCheck`
    iterate in an arbitrary order, as Go does, and are proved against these
    definitions. */
module MaintenanceGate {
  import opened Wrappers
  import opened AsciiText
  import opened GrpcStatus
  import opened ServiceErrors
  import opened RemoteConfig

  /** The interceptor's configuration: target environment, feature name to
      full method name (`serviceMap`), and product type to feature name
      (`billpaymentReq`). */
  datatype MaintenanceConfig = MaintenanceConfig(
    environment: string,
    serviceMap: map<string, string>,
    billPaymentMap: map<int, string>)

  /** The result of fetching the remote config: HTTP status and the body as
      `json.Unmarshal` left it. A body that is not JSON leaves the zero-value
      document; an ordinary field of the wrong type is skipped and the rest
      decoded; a malformed `version.updateTime` stops decoding where it
      stands. Either way the gate reads whatever was decoded. */
  datatype HttpResponse = HttpResponse(statusCode: int, body: FbRemoteConfig)

  const StatusOK: int := 200

  /** The error a blocked call receives. */
  const MaintenanceError: ServiceError := ServiceError(Internal, Maintenance, Maintenance, map[])

  /** The environment/status test both checks share. */
  predicate InMaintenance(flag: FeatureFlagServices, environment: string)
  {
    environment in flag.conditionalValues
    && ToUpper(flag.conditionalValues[environment].value) == Maintenance
  }

  /** The environment's status is a case variant of "MAINTENANCE". */
  predicate FoldsToMaintenance(flag: FeatureFlagServices, environment: string)
  {
    environment in flag.conditionalValues
    && EqualFold(flag.conditionalValues[environment].value, Maintenance)
  }

  lemma InMaintenanceIgnoresCase(flag: FeatureFlagServices, environment: string)
    ensures InMaintenance(flag, environment) <==> FoldsToMaintenance(flag, environment)
  {
  }

  /** `checkMaintenanceStatusForTransactionService`: block when the feature
      `key` is a flag whose status in `environment` is "MAINTENANCE" in any
      case; otherwise nothing. */
  function CheckTransactionService(environment: string, key: string,
                                   flags: map<string, FeatureFlagServices>): (r: Option<ServiceError>)
    ensures r.Some? ==> r.value == MaintenanceError
    ensures r.Some? <==> key in flags && FoldsToMaintenance(flags[key], environment)
  {
    if key in flags then
      InMaintenanceIgnoresCase(flags[key], environment);
      if InMaintenance(flags[key], environment) then Some(MaintenanceError) else None
    else None
  }

  /** `checkMaintenanceStatusForBillPaymentService`: block when the product
      type maps to a feature that is a flag whose status in `environment` is
      "MAINTENANCE" in any case; an unmapped product type never blocks. */
  function CheckBillPaymentService(request: BillPaymentRequest, billPaymentMap: map<int, string>,
                                   environment: string,
                                   flags: map<string, FeatureFlagServices>): (r: Option<ServiceError>)
    ensures r.Some? ==> r.value == MaintenanceError
    ensures r.Some? <==>
      && request.productType in billPaymentMap
      && billPaymentMap[request.productType] in flags
      && FoldsToMaintenance(flags[billPaymentMap[request.productType]], environment)
  {
    if request.productType in billPaymentMap then
      CheckTransactionService(environment, billPaymentMap[request.productType], flags)
    else None
  }

  /** The inner loop over a flag's environments. */
  method EnvironmentLoop(flag: FeatureFlagServices, environment: string) returns (r: Option<ServiceError>)
    ensures r.Some? <==> InMaintenance(flag, environment)
    ensures r.Some? ==> r.value == MaintenanceError
  {
    var remaining := flag.conditionalValues.Keys;
    while remaining != {}
      invariant remaining <= flag.conditionalValues.Keys
      invariant InMaintenance(flag, environment) ==> environment in remaining
      decreases remaining
    {
      var env :| env in remaining;
      if env == environment && ToUpper(flag.conditionalValues[env].value) == Maintenance {
        return Some(MaintenanceError);
      }
      remaining := remaining - {env};
    }
    return None;
  }

  /** The transaction check as the Go loop runs it. */
  method CheckTransactionServiceLoop(environment: string, key: string,
                                     flags: map<string, FeatureFlagServices>) returns (r: Option<ServiceError>)
    ensures r == CheckTransactionService(environment, key, flags)
  {
    var remaining := flags.Keys;
    while remaining != {}
      invariant remaining <= flags.Keys
      invariant key in flags ==> key in remaining
      decreases remaining
    {
      var featureName :| featureName in remaining;
      if featureName == key {
        r := EnvironmentLoop(flags[featureName], environment);
        return;
      }
      remaining := remaining - {featureName};
    }
    return None;
  }

  /** The bill-payment check as the Go loop runs it. */
  method CheckBillPaymentServiceLoop(request: BillPaymentRequest, billPaymentMap: map<int, string>,
                                     environment: string,
                                     flags: map<string, FeatureFlagServices>) returns (r: Option<ServiceError>)
    ensures r == CheckBillPaymentService(request, billPaymentMap, environment, flags)
  {
    var remaining := flags.Keys;
    while remaining != {}
      invariant remaining <= flags.Keys
      invariant request.productType in billPaymentMap && billPaymentMap[request.productType] in flags ==>
        billPaymentMap[request.productType] in remaining
      decreases remaining
    {
      var featureName :| featureName in remaining;
      var productType := request.productType;
      if productType in billPaymentMap {
        var item := billPaymentMap[productType];
        if featureName == item {
          r := EnvironmentLoop(flags[featureName], environment);
          return;
        }
      }
      remaining := remaining - {featureName};
    }
    return None;
  }

  /** `WithFirebasePayloads`: route on the coerced product type. 1 to 4 go to
      the bill-payment check, 0 (also what a failed coercion gives) to the
      transaction check for `key`, and anything else is allowed. */
  function WithFirebasePayloads(body: FbRemoteConfig, key: string, environment: string,
                                decoded: Option<BillPaymentRequest>,
                                billPaymentMap: map<int, string>): (r: Option<ServiceError>)
    ensures r.Some? ==> r.value == MaintenanceError
    ensures
      var request := CoerceBillPayment(decoded);
      && (1 <= request.productType <= 4 ==>
            r == CheckBillPaymentService(request, billPaymentMap, environment, FeatureFlags(body)))
      && (request.productType == 0 ==> r == CheckTransactionService(environment, key, FeatureFlags(body)))
      && (request.productType < 0 || 4 < request.productType ==> r.None?)
  {
    var flags := FeatureFlags(body);
    var request := CoerceBillPayment(decoded);
    if request.productType > 0 && request.productType < 5 then
      CheckBillPaymentService(request, billPaymentMap, environment, flags)
    else if request.productType == 0 then
      CheckTransactionService(environment, key, flags)
    else None
  }

  /** One matching `serviceMap` entry blocks: its fetch answered 200 and the
      payload check for its feature returned the maintenance error. */
  predicate FeatureBlocks(config: MaintenanceConfig, key: string, response: HttpResponse,
                          decoded: Option<BillPaymentRequest>)
  {
    response.statusCode == StatusOK
    && WithFirebasePayloads(response.body, key, config.environment, decoded, config.billPaymentMap).Some?
  }

  /** The gate's decision, stated over all of `serviceMap` at once: with a
      token, some feature whose entry names this method blocks. `fetch` gives
      the response each feature's fetch received. */
  predicate Blocks(config: MaintenanceConfig, token: Option<string>, fetch: string -> HttpResponse,
                   fullMethod: string, decoded: Option<BillPaymentRequest>): (r: bool)
    ensures r ==> token.Some? && fullMethod in config.serviceMap.Values
    ensures r ==> exists key :: key in config.serviceMap && fetch(key).statusCode == StatusOK
  {
    token.Some?
    && exists key :: key in config.serviceMap && config.serviceMap[key] == fullMethod
                     && FeatureBlocks(config, key, fetch(key), decoded)
  }

  /** `UnaryMaintenanceInterceptor`'s decision as the Go loop runs it: no token
      means no check; the `serviceMap` entries whose value is the method are
      visited in turn, each with one fetch whose body is inspected only on a
      200 response, until one blocks. */
  method MaintenanceCheck(config: MaintenanceConfig, token: Option<string>, fetch: string -> HttpResponse,
                          fullMethod: string, decoded: Option<BillPaymentRequest>) returns (blocked: Option<ServiceError>)
    ensures blocked.Some? <==> Blocks(config, token, fetch, fullMethod, decoded)
    ensures blocked.Some? ==> blocked.value == MaintenanceError
  {
    if token.None? {
      return None;
    }
    var remaining := config.serviceMap.Keys;
    while remaining != {}
      invariant remaining <= config.serviceMap.Keys
      invariant forall key :: key in config.serviceMap && key !in remaining && config.serviceMap[key] == fullMethod
                  ==> !FeatureBlocks(config, key, fetch(key), decoded)
      decreases remaining
    {
      var key :| key in remaining;
      if fullMethod == config.serviceMap[key] {
        var response := fetch(key);
        if response.statusCode == StatusOK {
          var errMaintenance := WithFirebasePayloads(response.body, key, config.environment, decoded,
                                                     config.billPaymentMap);
          if errMaintenance.Some? {
            return errMaintenance;
          }
        }
      }
      remaining := remaining - {key};
    }
    return None;
  }

  /** A product type outside 0..4, or one in 1..4 with no feature mapped to
      it, never blocks, whatever the config says. */
  lemma UnmappedProductTypeAllows(body: FbRemoteConfig, key: string, environment: string,
                                  request: BillPaymentRequest, billPaymentMap: map<int, string>)
    requires request.productType != 0 && request.productType !in billPaymentMap
    ensures WithFirebasePayloads(body, key, environment, Some(request), billPaymentMap).None?
  {
  }

  /** A request that does not coerce is routed like product type 0. */
  lemma UncoercibleRequestUsesMethodFeature(body: FbRemoteConfig, key: string, environment: string,
                                            billPaymentMap: map<int, string>)
    ensures WithFirebasePayloads(body, key, environment, None, billPaymentMap)
         == CheckTransactionService(environment, key, FeatureFlags(body))
  {
  }

  /** Without a token the gate never blocks. */
  lemma NoTokenAllows(config: MaintenanceConfig, fetch: string -> HttpResponse, fullMethod: string,
                      decoded: Option<BillPaymentRequest>)
    ensures !Blocks(config, None, fetch, fullMethod, decoded)
  {
  }

  /** A method that no `serviceMap` entry names is never blocked. */
  lemma UnmappedMethodAllows(config: MaintenanceConfig, token: Option<string>, fetch: string -> HttpResponse,
                             fullMethod: string, decoded: Option<BillPaymentRequest>)
    requires fullMethod !in config.serviceMap.Values
    ensures !Blocks(config, token, fetch, fullMethod, decoded)
  {
  }

  /** When no fetch answers 200 the gate fails open. */
  lemma Non200Allows(config: MaintenanceConfig, token: Option<string>, fetch: string -> HttpResponse,
                     fullMethod: string, decoded: Option<BillPaymentRequest>)
    requires forall key :: key in config.serviceMap ==> fetch(key).statusCode != StatusOK
    ensures !Blocks(config, token, fetch, fullMethod, decoded)
  {
  }

  /** A config whose only flag `feature` has `status` in `environment`. */
  function OneFlagConfig(feature: string, environment: string, status: string): FbRemoteConfig
  {
    FbRemoteConfig(ParameterGroups(FeatureFlagGroup(
      map[feature := FeatureFlagServices(false, map[environment := EnvironmentStatus(status)])]))
    )
  }

  /** A flag whose status folds to "MAINTENANCE" in the environment blocks
      the transaction check for that feature. */
  lemma OneFlagBlocks(feature: string, environment: string, status: string)
    requires EqualFold(status, Maintenance)
    ensures CheckTransactionService(environment, feature, FeatureFlags(OneFlagConfig(feature, environment, status)))
         == Some(MaintenanceError)
  {
  }

  /** Feature "X" is "MAINTENANCE" in "prod": blocked in "prod", allowed in
      "staging", where the environment key is absent. */
  lemma ProdMaintenanceScenario()
    ensures CheckTransactionService("prod", "X", FeatureFlags(OneFlagConfig("X", "prod", "MAINTENANCE")))
         == Some(MaintenanceError)
    ensures CheckTransactionService("staging", "X", FeatureFlags(OneFlagConfig("X", "prod", "MAINTENANCE")))
         == None
  {
  }

  /** Product type 2 maps to "Y", whose status is "maintenance" in lower case:
      blocked. Product type 7 has no mapping: allowed. */
  lemma BillPaymentScenario()
    ensures WithFirebasePayloads(OneFlagConfig("Y", "prod", "maintenance"), "Pay", "prod",
                                 Some(BillPaymentRequest(2, "p")), map[2 := "Y"]) == Some(MaintenanceError)
    ensures WithFirebasePayloads(OneFlagConfig("Y", "prod", "maintenance"), "Pay", "prod",
                                 Some(BillPaymentRequest(7, "p")), map[2 := "Y"]) == None
  {
  }
}
