/** The broker's configuration and its acceptance. */
module Config {
  import opened GoTypes
  import opened GoMaps

  datatype PlanConfig = PlanConfig(
    parameters: StringMap?, replicasPerNodeGroup: int, automaticFailoverEnabled: bool, multiAZEnabled: bool)

  datatype Service = Service(plans: seq<string>)

  /** `keyPairParses` is what crypto/tls says of the certificate and key. */
  datatype TLSConfig = TLSConfig(certificate: string, privateKey: string, keyPairParses: bool)

  datatype Config = Config(
    logLevel: string, username: string, password: string, region: string, brokerName: string,
    cacheSubnetGroupName: string, vpcSecurityGroupIds: seq<string>, kmsKeyID: string, secretsManagerPath: string,
    services: seq<Service>, planConfigs: map<string, PlanConfig>, tls: Option<TLSConfig>)

  datatype ConfigError =
    | MissingField
    | PlanWithoutConfig(planID: string)
    | ConfigWithoutPlan(planID: string)
    | BadTLS

  datatype PlanError = NoSuchPlan

  function GetPlanConfig(c: Config, planID: string): Result<PlanConfig, PlanError> {
    if planID in c.planConfigs then Ok(c.planConfigs[planID]) else Err(NoSuchPlan)
  }

  predicate InCatalog(services: seq<Service>, planID: string) {
    exists i, j :: 0 <= i < |services| && 0 <= j < |services[i].plans| && services[i].plans[j] == planID
  }

  method HasPlan(services: seq<Service>, planID: string) returns (found: bool)
    ensures found <==>
      exists i, j :: 0 <= i < |services| && 0 <= j < |services[i].plans| && services[i].plans[j] == planID
  {
    for i := 0 to |services|
      invariant forall s, p :: 0 <= s < i && 0 <= p < |services[s].plans| ==> services[s].plans[p] != planID
    {
      for j := 0 to |services[i].plans|
        invariant forall p :: 0 <= p < j ==> services[i].plans[p] != planID
      {
        if services[i].plans[j] == planID {
          return true;
        }
      }
    }
    return false;
  }

  /** Validation passes exactly when catalog and plan configs name the same plans and the rest is in order. */
  method Validate(c: Config) returns (err: Option<ConfigError>)
    ensures err.None? <==>
      && c.logLevel != "" && c.username != "" && c.password != "" && c.region != "" && c.brokerName != ""
      && c.cacheSubnetGroupName != "" && |c.vpcSecurityGroupIds| > 0 && c.kmsKeyID != "" && c.secretsManagerPath != ""
      && (c.tls.Some? ==> c.tls.value.certificate != "" && c.tls.value.privateKey != "" && c.tls.value.keyPairParses)
      && forall id :: id in c.planConfigs <==>
           exists i, j :: 0 <= i < |c.services| && 0 <= j < |c.services[i].plans| && c.services[i].plans[j] == id
    ensures err.None? ==> forall id :: InCatalog(c.services, id) ==> GetPlanConfig(c, id).Ok?
    ensures err.Some? && err.value.PlanWithoutConfig? ==>
      InCatalog(c.services, err.value.planID) && err.value.planID !in c.planConfigs
    ensures err.Some? && err.value.ConfigWithoutPlan? ==>
      err.value.planID in c.planConfigs && !InCatalog(c.services, err.value.planID)
  {
    if c.logLevel == "" || c.username == "" || c.password == "" || c.region == "" || c.brokerName == "" {
      return Some(MissingField);
    }
    if c.cacheSubnetGroupName == "" || |c.vpcSecurityGroupIds| < 1 || c.kmsKeyID == "" || c.secretsManagerPath == "" {
      return Some(MissingField);
    }
    for i := 0 to |c.services|
      invariant forall s, p :: 0 <= s < i && 0 <= p < |c.services[s].plans| ==> c.services[s].plans[p] in c.planConfigs
    {
      for j := 0 to |c.services[i].plans|
        invariant forall p :: 0 <= p < j ==> c.services[i].plans[p] in c.planConfigs
      {
        var id := c.services[i].plans[j];
        if id !in c.planConfigs {
          assert InCatalog(c.services, id);
          return Some(PlanWithoutConfig(id));
        }
      }
    }
    var left := c.planConfigs.Keys;
    while left != {}
      invariant left <= c.planConfigs.Keys
      invariant forall id :: id in c.planConfigs && id !in left ==> InCatalog(c.services, id)
      decreases left
    {
      var id :| id in left;
      var found := HasPlan(c.services, id);
      if !found {
        return Some(ConfigWithoutPlan(id));
      }
      left := left - {id};
    }
    if c.tls.Some? {
      var tls := c.tls.value;
      if tls.certificate == "" || tls.privateKey == "" || !tls.keyPairParses {
        return Some(BadTLS);
      }
    }
    return None;
  }
}
