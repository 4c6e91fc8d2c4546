/** Who an instance belongs to, and the tags that say so. */
module ServiceDetails {

  datatype Details = Details(serviceID: string, planID: string, organization: string, space: string)

  function BrokerTags(brokerName: string, d: Details, instanceID: string): map<string, string> {
    map[
      "created-by" := brokerName,
      "service-id" := d.serviceID,
      "plan-id" := d.planID,
      "organization-id" := d.organization,
      "space-id" := d.space,
      "instance-id" := instanceID,
      "chargeable_entity" := instanceID
    ]
  }

  /** Each key says what it is meant to say: no key overrides another. */
  lemma BrokerTagsSay(brokerName: string, d: Details, instanceID: string)
    ensures var tags := BrokerTags(brokerName, d, instanceID);
      && |tags| == 7
      && "created-by" in tags && tags["created-by"] == brokerName
      && "service-id" in tags && tags["service-id"] == d.serviceID
      && "plan-id" in tags && tags["plan-id"] == d.planID
      && "organization-id" in tags && tags["organization-id"] == d.organization
      && "space-id" in tags && tags["space-id"] == d.space
      && "instance-id" in tags && tags["instance-id"] == instanceID
      && "chargeable_entity" in tags && tags["chargeable_entity"] == instanceID
  {
    assert "created-by"[0] != "service-id"[0];
    assert |"plan-id"| == 7 && |"space-id"| == 8 && |"created-by"| == 10 && |"service-id"| == 10;
    assert |"instance-id"| == 11 && |"organization-id"| == 15 && |"chargeable_entity"| == 17;
  }
}
