/** The CloudDB enterprise types: URL templates, status vocabularies, the
    structures the API sends and receives, and the opts builders. */
module ClouddbTypes {
  import opened Fmt
  import opened Schema

  // URL templates; each one extends the one before it.
  const ClusterBaseUrl: string := "/cloudDB/enterprise/cluster/%s"
  const SecurityGroupBaseUrl: string := ClusterBaseUrl + "/securityGroup"
  const SecurityGroupRuleBaseUrl: string := SecurityGroupBaseUrl + "/%s/rule"

  // Cluster statuses.
  const ClusterStatusCreated: string := "created"
  const ClusterStatusCreating: string := "creating"
  const ClusterStatusDeleting: string := "deleting"
  const ClusterStatusReopening: string := "reopening"
  const ClusterStatusRestarting: string := "restarting"
  const ClusterStatusScaling: string := "scaling"
  const ClusterStatusSuspended: string := "suspended"
  const ClusterStatusSuspending: string := "suspending"
  const ClusterStatusUpdating: string := "updating"

  // Security-group statuses.
  const SecurityGroupStatusCreated: string := "created"
  const SecurityGroupStatusCreating: string := "creating"
  const SecurityGroupStatusDeleting: string := "deleting"
  const SecurityGroupStatusDeleted: string := "deleted"
  const SecurityGroupStatusUpdated: string := "updated"
  const SecurityGroupStatusUpdating: string := "updating"

  // Security-group-rule statuses.
  const RuleStatusCreated: string := "created"
  const RuleStatusCreating: string := "creating"
  const RuleStatusDeleting: string := "deleting"
  const RuleStatusDeleted: string := "deleted"
  const RuleStatusUpdated: string := "updated"
  const RuleStatusUpdating: string := "updating"

  const ClusterStatuses: seq<string> := [
    ClusterStatusCreated, ClusterStatusCreating, ClusterStatusDeleting,
    ClusterStatusReopening, ClusterStatusRestarting, ClusterStatusScaling,
    ClusterStatusSuspended, ClusterStatusSuspending, ClusterStatusUpdating]

  const SecurityGroupStatuses: seq<string> := [
    SecurityGroupStatusCreated, SecurityGroupStatusCreating, SecurityGroupStatusDeleting,
    SecurityGroupStatusDeleted, SecurityGroupStatusUpdated, SecurityGroupStatusUpdating]

  const RuleStatuses: seq<string> := [
    RuleStatusCreated, RuleStatusCreating, RuleStatusDeleting,
    RuleStatusDeleted, RuleStatusUpdated, RuleStatusUpdating]

  /** No value occurs twice. */
  predicate Distinct(s: seq<string>) {
    forall i, j :: 0 <= i < j < |s| ==> s[i] != s[j]
  }

  /** Nine distinct cluster statuses, none of them "deleted". */
  lemma ClusterStatusVocabulary()
    ensures |ClusterStatuses| == 9 && Distinct(ClusterStatuses)
    ensures SecurityGroupStatusDeleted !in ClusterStatuses
  {
  }

  /** Six distinct security-group statuses and six distinct rule statuses;
      each lifecycle's pending value differs from its target value. */
  lemma SecurityGroupAndRuleStatusVocabularies()
    ensures |SecurityGroupStatuses| == 6 && Distinct(SecurityGroupStatuses)
    ensures |RuleStatuses| == 6 && Distinct(RuleStatuses)
    ensures {SecurityGroupStatusCreating} !! {SecurityGroupStatusCreated}
    ensures {SecurityGroupStatusUpdating} !! {SecurityGroupStatusUpdated}
    ensures {SecurityGroupStatusDeleting} !! {SecurityGroupStatusDeleted}
    ensures {RuleStatusCreating} !! {RuleStatusCreated}
    ensures {RuleStatusUpdating} !! {RuleStatusUpdated}
    ensures {RuleStatusDeleting} !! {RuleStatusDeleted}
  {
  }

  /** The two vocabularies spell "deleting" and "deleted" alike, so a poll
      written with the security-group values accepts the rule values too. */
  lemma DeletionStatusesAgree()
    ensures SecurityGroupStatusDeleting == RuleStatusDeleting
    ensures SecurityGroupStatusDeleted == RuleStatusDeleted
  {
  }

  // Attribute names of the two resources.
  const ClusterIdKey: string := "cluster_id"
  const SecurityGroupIdKey: string := "security_group_id"
  const NameKey: string := "name"
  const SourceKey: string := "source"

  /** A security group as the API returns it (its status is typed as a cluster status). */
  datatype SecurityGroup = SecurityGroup(id: string, name: string, status: string, taskId: string)

  /** A security-group rule as the API returns it. */
  datatype SecurityGroupRule = SecurityGroupRule(id: string, source: string, status: string, taskId: string)

  /** The body of a security-group POST or PUT. */
  datatype SecurityGroupCreateUpdateOpts = SecurityGroupCreateUpdateOpts(name: string, clusterId: string) {
    /** Overwrites both fields of the receiver from the resource data. */
    function FromResource(d: ResourceData): (opts: SecurityGroupCreateUpdateOpts)
      reads d
      ensures opts == SecurityGroupCreateUpdateOpts(d.GetString(NameKey), d.GetString(ClusterIdKey))
    {
      this.(name := d.GetString(NameKey), clusterId := d.GetString(ClusterIdKey))
    }
  }

  /** The body of a rule POST. */
  datatype SecurityGroupRuleCreateUpdateOpts = SecurityGroupRuleCreateUpdateOpts(source: string) {
    /** Overwrites the receiver's only field from the resource data. */
    function FromResource(d: ResourceData): (opts: SecurityGroupRuleCreateUpdateOpts)
      reads d
      ensures opts == SecurityGroupRuleCreateUpdateOpts(d.GetString(SourceKey))
    {
      this.(source := d.GetString(SourceKey))
    }
  }

  /** The collection of a cluster's security groups. */
  function SecurityGroupCollectionUrl(clusterId: string): string {
    Sprintf(SecurityGroupBaseUrl, [S(clusterId)])
  }

  /** One security group. */
  function SecurityGroupUrl(clusterId: string, id: string): string {
    Sprintf(SecurityGroupBaseUrl + "/%s", [S(clusterId), S(id)])
  }

  /** The collection of a security group's rules. */
  function RuleCollectionUrl(clusterId: string, securityGroupId: string): string {
    Sprintf(SecurityGroupRuleBaseUrl, [S(clusterId), S(securityGroupId)])
  }

  /** One rule. */
  function RuleUrl(clusterId: string, securityGroupId: string, id: string): string {
    Sprintf(SecurityGroupRuleBaseUrl + "/%s", [S(clusterId), S(securityGroupId), S(id)])
  }

  /** The templates cut at their verbs. */
  lemma TemplatePieces()
    ensures SecurityGroupBaseUrl == "/cloudDB/enterprise/cluster/" + "%s" + "/securityGroup"
    ensures SecurityGroupBaseUrl + "/%s" == "/cloudDB/enterprise/cluster/" + "%s" + "/securityGroup/" + "%s" + ""
    ensures SecurityGroupRuleBaseUrl == "/cloudDB/enterprise/cluster/" + "%s" + "/securityGroup/" + "%s" + "/rule"
    ensures SecurityGroupRuleBaseUrl + "/%s"
         == "/cloudDB/enterprise/cluster/" + "%s" + "/securityGroup/" + "%s" + "/rule/" + "%s" + ""
  {
  }

  /** The collection of a cluster's security groups is the cluster path followed by "/securityGroup". */
  lemma SecurityGroupCollectionUrlShape(c: string)
    ensures SecurityGroupCollectionUrl(c) == "/cloudDB/enterprise/cluster/" + c + "/securityGroup"
  {
    TemplatePieces();
    Sprintf1("/cloudDB/enterprise/cluster/", "/securityGroup", c);
  }

  /** A security group's URL is the collection URL, a slash and the group id. */
  lemma SecurityGroupUrlShape(c: string, g: string)
    ensures SecurityGroupUrl(c, g) == SecurityGroupCollectionUrl(c) + "/" + g
  {
    SecurityGroupCollectionUrlShape(c);
    TemplatePieces();
    Sprintf2("/cloudDB/enterprise/cluster/", "/securityGroup/", "", c, g);
  }

  /** The collection of a group's rules is the group's URL followed by "/rule". */
  lemma RuleCollectionUrlShape(c: string, g: string)
    ensures RuleCollectionUrl(c, g) == SecurityGroupUrl(c, g) + "/rule"
  {
    SecurityGroupCollectionUrlShape(c);
    SecurityGroupUrlShape(c, g);
    TemplatePieces();
    Sprintf2("/cloudDB/enterprise/cluster/", "/securityGroup/", "/rule", c, g);
  }

  /** A rule's URL is the rule collection URL, a slash and the rule id. */
  lemma RuleUrlShape(c: string, g: string, r: string)
    ensures RuleUrl(c, g, r) == RuleCollectionUrl(c, g) + "/" + r
  {
    SecurityGroupCollectionUrlShape(c);
    SecurityGroupUrlShape(c, g);
    RuleCollectionUrlShape(c, g);
    TemplatePieces();
    Sprintf3("/cloudDB/enterprise/cluster/", "/securityGroup/", "/rule/", "", c, g, r);
  }
}
