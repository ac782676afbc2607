# OVH Terraform provider: resource reconciliation, modelled in Dafny

This project models the client-side logic of five parts of the OVH Terraform provider:

- the `ovh_cloud_db_enterprise_cluster_security_group` resource;
- the `ovh_cloud_db_enterprise_cluster_security_group_rule` resource;
- the CloudDB enterprise types: URL templates, status vocabularies and the opts builders;
- the `ovh_domain_zone_record` (DNS record) resource;
- the `ovh_me_installation_template_partition_scheme` resource.

The OVH API is an oracle. `Api.Client` has a constant `answer: nat -> Reply<B>`, the reply to the k-th request it sends. It also has a mutable `log` of the requests sent so far. Terraform's `schema.ResourceData` is the class `Schema.ResourceData`, with a mutable `id` and an attribute map `attrs`.

Every CRUD function of a resource is an imperative `method` over these two objects. Each method is proved against a pure specification function `XEffect(answer, n0, id, attrs, …)`. That function gives the outcome, the requests sent in order, and the id and attributes left in the state record. The lemmas then state what the provider promises about these effects, for every possible oracle. Examples:

- a failed create registers no id;
- a delete clears the id only on success;
- an import of `"a/b/c"` splits into at most three parts;
- the decimal id of a DNS record round-trips through `strconv.Atoi`.

Two Terraform SDK helpers are modelled by one loop, `Sdk.Drive`, specified by the pure `Sdk.Run`:

- `resource.Retry` (`Sdk.Retry`);
- `StateChangeConf.WaitForState` (`Sdk.WaitForState`).

A call budget (`Sdk.Budget`) takes the place of the wall-clock timeouts. The budget also carries a policy for a status that is neither pending nor target: `KeepPolling` or `FailFast`. The SDK's own behaviour there is outside the modelled files, so both are kept open.

`fmt.Sprintf` is modelled for the verbs the templates use (`%s`, `%d`, `%%`, plus Go's `%!s(MISSING)` and wrong-type renderings). `strconv.Atoi` is modelled for Go's 64-bit `int`. `strings.SplitN` and `strings.Join` are modelled for a one-character separator. These models let the URL nesting and the id round trips be proved from the template strings themselves.

Observations the model makes precise:

- CloudDB security group: an update (PUT) polls for "creating" to "created", exactly like a create (`ovh/resource_ovh_clouddb_enterprise_cluster_security_group.go:88-94`). An API that answers a PUT's first poll with "updating" fails the update at once under the refusing policy (`UpdateRefusesUpdating`). An API that answers every poll of the budget with only "updating" or "updated" makes the update time out under the polling policy (`UpdateNeverSeesCreated`). Under the polling policy, an API that reports "updating" and later "created" lets the update succeed.
- Security-group rule: the delete poll is written with the security-group status constants. It still agrees with the rule's own 404 mapping because the two vocabularies spell "deleting" and "deleted" alike (`DeletionStatusesAgree`).
- CloudDB security group and security-group rule: each ImportState only splits the import id and sets fields. It sends no request; both `ImportEffect`s send nothing.
- CloudDB security group: `strings.SplitN` caps the number of pieces but does not require that number. An import of `"a/b/c"` is accepted with group id `"b/c"` (`ImportSplitsTwoParts`).
- Partition scheme: Create first registers `template/name`. The read-back then overwrites it with `template-name`. A create whose read-back fails keeps the slash form (`CreateReadBackFailureKeepsSlashId`).

## Model

| member | source | states |
|---|---|---|
| Schema.ResourceData.Set | ovh/resource_ovh_clouddb_enterprise_cluster_security_group.go:125 | `d.Set` replaces exactly one attribute and leaves the id alone |
| Schema.ResourceData.SetId | ovh/resource_ovh_clouddb_enterprise_cluster_security_group.go:124 | `d.SetId` replaces the id and no attribute |
| Api.Client.Call | ovh/resource_ovh_clouddb_enterprise_cluster_security_group.go:138 | each remote call appends its request to the log and receives the oracle's reply for its rank |
| Sdk.Run | ovh/resource_ovh_clouddb_enterprise_cluster_security_group_rule.go:66-79 | a decided loop sent between 1 and `bound` requests; an undecided one used the whole budget |
| Sdk.RunStopsAtFirstStop | ovh/resource_ovh_clouddb_enterprise_cluster_security_group_rule.go:66-79 | the loop stops at the first reply that stops it and at no earlier one; an undecided loop saw only replies that say "go on" |
| Sdk.RunFindsStop | ovh/resource_ovh_clouddb_enterprise_cluster_security_group_rule.go:88-107 | conversely, a stopping reply within the budget, after only continuing ones, decides the loop after exactly its rank of requests |
| Sdk.RunExhausts | ovh/resource_ovh_clouddb_enterprise_cluster_security_group_rule.go:88-107 | a loop never told to stop sends its whole budget and decides nothing |
| Sdk.Drive | ovh/resource_ovh_clouddb_enterprise_cluster_security_group_rule.go:66-79 | the imperative loop sends the same request once per reply it consumes and ends with exactly `Run`'s outcome and count |
| Sdk.Retry | ovh/resource_ovh_clouddb_enterprise_cluster_security_group_rule.go:66-83 | `resource.Retry`: the first accepted or non-retryable attempt decides; a budget spent on retryable attempts is a timeout; one request per attempt |
| Sdk.WaitForState | ovh/resource_ovh_clouddb_enterprise_cluster_security_group_rule.go:88-108 | `WaitForState` with a GET refresh: one GET of the URL per poll, ending as the first refresh error, target status or refused status decides |
| Sdk.WaitOutcome | ovh/resource_ovh_clouddb_enterprise_cluster_security_group_rule.go:88-108 | a wait succeeds only with a target status, the one its last poll observed, within the budget |
| Sdk.WaitReachesTarget | ovh/resource_ovh_clouddb_enterprise_cluster_security_group_rule.go:88-108 | pending statuses followed by a target status within the budget make the wait succeed with that status after that many polls |
| Sdk.WaitFailsOnRefreshError | ovh/resource_ovh_clouddb_enterprise_cluster_security_group_rule.go:185-194 | pending statuses followed by a refresh error within the budget make the wait fail with that error after that many polls |
| ClouddbMutation.ContinuesIffBusy | ovh/resource_ovh_clouddb_enterprise_cluster_security_group_rule.go:67-78 | an attempt is retried if and only if it failed with HTTP 403; any other reply stops the retry with the body, or with an error naming the query id and the URL |
| ClouddbMutation.FirstNonBusyDecides | ovh/resource_ovh_clouddb_enterprise_cluster_security_group_rule.go:66-79 | the first reply that is not a 403 decides the mutation, after as many attempts as its rank |
| ClouddbMutation.BusyThroughoutTimesOut | ovh/resource_ovh_clouddb_enterprise_cluster_security_group_rule.go:66-79 | a remote busy for the whole budget makes the retry time out after the whole budget |
| ClouddbMutation.RetryOutcome | ovh/resource_ovh_clouddb_enterprise_cluster_security_group_rule.go:66-79 | for every sequence of replies, the retry either timed out after only 403s or stopped at the first non-403 reply with that reply's outcome |
| ClouddbTypes.ClusterStatusVocabulary | ovh/types_clouddb_enterprise.go:17-25 | nine distinct cluster statuses, none of them "deleted" |
| ClouddbTypes.SecurityGroupAndRuleStatusVocabularies | ovh/types_clouddb_enterprise.go:27-39 | six distinct security-group and six distinct rule statuses; in each creating/created, updating/updated and deleting/deleted pair the pending value differs from the target |
| ClouddbTypes.DeletionStatusesAgree | ovh/types_clouddb_enterprise.go:29-37 | security-group and rule statuses share the strings for "deleting" and "deleted" |
| ClouddbTypes.SecurityGroupCreateUpdateOpts.FromResource | ovh/types_clouddb_enterprise.go:60-66 | the opts hold exactly the configured `name` and `cluster_id`, whatever the receiver held before |
| ClouddbTypes.SecurityGroupRuleCreateUpdateOpts.FromResource | ovh/types_clouddb_enterprise.go:79-83 | the opts hold exactly the configured `source` |
| ClouddbTypes.SecurityGroupCollectionUrlShape | ovh/types_clouddb_enterprise.go:13-14 | the security-group template formatted with a cluster id is `/cloudDB/enterprise/cluster/{c}/securityGroup` |
| ClouddbTypes.SecurityGroupUrlShape | ovh/types_clouddb_enterprise.go:13-14 | a group's URL is the group collection URL, "/" and the group id |
| ClouddbTypes.RuleCollectionUrlShape | ovh/types_clouddb_enterprise.go:13-15 | the rule template formatted with `(c, g)` is the group's URL followed by "/rule", so every rule URL extends its group's URL |
| ClouddbTypes.RuleUrlShape | ovh/types_clouddb_enterprise.go:13-15 | a rule's URL is the rule collection URL, "/" and the rule id |
| ClouddbSecurityGroupRule.Read | ovh/resource_ovh_clouddb_enterprise_cluster_security_group_rule.go:131-144 | Read sends one GET of the rule URL and leaves exactly the state `ReadEffect` gives |
| ClouddbSecurityGroupRule.Create | ovh/resource_ovh_clouddb_enterprise_cluster_security_group_rule.go:54-114 | Create sends the retried POST, the polls and the read-back, and leaves exactly the state `CreateEffect` gives |
| ClouddbSecurityGroupRule.Delete | ovh/resource_ovh_clouddb_enterprise_cluster_security_group_rule.go:146-205 | Delete sends the retried DELETE and the polls, and leaves exactly the state `DeleteEffect` gives |
| ClouddbSecurityGroupRule.ImportState | ovh/resource_ovh_clouddb_enterprise_cluster_security_group_rule.go:116-129 | import sets cluster, group and id as `ImportEffect` gives, and returns the record or the format error |
| ClouddbSecurityGroupRule.ImportSplitsThreeParts | ovh/resource_ovh_clouddb_enterprise_cluster_security_group_rule.go:117-124 | `"a/b/c"` imports cluster a, group b and rule id c, where c keeps any further slashes (`"a/b/c/d"` gives id `"c/d"`) |
| ClouddbSecurityGroupRule.ImportRejectedIff | ovh/resource_ovh_clouddb_enterprise_cluster_security_group_rule.go:118-121 | an import id is refused if and only if it has fewer than two slashes, and a refused import changes nothing |
| ClouddbSecurityGroupRule.ImportRoundTrip | ovh/resource_ovh_clouddb_enterprise_cluster_security_group_rule.go:118-124 | after an accepted import, cluster, group and id joined by "/" give back the import id |
| ClouddbSecurityGroupRule.CreateOutcome | ovh/resource_ovh_clouddb_enterprise_cluster_security_group_rule.go:66-113 | a failed create registers no id and sets no attribute; a create that does not fail had its POST accepted and its poll reach "created", registers the POST reply's id, sends one POST per attempt, then one GET per poll of the rule base URL extended with that id, and ends with the read-back GET of that rule |
| ClouddbSecurityGroupRule.DeleteOutcome | ovh/resource_ovh_clouddb_enterprise_cluster_security_group_rule.go:171-204 | a successful delete clears the id; a failed delete keeps it; no attribute changes and CheckDeleted is never used |
| ClouddbSecurityGroupRule.DeletePollEndsOnNotFound | ovh/resource_ovh_clouddb_enterprise_cluster_security_group_rule.go:178-194 | polls that see "deleting" and then a 404 end the delete wait successfully with "deleted" at that poll |
| ClouddbSecurityGroupRule.DeletePollOtherErrorFails | ovh/resource_ovh_clouddb_enterprise_cluster_security_group_rule.go:185-194 | after any number of "deleting" polls, a GET that fails with anything but 404 ends the delete poll with that error at that poll |
| ClouddbSecurityGroupRule.ReadChangesOnlySource | ovh/resource_ovh_clouddb_enterprise_cluster_security_group_rule.go:138-143 | Read succeeds iff the GET does; it then stores the reply's source and changes no other attribute and not the id; a failed GET defers to CheckDeleted with the rule URL and changes nothing |
| ClouddbSecurityGroupRule.CreateAfterBusyRemote | ovh/resource_ovh_clouddb_enterprise_cluster_security_group_rule.go:54-114 | a concrete run: one 403, an accepted POST, "creating" then "created", then a read-back, gives the POST's id, the read-back source and five requests |
| ClouddbSecurityGroup.Read | ovh/resource_ovh_clouddb_enterprise_cluster_security_group.go:132-143 | Read sends one GET of the group URL and leaves exactly the state `ReadEffect` gives |
| ClouddbSecurityGroup.CreateOrUpdate | ovh/resource_ovh_clouddb_enterprise_cluster_security_group.go:41-114 | CreateOrUpdate sends the retried POST or PUT, the polls and the read-back, and leaves exactly the state `CreateOrUpdateEffect` gives |
| ClouddbSecurityGroup.Settle | ovh/resource_ovh_clouddb_enterprise_cluster_security_group.go:85-113 | the part after an accepted write (poll, SetId, read-back) leaves exactly the state `SettleEffect` gives |
| ClouddbSecurityGroup.Delete | ovh/resource_ovh_clouddb_enterprise_cluster_security_group.go:145-203 | Delete sends the retried DELETE and the polls, and leaves exactly the state `DeleteEffect` gives |
| ClouddbSecurityGroup.ImportState | ovh/resource_ovh_clouddb_enterprise_cluster_security_group.go:116-130 | import sets cluster and id as `ImportEffect` gives, and returns the record or the format error |
| ClouddbSecurityGroup.WriteRequestChoosesVerb | ovh/resource_ovh_clouddb_enterprise_cluster_security_group.go:47-65 | POST if and only if there is no id, PUT if and only if there is one; POST goes to the collection and PUT to `"%s/%s"` of the collection and the id; the body is the configured name and cluster |
| ClouddbSecurityGroup.ItemUrlIsGroupUrl | ovh/resource_ovh_clouddb_enterprise_cluster_security_group.go:51-52 | `"%s/%s"` of the collection URL and an id is the same string as the group template formatted with cluster and id |
| ClouddbSecurityGroup.CreateOrUpdateFailureKeepsState | ovh/resource_ovh_clouddb_enterprise_cluster_security_group.go:81-109 | a create or update that fails changes neither the id nor any attribute |
| ClouddbSecurityGroup.CreateOrUpdateOutcome | ovh/resource_ovh_clouddb_enterprise_cluster_security_group.go:81-113 | a create or update that does not fail had its write accepted and its poll reach "created", registers the POST reply's id (create) or keeps the prior id (update), and ends with the read-back GET of that group |
| ClouddbSecurityGroup.SettleOutcome | ovh/resource_ovh_clouddb_enterprise_cluster_security_group.go:85-113 | after an accepted write, a failure changes nothing; otherwise the group id is registered only once the poll saw "created", and the read-back GET of that group comes last |
| ClouddbSecurityGroup.UpdateStatusesUnexpected | ovh/resource_ovh_clouddb_enterprise_cluster_security_group.go:88-94 | "updating" and "updated" are neither pending nor target in the write poll |
| ClouddbSecurityGroup.UpdateRefusesUpdating | ovh/resource_ovh_clouddb_enterprise_cluster_security_group.go:88-109 | with a policy that refuses unexpected statuses, an accepted PUT followed by "updating" fails the update after two requests and changes nothing |
| ClouddbSecurityGroup.UpdateNeverSeesCreated | ovh/resource_ovh_clouddb_enterprise_cluster_security_group.go:88-109 | with a policy that keeps polling, an accepted PUT followed only by "updating"/"updated" makes the update time out |
| ClouddbSecurityGroup.PollSeesOnlyUpdates | ovh/resource_ovh_clouddb_enterprise_cluster_security_group.go:88-107 | a write poll that sees only "updating"/"updated" times out after its whole budget when it keeps polling |
| ClouddbSecurityGroup.ReadChangesOnlyName | ovh/resource_ovh_clouddb_enterprise_cluster_security_group.go:138-142 | Read succeeds iff the GET does; it then stores the reply's name and changes no other attribute and not the id; a failed GET defers to CheckDeleted with the group URL and changes nothing |
| ClouddbSecurityGroup.ImportSplitsTwoParts | ovh/resource_ovh_clouddb_enterprise_cluster_security_group.go:117-125 | `"c/g"` imports cluster c and group id g, where g keeps any further slashes (`"a/b/c"` gives id `"b/c"`) |
| ClouddbSecurityGroup.ImportRejectedIff | ovh/resource_ovh_clouddb_enterprise_cluster_security_group.go:118-121 | an import id is refused if and only if it has no slash, and a refused import changes nothing |
| ClouddbSecurityGroup.ImportRoundTrip | ovh/resource_ovh_clouddb_enterprise_cluster_security_group.go:118-125 | after an accepted import, cluster and id joined by "/" give back the import id |
| ClouddbSecurityGroup.DeleteOutcome | ovh/resource_ovh_clouddb_enterprise_cluster_security_group.go:170-202 | a successful delete clears the id; a failed delete keeps it; no attribute changes and CheckDeleted is never used |
| ClouddbSecurityGroup.DeletePollEndsOnNotFound | ovh/resource_ovh_clouddb_enterprise_cluster_security_group.go:176-192 | polls that see "deleting" and then a 404 end the delete wait successfully with "deleted" at that poll |
| ClouddbSecurityGroup.DeletePollOtherErrorFails | ovh/resource_ovh_clouddb_enterprise_cluster_security_group.go:183-192 | after any number of "deleting" polls, a GET that fails with anything but 404 ends the delete poll with that error at that poll |
| DomainZoneDnsRecord.ReadRecord | ovh/resource_ovh_domain_zone_dnsrecord.go:176-184 | `readDomainZoneDnsRecord` leaves the projection of the response and the id in decimal |
| DomainZoneDnsRecord.Create | ovh/resource_ovh_domain_zone_dnsrecord.go:49-74 | Create sends one POST to the zone's collection and leaves exactly the state `CreateEffect` gives |
| DomainZoneDnsRecord.Read | ovh/resource_ovh_domain_zone_dnsrecord.go:76-93 | Read parses the id, sends at most one GET, and leaves exactly the state `ReadEffect` gives |
| DomainZoneDnsRecord.Update | ovh/resource_ovh_domain_zone_dnsrecord.go:95-126 | Update parses the id, sends at most one PUT, and leaves exactly the state `UpdateEffect` gives |
| DomainZoneDnsRecord.Delete | ovh/resource_ovh_domain_zone_dnsrecord.go:128-148 | Delete parses the id, sends at most one DELETE, and leaves exactly the state `DeleteEffect` gives |
| DomainZoneDnsRecord.Exists | ovh/resource_ovh_domain_zone_dnsrecord.go:150-174 | `domainZoneDnsRecordExists` returns what `ExistsVerdict` gives, after at most one GET |
| DomainZoneDnsRecord.RecordCollectionUrlShape | ovh/resource_ovh_domain_zone_dnsrecord.go:64 | the collection endpoint is `/domain/zone/{zone}/record` |
| DomainZoneDnsRecord.RecordUrlShape | ovh/resource_ovh_domain_zone_dnsrecord.go:86 | the item endpoint is `/domain/zone/{zone}/record/{id}`, the id in decimal |
| DomainZoneDnsRecord.RecordUrlExtendsCollection | ovh/resource_ovh_domain_zone_dnsrecord.go:86 | the item endpoint is the collection endpoint, "/" and the decimal id |
| DomainZoneDnsRecord.ProjectedStoresResponse | ovh/resource_ovh_domain_zone_dnsrecord.go:177-181 | the projection stores zone_name, ttl, field_type, sub_domain and target from the response, adds no other key and keeps every other attribute |
| DomainZoneDnsRecord.CreatedIdRoundTrips | ovh/resource_ovh_domain_zone_dnsrecord.go:182 | a created record's id is stored in decimal, and `Atoi` of it gives back the response id |
| DomainZoneDnsRecord.LaterCallsTargetCreatedRecord | ovh/resource_ovh_domain_zone_dnsrecord.go:80-138 | after a create, Read, Update and Delete address the created record: the response's zone and id |
| DomainZoneDnsRecord.NonNumericIdSendsNothing | ovh/resource_ovh_domain_zone_dnsrecord.go:80-154 | an id `Atoi` refuses makes Read, Update, Delete and Exists fail before any request, with nothing changed |
| DomainZoneDnsRecord.ExistsIff | ovh/resource_ovh_domain_zone_dnsrecord.go:150-174 | for a numeric id: found iff the GET succeeds; no error iff the GET succeeds or fails with 404; any other error is returned as it is |
| DomainZoneDnsRecord.CreateOutcome | ovh/resource_ovh_domain_zone_dnsrecord.go:63-73 | a create fails iff the POST does, and then changes nothing; a successful one stores the projection and the decimal id |
| DomainZoneDnsRecord.UpdateOutcome | ovh/resource_ovh_domain_zone_dnsrecord.go:115-125 | a failed update changes nothing in the state record |
| DomainZoneDnsRecord.DeleteOutcome | ovh/resource_ovh_domain_zone_dnsrecord.go:138-147 | a successful delete clears the id; a failed one keeps it; no attribute changes |
| DomainZoneDnsRecord.CreateAndUpdateSendSameBody | ovh/resource_ovh_domain_zone_dnsrecord.go:54-111 | Create and Update send the same body, built from the four configured fields |
| Strconv.Atoi | ovh/resource_ovh_domain_zone_dnsrecord.go:80 | an accepted value lies in Go's 64-bit int range; a refusal names the input; the empty id is refused |
| Strconv.AtoiAcceptsOnlyDecimal | ovh/resource_ovh_domain_zone_dnsrecord.go:80-83 | `Atoi` accepts only an optional sign followed by decimal digits, with at least one digit |
| Strconv.FormatNatDigits | ovh/resource_ovh_domain_zone_dnsrecord.go:182 | the decimal rendering of n is a non-empty string of digits whose value is n |
| Strconv.AtoiItoa | ovh/resource_ovh_domain_zone_dnsrecord.go:182 | every 64-bit int rendered with `%d` is read back unchanged by `Atoi` |
| Strings.SplitNLength | ovh/resource_ovh_clouddb_enterprise_cluster_security_group_rule.go:118 | `SplitN(s, sep, n)` gives min(n, separators + 1) pieces |
| Strings.SplitNPiecesFree | ovh/resource_ovh_clouddb_enterprise_cluster_security_group_rule.go:118 | every piece but the last is free of the separator |
| Strings.SplitNJoin | ovh/resource_ovh_clouddb_enterprise_cluster_security_group_rule.go:118 | joining the pieces with the separator gives back the input |
| Strings.SplitNOfJoin | ovh/resource_ovh_clouddb_enterprise_cluster_security_group.go:118 | splitting a join of n pieces, all but the last separator-free, gives back those pieces |
| Fmt.SprintfLiteral | ovh/types_clouddb_enterprise.go:13-15 | text without a percent sign is copied unchanged |
| Fmt.SprintfString | ovh/types_clouddb_enterprise.go:13-15 | `%s` renders the next string operand verbatim |
| Fmt.SprintfDecimal | ovh/resource_ovh_domain_zone_dnsrecord.go:182 | `%d` renders the next int operand in decimal |
| Fmt.SprintfDecimalOnly | ovh/resource_ovh_domain_zone_dnsrecord.go:182 | `fmt.Sprintf("%d", x)` alone is the decimal rendering `Itoa(x)` that the id round trips use |
| PartitionScheme.GetPartitionScheme | ovh/resource_ovh_me_installation_template_partition_scheme.go:115-129 | one GET of the escaped scheme URL; the scheme, or an error naming that URL |
| PartitionScheme.Read | ovh/resource_ovh_me_installation_template_partition_scheme.go:96-113 | Read sends one GET and leaves exactly the state `ReadEffect` gives |
| PartitionScheme.SetAttributes | ovh/resource_ovh_me_installation_template_partition_scheme.go:106-109 | the loop over `ToMap` leaves every entry of the map set, every other attribute as it was and the id unchanged |
| PartitionScheme.Create | ovh/resource_ovh_me_installation_template_partition_scheme.go:40-55 | Create sends the POST and, if it succeeds, the read-back, and leaves exactly the state `CreateEffect` gives |
| PartitionScheme.Update | ovh/resource_ovh_me_installation_template_partition_scheme.go:57-75 | Update sends the PUT and, if it succeeds, the read-back, and leaves exactly the state `UpdateEffect` gives |
| PartitionScheme.Delete | ovh/resource_ovh_me_installation_template_partition_scheme.go:77-94 | Delete sends one DELETE, changes nothing in the state record and returns what `DeleteEffect` gives |
| PartitionScheme.CollectionUrlShape | ovh/resource_ovh_me_installation_template_partition_scheme.go:46 | Create's endpoint is `/me/installationTemplate/{template}/partitionScheme`, the template name not escaped |
| PartitionScheme.SchemeUrlShape | ovh/resource_ovh_me_installation_template_partition_scheme.go:64-68 | the scheme endpoint is `/me/installationTemplate/{esc(template)}/partitionScheme/{esc(name)}` |
| PartitionScheme.IdShapes | ovh/resource_ovh_me_installation_template_partition_scheme.go:52 | Create's id is `template/name`, and the id Read registers (line 111) is `template-name` |
| PartitionScheme.ReadOutcome | ovh/resource_ovh_me_installation_template_partition_scheme.go:96-112 | a read fails iff the GET does, and then changes nothing; a successful one stores every entry of the scheme's map, keeps every other attribute and registers `template-name` |
| PartitionScheme.CreateFailureSetsNoId | ovh/resource_ovh_me_installation_template_partition_scheme.go:46-50 | a failed POST returns an error after that one request, with no id and no attribute set |
| PartitionScheme.CreateEndsWithDashId | ovh/resource_ovh_me_installation_template_partition_scheme.go:52-54 | a create whose POST and read-back succeed ends with the id `template-name`, overwriting `template/name` |
| PartitionScheme.CreateReadBackFailureKeepsSlashId | ovh/resource_ovh_me_installation_template_partition_scheme.go:52-54 | a create whose read-back fails returns the error with `template/name` registered |
| PartitionScheme.UpdateAndDeleteEndpoints | ovh/resource_ovh_me_installation_template_partition_scheme.go:62-87 | Update targets the scheme named by the opts, and Delete the one named by the stored `name`; both escape both names |
| PartitionScheme.DeleteKeepsId | ovh/resource_ovh_me_installation_template_partition_scheme.go:89-93 | Delete never clears the id or changes an attribute, and succeeds iff the DELETE does |

## Left out

- **Timing.** The timeouts (10 and 20 minutes), `Delay`, `MinTimeout` and context cancellation are not modelled. A call budget stands in for each timeout.
- **Unexpected statuses.** What the SDK's `WaitForState` does with a status outside pending and target is not in the modelled files. It is the parameter `Budget.onUnexpected`.
- **HTTP and authentication.** The HTTP client, authentication and `ovh/config.go` are not modelled. The API is the oracle `Api.Client.answer`.
- **`helpers.CheckDeleted`** is not part of this model. Read returns `Outcome.CheckDeleted(url, cause)`, and the model changes nothing itself.
- **`url.PathEscape`** is not part of this model. It is the function parameter `esc`.
- **`PartitionScheme.ToMap`** is not part of this model. The scheme is represented by the attribute map it yields.
- **`PartitionSchemeCreateOrUpdateOpts.FromResource`** is not part of this model. Create and Update take the opts as a parameter.
- **The `err.(*ovh.APIError)` assertions.** These panic in Go on a non-API error. Here such an error is `OtherError`. It is terminal in the retry, with query id "", and it is a refresh failure in the delete poll.
- **Non-API errors in Exists.** `domainZoneDnsRecordExists` uses a type switch, not an assertion, so it does not panic. A non-API error takes the switch's default branch and is returned as `(false, err)`; the model's `OtherError` does the same.
- **Error message texts** are abstracted to a context string plus the inner error. The `%q` quoting and the formatted opts are not rendered. The retry closures' "Error calling DELETE" text, which the source also uses for POST and PUT, is represented by `CallFailed(queryId, url, cause)`.
- **Logging**, the Terraform schema declarations (`Required`, `ForceNew`, the ttl default of 3600, `helpers.ValidateIpBlock`), the data source and the acceptance tests are not modelled.
- **Response structs.** The fields of `DomainZoneRecordResponse` and `PartitionScheme` are taken from their uses in the modelled files, because their declarations are not part of this model.
- ClouddbTypes.SecurityGroupCreateUpdateOpts.FromResource: `helpers.GetNilStringPointerFromData` is read as the stored string, "" when unset. The nil dereference of an unset attribute is not modelled. The receiver update in place is modelled as a value with both fields replaced.
- ClouddbTypes.SecurityGroupRuleCreateUpdateOpts.FromResource: the same reading of `GetNilStringPointerFromData` as above.
- ClouddbSecurityGroup.CreateOrUpdate: the PUT URL is computed with the group template. `ItemUrlIsGroupUrl` proves it is the same string as the source's `fmt.Sprintf("%s/%s", getUrl, d.Id())`.
- ClouddbSecurityGroup.Settle: the source has no separate function for this part. It is the tail of CreateOrUpdate, lines 85-113, given its own method.
- PartitionScheme.SetAttributes: the source's loop is inline in Read. The order in which map entries are set is left open. The final state does not depend on it.
- Strconv.Atoi: all refusals are one error kind. Go's distinction between syntax and range errors is not modelled.
- Sdk.Retry: a budget spent on retryable attempts ends as `RetryTimedOut`. `resource.Retry`'s timeout error, which wraps the last retryable error, is not modelled.
- Sdk.WaitForState: a poll budget of 0 sends no GET and ends as `PollTimedOut`. `StateChangeConf.WaitForState` always refreshes at least once, so only budgets of 1 or more correspond to it.
- Sdk.Retry: a retry budget of 0 sends no request. `resource.Retry` always makes at least one attempt, so only budgets of 1 or more correspond to it.
- DomainZoneDnsRecord.ReadRecord: the record id is an unbounded integer. Go's 64-bit range matters only through `Atoi`, and `CreatedIdRoundTrips` requires the id to fit.
