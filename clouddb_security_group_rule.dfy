/** The ovh_cloud_db_enterprise_cluster_security_group_rule resource: create
    (retried POST, poll until "created", register the id, read back), read,
    delete (retried DELETE, poll until "deleted", clear the id) and import. */
module ClouddbSecurityGroupRule {
  import opened Errors
  import opened Api
  import opened Schema
  import opened Sdk
  import opened Strings
  import opened ClouddbTypes
  import opened ClouddbMutation
  import opened Crud

  /** The API as this resource uses it: rule opts go out, rules come back. */
  type Remote = Client<SecurityGroupRuleCreateUpdateOpts, SecurityGroupRule>
  type RuleEffect = Effect<SecurityGroupRuleCreateUpdateOpts>

  const CreateRetryFailed: string := "Error waiting for DB Entreprise Security Group Rule creation"
  const CreatePollFailed: string := "Error waiting for DB Entreprise Security Group creation"
  const DeleteRetryFailed: string := "Error execution DB Entreprise Security Group Rule Deletion"
  const DeletePollFailed: string := "Error waiting for DB Entreprise Security Group deletion"
  const ImportFormat: string := "import id is not cluster_id/security_group_id/security_group_rule formatted"

  /** The poll after a create waits from "creating" to "created". */
  const CreateConf: StateChangeConf := StateChangeConf({RuleStatusCreating}, {RuleStatusCreated})

  /** The poll after a delete is written with the security-group statuses. */
  const DeleteConf: StateChangeConf := StateChangeConf({SecurityGroupStatusDeleting}, {SecurityGroupStatusDeleted})

  /** The Refresh function of the create poll: the rule's status, or the GET error. */
  function CreateRefresh(reply: Reply<SecurityGroupRule>): Refreshed {
    match reply
    case Replied(rule) => Observed(rule.status)
    case Errored(e) => RefreshFailed(e)
  }

  /** The Refresh function of the delete poll: a 404 reads as the "deleted" rule status. */
  function DeleteRefresh(reply: Reply<SecurityGroupRule>): Refreshed {
    match reply
    case Replied(rule) => Observed(rule.status)
    case Errored(e) => if IsNotFound(e) then Observed(RuleStatusDeleted) else RefreshFailed(e)
  }

  // ---------------------------------------------------------------- specification

  /** Read: GET the rule and store its source; a failed GET goes to CheckDeleted. */
  function ReadEffect(answer: nat -> Reply<SecurityGroupRule>, n0: nat, id: string, attrs: map<string, Value>): RuleEffect {
    var url := RuleUrl(StringAt(attrs, ClusterIdKey), StringAt(attrs, SecurityGroupIdKey), id);
    var sent := [Request(Get, url, None)];
    match answer(n0)
    case Replied(rule) => Effect(Done, sent, id, attrs[SourceKey := Str(rule.source)])
    case Errored(e) => Effect(CheckDeleted(url, e), sent, id, attrs)
  }

  /** The POST a create sends, again on every busy reply. */
  function CreateRequest(attrs: map<string, Value>): Request<SecurityGroupRuleCreateUpdateOpts> {
    var url := RuleCollectionUrl(StringAt(attrs, ClusterIdKey), StringAt(attrs, SecurityGroupIdKey));
    Request(Post, url, Some(SecurityGroupRuleCreateUpdateOpts(StringAt(attrs, SourceKey))))
  }

  /** Create: retried POST; poll the new rule until "created"; register its id; read back. */
  function CreateEffect(answer: nat -> Reply<SecurityGroupRule>, n0: nat, id: string, attrs: map<string, Value>, b: Budget): RuleEffect {
    var post := CreateRequest(attrs);
    var (r, n1) := RetryRun(answer, n0, b.retries, Verdict(post.url));
    var tried := Repeat(post, n1);
    if r.Err? then Effect(Failed(Wrapped(CreateRetryFailed, r.error)), tried, id, attrs)
    else
      var getUrl := RuleUrl(StringAt(attrs, ClusterIdKey), StringAt(attrs, SecurityGroupIdKey), r.value.id);
      var (w, n2) := WaitRun(answer, n0 + n1, CreateRefresh, CreateConf, b);
      var polled := tried + Repeat(Request(Get, getUrl, None), n2);
      if w.Err? then Effect(Failed(Wrapped(CreatePollFailed, w.error)), polled, id, attrs)
      else After(polled, ReadEffect(answer, n0 + n1 + n2, r.value.id, attrs))
  }

  /** Delete: retried DELETE; poll until "deleted" (or 404); clear the id. */
  function DeleteEffect(answer: nat -> Reply<SecurityGroupRule>, n0: nat, id: string, attrs: map<string, Value>, b: Budget): RuleEffect {
    var url := RuleUrl(StringAt(attrs, ClusterIdKey), StringAt(attrs, SecurityGroupIdKey), id);
    var (r, n1) := RetryRun(answer, n0, b.retries, Verdict(url));
    var tried := Repeat(Request(Verb.Delete, url, None), n1);
    if r.Err? then Effect(Failed(Wrapped(DeleteRetryFailed, r.error)), tried, id, attrs)
    else
      var (w, n2) := WaitRun(answer, n0 + n1, DeleteRefresh, DeleteConf, b);
      var polled := tried + Repeat(Request(Get, url, None), n2);
      if w.Err? then Effect(Failed(Wrapped(DeletePollFailed, w.error)), polled, id, attrs)
      else Effect(Done, polled, "", attrs)
  }

  /** Import: "cluster/group/rule", split into at most three parts. */
  function ImportEffect(id: string, attrs: map<string, Value>): RuleEffect {
    var parts := SplitN(id, '/', 3);
    if |parts| != 3 then Effect(Failed(BadImportId(ImportFormat)), [], id, attrs)
    else Effect(Done, [], parts[2], attrs[ClusterIdKey := Str(parts[0])][SecurityGroupIdKey := Str(parts[1])])
  }

  // ---------------------------------------------------------------- operations

  method Read(client: Remote, d: ResourceData) returns (out: Outcome)
    modifies client, d
    ensures var e := ReadEffect(client.answer, |old(client.log)|, old(d.id), old(d.attrs));
      out == e.outcome && client.log == old(client.log) + e.sent && d.id == e.id && d.attrs == e.attrs
  {
    var clusterId := d.GetString(ClusterIdKey);
    var securityGroupId := d.GetString(SecurityGroupIdKey);
    var url := RuleUrl(clusterId, securityGroupId, d.id);
    var reply := client.Call(Get, url, None);
    match reply
    case Errored(e) =>
      out := CheckDeleted(url, e);
    case Replied(resp) =>
      d.Set(SourceKey, Str(resp.source));
      out := Done;
  }

  method Create(client: Remote, d: ResourceData, b: Budget) returns (out: Outcome)
    modifies client, d
    ensures var e := CreateEffect(client.answer, |old(client.log)|, old(d.id), old(d.attrs), b);
      out == e.outcome && client.log == old(client.log) + e.sent && d.id == e.id && d.attrs == e.attrs
  {
    var sg := SecurityGroupRuleCreateUpdateOpts("").FromResource(d);
    var clusterId := d.GetString(ClusterIdKey);
    var securityGroupId := d.GetString(SecurityGroupIdKey);
    var url := RuleCollectionUrl(clusterId, securityGroupId);
    var r, n1 := Retry(client, Request(Post, url, Some(sg)), Verdict(url), b.retries);
    if r.Err? {
      return Failed(Wrapped(CreateRetryFailed, r.error));
    }
    var securityGroupRule := r.value;
    var getUrl := RuleUrl(clusterId, securityGroupId, securityGroupRule.id);
    var w, n2 := WaitForState(client, getUrl, CreateRefresh, CreateConf, b);
    if w.Err? {
      return Failed(Wrapped(CreatePollFailed, w.error));
    }
    d.SetId(securityGroupRule.id);
    ghost var before := client.log;
    out := Read(client, d);
    assert client.log == old(client.log) + (Repeat(Request(Post, url, Some(sg)), n1) + Repeat(Request(Get, getUrl, None), n2) + (client.log[|before|..]));
  }

  method Delete(client: Remote, d: ResourceData, b: Budget) returns (out: Outcome)
    modifies client, d
    ensures var e := DeleteEffect(client.answer, |old(client.log)|, old(d.id), old(d.attrs), b);
      out == e.outcome && client.log == old(client.log) + e.sent && d.id == e.id && d.attrs == e.attrs
  {
    var clusterId := d.GetString(ClusterIdKey);
    var securityGroupId := d.GetString(SecurityGroupIdKey);
    var url := RuleUrl(clusterId, securityGroupId, d.id);
    var r, n1 := Retry(client, Request(Verb.Delete, url, None), Verdict(url), b.retries);
    if r.Err? {
      return Failed(Wrapped(DeleteRetryFailed, r.error));
    }
    var getUrl := RuleUrl(clusterId, securityGroupId, d.id);
    var w, n2 := WaitForState(client, getUrl, DeleteRefresh, DeleteConf, b);
    if w.Err? {
      return Failed(Wrapped(DeletePollFailed, w.error));
    }
    d.SetId("");
    out := Done;
  }

  method ImportState(d: ResourceData) returns (r: Result<seq<ResourceData>>)
    modifies d
    ensures var e := ImportEffect(old(d.id), old(d.attrs));
      d.id == e.id && d.attrs == e.attrs
      && r == (if e.outcome.Failed? then Err(e.outcome.error) else Ok([d]))
  {
    var splitId := SplitN(d.id, '/', 3);
    if |splitId| != 3 {
      return Err(BadImportId(ImportFormat));
    }
    d.Set(ClusterIdKey, Str(splitId[0]));
    d.Set(SecurityGroupIdKey, Str(splitId[1]));
    d.SetId(splitId[2]);
    r := Ok([d]);
  }

  // ---------------------------------------------------------------- properties

  /** "a/b/c" imports cluster a, group b and rule c; the rule part keeps any
      further slashes, since the split stops after three parts. */
  lemma ImportSplitsThreeParts(a: string, b: string, c: string, attrs: map<string, Value>)
    requires '/' !in a && '/' !in b
    ensures ImportEffect(a + "/" + b + "/" + c, attrs)
      == Effect(Done, [], c, attrs[ClusterIdKey := Str(a)][SecurityGroupIdKey := Str(b)])
  {
    var parts := [a, b, c];
    assert Join(parts, '/') == a + "/" + b + "/" + c by {
      assert parts[1..] == [b, c];
      assert [b, c][1..] == [c];
      assert Join([c], '/') == c;
      assert Join([b, c], '/') == b + "/" + c;
      assert Join(parts, '/') == a + "/" + (b + "/" + c);
    }
    SplitNOfJoin(parts, '/');
  }

  /** An import id is refused exactly when it has fewer than two slashes;
      a refused import leaves the state record as it was. */
  lemma ImportRejectedIff(id: string, attrs: map<string, Value>)
    ensures ImportEffect(id, attrs).outcome.Failed? <==> Count(id, '/') < 2
    ensures ImportEffect(id, attrs).outcome.Failed? ==>
      ImportEffect(id, attrs) == Effect(Failed(BadImportId(ImportFormat)), [], id, attrs)
  {
    SplitNLength(id, '/', 3);
  }

  /** An accepted import loses nothing: cluster, group and rule id joined
      by slashes give back the import id. */
  lemma ImportRoundTrip(id: string, attrs: map<string, Value>)
    requires ImportEffect(id, attrs).outcome == Done
    ensures var e := ImportEffect(id, attrs);
      Join([StringAt(e.attrs, ClusterIdKey), StringAt(e.attrs, SecurityGroupIdKey), e.id], '/') == id
  {
    SplitNJoin(id, '/', 3);
    StoredPartsRejoin(SplitN(id, '/', 3), attrs);
  }

  /** Storing the first two of three pieces under the cluster and group keys
      and reading them back gives the pieces again. */
  lemma StoredPartsRejoin(parts: seq<string>, attrs: map<string, Value>)
    requires |parts| == 3
    ensures var a := attrs[ClusterIdKey := Str(parts[0])][SecurityGroupIdKey := Str(parts[1])];
      [StringAt(a, ClusterIdKey), StringAt(a, SecurityGroupIdKey), parts[2]] == parts
  {
    assert ClusterIdKey != SecurityGroupIdKey;
  }

  /** A create that fails registers no id and changes no attribute; one
      that does not fail has seen the POST accepted and the rule "created",
      registers the id of the POST's reply, polls the rule collection URL
      extended with that id, and ends with the read-back GET of that rule. */
  lemma CreateOutcome(answer: nat -> Reply<SecurityGroupRule>, n0: nat, id: string, attrs: map<string, Value>, b: Budget)
    ensures var e := CreateEffect(answer, n0, id, attrs, b);
      e.outcome.Failed? ==> e.id == id && e.attrs == attrs
    ensures var e := CreateEffect(answer, n0, id, attrs, b);
      var (r, n1) := RetryRun(answer, n0, b.retries, Verdict(CreateRequest(attrs).url));
      !e.outcome.Failed? ==>
        && r.Ok? && e.id == r.value.id
        && WaitRun(answer, n0 + n1, CreateRefresh, CreateConf, b).0 == Ok(RuleStatusCreated)
        && |e.sent| >= 2
        && (var n2 := WaitRun(answer, n0 + n1, CreateRefresh, CreateConf, b).1;
            && n1 + n2 <= |e.sent|
            && e.sent[..n1] == Repeat(CreateRequest(attrs), n1)
            && e.sent[n1..n1 + n2]
               == Repeat(Request(Get, RuleUrl(StringAt(attrs, ClusterIdKey), StringAt(attrs, SecurityGroupIdKey), r.value.id), None), n2))
        && e.sent[|e.sent| - 1]
           == Request(Get, RuleUrl(StringAt(attrs, ClusterIdKey), StringAt(attrs, SecurityGroupIdKey), r.value.id), None)
  {
    var (r, n1) := RetryRun(answer, n0, b.retries, Verdict(CreateRequest(attrs).url));
    WaitOutcome(answer, n0 + n1, CreateRefresh, CreateConf, b);
  }

  /** A delete that succeeds clears the id; one that fails leaves the state
      record as it was. Delete never defers to CheckDeleted. */
  lemma DeleteOutcome(answer: nat -> Reply<SecurityGroupRule>, n0: nat, id: string, attrs: map<string, Value>, b: Budget)
    ensures var e := DeleteEffect(answer, n0, id, attrs, b);
      && !e.outcome.CheckDeleted?
      && e.attrs == attrs
      && (e.outcome == Done ==> e.id == "")
      && (e.outcome.Failed? ==> e.id == id)
  {
  }

  /** The delete poll ends successfully at the first 404, after any number
      of polls that saw the rule still "deleting". */
  lemma DeletePollEndsOnNotFound(answer: nat -> Reply<SecurityGroupRule>, start: nat, b: Budget, stop: nat)
    requires start <= stop < start + b.polls
    requires forall k :: start <= k < stop ==> answer(k).Replied? && answer(k).body.status == RuleStatusDeleting
    requires answer(stop).Errored? && IsNotFound(answer(stop).err)
    ensures WaitRun(answer, start, DeleteRefresh, DeleteConf, b) == (Ok(RuleStatusDeleted), stop - start + 1)
  {
    DeletionStatusesAgree();
    forall k | start <= k < stop
      ensures StillPending(answer, DeleteRefresh, DeleteConf, k)
    {
    }
    WaitReachesTarget(answer, start, DeleteRefresh, DeleteConf, b, stop);
  }

  /** The delete poll fails with the GET's error at the first error that is
      not a 404, after any number of polls that saw the rule still "deleting". */
  lemma DeletePollOtherErrorFails(answer: nat -> Reply<SecurityGroupRule>, start: nat, b: Budget, stop: nat)
    requires start <= stop < start + b.polls
    requires forall k :: start <= k < stop ==> answer(k).Replied? && answer(k).body.status == RuleStatusDeleting
    requires answer(stop).Errored? && !IsNotFound(answer(stop).err)
    ensures WaitRun(answer, start, DeleteRefresh, DeleteConf, b) == (Err(Remote(answer(stop).err)), stop - start + 1)
  {
    DeletionStatusesAgree();
    forall k | start <= k < stop
      ensures StillPending(answer, DeleteRefresh, DeleteConf, k)
    {
    }
    assert DeleteRefresh(answer(stop)) == RefreshFailed(answer(stop).err);
    WaitFailsOnRefreshError(answer, start, DeleteRefresh, DeleteConf, b, stop);
  }

  /** Read stores the rule's source and touches no other attribute and not
      the id; a failed GET defers to CheckDeleted with the rule's URL. */
  lemma ReadChangesOnlySource(answer: nat -> Reply<SecurityGroupRule>, n0: nat, id: string, attrs: map<string, Value>)
    ensures var e := ReadEffect(answer, n0, id, attrs);
      && e.id == id
      && (forall k :: k != SourceKey ==> (k in e.attrs <==> k in attrs))
      && (forall k :: k != SourceKey && k in attrs ==> e.attrs[k] == attrs[k])
      && (e.outcome == Done <==> answer(n0).Replied?)
      && (e.outcome == Done ==> StringAt(e.attrs, SourceKey) == answer(n0).body.source)
      && (e.outcome != Done ==> e.attrs == attrs)
      && (e.outcome != Done ==>
            e.outcome == CheckDeleted(RuleUrl(StringAt(attrs, ClusterIdKey), StringAt(attrs, SecurityGroupIdKey), id), answer(n0).err))
  {
  }

  /** A create against a remote that is busy once, accepts the POST, reports
      "creating" once and then "created", and answers the read-back: the id
      is the one the POST returned, the source the one read back, after two
      POSTs and three GETs. */
  lemma CreateAfterBusyRemote(attrs: map<string, Value>, b: Budget)
    requires b.retries >= 2 && b.polls >= 2
    ensures var rule := SecurityGroupRule("r1", "10.0.0.0/24", RuleStatusCreating, "t1");
      var answer := (k: nat) =>
        if k == 0 then Errored(ApiError(403, "q0", "busy"))
        else if k == 1 || k == 2 then Replied(rule)
        else if k == 3 then Replied(rule.(status := RuleStatusCreated))
        else Replied(rule.(status := RuleStatusCreated, source := "10.0.1.0/24"));
      var e := CreateEffect(answer, 0, "", attrs, b);
      e.outcome == Done && e.id == "r1" && StringAt(e.attrs, SourceKey) == "10.0.1.0/24" && |e.sent| == 5
  {
    var rule := SecurityGroupRule("r1", "10.0.0.0/24", RuleStatusCreating, "t1");
    var answer := (k: nat) =>
      if k == 0 then Errored(ApiError(403, "q0", "busy"))
      else if k == 1 || k == 2 then Replied(rule)
      else if k == 3 then Replied(rule.(status := RuleStatusCreated))
      else Replied(rule.(status := RuleStatusCreated, source := "10.0.1.0/24"));
    var url := CreateRequest(attrs).url;
    FirstNonBusyDecides(answer, 0, b.retries, url, 1);
    WaitReachesTarget(answer, 2, CreateRefresh, CreateConf, b, 3);
  }
}
