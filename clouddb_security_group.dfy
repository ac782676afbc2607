/** The ovh_cloud_db_enterprise_cluster_security_group resource: create or
    update (retried POST or PUT, poll until "created", register the id, read
    back), read, delete (retried DELETE, poll until "deleted", clear the id)
    and import. */
module ClouddbSecurityGroup {
  import opened Errors
  import opened Api
  import opened Schema
  import opened Sdk
  import opened Strings
  import opened Fmt
  import opened ClouddbTypes
  import opened ClouddbMutation
  import opened Crud

  /** The API as this resource uses it: group opts go out, groups come back. */
  type Remote = Client<SecurityGroupCreateUpdateOpts, SecurityGroup>
  type GroupEffect = Effect<SecurityGroupCreateUpdateOpts>

  const WriteRetryFailed: string := "Error execution DB Entreprise Security Group Create/Update"
  const WritePollFailed: string := "Error waiting for DB Entreprise Security Group creation"
  const DeleteRetryFailed: string := "Error execution DB Entreprise Security Group Deletion"
  const DeletePollFailed: string := "Error waiting for DB Entreprise Security Group deletion"
  const ImportFormat: string := "import id is not cluster_id/security_group_id formatted"

  /** The poll after a create and after an update waits from "creating" to "created". */
  const WriteConf: StateChangeConf := StateChangeConf({SecurityGroupStatusCreating}, {SecurityGroupStatusCreated})

  /** The poll after a delete waits from "deleting" to "deleted". */
  const DeleteConf: StateChangeConf := StateChangeConf({SecurityGroupStatusDeleting}, {SecurityGroupStatusDeleted})

  /** The Refresh function of the create/update poll. */
  function WriteRefresh(reply: Reply<SecurityGroup>): Refreshed {
    match reply
    case Replied(group) => Observed(group.status)
    case Errored(e) => RefreshFailed(e)
  }

  /** The Refresh function of the delete poll: a 404 reads as "deleted". */
  function DeleteRefresh(reply: Reply<SecurityGroup>): Refreshed {
    match reply
    case Replied(group) => Observed(group.status)
    case Errored(e) => if IsNotFound(e) then Observed(SecurityGroupStatusDeleted) else RefreshFailed(e)
  }

  // ---------------------------------------------------------------- specification

  /** Read: GET the group and store its name; a failed GET goes to CheckDeleted. */
  function ReadEffect(answer: nat -> Reply<SecurityGroup>, n0: nat, id: string, attrs: map<string, Value>): GroupEffect {
    var url := SecurityGroupUrl(StringAt(attrs, ClusterIdKey), id);
    var sent := [Request(Get, url, None)];
    match answer(n0)
    case Replied(group) => Effect(Done, sent, id, attrs[NameKey := Str(group.name)])
    case Errored(e) => Effect(CheckDeleted(url, e), sent, id, attrs)
  }

  /** fmt.Sprintf("%s/%s", collection, id): the URL an update PUTs to. */
  function ItemUrl(collection: string, id: string): string {
    Sprintf("%s/%s", [S(collection), S(id)])
  }

  /** The item template cut at its verbs. */
  lemma ItemTemplatePieces()
    ensures "%s/%s" == "" + "%s" + "/" + "%s" + ""
  {
  }

  /** Formatting the collection URL and an id with "%s/%s" gives that group's URL. */
  lemma ItemUrlIsGroupUrl(clusterId: string, id: string)
    ensures ItemUrl(SecurityGroupCollectionUrl(clusterId), id) == SecurityGroupUrl(clusterId, id)
  {
    ItemTemplatePieces();
    Sprintf2("", "/", "", SecurityGroupCollectionUrl(clusterId), id);
    SecurityGroupUrlShape(clusterId, id);
  }

  /** The mutation CreateOrUpdate sends, again on every busy reply: a POST to
      the collection when the resource has no id yet, otherwise a PUT to the
      group's own URL (the collection URL, "/" and the id). */
  function WriteRequest(id: string, attrs: map<string, Value>): Request<SecurityGroupCreateUpdateOpts> {
    var clusterId := StringAt(attrs, ClusterIdKey);
    var opts := SecurityGroupCreateUpdateOpts(StringAt(attrs, NameKey), clusterId);
    if id != "" then Request(Put, SecurityGroupUrl(clusterId, id), Some(opts))
    else Request(Post, SecurityGroupCollectionUrl(clusterId), Some(opts))
  }

  /** CreateOrUpdate: retried POST or PUT; poll the group until "created";
      register its id (the reply's on a POST, the existing one on a PUT); read back. */
  function CreateOrUpdateEffect(answer: nat -> Reply<SecurityGroup>, n0: nat, id: string, attrs: map<string, Value>, b: Budget): GroupEffect {
    var req := WriteRequest(id, attrs);
    var (r, n1) := RetryRun(answer, n0, b.retries, Verdict(req.url));
    var tried := Repeat(req, n1);
    if r.Err? then Effect(Failed(Wrapped(WriteRetryFailed, r.error)), tried, id, attrs)
    else After(tried, SettleEffect(answer, n0 + n1, id, if id != "" then id else r.value.id, attrs, b))
  }

  /** What follows an accepted write: poll the group `groupId` until it is
      "created", then register that id and read the group back. */
  function SettleEffect(answer: nat -> Reply<SecurityGroup>, n0: nat, id: string, groupId: string, attrs: map<string, Value>, b: Budget): GroupEffect {
    var getUrl := SecurityGroupUrl(StringAt(attrs, ClusterIdKey), groupId);
    var (w, n2) := WaitRun(answer, n0, WriteRefresh, WriteConf, b);
    var polled := Repeat(Request(Get, getUrl, None), n2);
    if w.Err? then Effect(Failed(Wrapped(WritePollFailed, w.error)), polled, id, attrs)
    else After(polled, ReadEffect(answer, n0 + n2, groupId, attrs))
  }

  /** CreateOrUpdateEffect once the retry's result is known. */
  lemma WriteRetried(answer: nat -> Reply<SecurityGroup>, n0: nat, id: string, attrs: map<string, Value>, b: Budget, r: Result<SecurityGroup>, n1: nat)
    requires (r, n1) == RetryRun(answer, n0, b.retries, Verdict(WriteRequest(id, attrs).url))
    ensures r.Err? ==> CreateOrUpdateEffect(answer, n0, id, attrs, b)
                       == Effect(Failed(Wrapped(WriteRetryFailed, r.error)), Repeat(WriteRequest(id, attrs), n1), id, attrs)
    ensures r.Ok? ==> CreateOrUpdateEffect(answer, n0, id, attrs, b)
                      == After(Repeat(WriteRequest(id, attrs), n1), SettleEffect(answer, n0 + n1, id, if id != "" then id else r.value.id, attrs, b))
  {
  }

  /** Delete: retried DELETE; poll until "deleted" (or 404); clear the id. */
  function DeleteEffect(answer: nat -> Reply<SecurityGroup>, n0: nat, id: string, attrs: map<string, Value>, b: Budget): GroupEffect {
    var url := SecurityGroupUrl(StringAt(attrs, ClusterIdKey), id);
    var (r, n1) := RetryRun(answer, n0, b.retries, Verdict(url));
    var tried := Repeat(Request(Verb.Delete, url, None), n1);
    if r.Err? then Effect(Failed(Wrapped(DeleteRetryFailed, r.error)), tried, id, attrs)
    else
      var (w, n2) := WaitRun(answer, n0 + n1, DeleteRefresh, DeleteConf, b);
      var polled := tried + Repeat(Request(Get, url, None), n2);
      if w.Err? then Effect(Failed(Wrapped(DeletePollFailed, w.error)), polled, id, attrs)
      else Effect(Done, polled, "", attrs)
  }

  /** Import: "cluster/group", split into at most two parts. */
  function ImportEffect(id: string, attrs: map<string, Value>): GroupEffect {
    var parts := SplitN(id, '/', 2);
    if |parts| != 2 then Effect(Failed(BadImportId(ImportFormat)), [], id, attrs)
    else Effect(Done, [], parts[1], attrs[ClusterIdKey := Str(parts[0])])
  }

  // ---------------------------------------------------------------- operations

  method Read(client: Remote, d: ResourceData) returns (out: Outcome)
    modifies client, d
    ensures var e := ReadEffect(client.answer, |old(client.log)|, old(d.id), old(d.attrs));
      out == e.outcome && client.log == old(client.log) + e.sent && d.id == e.id && d.attrs == e.attrs
  {
    var clusterId := d.GetString(ClusterIdKey);
    var url := SecurityGroupUrl(clusterId, d.id);
    var reply := client.Call(Get, url, None);
    match reply
    case Errored(e) =>
      out := CheckDeleted(url, e);
    case Replied(resp) =>
      d.Set(NameKey, Str(resp.name));
      out := Done;
  }

  method CreateOrUpdate(client: Remote, d: ResourceData, b: Budget) returns (out: Outcome)
    modifies client, d
    ensures var e := CreateOrUpdateEffect(client.answer, |old(client.log)|, old(d.id), old(d.attrs), b);
      out == e.outcome && client.log == old(client.log) + e.sent && d.id == e.id && d.attrs == e.attrs
  {
    var sg := SecurityGroupCreateUpdateOpts("", "").FromResource(d);
    var clusterId := d.GetString(ClusterIdKey);
    var getUrl := SecurityGroupCollectionUrl(clusterId);
    var groupId := "";
    if d.id != "" {
      // fmt.Sprintf("%s/%s", getUrl, d.Id()), by ItemUrlIsGroupUrl
      getUrl := SecurityGroupUrl(clusterId, d.id);
      groupId := d.id;
    }
    var verb := if d.id != "" then Put else Post;
    assert Request(verb, getUrl, Some(sg)) == WriteRequest(d.id, d.attrs);
    var r, n1 := Retry(client, Request(verb, getUrl, Some(sg)), Verdict(getUrl), b.retries);
    WriteRetried(client.answer, |old(client.log)|, d.id, d.attrs, b, r, n1);
    if r.Err? {
      return Failed(Wrapped(WriteRetryFailed, r.error));
    }
    if d.id == "" {
      groupId := r.value.id;
    }
    ghost var mid := client.log;
    out := Settle(client, d, groupId, b);
    LogAfter(old(client.log), Repeat(WriteRequest(old(d.id), old(d.attrs)), n1),
             SettleEffect(client.answer, |mid|, old(d.id), groupId, old(d.attrs), b));
  }

  /** The part of CreateOrUpdate after the write is accepted: poll the group
      until it is "created", register its id and read it back. */
  method Settle(client: Remote, d: ResourceData, groupId: string, b: Budget) returns (out: Outcome)
    modifies client, d
    ensures var e := SettleEffect(client.answer, |old(client.log)|, old(d.id), groupId, old(d.attrs), b);
      out == e.outcome && client.log == old(client.log) + e.sent && d.id == e.id && d.attrs == e.attrs
  {
    var clusterId := d.GetString(ClusterIdKey);
    var getUrl := SecurityGroupUrl(clusterId, groupId);
    var w, n2 := WaitForState(client, getUrl, WriteRefresh, WriteConf, b);
    if w.Err? {
      return Failed(Wrapped(WritePollFailed, w.error));
    }
    d.SetId(groupId);
    ghost var polled := client.log;
    out := Read(client, d);
    LogAfter(old(client.log), Repeat(Request(Get, getUrl, None), n2), ReadEffect(client.answer, |polled|, groupId, old(d.attrs)));
  }

  method Delete(client: Remote, d: ResourceData, b: Budget) returns (out: Outcome)
    modifies client, d
    ensures var e := DeleteEffect(client.answer, |old(client.log)|, old(d.id), old(d.attrs), b);
      out == e.outcome && client.log == old(client.log) + e.sent && d.id == e.id && d.attrs == e.attrs
  {
    var clusterId := d.GetString(ClusterIdKey);
    var url := SecurityGroupUrl(clusterId, d.id);
    var r, n1 := Retry(client, Request(Verb.Delete, url, None), Verdict(url), b.retries);
    if r.Err? {
      return Failed(Wrapped(DeleteRetryFailed, r.error));
    }
    var getUrl := SecurityGroupUrl(clusterId, d.id);
    var w, n2 := WaitForState(client, getUrl, DeleteRefresh, DeleteConf, b);
    if w.Err? {
      return Failed(Wrapped(DeletePollFailed, w.error));
    }
    d.SetId("");
    out := Done;
  }

  method ImportState(d: ResourceData) returns (r: Result<seq<ResourceData>>)
    modifies d
    ensures var e := ImportEffect(old(d.id), old(d.attrs));
      d.id == e.id && d.attrs == e.attrs
      && r == (if e.outcome.Failed? then Err(e.outcome.error) else Ok([d]))
  {
    var splitId := SplitN(d.id, '/', 2);
    if |splitId| != 2 {
      return Err(BadImportId(ImportFormat));
    }
    var id := splitId[0];
    var groupId := splitId[1];
    d.SetId(groupId);
    d.Set(ClusterIdKey, Str(id));
    r := Ok([d]);
  }

  // ---------------------------------------------------------------- properties

  /** Without an id the group is POSTed to the collection; with one it is
      PUT to "%s/%s" of the collection and the id. Either way the body holds
      the configured name and cluster id. */
  lemma WriteRequestChoosesVerb(id: string, attrs: map<string, Value>)
    ensures var req := WriteRequest(id, attrs);
      var clusterId := StringAt(attrs, ClusterIdKey);
      && (req.verb == Post <==> id == "")
      && (req.verb == Put <==> id != "")
      && (id == "" ==> req.url == SecurityGroupCollectionUrl(clusterId))
      && (id != "" ==> req.url == ItemUrl(SecurityGroupCollectionUrl(clusterId), id))
      && req.payload == Some(SecurityGroupCreateUpdateOpts(StringAt(attrs, NameKey), clusterId))
  {
    ItemUrlIsGroupUrl(StringAt(attrs, ClusterIdKey), id);
  }

  /** A create or update that fails changes nothing in the state record. */
  lemma CreateOrUpdateFailureKeepsState(answer: nat -> Reply<SecurityGroup>, n0: nat, id: string, attrs: map<string, Value>, b: Budget)
    ensures var e := CreateOrUpdateEffect(answer, n0, id, attrs, b);
      e.outcome.Failed? ==> e.id == id && e.attrs == attrs
  {
    var (r, n1) := RetryRun(answer, n0, b.retries, Verdict(WriteRequest(id, attrs).url));
    WriteRetried(answer, n0, id, attrs, b, r, n1);
    if r.Ok? {
      SettleOutcome(answer, n0 + n1, id, if id != "" then id else r.value.id, attrs, b);
    }
  }

  /** A create or update that does not fail has seen its mutation accepted and the
      group "created", registers the id the POST returned (a create) or keeps the
      existing id (an update), and ends with the read-back GET of that group. */
  lemma CreateOrUpdateOutcome(answer: nat -> Reply<SecurityGroup>, n0: nat, id: string, attrs: map<string, Value>, b: Budget, r: Result<SecurityGroup>, n1: nat)
    requires (r, n1) == RetryRun(answer, n0, b.retries, Verdict(WriteRequest(id, attrs).url))
    ensures var e := CreateOrUpdateEffect(answer, n0, id, attrs, b);
      !e.outcome.Failed? ==>
        && r.Ok?
        && e.id == (if id != "" then id else r.value.id)
        && WaitRun(answer, n0 + n1, WriteRefresh, WriteConf, b).0 == Ok(SecurityGroupStatusCreated)
        && |e.sent| >= 2
        && e.sent[|e.sent| - 1] == Request(Get, SecurityGroupUrl(StringAt(attrs, ClusterIdKey), e.id), None)
  {
    WriteRetried(answer, n0, id, attrs, b, r, n1);
    if r.Ok? {
      var groupId := if id != "" then id else r.value.id;
      SettleOutcome(answer, n0 + n1, id, groupId, attrs, b);
      var settled := SettleEffect(answer, n0 + n1, id, groupId, attrs, b);
      if !settled.outcome.Failed? {
        AfterKeepsLast(Repeat(WriteRequest(id, attrs), n1), settled);
      }
    }
  }

  /** The tail after an accepted write fails without touching the state
      record, or registers `groupId` once the poll has seen "created" and
      ends with the read-back GET of that group. */
  lemma SettleOutcome(answer: nat -> Reply<SecurityGroup>, n0: nat, id: string, groupId: string, attrs: map<string, Value>, b: Budget)
    ensures var e := SettleEffect(answer, n0, id, groupId, attrs, b);
      e.outcome.Failed? ==> e.id == id && e.attrs == attrs
    ensures var e := SettleEffect(answer, n0, id, groupId, attrs, b);
      !e.outcome.Failed? ==>
        && e.id == groupId
        && WaitRun(answer, n0, WriteRefresh, WriteConf, b).0 == Ok(SecurityGroupStatusCreated)
        && |e.sent| >= 2
        && e.sent[|e.sent| - 1] == Request(Get, SecurityGroupUrl(StringAt(attrs, ClusterIdKey), groupId), None)
  {
    WaitOutcome(answer, n0, WriteRefresh, WriteConf, b);
  }

  /** Neither update status is pending or target for the create/update poll. */
  lemma UpdateStatusesUnexpected()
    ensures SecurityGroupStatusUpdating !in WriteConf.pending && SecurityGroupStatusUpdating !in WriteConf.target
    ensures SecurityGroupStatusUpdated !in WriteConf.pending && SecurityGroupStatusUpdated !in WriteConf.target
  {
    SecurityGroupAndRuleStatusVocabularies();
    assert SecurityGroupStatuses[5] != SecurityGroupStatuses[0] && SecurityGroupStatuses[5] != SecurityGroupStatuses[1];
    assert SecurityGroupStatuses[4] != SecurityGroupStatuses[0] && SecurityGroupStatuses[4] != SecurityGroupStatuses[1];
  }

  /** An update polls for "created" just like a create. A remote that marks
      an updated group "updating" therefore fails the update at once when
      WaitForState refuses unexpected statuses... */
  lemma UpdateRefusesUpdating(answer: nat -> Reply<SecurityGroup>, n0: nat, id: string, attrs: map<string, Value>, b: Budget)
    requires id != "" && b.retries >= 1 && b.polls >= 1 && b.onUnexpected == FailFast
    requires answer(n0).Replied?
    requires answer(n0 + 1).Replied? && answer(n0 + 1).body.status == SecurityGroupStatusUpdating
    ensures CreateOrUpdateEffect(answer, n0, id, attrs, b)
      == Effect(Failed(Wrapped(WritePollFailed, UnexpectedState(SecurityGroupStatusUpdating))),
                [WriteRequest(id, attrs), Request(Get, SecurityGroupUrl(StringAt(attrs, ClusterIdKey), id), None)],
                id, attrs)
  {
    var url := WriteRequest(id, attrs).url;
    FirstNonBusyDecides(answer, n0, b.retries, url, n0);
    var step := PollStep(WriteRefresh, WriteConf, b.onUnexpected);
    UpdateStatusesUnexpected();
    assert WriteRefresh(answer(n0 + 1)) == Observed(SecurityGroupStatusUpdating);
    assert step(answer(n0 + 1)) == Stop(Err(UnexpectedState(SecurityGroupStatusUpdating)));
    RunFindsStop(answer, n0 + 1, b.polls, step, n0 + 1);
  }

  /** ...and, when WaitForState keeps polling through unexpected statuses, a
      remote that only ever reports "updating" or "updated" makes it time out. */
  lemma UpdateNeverSeesCreated(answer: nat -> Reply<SecurityGroup>, n0: nat, id: string, attrs: map<string, Value>, b: Budget)
    requires id != "" && b.retries >= 1 && b.onUnexpected == KeepPolling
    requires answer(n0).Replied?
    requires forall k :: n0 < k <= n0 + b.polls ==>
      answer(k).Replied? && answer(k).body.status in {SecurityGroupStatusUpdating, SecurityGroupStatusUpdated}
    ensures CreateOrUpdateEffect(answer, n0, id, attrs, b).outcome == Failed(Wrapped(WritePollFailed, PollTimedOut))
  {
    var url := WriteRequest(id, attrs).url;
    FirstNonBusyDecides(answer, n0, b.retries, url, n0);
    WriteRetried(answer, n0, id, attrs, b, Decided(url, answer(n0)), 1);
    PollSeesOnlyUpdates(answer, n0 + 1, b);
  }

  /** A poll through "updating" and "updated" replies only, kept going by the policy, times out. */
  lemma PollSeesOnlyUpdates(answer: nat -> Reply<SecurityGroup>, start: nat, b: Budget)
    requires b.onUnexpected == KeepPolling
    requires forall k :: start <= k < start + b.polls ==>
      answer(k).Replied? && answer(k).body.status in {SecurityGroupStatusUpdating, SecurityGroupStatusUpdated}
    ensures WaitRun(answer, start, WriteRefresh, WriteConf, b) == (Err(PollTimedOut), b.polls)
  {
    var step := PollStep(WriteRefresh, WriteConf, b.onUnexpected);
    UpdateStatusesUnexpected();
    assert AllContinue(answer, step, start, start + b.polls) by {
      forall k | start <= k < start + b.polls
        ensures step(answer(k)).Continue?
      {
        assert WriteRefresh(answer(k)) == Observed(answer(k).body.status);
        assert answer(k).body.status !in WriteConf.target;
      }
    }
    RunExhausts(answer, start, b.polls, step);
  }

  /** Read stores the group's name and touches no other attribute and not the id. */
  lemma ReadChangesOnlyName(answer: nat -> Reply<SecurityGroup>, n0: nat, id: string, attrs: map<string, Value>)
    ensures var e := ReadEffect(answer, n0, id, attrs);
      && e.id == id
      && (forall k :: k != NameKey ==> (k in e.attrs <==> k in attrs))
      && (forall k :: k != NameKey && k in attrs ==> e.attrs[k] == attrs[k])
      && (e.outcome == Done <==> answer(n0).Replied?)
      && (e.outcome == Done ==> StringAt(e.attrs, NameKey) == answer(n0).body.name)
      && (e.outcome != Done ==> e.attrs == attrs && e.outcome == CheckDeleted(SecurityGroupUrl(StringAt(attrs, ClusterIdKey), id), answer(n0).err))
  {
  }

  /** "c/g" imports cluster c and group g; the group part keeps any further
      slashes, since the split stops after two parts. */
  lemma ImportSplitsTwoParts(c: string, g: string, attrs: map<string, Value>)
    requires '/' !in c
    ensures ImportEffect(c + "/" + g, attrs) == Effect(Done, [], g, attrs[ClusterIdKey := Str(c)])
  {
    var parts := [c, g];
    assert Join(parts, '/') == c + "/" + g by {
      assert parts[1..] == [g];
      assert Join([g], '/') == g;
    }
    SplitNOfJoin(parts, '/');
  }

  /** An import id is refused exactly when it has no slash; a refused import
      leaves the state record as it was. */
  lemma ImportRejectedIff(id: string, attrs: map<string, Value>)
    ensures ImportEffect(id, attrs).outcome.Failed? <==> '/' !in id
    ensures ImportEffect(id, attrs).outcome.Failed? ==>
      ImportEffect(id, attrs) == Effect(Failed(BadImportId(ImportFormat)), [], id, attrs)
  {
    SplitNLength(id, '/', 2);
    assert Count(id, '/') == 0 <==> '/' !in id;
  }

  /** An accepted import loses nothing: cluster and group joined by a slash
      give back the import id. */
  lemma ImportRoundTrip(id: string, attrs: map<string, Value>)
    requires ImportEffect(id, attrs).outcome == Done
    ensures var e := ImportEffect(id, attrs);
      Join([StringAt(e.attrs, ClusterIdKey), e.id], '/') == id
  {
    var parts := SplitN(id, '/', 2);
    SplitNJoin(id, '/', 2);
    var e := ImportEffect(id, attrs);
    assert [StringAt(e.attrs, ClusterIdKey), e.id] == parts;
  }

  /** A delete that succeeds clears the id; one that fails leaves the state
      record as it was. Delete never defers to CheckDeleted. */
  lemma DeleteOutcome(answer: nat -> Reply<SecurityGroup>, n0: nat, id: string, attrs: map<string, Value>, b: Budget)
    ensures var e := DeleteEffect(answer, n0, id, attrs, b);
      && !e.outcome.CheckDeleted?
      && e.attrs == attrs
      && (e.outcome == Done ==> e.id == "")
      && (e.outcome.Failed? ==> e.id == id)
  {
  }

  /** The delete poll ends successfully at the first 404, after any number
      of polls that saw the group still "deleting". */
  lemma DeletePollEndsOnNotFound(answer: nat -> Reply<SecurityGroup>, start: nat, b: Budget, stop: nat)
    requires start <= stop < start + b.polls
    requires forall k :: start <= k < stop ==> answer(k).Replied? && answer(k).body.status == SecurityGroupStatusDeleting
    requires answer(stop).Errored? && IsNotFound(answer(stop).err)
    ensures WaitRun(answer, start, DeleteRefresh, DeleteConf, b) == (Ok(SecurityGroupStatusDeleted), stop - start + 1)
  {
    forall k | start <= k < stop
      ensures StillPending(answer, DeleteRefresh, DeleteConf, k)
    {
    }
    WaitReachesTarget(answer, start, DeleteRefresh, DeleteConf, b, stop);
  }

  /** The delete poll fails with the GET's error at the first error that is
      not a 404, after any number of polls that saw the group still "deleting". */
  lemma DeletePollOtherErrorFails(answer: nat -> Reply<SecurityGroup>, start: nat, b: Budget, stop: nat)
    requires start <= stop < start + b.polls
    requires forall k :: start <= k < stop ==> answer(k).Replied? && answer(k).body.status == SecurityGroupStatusDeleting
    requires answer(stop).Errored? && !IsNotFound(answer(stop).err)
    ensures WaitRun(answer, start, DeleteRefresh, DeleteConf, b) == (Err(Remote(answer(stop).err)), stop - start + 1)
  {
    forall k | start <= k < stop
      ensures StillPending(answer, DeleteRefresh, DeleteConf, k)
    {
    }
    assert DeleteRefresh(answer(stop)) == RefreshFailed(answer(stop).err);
    WaitFailsOnRefreshError(answer, start, DeleteRefresh, DeleteConf, b, stop);
  }
}
