/** The ovh_me_installation_template_partition_scheme resource: a partition
    scheme of a personal installation template, addressed by the template
    name and the scheme name. url.PathEscape is the parameter `esc`. */
module PartitionScheme {
  import opened Errors
  import opened Api
  import opened Schema
  import opened Fmt
  import opened Crud

  /** The body of a scheme POST or PUT. */
  datatype PartitionSchemeCreateOrUpdateOpts = PartitionSchemeCreateOrUpdateOpts(name: string, priority: int)

  /** A scheme as the API returns it, seen through its ToMap rendering: the
      attributes it gives the state record. */
  datatype PartitionScheme = PartitionScheme(attributes: map<string, Value>)

  type Remote = Client<PartitionSchemeCreateOrUpdateOpts, PartitionScheme>
  type SchemeEffect = Effect<PartitionSchemeCreateOrUpdateOpts>

  const TemplateNameKey: string := "template_name"
  const NameKey: string := "name"

  /** The schemes of a template; the template name is not escaped here. */
  function CollectionUrl(templateName: string): string {
    Sprintf("/me/installationTemplate/%s/partitionScheme", [S(templateName)])
  }

  /** One scheme; both names are escaped. */
  function SchemeUrl(esc: string -> string, templateName: string, name: string): string {
    Sprintf("/me/installationTemplate/%s/partitionScheme/%s", [S(esc(templateName)), S(esc(name))])
  }

  /** The id Create registers before its read-back. */
  function CreatedId(templateName: string, name: string): string {
    Sprintf("%s/%s", [S(templateName), S(name)])
  }

  /** The id Read registers. */
  function ReadId(templateName: string, name: string): string {
    Sprintf("%s-%s", [S(templateName), S(name)])
  }

  /** The templates cut at their verbs. */
  lemma TemplatePieces()
    ensures "/me/installationTemplate/%s/partitionScheme" == "/me/installationTemplate/" + "%s" + "/partitionScheme"
    ensures "/me/installationTemplate/%s/partitionScheme/%s"
         == "/me/installationTemplate/" + "%s" + "/partitionScheme/" + "%s" + ""
    ensures "%s/%s" == "" + "%s" + "/" + "%s" + ""
    ensures "%s-%s" == "" + "%s" + "-" + "%s" + ""
  {
  }

  lemma CollectionUrlShape(templateName: string)
    ensures CollectionUrl(templateName) == "/me/installationTemplate/" + templateName + "/partitionScheme"
  {
    TemplatePieces();
    Sprintf1("/me/installationTemplate/", "/partitionScheme", templateName);
  }

  lemma SchemeUrlShape(esc: string -> string, templateName: string, name: string)
    ensures SchemeUrl(esc, templateName, name)
         == "/me/installationTemplate/" + esc(templateName) + "/partitionScheme/" + esc(name)
  {
    TemplatePieces();
    Sprintf2("/me/installationTemplate/", "/partitionScheme/", "", esc(templateName), esc(name));
  }

  /** The two ids join the template and scheme names with "/" and with "-". */
  lemma IdShapes(templateName: string, name: string)
    ensures CreatedId(templateName, name) == templateName + "/" + name
    ensures ReadId(templateName, name) == templateName + "-" + name
  {
    TemplatePieces();
    Sprintf2("", "/", "", templateName, name);
    Sprintf2("", "-", "", templateName, name);
  }

  // ---------------------------------------------------------------- specification

  /** Read: GET the scheme named by the configuration, store every attribute
      of its map, then register "template-name". */
  function ReadEffect(answer: nat -> Reply<PartitionScheme>, n0: nat, esc: string -> string, id: string, attrs: map<string, Value>): SchemeEffect {
    var templateName := StringAt(attrs, TemplateNameKey);
    var name := StringAt(attrs, NameKey);
    var url := SchemeUrl(esc, templateName, name);
    var sent := [Request(Get, url, None)];
    match answer(n0)
    case Errored(e) => Effect(Failed(Wrapped("Error calling " + url, Remote(e))), sent, id, attrs)
    case Replied(scheme) => Effect(Done, sent, ReadId(templateName, name), attrs + scheme.attributes)
  }

  /** Create: POST to the template's collection, register "template/name", read back. */
  function CreateEffect(answer: nat -> Reply<PartitionScheme>, n0: nat, esc: string -> string, id: string, attrs: map<string, Value>,
                        opts: PartitionSchemeCreateOrUpdateOpts): SchemeEffect {
    var templateName := StringAt(attrs, TemplateNameKey);
    var endpoint := CollectionUrl(templateName);
    var sent := [Request(Post, endpoint, Some(opts))];
    match answer(n0)
    case Errored(e) => Effect(Failed(Wrapped("Calling POST " + endpoint, Remote(e))), sent, id, attrs)
    case Replied(_) => After(sent, ReadEffect(answer, n0 + 1, esc, CreatedId(templateName, opts.name), attrs))
  }

  /** Update: PUT to the scheme named by the opts, read back. */
  function UpdateEffect(answer: nat -> Reply<PartitionScheme>, n0: nat, esc: string -> string, id: string, attrs: map<string, Value>,
                        opts: PartitionSchemeCreateOrUpdateOpts): SchemeEffect {
    var endpoint := SchemeUrl(esc, StringAt(attrs, TemplateNameKey), opts.name);
    var sent := [Request(Put, endpoint, Some(opts))];
    match answer(n0)
    case Errored(e) => Effect(Failed(Wrapped("Calling PUT " + endpoint, Remote(e))), sent, id, attrs)
    case Replied(_) => After(sent, ReadEffect(answer, n0 + 1, esc, id, attrs))
  }

  /** Delete: DELETE the scheme named by the stored name; the id stays. */
  function DeleteEffect(answer: nat -> Reply<PartitionScheme>, n0: nat, esc: string -> string, id: string, attrs: map<string, Value>): SchemeEffect {
    var endpoint := SchemeUrl(esc, StringAt(attrs, TemplateNameKey), StringAt(attrs, NameKey));
    var sent := [Request(Verb.Delete, endpoint, None)];
    match answer(n0)
    case Errored(e) => Effect(Failed(Wrapped("Calling DELETE " + endpoint, Remote(e))), sent, id, attrs)
    case Replied(_) => Effect(Done, sent, id, attrs)
  }

  // ---------------------------------------------------------------- operations

  /** getPartitionScheme */
  method GetPartitionScheme(client: Remote, esc: string -> string, template: string, scheme: string)
    returns (r: Result<PartitionScheme>)
    modifies client
    ensures var url := SchemeUrl(esc, template, scheme);
      && client.log == old(client.log) + [Request(Get, url, None)]
      && r == match client.answer(|old(client.log)|)
              case Replied(s) => Ok(s)
              case Errored(e) => Err(Wrapped("Error calling " + url, Remote(e)))
  {
    var endpoint := SchemeUrl(esc, template, scheme);
    var reply := client.Call(Get, endpoint, None);
    match reply
    case Errored(e) =>
      r := Err(Wrapped("Error calling " + endpoint, Remote(e)));
    case Replied(s) =>
      r := Ok(s);
  }

  method Read(client: Remote, d: ResourceData, esc: string -> string) returns (out: Outcome)
    modifies client, d
    ensures var e := ReadEffect(client.answer, |old(client.log)|, esc, old(d.id), old(d.attrs));
      out == e.outcome && client.log == old(client.log) + e.sent && d.id == e.id && d.attrs == e.attrs
  {
    var templateName := d.GetString(TemplateNameKey);
    var name := d.GetString(NameKey);
    var scheme := GetPartitionScheme(client, esc, templateName, name);
    if scheme.Err? {
      return Failed(scheme.error);
    }
    SetAttributes(d, scheme.value.attributes);
    d.SetId(ReadId(templateName, name));
    out := Done;
  }

  /** The loop of Read that sets every entry of the scheme's ToMap on the
      state record, one d.Set at a time, in no particular order. */
  method SetAttributes(d: ResourceData, m: map<string, Value>)
    modifies d
    ensures d.attrs == old(d.attrs) + m && d.id == old(d.id)
  {
    var remaining := m.Keys;
    while remaining != {}
      invariant remaining <= m.Keys
      invariant d.attrs == old(d.attrs) + (map k | k in m.Keys - remaining :: m[k])
      invariant d.id == old(d.id)
      decreases remaining
    {
      var k :| k in remaining;
      d.Set(k, m[k]);
      remaining := remaining - {k};
    }
    assert m.Keys - remaining == m.Keys;
    assert (map k | k in m.Keys :: m[k]) == m;
  }

  method Create(client: Remote, d: ResourceData, esc: string -> string, opts: PartitionSchemeCreateOrUpdateOpts) returns (out: Outcome)
    modifies client, d
    ensures var e := CreateEffect(client.answer, |old(client.log)|, esc, old(d.id), old(d.attrs), opts);
      out == e.outcome && client.log == old(client.log) + e.sent && d.id == e.id && d.attrs == e.attrs
  {
    var templateName := d.GetString(TemplateNameKey);
    var endpoint := CollectionUrl(templateName);
    var reply := client.Call(Post, endpoint, Some(opts));
    if reply.Errored? {
      return Failed(Wrapped("Calling POST " + endpoint, Remote(reply.err)));
    }
    d.SetId(CreatedId(templateName, opts.name));
    out := Read(client, d, esc);
  }

  method Update(client: Remote, d: ResourceData, esc: string -> string, opts: PartitionSchemeCreateOrUpdateOpts) returns (out: Outcome)
    modifies client, d
    ensures var e := UpdateEffect(client.answer, |old(client.log)|, esc, old(d.id), old(d.attrs), opts);
      out == e.outcome && client.log == old(client.log) + e.sent && d.id == e.id && d.attrs == e.attrs
  {
    var templateName := d.GetString(TemplateNameKey);
    var endpoint := SchemeUrl(esc, templateName, opts.name);
    var reply := client.Call(Put, endpoint, Some(opts));
    if reply.Errored? {
      return Failed(Wrapped("Calling PUT " + endpoint, Remote(reply.err)));
    }
    out := Read(client, d, esc);
  }

  method Delete(client: Remote, d: ResourceData, esc: string -> string) returns (out: Outcome)
    modifies client
    ensures var e := DeleteEffect(client.answer, |old(client.log)|, esc, d.id, d.attrs);
      out == e.outcome && client.log == old(client.log) + e.sent && d.id == e.id && d.attrs == e.attrs
  {
    var templateName := d.GetString(TemplateNameKey);
    var name := d.GetString(NameKey);
    var endpoint := SchemeUrl(esc, templateName, name);
    var reply := client.Call(Verb.Delete, endpoint, None);
    if reply.Errored? {
      return Failed(Wrapped("Calling DELETE " + endpoint, Remote(reply.err)));
    }
    out := Done;
  }

  // ---------------------------------------------------------------- properties

  /** A failed read changes nothing; a successful one stores every attribute
      of the scheme's map, keeps every other attribute, and registers
      "template-name" from the names configured before the read. */
  lemma ReadOutcome(answer: nat -> Reply<PartitionScheme>, n0: nat, esc: string -> string, id: string, attrs: map<string, Value>)
    ensures var e := ReadEffect(answer, n0, esc, id, attrs);
      && (e.outcome.Failed? <==> answer(n0).Errored?)
      && (e.outcome.Failed? ==> e.id == id && e.attrs == attrs)
      && (e.outcome == Done ==>
            var m := answer(n0).body.attributes;
            && e.id == StringAt(attrs, TemplateNameKey) + "-" + StringAt(attrs, NameKey)
            && e.attrs.Keys == attrs.Keys + m.Keys
            && (forall k :: k in m ==> e.attrs[k] == m[k])
            && (forall k :: k in attrs && k !in m ==> e.attrs[k] == attrs[k]))
  {
    IdShapes(StringAt(attrs, TemplateNameKey), StringAt(attrs, NameKey));
  }

  /** A create whose POST fails sends nothing else and registers no id. */
  lemma CreateFailureSetsNoId(answer: nat -> Reply<PartitionScheme>, n0: nat, esc: string -> string, id: string, attrs: map<string, Value>,
                              opts: PartitionSchemeCreateOrUpdateOpts)
    requires answer(n0).Errored?
    ensures var e := CreateEffect(answer, n0, esc, id, attrs, opts);
      && e.outcome.Failed? && e.id == id && e.attrs == attrs
      && e.sent == [Request(Post, "/me/installationTemplate/" + StringAt(attrs, TemplateNameKey) + "/partitionScheme", Some(opts))]
  {
    CollectionUrlShape(StringAt(attrs, TemplateNameKey));
  }

  /** A create whose POST and read-back succeed ends with the id
      "template-name": the "template/name" it registered first is overwritten. */
  lemma CreateEndsWithDashId(answer: nat -> Reply<PartitionScheme>, n0: nat, esc: string -> string, id: string, attrs: map<string, Value>,
                             opts: PartitionSchemeCreateOrUpdateOpts)
    requires answer(n0).Replied? && answer(n0 + 1).Replied?
    ensures var e := CreateEffect(answer, n0, esc, id, attrs, opts);
      && e.outcome == Done
      && e.id == StringAt(attrs, TemplateNameKey) + "-" + StringAt(attrs, NameKey)
      && e.attrs == attrs + answer(n0 + 1).body.attributes
  {
    IdShapes(StringAt(attrs, TemplateNameKey), StringAt(attrs, NameKey));
  }

  /** A create whose POST succeeds but whose read-back fails returns the
      error with the id "template/name" already registered. */
  lemma CreateReadBackFailureKeepsSlashId(answer: nat -> Reply<PartitionScheme>, n0: nat, esc: string -> string, id: string, attrs: map<string, Value>,
                                          opts: PartitionSchemeCreateOrUpdateOpts)
    requires answer(n0).Replied? && answer(n0 + 1).Errored?
    ensures var e := CreateEffect(answer, n0, esc, id, attrs, opts);
      e.outcome.Failed? && e.id == StringAt(attrs, TemplateNameKey) + "/" + opts.name && e.attrs == attrs
  {
    IdShapes(StringAt(attrs, TemplateNameKey), opts.name);
  }

  /** Update addresses the scheme named by the opts, Delete the one named by
      the stored name; both escape both names. */
  lemma UpdateAndDeleteEndpoints(answer: nat -> Reply<PartitionScheme>, n0: nat, esc: string -> string, id: string, attrs: map<string, Value>,
                                 opts: PartitionSchemeCreateOrUpdateOpts)
    ensures UpdateEffect(answer, n0, esc, id, attrs, opts).sent[0]
      == Request(Put, "/me/installationTemplate/" + esc(StringAt(attrs, TemplateNameKey)) + "/partitionScheme/" + esc(opts.name), Some(opts))
    ensures DeleteEffect(answer, n0, esc, id, attrs).sent
      == [Request(Verb.Delete, "/me/installationTemplate/" + esc(StringAt(attrs, TemplateNameKey)) + "/partitionScheme/"
                               + esc(StringAt(attrs, NameKey)), None)]
  {
    SchemeUrlShape(esc, StringAt(attrs, TemplateNameKey), opts.name);
    SchemeUrlShape(esc, StringAt(attrs, TemplateNameKey), StringAt(attrs, NameKey));
  }

  /** Delete never clears the id or changes an attribute, and succeeds exactly when the DELETE does. */
  lemma DeleteKeepsId(answer: nat -> Reply<PartitionScheme>, n0: nat, esc: string -> string, id: string, attrs: map<string, Value>)
    ensures var e := DeleteEffect(answer, n0, esc, id, attrs);
      e.id == id && e.attrs == attrs && (e.outcome == Done <==> answer(n0).Replied?)
  {
  }
}
