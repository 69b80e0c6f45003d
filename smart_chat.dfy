/**
 * components/SmartHubSpotChat.tsx: decides from the page's hostname whether
 * the chat belongs on this page, tags the visitor with tenant context
 * (workspace slug, hostname, name, company) through the `_hsq` queue and the
 * widget settings, and renders the inline chat when it should show.
 */
module SmartHubSpotChat {
  import opened Js
  import opened Browser
  import HubSpotChatIframe

  /**
   * The component's props. `show` defaults to `true` when omitted, so an
   * omitted `show` is `true` here; any other omitted prop is `None`.
   */
  datatype ChatProps = ChatProps(
    show: bool,
    userEmail: Option<string>,
    userName: Option<string>,
    companyId: Option<string>,
    workspaceId: Option<string>,
    requestType: Option<string>)

  /** The two build-time environment values read: the portal id and the support chatflow id. */
  datatype Env = Env(portalId: Option<string>, chatflowSupport: Option<string>)

  datatype Environment = CustomerWorkspace | Development | Other

  /** The name an environment is reported under in the custom fields. */
  function EnvironmentName(e: Environment): string
  {
    match e
    case CustomerWorkspace => "customer_workspace"
    case Development => "development"
    case Other => "other"
  }

  /** What the hostname decides: the environment, the chatflow and whether chat shows. */
  datatype HostContext = HostContext(environment: Environment, chatflowId: string, shouldShow: bool)

  /** The component state `chatConfig`. */
  datatype ChatConfig = ChatConfig(portalId: string, chatflowId: string, shouldShow: bool)

  // ---------------------------------------------------------------------------
  // hostname classification

  /** Rules in order, first match wins: customer workspace, then development, then anything else. */
  function ClassifyHost(hostname: string, chatflowSupport: Option<string>): (c: HostContext)
    ensures c.shouldShow <==> c.environment != Other
    ensures c.environment == Other ==> c.chatflowId == ""
    ensures c.environment != Other ==> c.chatflowId == OrElse(chatflowSupport, "")
  {
    if StartsWith(hostname, "cd-") || EndsWith(hostname, ".compound.direct") then
      HostContext(CustomerWorkspace, OrElse(chatflowSupport, ""), true)
    else if hostname == "localhost" || StartsWith(hostname, "localhost:") then
      HostContext(Development, OrElse(chatflowSupport, ""), true)
    else
      HostContext(Other, "", false)
  }

  /** Each environment, and so `shouldShow`, characterised by the hostname alone. */
  lemma ClassificationRules(hostname: string, chatflowSupport: Option<string>)
    ensures var c := ClassifyHost(hostname, chatflowSupport);
      && (c.environment == CustomerWorkspace <==> StartsWith(hostname, "cd-") || EndsWith(hostname, ".compound.direct"))
      && (c.environment == Development <==>
            !StartsWith(hostname, "cd-") && !EndsWith(hostname, ".compound.direct")
            && (hostname == "localhost" || StartsWith(hostname, "localhost:")))
      && (c.shouldShow <==>
            StartsWith(hostname, "cd-") || EndsWith(hostname, ".compound.direct")
            || hostname == "localhost" || StartsWith(hostname, "localhost:"))
  {
  }

  /** Sample `cd-` hosts are customer workspaces, even one that mentions localhost. */
  lemma WorkspaceHostExamples(cf: Option<string>)
    ensures ClassifyHost("cd-acme.example.com", cf).environment == CustomerWorkspace
    ensures ClassifyHost("cd-localhost", cf).environment == CustomerWorkspace
  {
    assert "cd-acme.example.com"[..3] == "cd-";
    assert "cd-localhost"[..3] == "cd-";
  }

  /** Sample subdomains of `compound.direct` are customer workspaces, the admin host included. */
  lemma CompoundDirectHostExamples(cf: Option<string>)
    ensures ClassifyHost("acme.compound.direct", cf).environment == CustomerWorkspace
    ensures ClassifyHost("admin.compound.direct", cf).environment == CustomerWorkspace
  {
    assert "acme.compound.direct"[4..] == ".compound.direct";
    assert "admin.compound.direct"[5..] == ".compound.direct";
  }

  /** `localhost`, with or without a port, is development. */
  lemma DevelopmentHostExamples(cf: Option<string>)
    ensures ClassifyHost("localhost", cf).environment == Development
    ensures ClassifyHost("localhost:3000", cf).environment == Development
  {
    assert "localhost"[..3][0] != "cd-"[0];
    assert "localhost:3000"[..3][0] != "cd-"[0];
    assert "localhost:3000"[..10] == "localhost:";
  }

  /** The bare apex domain, the empty host and a look-alike of localhost hide the chat. */
  lemma HiddenHostExamples(cf: Option<string>)
    ensures ClassifyHost("compound.direct", cf) == HostContext(Other, "", false)
    ensures ClassifyHost("", cf) == HostContext(Other, "", false)
    ensures ClassifyHost("localhost.example.com", cf) == HostContext(Other, "", false)
  {
    assert "compound.direct"[..3][1] != "cd-"[1];
    assert "localhost.example.com"[..3] != "cd-";
    assert "localhost.example.com"[..10][9] != "localhost:"[9];
    assert "localhost.example.com"[5..] != ".compound.direct";
  }

  // ---------------------------------------------------------------------------
  // workspace and tenant slug

  /** `hostname.split('.')[0]`. */
  function FirstLabel(hostname: string): string
  {
    FirstPiece(hostname, '.')
  }

  /** The `workspaceId` prop when given, else the first label of a `cd-` host, else empty. */
  function DetectWorkspaceId(hostname: string, workspaceId: Option<string>): string
  {
    OrElse(workspaceId, if StartsWith(hostname, "cd-") then FirstLabel(hostname) else "")
  }

  /** The tenant slug: the detected workspace id, or the first label when that is empty. */
  function TenantSlug(hostname: string, workspaceId: Option<string>): string
  {
    var detected := DetectWorkspaceId(hostname, workspaceId);
    if detected != "" then detected else FirstLabel(hostname)
  }

  /**
   * A workspace id taken from the hostname is its whole first label: it
   * keeps the `cd-` prefix, has no dot, and the hostname continues with a
   * dot or ends after it.
   */
  lemma DetectedWorkspaceId(hostname: string, workspaceId: Option<string>)
    ensures Truthy(workspaceId) ==> DetectWorkspaceId(hostname, workspaceId) == workspaceId.value
    ensures !Truthy(workspaceId) && !StartsWith(hostname, "cd-") ==> DetectWorkspaceId(hostname, workspaceId) == ""
    ensures !Truthy(workspaceId) && StartsWith(hostname, "cd-") ==>
      var d := DetectWorkspaceId(hostname, workspaceId);
      && StartsWith(d, "cd-") && '.' !in d && StartsWith(hostname, d)
      && (|d| == |hostname| || hostname[|d|] == '.')
  {
    FirstPieceIsPrefix(hostname, '.');
    FirstAndRest(hostname, '.');
    if StartsWith(hostname, "cd-") {
      FirstPieceKeepsPrefix(hostname, '.', "cd-");
    }
  }

  /**
   * Without a `workspaceId` prop the slug is always the first label (both
   * branches agree); with one it is the prop. So it is empty only when no
   * prop is given and the hostname is empty or starts with a dot.
   */
  lemma TenantSlugIsFirstLabelOrProp(hostname: string, workspaceId: Option<string>)
    ensures Truthy(workspaceId) ==> TenantSlug(hostname, workspaceId) == workspaceId.value
    ensures !Truthy(workspaceId) ==> TenantSlug(hostname, workspaceId) == FirstLabel(hostname)
    ensures TenantSlug(hostname, workspaceId) == "" <==>
      !Truthy(workspaceId) && (hostname == "" || hostname[0] == '.')
  {
    FirstPieceIsPrefix(hostname, '.');
    FirstAndRest(hostname, '.');
    var f := FirstLabel(hostname);
    if f == "" && |hostname| > 0 {
      assert hostname[0] == '.';
    }
    if |hostname| > 0 && hostname[0] == '.' {
      assert '.' in hostname;
      assert |f| == 0;
    }
  }

  // ---------------------------------------------------------------------------
  // visitor identification

  /**
   * The `identify` payload. The name is split on single spaces: the first
   * token is the first name; a last name is present only when there is a
   * space, and then it is the rest of the name, so the two put back
   * together around one space give the name.
   */
  function IdentifyPayload(email: string, userName: Option<string>, companyId: Option<string>, tenant: Tenant): (d: IdentifyData)
    ensures d.email == email
    ensures d.firstname.Some? <==> Truthy(userName)
    ensures d.lastname.Some? <==> Truthy(userName) && ' ' in userName.value
    ensures d.firstname.Some? ==> ' ' !in d.firstname.value
    ensures d.lastname.Some? ==> d.firstname.value + " " + d.lastname.value == userName.value
    ensures d.firstname.Some? && d.lastname.None? ==> d.firstname.value == userName.value
    ensures d.workspaceSlug == Some(tenant.slug) && d.workspaceHostname == Some(tenant.hostname)
    ensures d.company == (if Truthy(companyId) then Some(companyId.value) else None)
  {
    var name := OrElse(userName, "");
    FirstAndRest(name, ' ');
    SplitCount(name, ' ');
    IdentifyData(
      email,
      if Truthy(userName) then Some(FirstPiece(name, ' ')) else None,
      if Truthy(userName) && |Split(name, ' ')| > 1 then Some(RestPieces(name, ' ')) else None,
      Some(tenant.slug),
      Some(tenant.hostname),
      if Truthy(companyId) then Some(companyId.value) else None)
  }

  /** "Mary Jane Watson": the first name is "Mary" and the last two tokens stay together. */
  lemma NameSplitThreeTokens(email: string, name: string, t: Tenant)
    requires name == "Mary Jane Watson"
    ensures IdentifyPayload(email, Some(name), None, t).firstname == Some("Mary")
    ensures IdentifyPayload(email, Some(name), None, t).lastname == Some("Jane Watson")
  {
    assert name == "Mary" + [' '] + "Jane Watson";
    FirstAndRestOf("Mary", ' ', "Jane Watson");
    SplitCount(name, ' ');
  }

  /** "Madonna" is the whole first name, with no last name. */
  lemma NameSplitOneToken(email: string, name: string, t: Tenant)
    requires name == "Madonna"
    ensures IdentifyPayload(email, Some(name), None, t).firstname == Some("Madonna")
    ensures IdentifyPayload(email, Some(name), None, t).lastname == None
  {
    assert forall i :: 0 <= i < |name| ==> name[i] != ' ';
  }

  /** The payload of the later re-identification: no workspace context, first name always set. */
  function ReIdentifyPayload(email: string, userName: string, companyId: Option<string>): (d: IdentifyData)
    ensures d.email == email && d.firstname.Some? && ' ' !in d.firstname.value
    ensures d.lastname.Some? <==> ' ' in userName
    ensures d.lastname.Some? ==> d.firstname.value + " " + d.lastname.value == userName
    ensures d.lastname.None? ==> d.firstname.value == userName
    ensures d.workspaceSlug == None && d.workspaceHostname == None
    ensures d.company == (if Truthy(companyId) then Some(companyId.value) else None)
  {
    FirstAndRest(userName, ' ');
    SplitCount(userName, ' ');
    IdentifyData(
      email,
      Some(FirstPiece(userName, ' ')),
      if |Split(userName, ' ')| > 1 then Some(RestPieces(userName, ' ')) else None,
      None,
      None,
      if Truthy(companyId) then Some(companyId.value) else None)
  }

  /** What the context effect pushes onto `_hsq`: `identify` then `trackPageView`, only with an email. */
  function IdentifyCommands(props: ChatProps, tenant: Tenant): (cmds: seq<HsqCommand>)
    ensures Truthy(props.userEmail) ==>
      cmds == [Identify(IdentifyPayload(props.userEmail.value, props.userName, props.companyId, tenant)), TrackPageView]
    ensures !Truthy(props.userEmail) ==> cmds == []
  {
    if Truthy(props.userEmail) then
      [Identify(IdentifyPayload(props.userEmail.value, props.userName, props.companyId, tenant)), TrackPageView]
    else []
  }

  // ---------------------------------------------------------------------------
  // custom fields and settings

  datatype CustomField = CustomField(name: string, value: string)

  /** The order the custom fields are listed in. */
  const FieldOrder: seq<string> := ["environment", "hostname", "workspace_id", "company_id", "user_name", "request_type"]

  function FieldRank(name: string): nat
  {
    if name == "environment" then 0
    else if name == "hostname" then 1
    else if name == "workspace_id" then 2
    else if name == "company_id" then 3
    else if name == "user_name" then 4
    else if name == "request_type" then 5
    else 6
  }

  /** The rank of each listed name is its position in `FieldOrder`. */
  lemma FieldRanks()
    ensures FieldRank("environment") == 0 && FieldRank("hostname") == 1 && FieldRank("workspace_id") == 2
    ensures FieldRank("company_id") == 3 && FieldRank("user_name") == 4 && FieldRank("request_type") == 5
  {
    assert "workspace_id"[0] != "request_type"[0];
  }

  /** A field that is listed only when its value is non-empty. */
  function OptionalField(name: string, value: string): seq<CustomField>
  {
    if value != "" then [CustomField(name, value)] else []
  }

  /** The custom-field list, built as the source pushes onto it. */
  function CustomFields(environment: Environment, hostname: string, detectedWorkspaceId: string,
                        companyId: Option<string>, userName: Option<string>, requestType: Option<string>): seq<CustomField>
  {
    [CustomField("environment", EnvironmentName(environment)), CustomField("hostname", hostname)]
      + OptionalField("workspace_id", detectedWorkspaceId)
      + OptionalField("company_id", OrElse(companyId, ""))
      + OptionalField("user_name", OrElse(userName, ""))
      + OptionalField("request_type", OrElse(requestType, ""))
  }

  /** Field names strictly follow `FieldOrder`, so no name repeats. */
  ghost predicate InFieldOrder(fs: seq<CustomField>)
  {
    && (forall i :: 0 <= i < |fs| ==> FieldRank(fs[i].name) < 6)
    && (forall i, j :: 0 <= i < j < |fs| ==> FieldRank(fs[i].name) < FieldRank(fs[j].name))
  }

  lemma AppendOptionalInOrder(fs: seq<CustomField>, name: string, value: string)
    requires InFieldOrder(fs)
    requires FieldRank(name) < 6
    requires forall i :: 0 <= i < |fs| ==> FieldRank(fs[i].name) < FieldRank(name)
    ensures InFieldOrder(fs + OptionalField(name, value))
  {
  }

  /** The first field with this name, if any. */
  function FieldValue(fs: seq<CustomField>, name: string): Option<string>
  {
    if |fs| == 0 then None
    else if fs[0].name == name then Some(fs[0].value)
    else FieldValue(fs[1..], name)
  }

  lemma {:induction false} FieldValueAppend(fs: seq<CustomField>, extra: seq<CustomField>, name: string)
    ensures FieldValue(fs + extra, name) == if FieldValue(fs, name).Some? then FieldValue(fs, name) else FieldValue(extra, name)
  {
    if |fs| > 0 {
      assert (fs + extra)[1..] == fs[1..] + extra;
      FieldValueAppend(fs[1..], extra, name);
    } else {
      assert fs + extra == extra;
    }
  }

  lemma {:induction false} FieldValueNone(fs: seq<CustomField>, name: string)
    requires forall i :: 0 <= i < |fs| ==> fs[i].name != name
    ensures FieldValue(fs, name) == None
    decreases |fs|
  {
    if |fs| > 0 {
      FieldValueNone(fs[1..], name);
    }
  }

  /** The value a field with this name would have: its value if listed, else nothing. */
  function NonEmpty(value: string): Option<string>
  {
    if value != "" then Some(value) else None
  }

  /**
   * The custom-field list always starts with `environment` and `hostname`,
   * and its names follow the fixed order, so none repeats.
   */
  lemma CustomFieldsOrder(environment: Environment, hostname: string, detected: string,
                          companyId: Option<string>, userName: Option<string>, requestType: Option<string>)
    ensures var fs := CustomFields(environment, hostname, detected, companyId, userName, requestType);
      && |fs| >= 2
      && fs[0] == CustomField("environment", EnvironmentName(environment))
      && fs[1] == CustomField("hostname", hostname)
      && InFieldOrder(fs)
  {
    var base := [CustomField("environment", EnvironmentName(environment)), CustomField("hostname", hostname)];
    var f1 := base + OptionalField("workspace_id", detected);
    var f2 := f1 + OptionalField("company_id", OrElse(companyId, ""));
    var f3 := f2 + OptionalField("user_name", OrElse(userName, ""));
    FieldRanks();
    assert InFieldOrder(base);
    AppendOptionalInOrder(base, "workspace_id", detected);
    AppendOptionalInOrder(f1, "company_id", OrElse(companyId, ""));
    AppendOptionalInOrder(f2, "user_name", OrElse(userName, ""));
    AppendOptionalInOrder(f3, "request_type", OrElse(requestType, ""));
  }

  /** Looking a name up in one optional field: its value when the names match and it is listed. */
  lemma FieldValueOptional(name: string, value: string, lookup: string)
    ensures FieldValue(OptionalField(name, value), lookup) == if lookup == name then NonEmpty(value) else None
  {
  }

  /**
   * Each optional field, `workspace_id`, `company_id`, `user_name` and
   * `request_type`, is listed exactly when its value is non-empty.
   */
  lemma CustomFieldsValues(environment: Environment, hostname: string, detected: string,
                           companyId: Option<string>, userName: Option<string>, requestType: Option<string>)
    ensures var fs := CustomFields(environment, hostname, detected, companyId, userName, requestType);
      && FieldValue(fs, "workspace_id") == NonEmpty(detected)
      && FieldValue(fs, "company_id") == NonEmpty(OrElse(companyId, ""))
      && FieldValue(fs, "user_name") == NonEmpty(OrElse(userName, ""))
      && FieldValue(fs, "request_type") == NonEmpty(OrElse(requestType, ""))
  {
    CustomFieldValue(environment, hostname, detected, companyId, userName, requestType, "workspace_id");
    CustomFieldValue(environment, hostname, detected, companyId, userName, requestType, "company_id");
    CustomFieldValue(environment, hostname, detected, companyId, userName, requestType, "user_name");
    CustomFieldValue(environment, hostname, detected, companyId, userName, requestType, "request_type");
  }

  /** One name looked up in the custom-field list, segment by segment. */
  lemma CustomFieldValue(environment: Environment, hostname: string, detected: string,
                         companyId: Option<string>, userName: Option<string>, requestType: Option<string>, n: string)
    requires n in ["workspace_id", "company_id", "user_name", "request_type"]
    ensures FieldValue(CustomFields(environment, hostname, detected, companyId, userName, requestType), n) ==
      if n == "workspace_id" then NonEmpty(detected)
      else if n == "company_id" then NonEmpty(OrElse(companyId, ""))
      else if n == "user_name" then NonEmpty(OrElse(userName, ""))
      else NonEmpty(OrElse(requestType, ""))
  {
    var base := [CustomField("environment", EnvironmentName(environment)), CustomField("hostname", hostname)];
    var o1 := OptionalField("workspace_id", detected);
    var o2 := OptionalField("company_id", OrElse(companyId, ""));
    var o3 := OptionalField("user_name", OrElse(userName, ""));
    var o4 := OptionalField("request_type", OrElse(requestType, ""));
    FieldValueNone(base, n);
    FieldValueOptional("workspace_id", detected, n);
    FieldValueOptional("company_id", OrElse(companyId, ""), n);
    FieldValueOptional("user_name", OrElse(userName, ""), n);
    FieldValueOptional("request_type", OrElse(requestType, ""), n);
    FieldValueAppend(base, o1, n);
    FieldValueAppend(base + o1, o2, n);
    FieldValueAppend(base + o1 + o2, o3, n);
    FieldValueAppend(base + o1 + o2 + o3, o4, n);
  }

  /** `customFields.reduce((acc, f) => { acc[f.name] = f.value; return acc }, acc)`. */
  function FoldFields(acc: map<string, JsValue>, fs: seq<CustomField>): map<string, JsValue>
    decreases |fs|
  {
    if |fs| == 0 then acc else FoldFields(acc[fs[0].name := JStr(fs[0].value)], fs[1..])
  }

  /** The names a field list uses. */
  ghost function FieldNames(fs: seq<CustomField>): set<string>
  {
    set i | 0 <= i < |fs| :: fs[i].name
  }

  /**
   * Folding a field list with distinct names into a record adds exactly its
   * names, each mapped to its field's value, and keeps every other entry.
   */
  lemma {:induction false} FoldFieldsContent(acc: map<string, JsValue>, fs: seq<CustomField>)
    requires forall i, j :: 0 <= i < j < |fs| ==> fs[i].name != fs[j].name
    ensures FoldFields(acc, fs).Keys == acc.Keys + FieldNames(fs)
    ensures forall i :: 0 <= i < |fs| ==> FoldFields(acc, fs)[fs[i].name] == JStr(fs[i].value)
    ensures forall k :: k in acc && k !in FieldNames(fs) ==> FoldFields(acc, fs)[k] == acc[k]
    decreases |fs|
  {
    if |fs| > 0 {
      var acc' := acc[fs[0].name := JStr(fs[0].value)];
      FoldFieldsContent(acc', fs[1..]);
      assert FieldNames(fs) == {fs[0].name} + FieldNames(fs[1..]) by {
        forall n | n in FieldNames(fs) ensures n in {fs[0].name} + FieldNames(fs[1..]) {
          var i :| 0 <= i < |fs| && fs[i].name == n;
          if i > 0 { assert fs[1..][i - 1].name == n; }
        }
        forall n | n in FieldNames(fs[1..]) ensures n in FieldNames(fs) {
          var i :| 0 <= i < |fs[1..]| && fs[1..][i].name == n;
          assert fs[i + 1].name == n;
        }
      }
      assert fs[0].name !in FieldNames(fs[1..]);
      forall i | 0 <= i < |fs|
        ensures FoldFields(acc, fs)[fs[i].name] == JStr(fs[i].value)
      {
        if i > 0 {
          assert fs[1..][i - 1] == fs[i];
        }
      }
    }
  }

  /** The `identificationEmail` value: the email prop, `undefined` when omitted. */
  function EmailValue(userEmail: Option<string>): JsValue
  {
    if userEmail.Some? then JStr(userEmail.value) else JUndefined
  }

  /** The final settings: load at once, the identification email, then the custom fields spread in. */
  function WidgetSettings(userEmail: Option<string>, fs: seq<CustomField>): Settings
  {
    map["loadImmediately" := JBool(true), "identificationEmail" := EmailValue(userEmail)] + FoldFields(map[], fs)
  }

  /** The settings the context effect leaves for the given props and hostname. */
  function EffectSettings(props: ChatProps, hostname: string, environment: Environment): Settings
  {
    WidgetSettings(props.userEmail,
      CustomFields(environment, hostname, DetectWorkspaceId(hostname, props.workspaceId),
                   props.companyId, props.userName, props.requestType))
  }

  /** Field names in order are among `FieldOrder`, so distinct and never a fixed settings key. */
  lemma InFieldOrderNames(fs: seq<CustomField>)
    requires InFieldOrder(fs)
    ensures forall i, j :: 0 <= i < j < |fs| ==> fs[i].name != fs[j].name
    ensures forall i :: 0 <= i < |fs| ==> fs[i].name in FieldOrder
  {
    forall i | 0 <= i < |fs| ensures fs[i].name in FieldOrder {
      assert FieldRank(fs[i].name) < 6;
    }
  }

  /**
   * Spreading an ordered field list after the two fixed entries gives
   * exactly those two entries and one entry per field, holding its value.
   */
  lemma WidgetSettingsContent(userEmail: Option<string>, fs: seq<CustomField>)
    requires InFieldOrder(fs)
    ensures var s := WidgetSettings(userEmail, fs);
      && s.Keys == {"loadImmediately", "identificationEmail"} + FieldNames(fs)
      && s["loadImmediately"] == JBool(true)
      && s["identificationEmail"] == EmailValue(userEmail)
      && (forall i :: 0 <= i < |fs| ==> s[fs[i].name] == JStr(fs[i].value))
  {
    InFieldOrderNames(fs);
    FoldFieldsContent(map[], fs);
    assert "loadImmediately" !in FieldNames(fs);
    assert "identificationEmail" !in FieldNames(fs);
  }

  /**
   * The final settings hold `loadImmediately = true`, the identification
   * email, the environment and the hostname, and no key outside those and
   * the custom-field names; in particular not the `identificationToken` of
   * the first, overwritten, assignment.
   */
  lemma EffectSettingsFixedEntries(props: ChatProps, hostname: string, environment: Environment)
    ensures var s := EffectSettings(props, hostname, environment);
      && s.Keys <= {"loadImmediately", "identificationEmail"} + set n | n in FieldOrder
      && "loadImmediately" in s && s["loadImmediately"] == JBool(true)
      && "identificationEmail" in s && s["identificationEmail"] == EmailValue(props.userEmail)
      && "environment" in s && s["environment"] == JStr(EnvironmentName(environment))
      && "hostname" in s && s["hostname"] == JStr(hostname)
      && "identificationToken" !in s
  {
    var detected := DetectWorkspaceId(hostname, props.workspaceId);
    var fs := CustomFields(environment, hostname, detected, props.companyId, props.userName, props.requestType);
    CustomFieldsOrder(environment, hostname, detected, props.companyId, props.userName, props.requestType);
    WidgetSettingsContent(props.userEmail, fs);
    InFieldOrderNames(fs);
    assert fs[0].name == "environment";
    assert fs[1].name == "hostname";
    assert "identificationToken" !in FieldNames(fs);
  }

  /**
   * Each optional custom field is in the final settings exactly when its
   * value is truthy, and then holds that value.
   */
  lemma EffectSettingsOptionalEntries(props: ChatProps, hostname: string, environment: Environment)
    ensures var s := EffectSettings(props, hostname, environment);
      var detected := DetectWorkspaceId(hostname, props.workspaceId);
      && ("workspace_id" in s <==> detected != "")
      && (detected != "" ==> s["workspace_id"] == JStr(detected))
      && ("company_id" in s <==> Truthy(props.companyId))
      && (Truthy(props.companyId) ==> s["company_id"] == JStr(props.companyId.value))
      && ("user_name" in s <==> Truthy(props.userName))
      && (Truthy(props.userName) ==> s["user_name"] == JStr(props.userName.value))
      && ("request_type" in s <==> Truthy(props.requestType))
      && (Truthy(props.requestType) ==> s["request_type"] == JStr(props.requestType.value))
  {
    var detected := DetectWorkspaceId(hostname, props.workspaceId);
    var fs := CustomFields(environment, hostname, detected, props.companyId, props.userName, props.requestType);
    CustomFieldsOrder(environment, hostname, detected, props.companyId, props.userName, props.requestType);
    CustomFieldsValues(environment, hostname, detected, props.companyId, props.userName, props.requestType);
    OptionalFieldInSettings(props.userEmail, fs, "workspace_id", detected);
    OptionalFieldInSettings(props.userEmail, fs, "company_id", OrElse(props.companyId, ""));
    OptionalFieldInSettings(props.userEmail, fs, "user_name", OrElse(props.userName, ""));
    OptionalFieldInSettings(props.userEmail, fs, "request_type", OrElse(props.requestType, ""));
  }

  /** A field found with `FieldValue` is in the settings with that value; one not found is absent. */
  lemma OptionalFieldInSettings(userEmail: Option<string>, fs: seq<CustomField>, name: string, value: string)
    requires InFieldOrder(fs)
    requires name != "loadImmediately" && name != "identificationEmail"
    requires FieldValue(fs, name) == NonEmpty(value)
    ensures var s := WidgetSettings(userEmail, fs);
      && (name in s <==> value != "")
      && (value != "" ==> s[name] == JStr(value))
  {
    WidgetSettingsContent(userEmail, fs);
    FieldValueMeansListed(fs, name);
    if value != "" {
      var i :| 0 <= i < |fs| && fs[i].name == name;
    }
  }

  /** In a list without repeated names, a name is listed iff it has a value, and that is its field's value. */
  lemma FieldValueMeansListed(fs: seq<CustomField>, name: string)
    requires InFieldOrder(fs)
    ensures FieldValue(fs, name).Some? <==> name in FieldNames(fs)
    ensures forall i :: 0 <= i < |fs| && fs[i].name == name ==> FieldValue(fs, name) == Some(fs[i].value)
  {
    FieldValueFirst(fs, name);
  }

  lemma {:induction false} FieldValueFirst(fs: seq<CustomField>, name: string)
    requires forall i, j :: 0 <= i < j < |fs| ==> FieldRank(fs[i].name) < FieldRank(fs[j].name)
    ensures FieldValue(fs, name).Some? <==> name in FieldNames(fs)
    ensures forall i :: 0 <= i < |fs| && fs[i].name == name ==> FieldValue(fs, name) == Some(fs[i].value)
    decreases |fs|
  {
    if |fs| > 0 {
      FieldValueFirst(fs[1..], name);
      forall i | 0 < i < |fs| ensures fs[1..][i - 1] == fs[i] { }
      assert FieldNames(fs) == {fs[0].name} + FieldNames(fs[1..]) by {
        forall n | n in FieldNames(fs) ensures n in {fs[0].name} + FieldNames(fs[1..]) {
          var i :| 0 <= i < |fs| && fs[i].name == n;
          if i > 0 { assert fs[1..][i - 1].name == n; }
        }
        forall n | n in FieldNames(fs[1..]) ensures n in FieldNames(fs) {
          var i :| 0 <= i < |fs[1..]| && fs[1..][i].name == n;
          assert fs[i + 1].name == n;
        }
      }
    }
  }

  // ---------------------------------------------------------------------------
  // the component

  /** What the component renders: nothing, or the inline chat for a portal. */
  datatype Rendered = NothingRendered | ChatIframe(portalId: string, show: bool)

  /** The hsq queue as `window._hsq || []` finds it. */
  function QueueOrEmpty(hsq: Option<seq<HsqCommand>>): seq<HsqCommand>
  {
    if hsq.Some? then hsq.value else []
  }

  /**
   * The block of the context effect that runs when chat should show, given
   * the detected workspace id and the first label of the hostname: set the
   * tenant, make sure `_hsq` exists and append the identification to it,
   * then write the settings twice, the second time with the custom fields
   * and without the identification token.
   */
  method ConfigureWindow(w: Window, props: ChatProps, hostname: string, environment: Environment,
                         detected: string, subdomain: string)
    modifies w`tenant, w`hsq, w`settings
    ensures w.tenant == Some(Tenant(if detected != "" then detected else subdomain, hostname))
    ensures w.hsq == Some(QueueOrEmpty(old(w.hsq)) + IdentifyCommands(props, w.tenant.value))
    ensures w.settings == Some(WidgetSettings(props.userEmail,
                                 CustomFields(environment, hostname, detected, props.companyId, props.userName, props.requestType)))
  {
    var tenant := Tenant(if detected != "" then detected else subdomain, hostname);
    w.tenant := Some(tenant);
    w.hsq := Some(QueueOrEmpty(w.hsq));
    if Truthy(props.userEmail) {
      var data := IdentifyPayload(props.userEmail.value, props.userName, props.companyId, tenant);
      w.hsq := Some(w.hsq.value + [Identify(data)]);
      w.hsq := Some(w.hsq.value + [TrackPageView]);
      assert w.hsq.value == QueueOrEmpty(old(w.hsq)) + [Identify(data), TrackPageView];
    } else {
      assert w.hsq.value == QueueOrEmpty(old(w.hsq)) + [];
    }
    w.settings := Some(map["loadImmediately" := JBool(true),
                           "identificationEmail" := EmailValue(props.userEmail),
                           "identificationToken" := EmailValue(props.userEmail)]);
    var fields := CustomFields(environment, hostname, detected, props.companyId, props.userName, props.requestType);
    w.settings := Some(WidgetSettings(props.userEmail, fields));
  }

  class SmartHubSpotChatComponent {
    var chatConfig: ChatConfig

    constructor ()
      ensures chatConfig == ChatConfig("", "", false)
    {
      chatConfig := ChatConfig("", "", false);
    }

    /**
     * The render guard: the inline chat is rendered exactly when the
     * hostname allowed it and a portal id is configured.
     */
    function Render(show: bool): (r: Rendered)
      reads this
      ensures r.ChatIframe? <==> chatConfig.shouldShow && chatConfig.portalId != ""
      ensures r.ChatIframe? ==> r.portalId == chatConfig.portalId && r.show == show
    {
      if !chatConfig.shouldShow || chatConfig.portalId == "" then NothingRendered
      else ChatIframe(chatConfig.portalId, show)
    }

    /**
     * The context effect. With `show` false it does nothing. Otherwise it
     * classifies the hostname and records the result in `chatConfig`; when
     * chat should show it also sets the tenant, appends the identification
     * commands to `_hsq` (keeping what was there) and writes the settings.
     */
    method ContextEffect(w: Window, props: ChatProps, env: Env, hostname: string)
      modifies this, w`tenant, w`hsq, w`settings
      ensures !props.show ==> unchanged(this) && unchanged(w)
      ensures props.show ==>
        var c := ClassifyHost(hostname, env.chatflowSupport);
        chatConfig == ChatConfig(OrElse(env.portalId, ""), c.chatflowId, c.shouldShow)
      ensures props.show && ClassifyHost(hostname, env.chatflowSupport).shouldShow ==>
        var c := ClassifyHost(hostname, env.chatflowSupport);
        var tenant := Tenant(TenantSlug(hostname, props.workspaceId), hostname);
        && w.tenant == Some(tenant)
        && w.hsq == Some(QueueOrEmpty(old(w.hsq)) + IdentifyCommands(props, tenant))
        && w.settings == Some(EffectSettings(props, hostname, c.environment))
      ensures !(props.show && ClassifyHost(hostname, env.chatflowSupport).shouldShow) ==> unchanged(w)
    {
      if !props.show {
        return;
      }
      var subdomain := FirstLabel(hostname);
      var environment: Environment;
      var chatflowId := "";
      var shouldShow := true;
      if StartsWith(hostname, "cd-") || EndsWith(hostname, ".compound.direct") {
        environment := CustomerWorkspace;
        chatflowId := OrElse(env.chatflowSupport, "");
        shouldShow := true;
      } else if hostname == "localhost" || StartsWith(hostname, "localhost:") {
        environment := Development;
        chatflowId := OrElse(env.chatflowSupport, "");
        shouldShow := true;
      } else {
        shouldShow := false;
        environment := Other;
      }
      var detected := OrElse(props.workspaceId, if StartsWith(hostname, "cd-") then subdomain else "");
      if shouldShow {
        ConfigureWindow(w, props, hostname, environment, detected, subdomain);
      }
      chatConfig := ChatConfig(OrElse(env.portalId, ""), chatflowId, shouldShow);
    }

    /**
     * One run of the re-identification step (`identifyWhenReady`): only with
     * `show`, an email and a name, and only once the API and `_hsq` exist,
     * it appends one `identify` command without workspace context.
     */
    method ReIdentify(w: Window, props: ChatProps)
      modifies w`hsq
      ensures !(props.show && Truthy(props.userEmail) && Truthy(props.userName)) ==> unchanged(w)
      ensures props.show && Truthy(props.userEmail) && Truthy(props.userName) ==>
        w.hsq == if w.api.Api? && old(w.hsq).Some? then
                   Some(old(w.hsq).value + [Identify(ReIdentifyPayload(props.userEmail.value, props.userName.value, props.companyId))])
                 else old(w.hsq)
    {
      if !props.show || !Truthy(props.userEmail) || !Truthy(props.userName) {
        return;
      }
      if w.api.Api? && w.hsq.Some? {
        var data := ReIdentifyPayload(props.userEmail.value, props.userName.value, props.companyId);
        w.hsq := Some(w.hsq.value + [Identify(data)]);
      }
    }
  }

  /**
   * The page sequence as React runs it: the context effect, a re-render, and
   * then (when the guard lets it render) the inline chat's mount effect. The
   * inline chat overwrites the settings the context effect wrote, so the
   * custom fields and identification email are gone before the loader
   * script runs; the `_hsq` entries stay.
   */
  method ContextThenEmbed(chat: SmartHubSpotChatComponent, w: Window, props: ChatProps, env: Env, hostname: string)
    requires props.show
    modifies chat, w`tenant, w`hsq, w`settings, w`document, w`onReady
    ensures var c := ClassifyHost(hostname, env.chatflowSupport);
      chat.chatConfig == ChatConfig(OrElse(env.portalId, ""), c.chatflowId, c.shouldShow)
    ensures var c := ClassifyHost(hostname, env.chatflowSupport);
      w.tenant == if c.shouldShow then Some(Tenant(TenantSlug(hostname, props.workspaceId), hostname)) else old(w.tenant)
    ensures ClassifyHost(hostname, env.chatflowSupport).shouldShow ==>
      w.hsq == Some(QueueOrEmpty(old(w.hsq)) + IdentifyCommands(props, Tenant(TenantSlug(hostname, props.workspaceId), hostname)))
    ensures !ClassifyHost(hostname, env.chatflowSupport).shouldShow ==> w.hsq == old(w.hsq)
    ensures chat.Render(props.show).ChatIframe? ==>
      && w.settings == Some(HubSpotChatIframe.InlineEmbedSettings())
      && w.document == AppendLoaderIfAbsent(old(w.document), chat.chatConfig.portalId)
      && w.onReady == Some([LoadWidgetCallback])
    ensures !chat.Render(props.show).ChatIframe? ==>
      var c := ClassifyHost(hostname, env.chatflowSupport);
      && w.settings == (if c.shouldShow then Some(EffectSettings(props, hostname, c.environment)) else old(w.settings))
      && w.document == old(w.document)
      && w.onReady == old(w.onReady)
  {
    chat.ContextEffect(w, props, env, hostname);
    var r := chat.Render(props.show);
    if r.ChatIframe? {
      var container := HubSpotChatIframe.Render(r.show);
      var _ := HubSpotChatIframe.Mount(w, r.portalId, r.show, container.ChatContainer?);
    }
  }
}
