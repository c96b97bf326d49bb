/** The lifecycle facade of `SandboxClient`: the request bodies it builds for
    start, fork and session creation, the defaults it fills in, and the plan it
    hands to the session connector. The REST calls themselves are inputs: each
    operation takes the transport result of its call. */
module Lifecycle {
  import opened Wrappers
  import opened Responses
  import opened Text
  import Tiers
  import opened Privacy

  // ---------------------------------------------------------------- start options

  /** `StartSandboxOpts`: every field may be left out. */
  datatype StartSandboxOpts = StartSandboxOpts(
    ipcountry: Option<string>,
    vmTier: Option<Tiers.VMTier>,
    hibernationTimeoutSeconds: Option<int>)

  /** The empty options object `{}`. */
  const NoStartOpts := StartSandboxOpts(None, None, None)

  /** Body of the start request, and the fork request's `start_options`. */
  datatype StartBody = StartBody(
    ipcountry: Option<string>,
    tier: Option<string>,
    hibernation_timeout_seconds: Option<int>)

  /** `startOptionsFromOpts`: no override for absent options; otherwise each field
      is carried over, the tier by its name, and an absent field stays absent. */
  function StartOptionsFromOpts(opts: Option<StartSandboxOpts>): (r: Option<StartBody>)
    ensures r.None? <==> opts.None?
    ensures r.Some? ==> r.value.ipcountry == opts.value.ipcountry
    ensures r.Some? ==> r.value.hibernation_timeout_seconds == opts.value.hibernationTimeoutSeconds
    ensures r.Some? ==> (r.value.tier.Some? <==> opts.value.vmTier.Some?)
    ensures r.Some? && r.value.tier.Some? ==> Tiers.FromName(r.value.tier.value) == opts.value.vmTier
  {
    match opts
    case None => None
    case Some(o) =>
      var tier := if o.vmTier.Some? then Some(o.vmTier.value.Name()) else None;
      Some(StartBody(o.ipcountry, tier, o.hibernationTimeoutSeconds))
  }

  /** A start request: the sandbox id in the path, the overrides in the body. */
  datatype StartRequest = StartRequest(id: string, body: Option<StartBody>)

  /** The start credentials the control plane returns (`SandboxStartData`). */
  datatype StartData = StartData(
    bootup_type: string,
    cluster: string,
    id: string,
    latest_pitcher_version: string,
    pitcher_manager_version: string,
    pitcher_token: string,
    pitcher_url: string,
    pitcher_version: string,
    reconnect_token: string,
    user_workspace_path: string,
    workspace_path: string)

  /** `start(id, opts)`: sends the overrides of `opts` and returns the start data,
      or fails with a message that names the sandbox. */
  function Start(id: string, opts: Option<StartSandboxOpts>, response: Transport<StartData>)
    : (r: (StartRequest, Result<StartData, Error>))
    ensures r.0 == StartRequest(id, StartOptionsFromOpts(opts))
    ensures r.1.Success? <==> response.Some?
    ensures r.1.Success? ==> r.1.value == response.value
    ensures r.1.Failure? ==> r.1.error == RequestFailed("Failed to start sandbox " + id)
  {
    (StartRequest(id, StartOptionsFromOpts(opts)), Handle(response, "Failed to start sandbox " + id))
  }

  // ---------------------------------------------------------------- connection plan

  /** Where the session connector gets its start data from: data already in hand
      (a fork that pre-started the VM, or a locally built session bundle), or a
      start request it sends itself. */
  datatype InstanceSource = Provided(data: StartData) | StartCall(request: StartRequest)

  /** A call of `connectToSandbox(id, startVm)`. */
  datatype ConnectPlan = ConnectPlan(instanceId: string, source: InstanceSource)

  /** `open(id, opts)`: connect, fetching the start data with `start(id, opts)`. */
  function Open(id: string, opts: Option<StartSandboxOpts>): (p: ConnectPlan)
    ensures p.instanceId == id && p.source.StartCall?
    ensures p.source.request == Start(id, opts, None).0
  {
    ConnectPlan(id, StartCall(StartRequest(id, StartOptionsFromOpts(opts))))
  }

  // ---------------------------------------------------------------- create and fork

  /** A template given as an id string or as an existing `Sandbox` handle. */
  datatype TemplateRef = TemplateId(id: string) | SandboxHandle(id: string)

  /** `CreateSandboxOpts`; the start overrides it inherits are grouped in `start`. */
  datatype CreateSandboxOpts = CreateSandboxOpts(
    template: Option<TemplateRef>,
    privacy: Option<SandboxPrivacy>,
    title: Option<string>,
    description: Option<string>,
    autoConnect: Option<bool>,
    tags: Option<seq<string>>,
    path: Option<string>,
    start: StartSandboxOpts)

  /** The empty options object `{}`. */
  const NoCreateOpts := CreateSandboxOpts(None, None, None, None, None, None, None, NoStartOpts)

  /** The fork request body. */
  datatype ForkBody = ForkBody(
    privacy: int,
    title: Option<string>,
    description: Option<string>,
    tags: seq<string>,
    path: string,
    start_options: Option<StartBody>)

  /** A fork request: the template id in the path, and the body. */
  datatype ForkRequest = ForkRequest(templateId: string, body: ForkBody)

  /** The fork response: the new sandbox's id, and start data when the control
      plane already started its VM. */
  datatype ForkResponse = ForkResponse(id: string, start_response: Option<StartData>)

  /** The `defaultTemplate` getter: one template for a client configured against a
      `codesandbox.stream` host, another for every other host (or none). */
  function DefaultTemplate(baseUrl: Option<string>): (id: string)
    ensures id == "7ngcrf" <==> baseUrl.Some? && Includes(baseUrl.value, "codesandbox.stream")
    ensures id == "7ngcrf" || id == "pcz35m"
  {
    if baseUrl.Some? && Includes(baseUrl.value, "codesandbox.stream") then "7ngcrf" else "pcz35m"
  }

  /** A template reference that is truthy in JavaScript: any handle, or a non-empty id. */
  predicate TemplateGiven(template: Option<TemplateRef>) {
    template.Some? && (template.value.SandboxHandle? || template.value.id != "")
  }

  /** `opts?.template || this.defaultTemplate`, reduced to an id. */
  function TemplateIdOf(template: Option<TemplateRef>, baseUrl: Option<string>): (id: string)
    ensures TemplateGiven(template) ==> id == template.value.id
    ensures !TemplateGiven(template) ==> id == DefaultTemplate(baseUrl)
  {
    if TemplateGiven(template) then template.value.id else DefaultTemplate(baseUrl)
  }

  /** The tags sent with a fork: the caller's tags (`["sdk"]` when absent) with
      "sdk" appended only when it is missing. */
  function TagsWithSdk(tags: Option<seq<string>>): (r: seq<string>)
    ensures "sdk" in r
    ensures tags.None? ==> r == ["sdk"]
    ensures tags.Some? ==> |tags.value| <= |r| <= |tags.value| + 1 && r[..|tags.value|] == tags.value
    ensures tags.Some? ==> (r == tags.value <==> "sdk" in tags.value)
    ensures forall t :: t in r <==> t == "sdk" || (tags.Some? && t in tags.value)
  {
    var given := if tags.Some? then tags.value else ["sdk"];
    if "sdk" in given then given else given + ["sdk"]
  }

  /** Adding the tag twice is adding it once. */
  lemma TagsWithSdkIdempotent(tags: Option<seq<string>>)
    ensures TagsWithSdk(Some(TagsWithSdk(tags))) == TagsWithSdk(tags)
  {
  }

  /** "sdk" ends up in the tags exactly as often as the caller wrote it, or once
      if the caller never did; every other tag keeps its count. */
  lemma TagsWithSdkCounts(tags: seq<string>, t: string)
    ensures multiset(TagsWithSdk(Some(tags)))[t] ==
      if t == "sdk" && "sdk" !in tags then 1 else multiset(tags)[t]
  {
    if "sdk" !in tags {
      assert TagsWithSdk(Some(tags)) == tags + ["sdk"];
    }
  }

  /** The tag lists `["x"]`, `["sdk","x"]` and `[]`. */
  lemma TagsWithSdkExamples()
    ensures TagsWithSdk(Some(["x"])) == ["x", "sdk"]
    ensures TagsWithSdk(Some(["sdk", "x"])) == ["sdk", "x"]
    ensures TagsWithSdk(Some([])) == ["sdk"]
  {
    assert "sdk" !in ["x"];
    var none: seq<string> := [];
    assert none + ["sdk"] == ["sdk"];
  }

  /** The start overrides carried by (possibly absent) create options. */
  function StartOptsOf(opts: Option<CreateSandboxOpts>): (r: Option<StartSandboxOpts>)
    ensures r.Some? <==> opts.Some?
    ensures r.Some? ==> r.value == opts.value.start
  {
    match opts
    case None => None
    case Some(o) => Some(o.start)
  }

  /** The fork request `create(opts)` sends. */
  function CreateRequest(opts: Option<CreateSandboxOpts>, baseUrl: Option<string>): (r: ForkRequest)
    ensures r.templateId == TemplateIdOf(if opts.Some? then opts.value.template else None, baseUrl)
    ensures FromNumber(r.body.privacy) ==
      Success(if opts.Some? && opts.value.privacy.Some? then opts.value.privacy.value else Public)
    ensures r.body.tags == TagsWithSdk(if opts.Some? then opts.value.tags else None)
    ensures r.body.path != ""
    ensures (opts.None? || opts.value.path.None? || opts.value.path.value == "") ==> r.body.path == "/SDK"
    ensures opts.Some? && opts.value.path.Some? && opts.value.path.value != "" ==>
      r.body.path == opts.value.path.value
    ensures r.body.title == (if opts.Some? then opts.value.title else None)
    ensures r.body.description == (if opts.Some? then opts.value.description else None)
    ensures r.body.start_options.None? <==> opts.Some? && opts.value.autoConnect == Some(false)
    ensures r.body.start_options.Some? ==>
      r.body.start_options == StartOptionsFromOpts(Some(if opts.Some? then opts.value.start else NoStartOpts))
  {
    var o := if opts.Some? then opts.value else NoCreateOpts;
    var privacy := if o.privacy.Some? then o.privacy.value else Public;
    var path := if o.path.Some? && o.path.value != "" then o.path.value else "/SDK";
    var startOptions := if o.autoConnect == Some(false) then None else StartOptionsFromOpts(Some(o.start));
    DecodeEncode(privacy);
    ForkRequest(
      TemplateIdOf(o.template, baseUrl),
      ForkBody(ToNumber(privacy), o.title, o.description, TagsWithSdk(o.tags), path, startOptions))
  }

  /** What `create(opts)` does once the fork call has answered: it ALWAYS goes on
      to connect, whatever `autoConnect` says, and the connector's start data is
      the fork's `start_response` when there is one, else a `start` call with the
      same options. */
  function CreateOutcome(opts: Option<CreateSandboxOpts>, forked: Transport<ForkResponse>)
    : (r: Result<ConnectPlan, Error>)
    ensures r.Failure? <==> forked.None?
    ensures r.Failure? ==> r.error == RequestFailed("Failed to create sandbox")
    ensures r.Success? ==> r.value.instanceId == forked.value.id
    ensures r.Success? ==> (r.value.source.Provided? <==> forked.value.start_response.Some?)
    ensures r.Success? && r.value.source.Provided? ==>
      r.value.source.data == forked.value.start_response.value
    ensures r.Success? && r.value.source.StartCall? ==>
      r.value.source.request == Start(forked.value.id, StartOptsOf(opts), None).0
  {
    match Handle(forked, "Failed to create sandbox")
    case Failure(e) => Failure(e)
    case Success(sandbox) =>
      var source := match sandbox.start_response
        case Some(data) => Provided(data)
        case None => StartCall(StartRequest(sandbox.id, StartOptionsFromOpts(StartOptsOf(opts))));
      Success(ConnectPlan(sandbox.id, source))
  }

  /** With `autoConnect: false` the fork carries no start options, yet the client
      still connects; and when the fork did not pre-start the VM, the start call
      it falls back on sends the caller's overrides after all. */
  lemma CreateConnectsWithoutAutoConnect(opts: CreateSandboxOpts, baseUrl: Option<string>, forked: ForkResponse)
    requires opts.autoConnect == Some(false)
    requires forked.start_response.None?
    ensures CreateRequest(Some(opts), baseUrl).body.start_options.None?
    ensures CreateOutcome(Some(opts), Some(forked)).Success?
    ensures CreateOutcome(Some(opts), Some(forked)).value.source.StartCall?
    ensures CreateOutcome(Some(opts), Some(forked)).value.source.request.body.Some?
  {
  }

  /** Otherwise, for given options, the fallback start call sends exactly the
      overrides the fork request already carried. */
  lemma FallbackStartRepeatsForkOptions(opts: CreateSandboxOpts, baseUrl: Option<string>, forked: ForkResponse)
    requires opts.autoConnect != Some(false)
    requires forked.start_response.None?
    ensures CreateOutcome(Some(opts), Some(forked)).value.source.request.body ==
            CreateRequest(Some(opts), baseUrl).body.start_options
  {
  }

  /** `fork(id, opts = {})`: `create` with the template forced to `id`. */
  function ForkRequestOf(id: string, opts: Option<CreateSandboxOpts>, baseUrl: Option<string>): (r: ForkRequest)
    ensures id != "" ==> r.templateId == id
    ensures id == "" ==> r.templateId == DefaultTemplate(baseUrl)
    ensures r.body == CreateRequest(Some((if opts.Some? then opts.value else NoCreateOpts).(template := None)), baseUrl).body
  {
    var o := if opts.Some? then opts.value else NoCreateOpts;
    CreateRequest(Some(o.(template := Some(TemplateId(id)))), baseUrl)
  }

  /** What `fork(id, opts = {})` does once the fork call has answered. Its
      options are never absent, so a fallback start call always sends a body. */
  function ForkOutcome(opts: Option<CreateSandboxOpts>, forked: Transport<ForkResponse>)
    : (r: Result<ConnectPlan, Error>)
    ensures r.Success? && r.value.source.StartCall? ==> r.value.source.request.body.Some?
    ensures r.Failure? <==> forked.None?
    ensures r.Failure? ==> r.error == RequestFailed("Failed to create sandbox")
    ensures r.Success? ==> r.value.instanceId == forked.value.id
    ensures r.Success? ==> (r.value.source.Provided? <==> forked.value.start_response.Some?)
    ensures r.Success? && r.value.source.Provided? ==>
      r.value.source.data == forked.value.start_response.value
    ensures r.Success? && r.value.source.StartCall? ==>
      r.value.source.request ==
        StartRequest(forked.value.id, StartOptionsFromOpts(Some((if opts.Some? then opts.value else NoCreateOpts).start)))
  {
    var o := if opts.Some? then opts.value else NoCreateOpts;
    CreateOutcome(Some(o), forked)
  }

  // ---------------------------------------------------------------- session connector

  /** What the real-time client's `requestPitcherInstance` callback resolves to. */
  datatype PitcherInstance = PitcherInstance(
    bootupType: string,
    pitcherURL: string,
    workspacePath: string,
    userWorkspacePath: string,
    pitcherManagerVersion: string,
    pitcherVersion: string,
    latestPitcherVersion: string,
    pitcherToken: string,
    cluster: string)

  /** The field renaming in `requestPitcherInstance`; the bootup-type cast checks nothing. */
  function InstanceOf(d: StartData): PitcherInstance {
    PitcherInstance(d.bootup_type, d.pitcher_url, d.workspace_path, d.user_workspace_path,
                    d.pitcher_manager_version, d.pitcher_version, d.latest_pitcher_version,
                    d.pitcher_token, d.cluster)
  }

  /** The preferred manager taken from the `x-pitcher-manager-url` header:
      the first "/api/v1" and then the first "https://" removed. */
  function PreferredManager(header: string): string {
    ReplaceFirst(ReplaceFirst(header, "/api/v1", ""), "https://", "")
  }

  /** The scheduler base: the first "api" of the configured base URL replaced by
      "global-scheduler"; a missing base URL renders as "undefined". */
  function SchedulerBase(baseUrl: Option<string>): string {
    match baseUrl
    case None => "undefined"
    case Some(b) => ReplaceFirst(b, "api", "global-scheduler")
  }

  /** The URL of the cluster-affinity side call, made only when the manager header
      is present and non-empty. */
  function AffinityUrl(header: Option<string>, baseUrl: Option<string>, id: string): (r: Option<string>)
    ensures r.Some? <==> header.Some? && header.value != ""
    ensures r.Some? ==>
      r.value == SchedulerBase(baseUrl) + "/api/v1/cluster/" + id + "?preferredManager=" + PreferredManager(header.value)
  {
    if header.Some? && header.value != "" then
      Some(SchedulerBase(baseUrl) + "/api/v1/cluster/" + id + "?preferredManager=" + PreferredManager(header.value))
    else None
  }

  /** A manager URL of the usual shape yields the bare host. */
  lemma PreferredManagerExample()
    ensures PreferredManager("https://m/api/v1") == "m"
  {
    var h := "https://m/api/v1";
    assert OccursAt(h, "/api/v1", 9);
    forall j: nat | j < 9 ensures !OccursAt(h, "/api/v1", j) {
      assert h[j..j + 7][0] == h[j] && h[j..j + 7][1] == h[j + 1];
    }
    assert ReplaceFirst(h, "/api/v1", "") == "https://m";
    assert OccursAt("https://m", "https://", 0);
  }

  /** The `requestPitcherInstance` callback: fetch the start data, make the
      affinity side call when the header asks for it, then translate. The side
      call's promise is awaited without a catch, so its failure fails the
      callback; `affinityOk` is its outcome. */
  function RequestInstance(data: Result<StartData, Error>, managerHeader: Option<string>,
                           baseUrl: Option<string>, affinityOk: bool): (r: Result<PitcherInstance, Error>)
    ensures data.Failure? ==> r == Failure(data.error)
    ensures r.Success? <==>
      data.Success? && (AffinityUrl(managerHeader, baseUrl, data.value.id).None? || affinityOk)
    ensures r.Success? ==> r.value == InstanceOf(data.value)
  {
    match data
    case Failure(e) => Failure(e)
    case Success(d) =>
      if AffinityUrl(managerHeader, baseUrl, d.id).Some? && !affinityOk then Failure(AffinityCallFailed)
      else Success(InstanceOf(d))
  }

  // ---------------------------------------------------------------- sessions

  /** `SessionCreateOptions` plus the `autoConnect` flag. */
  datatype SessionCreateOptions = SessionCreateOptions(permission: Option<string>, autoConnect: Option<bool>)

  datatype SessionBody = SessionBody(session_id: string, permission: string)

  datatype SessionResponse = SessionResponse(pitcher_token: string, pitcher_url: string, user_workspace_path: string)

  /** What `createSession` returns when it does not connect. */
  datatype SessionConnectInfo = SessionConnectInfo(
    id: string, pitcher_token: string, pitcher_url: string, user_workspace_path: string)

  datatype SessionOutcome = Unconnected(info: SessionConnectInfo) | Connect(plan: ConnectPlan)

  /** The create-session request body; permission defaults to "write" only when absent. */
  function SessionRequestOf(sessionId: string, options: Option<SessionCreateOptions>): (b: SessionBody)
    ensures b.session_id == sessionId
    ensures options.Some? && options.value.permission.Some? ==> b.permission == options.value.permission.value
    ensures (options.None? || options.value.permission.None?) ==> b.permission == "write"
  {
    var permission := if options.Some? && options.value.permission.Some? then options.value.permission.value else "write";
    SessionBody(sessionId, permission)
  }

  /** The start data `createSession` builds locally from the session credentials. */
  function SessionBundle(sandboxId: string, resp: SessionResponse): StartData {
    StartData("RESUME", "session", sandboxId, "1.0.0-session", "1.0.0-session",
              resp.pitcher_token, resp.pitcher_url, "1.0.0-session", "",
              resp.user_workspace_path, resp.user_workspace_path)
  }

  /** `createSession` after its REST call: the bare credentials when `autoConnect`
      is `false`, otherwise a connection fed with the locally built bundle. */
  function CreateSessionOutcome(sandboxId: string, sessionId: string, options: Option<SessionCreateOptions>,
                                resp: Transport<SessionResponse>): (r: Result<SessionOutcome, Error>)
    ensures r.Failure? <==> resp.None?
    ensures r.Failure? ==> r.error == RequestFailed("Failed to create session " + sessionId)
    ensures r.Success? ==> (r.value.Unconnected? <==> options.Some? && options.value.autoConnect == Some(false))
    ensures r.Success? && r.value.Unconnected? ==>
      r.value.info == SessionConnectInfo(sandboxId, resp.value.pitcher_token, resp.value.pitcher_url,
                                         resp.value.user_workspace_path)
    ensures r.Success? && r.value.Connect? ==>
      r.value.plan == ConnectPlan(sandboxId, Provided(SessionBundle(sandboxId, resp.value)))
  {
    match Handle(resp, "Failed to create session " + sessionId)
    case Failure(e) => Failure(e)
    case Success(s) =>
      if options.Some? && options.value.autoConnect == Some(false) then
        Success(Unconnected(SessionConnectInfo(sandboxId, s.pitcher_token, s.pitcher_url, s.user_workspace_path)))
      else
        Success(Connect(ConnectPlan(sandboxId, Provided(SessionBundle(sandboxId, s)))))
  }

  /** A connected session hands the real-time client the session's own token, URL
      and workspace path (as both paths), bootup type RESUME, the "session"
      cluster and the placeholder versions, whatever the manager header says. */
  lemma SessionInstance(sandboxId: string, resp: SessionResponse, header: Option<string>,
                        baseUrl: Option<string>)
    ensures var r := RequestInstance(Success(SessionBundle(sandboxId, resp)), header, baseUrl, true);
      && r.Success?
      && r.value.bootupType == "RESUME" && r.value.cluster == "session"
      && r.value.pitcherToken == resp.pitcher_token && r.value.pitcherURL == resp.pitcher_url
      && r.value.workspacePath == resp.user_workspace_path
      && r.value.userWorkspacePath == resp.user_workspace_path
      && r.value.pitcherVersion == r.value.pitcherManagerVersion == r.value.latestPitcherVersion == "1.0.0-session"
  {
  }

  /** Both modes of `createSession` carry the same credentials. */
  lemma SessionModesAgree(sandboxId: string, sessionId: string, resp: SessionResponse)
    ensures var off := CreateSessionOutcome(sandboxId, sessionId, Some(SessionCreateOptions(None, Some(false))), Some(resp));
            var on := CreateSessionOutcome(sandboxId, sessionId, None, Some(resp));
      && off.Success? && off.value.Unconnected? && on.Success? && on.value.Connect?
      && on.value.plan.source.data.pitcher_token == off.value.info.pitcher_token
      && on.value.plan.source.data.pitcher_url == off.value.info.pitcher_url
      && on.value.plan.source.data.user_workspace_path == off.value.info.user_workspace_path
      && on.value.plan.instanceId == off.value.info.id
  {
  }
}
