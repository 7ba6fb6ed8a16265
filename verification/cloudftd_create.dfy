/**
 Onboarding of a cloud-managed FTD device (an FTD managed by a cloud-delivered
 FMC): the `Create` workflow of client/device/cloudftd/create.go.

 `Create` issues seven dependent remote calls. None of them is executed here:
 the outcome of each call is an input (`Responses`), and `Create` returns, next
 to its result, the trace of the calls it issued together with their arguments.
 Each remote step appears in the trace exactly when the Go code would start it;
 the poll, which may send several reads, is one entry.
 */
module CloudFtdCreate {
  import opened Results

  // ---------------------------------------------------------------------------
  // Values the workflow handles. Types defined in other packages (performance
  // tier, license, tags) are kept opaque.

  datatype Tier = Tier(name: string)
  datatype License = License(name: string)
  datatype Tags = Tags(labels: seq<string>)

  /** The device types `Create` uses; only the cloud FTD is ever posted. */
  datatype DeviceType = CloudFtd

  /** Device metadata: the selected access policy, the serialized licenses and the tier. */
  datatype Metadata = Metadata(
    accessPolicyName: string,
    accessPolicyUid: string,
    licenseCaps: string,
    performanceTier: Option<Tier>)

  /** What the caller asks for; `licenses` is a pointer in Go and may be nil. */
  datatype CreateInput = CreateInput(
    name: string,
    accessPolicyName: string,
    performanceTier: Option<Tier>,
    virtual: bool,
    licenses: Option<seq<License>>,
    tags: Tags)

  /** Both the decoded response of the device POST and the result of `Create`. */
  datatype CreateOutput = CreateOutput(
    uid: string,
    name: string,
    metadata: Option<Metadata>,
    tags: Tags)

  /** The body of the device POST (JSON names: associatedDeviceUid, deviceType,
      metadata, name, state, type, model, tags). */
  datatype CreateRequestBody = CreateRequestBody(
    fmcId: string,
    deviceType: DeviceType,
    metadata: Metadata,
    name: string,
    state: string,
    resourceType: string,
    model: bool,
    tags: Tags)

  // ---------------------------------------------------------------------------
  // What the remote calls return when they succeed.

  datatype CloudFmc = CloudFmc(uid: string, host: string)
  datatype DomainItem = DomainItem(uuid: string)
  datatype DomainInfo = DomainInfo(items: seq<DomainItem>)
  datatype AccessPolicy = AccessPolicy(name: string, id: string)
  datatype AccessPolicies = AccessPolicies(items: seq<AccessPolicy>)
  datatype SpecificDevice = SpecificDevice(specificUid: string)
  datatype SpecificUpdated = SpecificUpdated(uid: string)

  /** The outcome of each remote step, in the order `Create` issues them. */
  datatype Responses = Responses(
    fmc: Result<CloudFmc, Error>,
    domainInfo: Result<DomainInfo, Error>,
    accessPolicies: Result<AccessPolicies, Error>,
    created: Result<CreateOutput, Error>,
    specific: Result<SpecificDevice, Error>,
    onboarding: Result<SpecificUpdated, Error>,
    poll: Result<Metadata, Error>)

  /** Foreign code whose source is not part of this model: license
      serialization, the `%s` rendering of a policy list, and the issues URL
      quoted in the policy-not-found message. */
  datatype Foreign = Foreign(
    serializeLicenses: seq<License> -> string,
    formatPolicies: seq<AccessPolicy> -> string,
    issuesUrl: string)

  /** A remote call as issued, with the arguments it was given. */
  datatype Call =
    | ReadFmc
    | ReadDomainInfo(fmcHost: string)
    | ReadAccessPolicies(fmcHost: string, domainUid: string, limit: nat)
    | PostDevice(body: CreateRequestBody)
    | ReadSpecific(deviceUid: string)
    | UpdateSpecific(specificUid: string, queueTriggerState: string)
    | PollGeneratedCommand(deviceUid: string, retries: nat, earlyExitOnError: bool)

  /** The result of `Create` and the calls it issued. */
  datatype Run = Run(result: Result<CreateOutput, Error>, calls: seq<Call>)

  const StepCount: nat := 7
  const AccessPolicyLimit: nat := 1000
  const InitiateOnboarding := "INITIATE_FTDC_ONBOARDING"
  const PollRetries: nat := 3
  const NewState := "NEW"
  const DevicesType := "devices"
  const DomainInfoNotFound := Formatted("fmc domain info not found")
  const PolicyNotFoundAdvice := ". In rare cases where you have more than 1000 access policies, please raise an issue at: "
  const NilLicenses := Panic("nil pointer dereference of CreateInput.Licenses")

  function NewCreateInput(
    name: string,
    accessPolicyName: string,
    performanceTier: Option<Tier>,
    virtual: bool,
    licenses: Option<seq<License>>,
    tags: Tags): CreateInput
  {
    CreateInput(name, accessPolicyName, performanceTier, virtual, licenses, tags)
  }

  /** The first access policy whose name is exactly `name`. */
  function FindPolicy(items: seq<AccessPolicy>, name: string): (r: Option<AccessPolicy>)
    ensures r.None? <==> forall i :: 0 <= i < |items| ==> items[i].name != name
    ensures r.Some? ==>
      exists i :: 0 <= i < |items| && items[i] == r.value && r.value.name == name
                  && forall j :: 0 <= j < i ==> items[j].name != name
  {
    if |items| == 0 then None
    else if items[0].name == name then Some(items[0])
    else FindPolicy(items[1..], name)
  }

  /** The error returned when no access policy has the requested name. */
  function PolicyNotFound(requested: string, items: seq<AccessPolicy>, ext: Foreign): Error
  {
    Formatted("access policy: \"" + requested + "\" not found, available policies: "
              + ext.formatPolicies(items)
              + PolicyNotFoundAdvice
              + ext.issuesUrl)
  }

  /** The POST body: fixed device type, state, type and model; the tier only for a virtual device. */
  function CreateBody(inp: CreateInput, fmc: CloudFmc, policy: AccessPolicy, licenseCaps: string): CreateRequestBody
  {
    var tier := if inp.virtual then inp.performanceTier else None;
    CreateRequestBody(
      fmcId := fmc.uid,
      deviceType := CloudFtd,
      metadata := Metadata(policy.name, policy.id, licenseCaps, tier),
      name := inp.name,
      state := NewState,
      resourceType := DevicesType,
      model := false,
      tags := inp.tags)
  }

  /**
   The reference failure table: the error stage `i` ends the workflow with,
   should every earlier stage have passed. A stage is a remote call together
   with the local checks that follow it before the next call.
   */
  function StageError(inp: CreateInput, ext: Foreign, r: Responses, i: nat): Option<Error>
  {
    match i
    case 0 => r.fmc.ErrorOf()
    case 1 =>
      if r.domainInfo.Failure? then Some(r.domainInfo.error)
      else if |r.domainInfo.value.items| == 0 then Some(DomainInfoNotFound)
      else None
    case 2 =>
      if r.accessPolicies.Failure? then Some(r.accessPolicies.error)
      else if FindPolicy(r.accessPolicies.value.items, inp.accessPolicyName).None? then
        Some(PolicyNotFound(inp.accessPolicyName, r.accessPolicies.value.items, ext))
      else if inp.licenses.None? then Some(NilLicenses)
      else None
    case 3 => r.created.ErrorOf()
    case 4 => r.specific.ErrorOf()
    case 5 => r.onboarding.ErrorOf()
    case 6 => r.poll.ErrorOf()
    case _ => None
  }

  /** Every stage of the workflow passes. */
  predicate AllStagesPass(inp: CreateInput, ext: Foreign, r: Responses)
  {
    forall i :: 0 <= i < StepCount ==> StageError(inp, ext, r, i).None?
  }

  /**
   What the device POST must carry: the FMC's uid, the fixed device type,
   state, type and model, the caller's name and tags, and metadata naming the
   policy found under the requested name, the serialized licenses and a tier
   that a physical device never gets.
   */
  predicate BodyAsExpected(inp: CreateInput, ext: Foreign, r: Responses, b: CreateRequestBody)
  {
    && r.fmc.Success?
    && r.accessPolicies.Success?
    && inp.licenses.Some?
    && var found := FindPolicy(r.accessPolicies.value.items, inp.accessPolicyName);
    && found.Some?
    && b.fmcId == r.fmc.value.uid
    && b.deviceType == CloudFtd
    && b.state == NewState
    && b.resourceType == DevicesType
    && b.model == false
    && b.name == inp.name
    && b.tags == inp.tags
    && b.metadata.accessPolicyName == found.value.name
    && b.metadata.accessPolicyUid == found.value.id
    && b.metadata.licenseCaps == ext.serializeLicenses(inp.licenses.value)
    && (!inp.virtual ==> b.metadata.performanceTier == None)
    && (inp.virtual ==> b.metadata.performanceTier == inp.performanceTier)
  }

  /**
   The reference call table: call number `i` of the workflow, with the
   arguments taken from the responses of the earlier calls.
   */
  predicate CallAsExpected(inp: CreateInput, ext: Foreign, r: Responses, i: nat, c: Call)
  {
    match i
    case 0 => c == ReadFmc
    case 1 => r.fmc.Success? && c == ReadDomainInfo(r.fmc.value.host)
    case 2 =>
      && r.fmc.Success? && r.domainInfo.Success? && |r.domainInfo.value.items| > 0
      && c == ReadAccessPolicies(r.fmc.value.host, r.domainInfo.value.items[0].uuid, AccessPolicyLimit)
    case 3 => c.PostDevice? && BodyAsExpected(inp, ext, r, c.body)
    case 4 => r.created.Success? && c == ReadSpecific(r.created.value.uid)
    case 5 =>
      && r.specific.Success?
      && c == UpdateSpecific(r.specific.value.specificUid, InitiateOnboarding)
    case 6 => r.created.Success? && c == PollGeneratedCommand(r.created.value.uid, PollRetries, true)
    case _ => false
  }

  /** The output of a successful run: identity from the POST response, metadata from the poll. */
  predicate OutputAsExpected(r: Responses, o: CreateOutput)
  {
    && r.created.Success?
    && r.poll.Success?
    && o == CreateOutput(r.created.value.uid, r.created.value.name, Some(r.poll.value), r.created.value.tags)
  }

  /**
   `run` is what the workflow must produce from stage `k` on: the calls of
   stages `k`, `k + 1`, ... as the call table has them; every stage but the
   last one reached passes; and the run ends either after the last stage with
   the expected output, or at the first failing stage with that stage's error.
   */
  predicate Follows(inp: CreateInput, ext: Foreign, r: Responses, k: nat, run: Run)
  {
    && 1 <= |run.calls|
    && k + |run.calls| <= StepCount
    && (forall i :: 0 <= i < |run.calls| ==> CallAsExpected(inp, ext, r, k + i, run.calls[i]))
    && (forall i :: k <= i < k + |run.calls| - 1 ==> StageError(inp, ext, r, i).None?)
    && (run.result.Success? ==>
          && k + |run.calls| == StepCount
          && StageError(inp, ext, r, StepCount - 1).None?
          && OutputAsExpected(r, run.result.value))
    && (run.result.Failure? ==>
          StageError(inp, ext, r, k + |run.calls| - 1) == Some(run.result.error))
  }

  /** The call of the current stage followed by the run of the later stages. */
  function Then(c: Call, rest: Run): Run
  {
    Run(rest.result, [c] + rest.calls)
  }

  /** A stage that ends the run with `e`, having issued `c`. */
  function Stop(c: Call, e: Error): Run
  {
    Run(Failure(e), [c])
  }

  /** A failing stage `k` whose call is as expected ends the run with the stage's error. */
  lemma StopFollows(inp: CreateInput, ext: Foreign, r: Responses, k: nat, c: Call, e: Error)
    requires k < StepCount
    requires CallAsExpected(inp, ext, r, k, c)
    requires StageError(inp, ext, r, k) == Some(e)
    ensures Follows(inp, ext, r, k, Stop(c, e))
  {
  }

  /** A passing stage `k` whose call is as expected extends a run that follows from stage `k + 1`. */
  lemma ThenFollows(inp: CreateInput, ext: Foreign, r: Responses, k: nat, c: Call, rest: Run)
    requires CallAsExpected(inp, ext, r, k, c)
    requires StageError(inp, ext, r, k).None?
    requires Follows(inp, ext, r, k + 1, rest)
    ensures Follows(inp, ext, r, k, Then(c, rest))
  {
    var run := Then(c, rest);
    forall i | 0 <= i < |run.calls|
      ensures CallAsExpected(inp, ext, r, k + i, run.calls[i])
    {
      if i > 0 {
        assert run.calls[i] == rest.calls[i - 1];
        assert CallAsExpected(inp, ext, r, (k + 1) + (i - 1), rest.calls[i - 1]);
      }
    }
  }

  /**
   The onboarding workflow. Each remote call is issued only when every earlier
   one succeeded and the local checks between them passed; the first failure
   ends the run with that failure's error.
   */
  function Create(inp: CreateInput, ext: Foreign, r: Responses): (run: Run)
    ensures Follows(inp, ext, r, 0, run)
  {
    var call := ReadFmc;
    match r.fmc
    case Failure(e) =>
      StopFollows(inp, ext, r, 0, call, e);
      Stop(call, e)
    case Success(fmc) =>
      var rest := ReadDomainInfoStage(inp, ext, r, fmc);
      ThenFollows(inp, ext, r, 0, call, rest);
      Then(call, rest)
  }

  /** Stage 1: the domain info of the FMC's host; an empty item list ends the run. */
  function ReadDomainInfoStage(inp: CreateInput, ext: Foreign, r: Responses, fmc: CloudFmc): (run: Run)
    requires r.fmc == Success(fmc)
    ensures Follows(inp, ext, r, 1, run)
  {
    var call := ReadDomainInfo(fmc.host);
    match r.domainInfo
    case Failure(e) =>
      StopFollows(inp, ext, r, 1, call, e);
      Stop(call, e)
    case Success(domain) =>
      if |domain.items| == 0 then
        StopFollows(inp, ext, r, 1, call, DomainInfoNotFound);
        Stop(call, DomainInfoNotFound)
      else
        var rest := ReadAccessPoliciesStage(inp, ext, r, fmc, domain.items[0].uuid);
        ThenFollows(inp, ext, r, 1, call, rest);
        Then(call, rest)
  }

  /** Stage 2: up to 1000 access policies of the FMC's first domain. */
  function ReadAccessPoliciesStage(inp: CreateInput, ext: Foreign, r: Responses, fmc: CloudFmc, domainUid: string): (run: Run)
    requires r.fmc == Success(fmc)
    requires r.domainInfo.Success? && |r.domainInfo.value.items| > 0
    requires domainUid == r.domainInfo.value.items[0].uuid
    ensures Follows(inp, ext, r, 2, run)
  {
    var call := ReadAccessPolicies(fmc.host, domainUid, AccessPolicyLimit);
    match r.accessPolicies
    case Failure(e) =>
      StopFollows(inp, ext, r, 2, call, e);
      Stop(call, e)
    case Success(policies) => SelectPolicy(inp, ext, r, fmc, call, policies)
  }

  /** The rest of stage 2: look the requested policy up and build the POST body,
      which dereferences the license list. */
  function SelectPolicy(inp: CreateInput, ext: Foreign, r: Responses, fmc: CloudFmc, call: Call, policies: AccessPolicies): (run: Run)
    requires r.fmc == Success(fmc)
    requires r.accessPolicies == Success(policies)
    requires CallAsExpected(inp, ext, r, 2, call)
    ensures Follows(inp, ext, r, 2, run)
  {
    var found := FindPolicy(policies.items, inp.accessPolicyName);
    if found.None? then
      var e := PolicyNotFound(inp.accessPolicyName, policies.items, ext);
      StopFollows(inp, ext, r, 2, call, e);
      Stop(call, e)
    else if inp.licenses.None? then
      StopFollows(inp, ext, r, 2, call, NilLicenses);
      Stop(call, NilLicenses)
    else
      var body := CreateBody(inp, fmc, found.value, ext.serializeLicenses(inp.licenses.value));
      assert BodyAsExpected(inp, ext, r, body);
      var rest := PostDeviceStage(inp, ext, r, body);
      ThenFollows(inp, ext, r, 2, call, rest);
      Then(call, rest)
  }

  /** Stage 3: the device POST; its response names the new device. */
  function PostDeviceStage(inp: CreateInput, ext: Foreign, r: Responses, body: CreateRequestBody): (run: Run)
    requires BodyAsExpected(inp, ext, r, body)
    ensures Follows(inp, ext, r, 3, run)
  {
    var call := PostDevice(body);
    match r.created
    case Failure(e) =>
      StopFollows(inp, ext, r, 3, call, e);
      Stop(call, e)
    case Success(created) =>
      var rest := ReadSpecificStage(inp, ext, r, created);
      ThenFollows(inp, ext, r, 3, call, rest);
      Then(call, rest)
  }

  /** Stage 4: the specific device of the posted device. */
  function ReadSpecificStage(inp: CreateInput, ext: Foreign, r: Responses, created: CreateOutput): (run: Run)
    requires r.created == Success(created)
    ensures Follows(inp, ext, r, 4, run)
  {
    var call := ReadSpecific(created.uid);
    match r.specific
    case Failure(e) =>
      StopFollows(inp, ext, r, 4, call, e);
      Stop(call, e)
    case Success(specific) =>
      var rest := InitiateOnboardingStage(inp, ext, r, created, specific.specificUid);
      ThenFollows(inp, ext, r, 4, call, rest);
      Then(call, rest)
  }

  /** Stage 5: trigger onboarding on the specific device; only its error matters. */
  function InitiateOnboardingStage(inp: CreateInput, ext: Foreign, r: Responses, created: CreateOutput, specificUid: string): (run: Run)
    requires r.created == Success(created)
    requires r.specific.Success? && specificUid == r.specific.value.specificUid
    ensures Follows(inp, ext, r, 5, run)
  {
    var call := UpdateSpecific(specificUid, InitiateOnboarding);
    match r.onboarding
    case Failure(e) =>
      StopFollows(inp, ext, r, 5, call, e);
      Stop(call, e)
    case Success(_) =>
      var rest := PollStage(inp, ext, r, created);
      ThenFollows(inp, ext, r, 5, call, rest);
      Then(call, rest)
  }

  /** Stage 6: wait, with 3 retries and early exit on error, until the
      generated command is available; then assemble the output. */
  function PollStage(inp: CreateInput, ext: Foreign, r: Responses, created: CreateOutput): (run: Run)
    requires r.created == Success(created)
    ensures Follows(inp, ext, r, 6, run)
  {
    var call := PollGeneratedCommand(created.uid, PollRetries, true);
    match r.poll
    case Failure(e) =>
      StopFollows(inp, ext, r, 6, call, e);
      Stop(call, e)
    case Success(metadata) =>
      Run(Success(CreateOutput(created.uid, created.name, Some(metadata), created.tags)), [call])
  }
}
