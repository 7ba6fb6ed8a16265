/**
 Properties of the cloud FTD onboarding workflow, stated for the caller: when
 it succeeds, where it stops, which calls it has issued by then and with which
 arguments, and what it returns.
 */
module CloudFtdCreateLemmas {
  import opened Results
  import opened Text
  import opened CloudFtdCreate

  /** The run succeeds exactly when every stage passes, and then all seven calls were issued. */
  lemma CreateSucceedsIffAllStagesPass(inp: CreateInput, ext: Foreign, r: Responses)
    ensures Create(inp, ext, r).result.Success? <==> AllStagesPass(inp, ext, r)
    ensures Create(inp, ext, r).result.Success? ==> |Create(inp, ext, r).calls| == StepCount
  {
    var run := Create(inp, ext, r);
    if run.result.Success? {
      forall i | 0 <= i < StepCount
        ensures StageError(inp, ext, r, i).None?
      {
        if i < StepCount - 1 { assert 0 <= i < |run.calls| - 1; }
      }
    }
  }

  /**
   The first failing stage decides the run: its error is returned unchanged,
   and the trace ends with that stage's call, so no later call is issued.
   */
  lemma CreateStopsAtFirstFailure(inp: CreateInput, ext: Foreign, r: Responses, k: nat, e: Error)
    requires k < StepCount
    requires forall j :: 0 <= j < k ==> StageError(inp, ext, r, j).None?
    requires StageError(inp, ext, r, k) == Some(e)
    ensures Create(inp, ext, r).result == Failure(e)
    ensures |Create(inp, ext, r).calls| == k + 1
  {
    CreateSucceedsIffAllStagesPass(inp, ext, r);
    assert !AllStagesPass(inp, ext, r);
  }

  /** A failed remote call ends the run with that call's own error, no matter which step it is. */
  lemma RemoteFailurePropagates(inp: CreateInput, ext: Foreign, r: Responses, k: nat, e: Error)
    requires k < StepCount
    requires forall j :: 0 <= j < k ==> StageError(inp, ext, r, j).None?
    requires e.Collaborator?
    requires StageError(inp, ext, r, k) == Some(e)
    ensures Create(inp, ext, r).result == Failure(e)
    ensures k == 0 ==> r.fmc == Failure(e)
    ensures k == 1 ==> r.domainInfo == Failure(e)
    ensures k == 2 ==> r.accessPolicies == Failure(e)
    ensures k == 3 ==> r.created == Failure(e)
    ensures k == 4 ==> r.specific == Failure(e)
    ensures k == 5 ==> r.onboarding == Failure(e)
    ensures k == 6 ==> r.poll == Failure(e)
  {
    CreateStopsAtFirstFailure(inp, ext, r, k, e);
  }

  /**
   An empty domain-info item list ends the run with "fmc domain info not
   found" after the domain-info read: no access policy is read and no device
   is posted.
   */
  lemma EmptyDomainInfoAbortsBeforePolicyRead(inp: CreateInput, ext: Foreign, r: Responses)
    requires r.fmc.Success?
    requires r.domainInfo.Success? && r.domainInfo.value.items == []
    ensures Create(inp, ext, r).result == Failure(Formatted("fmc domain info not found"))
    ensures Create(inp, ext, r).calls == [ReadFmc, ReadDomainInfo(r.fmc.value.host)]
  {
    CreateStopsAtFirstFailure(inp, ext, r, 1, DomainInfoNotFound);
    var run := Create(inp, ext, r);
    assert CallAsExpected(inp, ext, r, 0, run.calls[0]);
    assert CallAsExpected(inp, ext, r, 1, run.calls[1]);
  }

  /**
   When no access policy has the requested name the run fails after the
   policy read, no device is posted, and the error message quotes the
   requested name and the policies that were returned.
   */
  lemma UnknownPolicyAbortsBeforePost(inp: CreateInput, ext: Foreign, r: Responses)
    requires r.fmc.Success?
    requires r.domainInfo.Success? && |r.domainInfo.value.items| > 0
    requires r.accessPolicies.Success?
    requires forall i :: 0 <= i < |r.accessPolicies.value.items| ==>
               r.accessPolicies.value.items[i].name != inp.accessPolicyName
    ensures Create(inp, ext, r).result.Failure?
    ensures Create(inp, ext, r).result.error.Formatted?
    ensures Contains(Create(inp, ext, r).result.error.message, inp.accessPolicyName)
    ensures Contains(Create(inp, ext, r).result.error.message,
                     ext.formatPolicies(r.accessPolicies.value.items))
    ensures |Create(inp, ext, r).calls| == 3
    ensures forall c :: c in Create(inp, ext, r).calls ==> !c.PostDevice?
  {
    var items := r.accessPolicies.value.items;
    var e := PolicyNotFound(inp.accessPolicyName, items, ext);
    assert StageError(inp, ext, r, 2) == Some(e);
    CreateStopsAtFirstFailure(inp, ext, r, 2, e);
    var run := Create(inp, ext, r);
    forall c | c in run.calls
      ensures !c.PostDevice?
    {
      var i :| 0 <= i < |run.calls| && run.calls[i] == c;
      assert CallAsExpected(inp, ext, r, i, c);
    }
    PolicyNotFoundQuotesNameAndPolicies(inp.accessPolicyName, items, ext);
  }

  /** The policy-not-found message quotes the requested name and the rendered policy list. */
  lemma PolicyNotFoundQuotesNameAndPolicies(requested: string, items: seq<AccessPolicy>, ext: Foreign)
    ensures PolicyNotFound(requested, items, ext).Formatted?
    ensures Contains(PolicyNotFound(requested, items, ext).message, requested)
    ensures Contains(PolicyNotFound(requested, items, ext).message, ext.formatPolicies(items))
  {
    var msg := PolicyNotFound(requested, items, ext).message;
    var head := "access policy: \"";
    var middle := "\" not found, available policies: ";
    var rendered := ext.formatPolicies(items);
    var tail := PolicyNotFoundAdvice + ext.issuesUrl;
    assert msg == head + requested + (middle + rendered + tail);
    ContainsMiddle(head, requested, middle + rendered + tail);
    assert msg == (head + requested + middle) + rendered + tail;
    ContainsMiddle(head + requested + middle, rendered, tail);
  }

  /** A nil license list is dereferenced after the policy lookup: the run panics before the POST. */
  lemma NilLicensesPanicBeforePost(inp: CreateInput, ext: Foreign, r: Responses)
    requires r.fmc.Success?
    requires r.domainInfo.Success? && |r.domainInfo.value.items| > 0
    requires r.accessPolicies.Success?
    requires FindPolicy(r.accessPolicies.value.items, inp.accessPolicyName).Some?
    requires inp.licenses.None?
    ensures Create(inp, ext, r).result == Failure(NilLicenses)
    ensures |Create(inp, ext, r).calls| == 3
  {
    CreateStopsAtFirstFailure(inp, ext, r, 2, NilLicenses);
  }

  /** The access policies are read from the FMC's host, in the first domain, 1000 at most. */
  lemma PolicyReadUsesFirstDomain(inp: CreateInput, ext: Foreign, r: Responses)
    requires |Create(inp, ext, r).calls| >= 3
    ensures r.fmc.Success? && r.domainInfo.Success? && |r.domainInfo.value.items| > 0
    ensures Create(inp, ext, r).calls[2]
            == ReadAccessPolicies(r.fmc.value.host, r.domainInfo.value.items[0].uuid, 1000)
  {
    assert CallAsExpected(inp, ext, r, 2, Create(inp, ext, r).calls[2]);
  }

  /**
   The device POST carries the fixed fields, the FMC's uid, the caller's name
   and tags, and the policy whose name is exactly the requested one.
   */
  lemma PostBodyFields(inp: CreateInput, ext: Foreign, r: Responses)
    requires |Create(inp, ext, r).calls| >= 4
    ensures Create(inp, ext, r).calls[3].PostDevice?
    ensures var b := Create(inp, ext, r).calls[3].body;
      && r.fmc.Success? && r.accessPolicies.Success?
      && b.deviceType == CloudFtd
      && b.state == "NEW" && b.resourceType == "devices" && b.model == false
      && b.fmcId == r.fmc.value.uid
      && b.name == inp.name && b.tags == inp.tags
      && b.metadata.accessPolicyName == inp.accessPolicyName
      && AccessPolicy(b.metadata.accessPolicyName, b.metadata.accessPolicyUid) in r.accessPolicies.value.items
  {
    var b := Create(inp, ext, r).calls[3].body;
    assert CallAsExpected(inp, ext, r, 3, Create(inp, ext, r).calls[3]);
    var found := FindPolicy(r.accessPolicies.value.items, inp.accessPolicyName);
    assert AccessPolicy(b.metadata.accessPolicyName, b.metadata.accessPolicyUid) == found.value;
  }

  /**
   Performance-tier masking: a physical device's POST never carries a tier,
   whatever the caller passed; a virtual device's carries the caller's tier.
   */
  lemma PerformanceTierMasking(inp: CreateInput, ext: Foreign, r: Responses)
    requires |Create(inp, ext, r).calls| >= 4
    ensures Create(inp, ext, r).calls[3].PostDevice?
    ensures !inp.virtual ==> Create(inp, ext, r).calls[3].body.metadata.performanceTier == None
    ensures inp.virtual ==> Create(inp, ext, r).calls[3].body.metadata.performanceTier == inp.performanceTier
  {
    assert CallAsExpected(inp, ext, r, 3, Create(inp, ext, r).calls[3]);
  }

  /**
   Identifiers flow from step to step: the specific device is read with the
   POST response's uid, onboarding is triggered on the specific uid, and the
   poll waits on the POST uid with 3 retries and early exit on error.
   */
  lemma IdsFlowBetweenSteps(inp: CreateInput, ext: Foreign, r: Responses)
    ensures var calls := Create(inp, ext, r).calls;
      && (|calls| >= 5 ==> r.created.Success? && calls[4] == ReadSpecific(r.created.value.uid))
      && (|calls| >= 6 ==> r.specific.Success?
                           && calls[5] == UpdateSpecific(r.specific.value.specificUid, "INITIATE_FTDC_ONBOARDING"))
      && (|calls| >= 7 ==> r.created.Success?
                           && calls[6] == PollGeneratedCommand(r.created.value.uid, 3, true))
  {
    var calls := Create(inp, ext, r).calls;
    if |calls| >= 5 { assert CallAsExpected(inp, ext, r, 4, calls[4]); }
    if |calls| >= 6 { assert CallAsExpected(inp, ext, r, 5, calls[5]); }
    if |calls| >= 7 { assert CallAsExpected(inp, ext, r, 6, calls[6]); }
  }

  /** A successful run returns the POST response's uid, name and tags with the polled metadata. */
  lemma OutputFromPostAndPoll(inp: CreateInput, ext: Foreign, r: Responses)
    requires Create(inp, ext, r).result.Success?
    ensures r.created.Success? && r.poll.Success?
    ensures Create(inp, ext, r).result.value.uid == r.created.value.uid
    ensures Create(inp, ext, r).result.value.name == r.created.value.name
    ensures Create(inp, ext, r).result.value.tags == r.created.value.tags
    ensures Create(inp, ext, r).result.value.metadata == Some(r.poll.value)
  {
  }
}
