/** What the service makes of registrations and submissions before storage sees them. */
module Service {
  import opened Types
  import opened RunInvariants
  import opened Instructions

  datatype Runtime = Runtime(id: string, provider: string)

  datatype NodeRegistration = NodeRegistration(id: string, protocol: string, runtimes: seq<Runtime>, capacity: int)

  datatype Registered = Registered(node: NodeRegistration) | Incompatible | Incomplete | DuplicateRuntime

  function InstanceId(nodeId: string, provider: string): string {
    TrimSpace(nodeId) + "/" + TrimSpace(provider)
  }

  function Named(nodeId: string, runtime: Runtime): Runtime {
    if runtime.id == "" then runtime.(id := InstanceId(nodeId, runtime.provider)) else runtime
  }

  lemma NamesAreNotEmpty()
    ensures forall nodeId, provider :: InstanceId(nodeId, provider) != ""
  {
    hide TrimSpace;
  }

  ghost predicate UniqueIds(runtimes: seq<Runtime>) {
    forall i, j :: 0 <= i < j < |runtimes| ==> runtimes[i].id != runtimes[j].id
  }

  function AllNamed(nodeId: string, runtimes: seq<Runtime>): (named: seq<Runtime>)
    ensures |named| == |runtimes| && forall i :: 0 <= i < |runtimes| ==> named[i] == Named(nodeId, runtimes[i])
  {
    seq(|runtimes|, i requires 0 <= i < |runtimes| => Named(nodeId, runtimes[i]))
  }

  /** Fills in names and capacity, and refuses two runtimes that end up with one name. */
  method RegisterNode(registration: NodeRegistration, protocol: string) returns (result: Registered)
    ensures result == Incompatible <==> registration.protocol != protocol
    ensures result == Incomplete <==>
              registration.protocol == protocol && (registration.id == "" || registration.runtimes == [])
    ensures result == DuplicateRuntime <==>
              registration.protocol == protocol && registration.id != "" && registration.runtimes != []
              && !UniqueIds(AllNamed(registration.id, registration.runtimes))
    ensures result.Registered? ==>
              result.node == registration.(runtimes := AllNamed(registration.id, registration.runtimes),
                                           capacity := if registration.capacity <= 0 then 1 else registration.capacity)
    ensures result.Registered? ==>
              |result.node.runtimes| == |registration.runtimes| &&
              forall i :: 0 <= i < |registration.runtimes| ==>
                result.node.runtimes[i].provider == registration.runtimes[i].provider
                && result.node.runtimes[i].id == if registration.runtimes[i].id != "" then registration.runtimes[i].id
                                                 else TrimSpace(registration.id) + "/" + TrimSpace(registration.runtimes[i].provider)
    ensures result.Registered? ==> UniqueIds(result.node.runtimes) && result.node.capacity >= 1 && result.node.id != ""
    ensures result.Registered? ==> forall i :: 0 <= i < |result.node.runtimes| ==> result.node.runtimes[i].id != ""
  {
    hide TrimSpace;
    NamesAreNotEmpty();
    if registration.protocol != protocol { return Incompatible; }
    if registration.id == "" || |registration.runtimes| == 0 { return Incomplete; }
    var node := registration;
    if node.capacity <= 0 { node := node.(capacity := 1); }
    var seen: set<string> := {};
    var runtimes := node.runtimes;
    ghost var named := AllNamed(node.id, node.runtimes);
    for index := 0 to |runtimes|
      invariant |runtimes| == |named|
      invariant forall k :: 0 <= k < index ==> runtimes[k] == named[k]
      invariant forall k :: index <= k < |runtimes| ==> runtimes[k] == registration.runtimes[k]
      invariant seen == set k | 0 <= k < index :: named[k].id
      invariant forall i, j :: 0 <= i < j < index ==> named[i].id != named[j].id
    {
      var runtime := runtimes[index];
      if runtime.id == "" { runtime := runtime.(id := InstanceId(node.id, runtime.provider)); }
      assert runtime == named[index];
      if runtime.id in seen {
        ghost var k :| 0 <= k < index && named[k].id == runtime.id;
        return DuplicateRuntime;
      }
      runtimes := runtimes[index := runtime];
      seen := seen + {runtime.id};
    }
    assert runtimes == named;
    result := Registered(node.(runtimes := runtimes));
  }

  /** A duration text: absent, malformed, or a number of ticks. */
  datatype Duration = Absent | Malformed | Ticks(ticks: Time)

  datatype Submission = Submission(request: Request, agent: string, prompt: string, provider: string, backoff: Duration, timeout: Duration)

  datatype Submitted = Submitted(request: Request) | Lacking | BadBackoff | BadTimeout

  /** A request that storage accepts has at least one attempt, and a deadline only in the future. */
  method Submit(submission: Submission, host: Option<(string, string)>) returns (result: Submitted)
    ensures result == Lacking <==>
              submission.agent == "" || submission.request.key == "" || submission.prompt == "" || submission.provider == ""
    ensures result == BadBackoff <==> result != Lacking && submission.backoff == Malformed
    ensures result == BadTimeout <==>
              result != Lacking && result != BadBackoff && submission.timeout != Absent
              && (submission.timeout == Malformed || submission.timeout.ticks <= 0)
    ensures result.Submitted? ==>
              result.request.maxAttempts == if submission.request.maxAttempts < 1 then 1 else submission.request.maxAttempts
    ensures result.Submitted? ==> AttemptLimit(result.request) == AttemptLimit(submission.request) == result.request.maxAttempts
    ensures result.Submitted? ==> (result.request.timeout > 0 <==> submission.timeout != Absent) && result.request.timeout >= 0
    ensures result.Submitted? && submission.timeout != Absent ==> submission.timeout == Ticks(result.request.timeout)
    ensures result.Submitted? ==>
              result.request.backoff == match submission.backoff case Ticks(ticks) => ticks case _ => 0
    ensures result.Submitted? && host.Some? ==> (result.request.tenant, result.request.project) == host.value
    ensures result.Submitted? && host.None? ==>
              (result.request.tenant, result.request.project) == (submission.request.tenant, submission.request.project)
    ensures result.Submitted? ==> result.request.key == submission.request.key && result.request.needs == submission.request.needs
  {
    var request := submission.request;
    if host.Some? { request := request.(tenant := host.value.0, project := host.value.1); }
    if submission.agent == "" || request.key == "" || submission.prompt == "" || submission.provider == "" { return Lacking; }
    if request.maxAttempts <= 0 { request := request.(maxAttempts := 1); }
    if submission.backoff == Malformed { return BadBackoff; }
    request := request.(backoff := if submission.backoff.Ticks? then submission.backoff.ticks else 0);
    if submission.timeout != Absent {
      if submission.timeout == Malformed || submission.timeout.ticks <= 0 { return BadTimeout; }
      request := request.(timeout := submission.timeout.ticks);
    } else {
      request := request.(timeout := 0);
    }
    result := Submitted(request);
  }
}
