/** The metric-gated rollout of deployment/deploy_register.py: register the model
    under a timestamp version, make sure the endpoint exists (recreating a Failed
    one), wait for it to become ready, create the "blue" deployment, route all
    traffic to it, and only then fetch the endpoint key.

    The remote workspace is the `Platform` class below: its fields are the
    remote state (endpoint, registered models, deployments, traffic, key), the
    scripted answers the remote side gives, the clock that `time.sleep`
    advances, and the log of every call made to it. */
module Rollout {
  import opened Wrappers
  import opened Digits
  import opened MetricGate

  // ---------------------------------------------------------------------
  // Registration version: datetime.now().strftime("%Y%m%d%H%M%S")
  // ---------------------------------------------------------------------

  datatype DateTime = DateTime(year: nat, month: nat, day: nat, hour: nat, minute: nat, second: nat)

  /** The instants `datetime.now()` can return in this model: four-digit years,
      and each field in its calendar range. */
  predicate ValidDateTime(t: DateTime) {
    1000 <= t.year <= 9999 && 1 <= t.month <= 12 && 1 <= t.day <= 31 &&
    t.hour < 24 && t.minute < 60 && t.second < 60
  }

  /** `%Y%m%d%H%M%S`: fourteen digits, every field zero-padded. */
  function Timestamp(t: DateTime): (r: string)
    requires ValidDateTime(t)
    ensures |r| == 14 && IsDigits(r)
  {
    assert Pow10(2) == 100 && Pow10(4) == 10000;
    Pad(t.year, 4) + Pad(t.month, 2) + Pad(t.day, 2) +
    Pad(t.hour, 2) + Pad(t.minute, 2) + Pad(t.second, 2)
  }

  /** Reads the six fields back from a fourteen-digit timestamp. */
  function ParseTimestamp(s: string): DateTime
    requires |s| == 14 && IsDigits(s)
  {
    DateTime(DigitsValue(s[..4]), DigitsValue(s[4..6]), DigitsValue(s[6..8]),
             DigitsValue(s[8..10]), DigitsValue(s[10..12]), DigitsValue(s[12..]))
  }

  /** The timestamp version determines the instant it was taken from. */
  lemma TimestampRoundTrip(t: DateTime)
    requires ValidDateTime(t)
    ensures ParseTimestamp(Timestamp(t)) == t
  {
    assert Pow10(2) == 100 && Pow10(4) == 10000;
    var y, mo, d := Pad(t.year, 4), Pad(t.month, 2), Pad(t.day, 2);
    var h, mi, s := Pad(t.hour, 2), Pad(t.minute, 2), Pad(t.second, 2);
    var r := Timestamp(t);
    assert r == y + mo + d + h + mi + s;
    assert r[..4] == y;
    assert r[4..6] == mo;
    assert r[6..8] == d;
    assert r[8..10] == h;
    assert r[10..12] == mi;
    assert r[12..] == s;
  }

  /** Registrations made at different seconds get different versions. */
  lemma TimestampInjective(t1: DateTime, t2: DateTime)
    requires ValidDateTime(t1) && ValidDateTime(t2) && t1 != t2
    ensures Timestamp(t1) != Timestamp(t2)
  {
    TimestampRoundTrip(t1);
    TimestampRoundTrip(t2);
  }

  // ---------------------------------------------------------------------
  // Remote entities and the call log
  // ---------------------------------------------------------------------

  datatype ProvisioningState = Creating | Updating | Deleting | Succeeded | Failed | Canceled

  /** States in which the platform is still working on the endpoint. */
  predicate InProgress(s: ProvisioningState) {
    s == Creating || s == Updating || s == Deleting
  }

  /** A model reference: the registry's answer, or the stand-in built when
      registration raised. Both carry the id the deployment refers to. */
  datatype ModelRef =
    | Registered(id: string, name: string, version: string)
    | Fallback(id: string, name: string, version: string)

  const ModelName: string := "incident-model"

  /** The id of the stand-in reference: "azureml:incident-model:" + version. */
  function FallbackId(version: string): (id: string)
    ensures |id| == |"azureml:incident-model:"| + |version|
    ensures id[..|"azureml:incident-model:"|] == "azureml:incident-model:"
    ensures id[|"azureml:incident-model:"|..] == version
  {
    "azureml:" + ModelName + ":" + version
  }

  datatype Deployment = Deployment(
    name: string, endpointName: string, model: string, instanceType: string, instanceCount: nat)

  /** The deployment slot every rollout creates. */
  function BlueDeployment(endpointName: string, model: ModelRef): Deployment {
    Deployment("blue", endpointName, model.id, "Standard_DS3_v2", 1)
  }

  /** All traffic to the blue slot. */
  const BlueTraffic: map<string, int> := map["blue" := 100]

  /** One entry of the platform's call log (sleeps included). */
  datatype Call =
    | ModelRegistration(name: string, version: string, path: string)
    | EndpointLookup(endpoint: string, answer: Option<ProvisioningState>)
    | EndpointDeletion(endpoint: string)
    | EndpointCreation(endpoint: string, authMode: string)
    | Pause(units: nat)
    | DeploymentCreation(deployment: Deployment)
    | TrafficUpdate(endpoint: string, traffic: map<string, int>)
    | KeyRetrieval(endpoint: string)

  /** The endpoint as the platform holds it: its state (None when it does not
      exist or cannot be fetched) and the states it is scripted to move through
      while the platform is still working on it. */
  datatype EndpointView = EndpointView(state: Option<ProvisioningState>, progress: seq<ProvisioningState>)

  /** One lookup: an endpoint the platform is still working on moves to its next
      scripted state; any other endpoint stays as it is. */
  function AfterLookup(v: EndpointView): (w: EndpointView)
    ensures |w.progress| <= |v.progress|
    ensures v.state.None? || !InProgress(v.state.value) || v.progress == [] ==> w == v
  {
    if v.state.Some? && InProgress(v.state.value) && |v.progress| > 0
    then EndpointView(Some(v.progress[0]), v.progress[1..])
    else v
  }

  /** The answers of `k` successive lookups and the endpoint after them. */
  function Lookups(v: EndpointView, k: nat): (r: (seq<Option<ProvisioningState>>, EndpointView))
    ensures |r.0| == k
    ensures k > 0 ==> r.0[0] == v.state
    ensures |r.1.progress| <= |v.progress|
  {
    if k == 0 then ([], v)
    else
      var (answers, w) := Lookups(v, k - 1);
      (answers + [w.state], AfterLookup(w))
  }

  /** An endpoint that is settled, or that the platform has stopped working
      on, answers every lookup the same way. */
  lemma {:induction false} SettledLookups(v: EndpointView, k: nat)
    requires v.state.None? || !InProgress(v.state.value) || v.progress == []
    ensures Lookups(v, k).1 == v
    ensures forall i :: 0 <= i < k ==> Lookups(v, k).0[i] == v.state
  {
    if k > 0 {
      SettledLookups(v, k - 1);
    }
  }

  /** The last of `k` lookups of such an endpoint sees its current state. */
  lemma LastLookup(v: EndpointView, k: nat)
    requires v.state.None? || !InProgress(v.state.value) || v.progress == []
    requires k >= 1
    ensures Lookups(v, k).0[k - 1] == v.state
  {
    SettledLookups(v, k);
  }

  // ---------------------------------------------------------------------
  // The remote platform
  // ---------------------------------------------------------------------

  class Platform {
    // remote state
    var endpoint: Option<ProvisioningState>
    var progress: seq<ProvisioningState>
    var models: seq<ModelRef>
    var deployments: seq<Deployment>
    var traffic: map<string, int>
    const primaryKey: string
    // scripted behaviour of the remote side
    const registrationFails: bool
    const registeredId: string
    const deleteFails: bool
    const createError: Option<string>
    const deploymentFails: bool
    const trafficFails: bool
    const keyFails: bool
    // the clock `time.sleep` advances, and every call made, in order
    var clock: nat
    var log: seq<Call>

    constructor (endpoint: Option<ProvisioningState>, progress: seq<ProvisioningState>,
                 primaryKey: string, registrationFails: bool, registeredId: string,
                 deleteFails: bool, createError: Option<string>,
                 deploymentFails: bool, trafficFails: bool, keyFails: bool)
      ensures this.endpoint == endpoint && this.progress == progress
      ensures models == [] && deployments == [] && traffic == map[]
      ensures this.primaryKey == primaryKey
      ensures this.registrationFails == registrationFails && this.registeredId == registeredId
      ensures this.deleteFails == deleteFails && this.createError == createError
      ensures this.deploymentFails == deploymentFails && this.trafficFails == trafficFails
      ensures this.keyFails == keyFails
      ensures clock == 0 && log == []
    {
      this.endpoint, this.progress := endpoint, progress;
      models, deployments, traffic := [], [], map[];
      this.primaryKey := primaryKey;
      this.registrationFails, this.registeredId := registrationFails, registeredId;
      this.deleteFails, this.createError := deleteFails, createError;
      this.deploymentFails, this.trafficFails, this.keyFails := deploymentFails, trafficFails, keyFails;
      clock, log := 0, [];
    }

    function View(): EndpointView
      reads this`endpoint, this`progress
    {
      EndpointView(endpoint, progress)
    }

    /** `ml_client.models.create_or_update(model)`: None when it raises. */
    method RegisterModel(name: string, version: string, path: string) returns (r: Option<ModelRef>)
      modifies this`models, this`log
      ensures r == if registrationFails then None else Some(Registered(registeredId, name, version))
      ensures models == if registrationFails then old(models) else old(models) + [r.value]
      ensures log == old(log) + [ModelRegistration(name, version, path)]
    {
      log := log + [ModelRegistration(name, version, path)];
      if registrationFails {
        r := None;
      } else {
        r := Some(Registered(registeredId, name, version));
        models := models + [r.value];
      }
    }

    /** `ml_client.online_endpoints.get(name)`: the endpoint's state, or None
        when the call raises. */
    method GetEndpoint(name: string) returns (answer: Option<ProvisioningState>)
      modifies this`endpoint, this`progress, this`log
      ensures answer == old(endpoint)
      ensures View() == AfterLookup(old(View()))
      ensures log == old(log) + [EndpointLookup(name, answer)]
    {
      answer := endpoint;
      var w := AfterLookup(View());
      endpoint, progress := w.state, w.progress;
      log := log + [EndpointLookup(name, answer)];
    }

    /** `begin_delete(name).wait()`: false when it raises. */
    method DeleteEndpoint(name: string) returns (ok: bool)
      modifies this`endpoint, this`log
      ensures ok == !deleteFails
      ensures endpoint == if ok then None else old(endpoint)
      ensures log == old(log) + [EndpointDeletion(name)]
    {
      log := log + [EndpointDeletion(name)];
      ok := !deleteFails;
      if ok {
        endpoint := None;
      }
    }

    /** `begin_create_or_update(endpoint).result()` with key authentication:
        the error message when it raises; otherwise the endpoint is being created. */
    method CreateEndpoint(name: string) returns (err: Option<string>)
      modifies this`endpoint, this`log
      ensures err == createError
      ensures endpoint == if err.Some? then old(endpoint) else Some(Creating)
      ensures log == old(log) + [EndpointCreation(name, "key")]
    {
      log := log + [EndpointCreation(name, "key")];
      err := createError;
      if err.None? {
        endpoint := Some(Creating);
      }
    }

    /** `time.sleep(units)`. */
    method Sleep(units: nat)
      modifies this`clock, this`log
      ensures clock == old(clock) + units
      ensures log == old(log) + [Pause(units)]
    {
      clock := clock + units;
      log := log + [Pause(units)];
    }

    /** `online_deployments.begin_create_or_update(d).result()`: false when it raises. */
    method CreateDeployment(d: Deployment) returns (ok: bool)
      modifies this`deployments, this`log
      ensures ok == !deploymentFails
      ensures deployments == if ok then old(deployments) + [d] else old(deployments)
      ensures log == old(log) + [DeploymentCreation(d)]
    {
      log := log + [DeploymentCreation(d)];
      ok := !deploymentFails;
      if ok {
        deployments := deployments + [d];
      }
    }

    /** `online_endpoints.begin_update(...traffic...).result()`: false when it raises. */
    method UpdateTraffic(name: string, t: map<string, int>) returns (ok: bool)
      modifies this`traffic, this`log
      ensures ok == !trafficFails
      ensures traffic == if ok then t else old(traffic)
      ensures log == old(log) + [TrafficUpdate(name, t)]
    {
      log := log + [TrafficUpdate(name, t)];
      ok := !trafficFails;
      if ok {
        traffic := t;
      }
    }

    /** `online_endpoints.get_keys(name).primary_key`: None when it raises. */
    method GetKeys(name: string) returns (key: Option<string>)
      modifies this`log
      ensures key == if keyFails then None else Some(primaryKey)
      ensures log == old(log) + [KeyRetrieval(name)]
    {
      log := log + [KeyRetrieval(name)];
      key := if keyFails then None else Some(primaryKey);
    }
  }

  // ---------------------------------------------------------------------
  // The rollout
  // ---------------------------------------------------------------------

  /** The command-line arguments the rollout uses. */
  datatype Args = Args(modelPath: string, threshold: real, endpointName: string, metricName: string)

  /** The exceptions that end a rollout. `remediation` records whether the
      provider-registration instructions were shown before re-raising. */
  datatype Failure =
    | EndpointCreationFailed(message: string, remediation: bool)
    | EndpointProvisioningFailed
    | EndpointLookupFailed
    | DeploymentFailed
    | TrafficUpdateFailed
    | KeyRetrievalFailed

  datatype Outcome = Skipped | Deployed(key: string) | Raised(failure: Failure)

  datatype PollResult = Ready | ProvisioningFailed | LookupRaised | BudgetExhausted

  const SettleWait: nat := 30
  const MaxWait: nat := 600
  const PollInterval: nat := 10

  /** `sub in s` on strings. */
  predicate Contains(s: string, sub: string)
    decreases |s|
  {
    sub <= s || (s != [] && Contains(s[1..], sub))
  }

  /** The error a failed endpoint creation re-raises. */
  function CreationFailure(message: string): (f: Failure)
    ensures f.EndpointCreationFailed? && f.message == message
    ensures f.remediation <==> Contains(message, "SubscriptionNotRegistered")
  {
    EndpointCreationFailed(message, Contains(message, "SubscriptionNotRegistered"))
  }

  /** No call in `calls` retrieves the endpoint key. */
  predicate NoKeyFetch(calls: seq<Call>) {
    forall i :: 0 <= i < |calls| ==> !calls[i].KeyRetrieval?
  }

  lemma NoKeyFetchConcat(a: seq<Call>, b: seq<Call>)
    requires NoKeyFetch(a) && NoKeyFetch(b)
    ensures NoKeyFetch(a + b)
  {
    forall i | 0 <= i < |a + b|
      ensures !(a + b)[i].KeyRetrieval?
    {
      if i >= |a| {
        assert (a + b)[i] == b[i - |a|];
      }
    }
  }

  /** The calls that replace a Failed endpoint: look it up, delete it, wait
      for the settling interval, create it afresh. */
  function Recreation(name: string): (calls: seq<Call>)
    ensures |calls| == 4 && NoKeyFetch(calls)
  {
    [EndpointLookup(name, Some(Failed)), EndpointDeletion(name), Pause(SettleWait), EndpointCreation(name, "key")]
  }

  /** Whether the creation at lines 96-110 is reached and raises: the endpoint
      could not be fetched or was Failed, and the platform rejects the creation. */
  predicate CreationRaises(e: Option<ProvisioningState>, createError: Option<string>) {
    (e.None? || e == Some(Failed)) && createError.Some?
  }

  /** The endpoint once lines 81-110 are done with it, from the endpoint before. */
  function Ensured(v: EndpointView, deleteFails: bool, createError: Option<string>): (w: EndpointView)
    ensures v.state.Some? && v.state.value != Failed ==> w == AfterLookup(v)
    ensures v.state.None? || v.state == Some(Failed) ==>
      w.progress == v.progress && (w.state == Some(Creating) <==> createError.None?)
    ensures w.state.Some? <==> !CreationRaises(v.state, createError) || (v.state == Some(Failed) && deleteFails)
  {
    if v.state.Some? && v.state.value != Failed then AfterLookup(v)
    else if createError.None? then EndpointView(Some(Creating), v.progress)
    else if v.state == Some(Failed) && deleteFails then v
    else EndpointView(None, v.progress)
  }

  /** The time lines 81-110 sleep: the settling wait after a deletion that returned. */
  function EnsureWait(e: Option<ProvisioningState>, deleteFails: bool): nat {
    if e == Some(Failed) && !deleteFails then SettleWait else 0
  }

  /** The calls lines 81-110 make, from the endpoint the lookup returned and
      whether its deletion raises: a kept endpoint costs the lookup alone; an
      endpoint that is missing or Failed is created (whether or not the
      creation then raises), after a deletion when it was Failed. */
  function EnsureCalls(name: string, e: Option<ProvisioningState>, deleteFails: bool): (calls: seq<Call>)
    ensures |calls| >= 1 && calls[0] == EndpointLookup(name, e) && NoKeyFetch(calls)
    ensures e == Some(Failed) && !deleteFails ==> calls == Recreation(name)
  {
    if e.Some? && e.value != Failed then [EndpointLookup(name, e)]
    else if e.None? then [EndpointLookup(name, None), EndpointCreation(name, "key")]
    else if deleteFails then [EndpointLookup(name, e), EndpointDeletion(name), EndpointCreation(name, "key")]
    else Recreation(name)
  }

  /** Lines 81-110: look the endpoint up; delete a Failed one and wait before
      recreating it; create it when it cannot be fetched; re-raise a creation
      error. An existing endpoint in any other state is kept. */
  method EnsureEndpoint(p: Platform, name: string) returns (err: Option<Failure>, ghost calls: seq<Call>)
    modifies p`endpoint, p`progress, p`log, p`clock
    ensures p.log == old(p.log) + calls && NoKeyFetch(calls)
    ensures |calls| >= 1 && calls[0] == EndpointLookup(name, old(p.endpoint))
    ensures err.Some? ==> p.createError.Some? && err == Some(CreationFailure(p.createError.value))
    ensures var e := old(p.endpoint);
      e.Some? && e.value != Failed ==>
        err.None? && calls == [EndpointLookup(name, e)] &&
        p.View() == AfterLookup(old(p.View())) && p.clock == old(p.clock)
    ensures old(p.endpoint) == Some(Failed) && !p.deleteFails ==>
      calls == Recreation(name) &&
      p.clock == old(p.clock) + SettleWait
    ensures old(p.endpoint) == Some(Failed) && p.deleteFails ==>
      calls == [EndpointLookup(name, Some(Failed)), EndpointDeletion(name),
                EndpointCreation(name, "key")] &&
      p.clock == old(p.clock)
    ensures old(p.endpoint).None? ==>
      calls == [EndpointLookup(name, None), EndpointCreation(name, "key")] &&
      p.clock == old(p.clock)
    ensures old(p.endpoint).None? || old(p.endpoint) == Some(Failed) ==>
      p.progress == old(p.progress) &&
      err == (if p.createError.Some? then Some(CreationFailure(p.createError.value)) else None) &&
      p.endpoint == (if err.None? then Some(Creating)
                     else if old(p.endpoint) == Some(Failed) && p.deleteFails then Some(Failed)
                     else None)
    ensures calls == EnsureCalls(name, old(p.endpoint), p.deleteFails)
    ensures p.View() == Ensured(old(p.View()), p.deleteFails, p.createError)
    ensures p.clock == old(p.clock) + EnsureWait(old(p.endpoint), p.deleteFails)
    ensures err == if CreationRaises(old(p.endpoint), p.createError) then Some(CreationFailure(p.createError.value)) else None
  {
    ghost var log0 := p.log;
    var current := p.GetEndpoint(name);
    calls := [EndpointLookup(name, current)];
    err := None;
    if current.Some? && current.value != Failed {
      return;
    }
    if current == Some(Failed) {
      var deleted := p.DeleteEndpoint(name);
      ConcatAssoc(log0, calls, [EndpointDeletion(name)]);
      calls := calls + [EndpointDeletion(name)];
      if deleted {
        p.Sleep(SettleWait);
        ConcatAssoc(log0, calls, [Pause(SettleWait)]);
        calls := calls + [Pause(SettleWait)];
      }
    }
    var createError := p.CreateEndpoint(name);
    ConcatAssoc(log0, calls, [EndpointCreation(name, "key")]);
    calls := calls + [EndpointCreation(name, "key")];
    if createError.Some? {
      err := Some(CreationFailure(createError.value));
    }
  }

  /** The calls of polls that each end with a sleep. */
  function PollCalls(name: string, answers: seq<Option<ProvisioningState>>): (calls: seq<Call>)
    ensures |calls| == 2 * |answers|
    ensures NoKeyFetch(calls)
  {
    if answers == [] then []
    else PollCalls(name, answers[..|answers| - 1]) + [EndpointLookup(name, answers[|answers| - 1]), Pause(PollInterval)]
  }

  predicate Settled(answer: Option<ProvisioningState>) {
    answer == Some(Succeeded) || answer == Some(Failed)
  }

  /** An answer after which the loop sleeps and polls again: the lookup
      returned, and the endpoint is neither ready nor failed. */
  predicate Pending(answer: Option<ProvisioningState>) {
    answer.Some? && !Settled(answer)
  }

  /** Lines 113-125: poll the endpoint every 10 units until it reports Succeeded
      (ready) or Failed (raise), for at most 600 units; when the budget runs out
      the rollout carries on without raising. A lookup that raises (None) is
      outside any `try` and ends the loop, and the script, there. `answers`
      are the states the polls observed. */
  method WaitUntilReady(p: Platform, name: string)
    returns (r: PollResult, polls: nat, ghost answers: seq<Option<ProvisioningState>>, ghost calls: seq<Call>)
    modifies p`endpoint, p`progress, p`log, p`clock
    ensures p.log == old(p.log) + calls && NoKeyFetch(calls)
    ensures 1 <= polls <= MaxWait / PollInterval
    ensures (answers, p.View()) == Lookups(old(p.View()), polls)
    ensures forall i :: 0 <= i < polls - 1 ==> Pending(answers[i])
    ensures r == Ready <==> answers[polls - 1] == Some(Succeeded)
    ensures r == ProvisioningFailed <==> answers[polls - 1] == Some(Failed)
    ensures r == LookupRaised <==> answers[polls - 1].None?
    ensures r == BudgetExhausted ==>
      polls == MaxWait / PollInterval &&
      calls == PollCalls(name, answers) &&
      p.clock == old(p.clock) + MaxWait
    ensures r != BudgetExhausted ==>
      calls == PollCalls(name, answers[..polls - 1]) + [EndpointLookup(name, answers[polls - 1])] &&
      p.clock == old(p.clock) + PollInterval * (polls - 1)
  {
    var start := p.clock;
    ghost var view0, log0 := p.View(), p.log;
    r, polls, answers, calls := BudgetExhausted, 0, [], [];
    while p.clock - start < MaxWait
      invariant p.clock == start + PollInterval * polls
      invariant polls <= MaxWait / PollInterval
      invariant (answers, p.View()) == Lookups(view0, polls)
      invariant forall i :: 0 <= i < polls ==> Pending(answers[i])
      invariant calls == PollCalls(name, answers)
      invariant p.log == log0 + calls
      decreases MaxWait - (p.clock - start)
    {
      ghost var before := answers;
      var answer := p.GetEndpoint(name);
      polls, answers := polls + 1, answers + [answer];
      assert answers[..polls - 1] == before;
      if answer.None? || answer == Some(Succeeded) || answer == Some(Failed) {
        r := if answer.None? then LookupRaised
             else if answer == Some(Succeeded) then Ready
             else ProvisioningFailed;
        ConcatAssoc(log0, calls, [EndpointLookup(name, answer)]);
        calls := calls + [EndpointLookup(name, answer)];
        NoKeyFetchConcat(PollCalls(name, before), [EndpointLookup(name, answer)]);
        return;
      }
      p.Sleep(PollInterval);
      PollCallsSnoc(name, before, answer);
      ConcatAssoc(log0, calls, [EndpointLookup(name, answer)]);
      ConcatAssoc(log0, calls + [EndpointLookup(name, answer)], [Pause(PollInterval)]);
      calls := PollCalls(name, answers);
    }
  }

  lemma PollCallsSnoc(name: string, answers: seq<Option<ProvisioningState>>, answer: Option<ProvisioningState>)
    ensures PollCalls(name, answers + [answer]) ==
      PollCalls(name, answers) + [EndpointLookup(name, answer)] + [Pause(PollInterval)]
  {
    assert (answers + [answer])[..|answers|] == answers;
  }

  /** The calls lines 128-146 make: the deployment, then the traffic update
      once the deployment returned, then the key lookup once the traffic
      update returned. */
  function FinaleCalls(name: string, model: ModelRef, deploymentFails: bool, trafficFails: bool): (calls: seq<Call>)
    ensures 1 <= |calls| <= 3 && calls[0] == DeploymentCreation(BlueDeployment(name, model))
    ensures calls[|calls| - 1] == KeyRetrieval(name) <==> !deploymentFails && !trafficFails
    ensures NoKeyFetch(calls[..|calls| - 1])
  {
    [DeploymentCreation(BlueDeployment(name, model))] +
    (if deploymentFails then []
     else [TrafficUpdate(name, BlueTraffic)] + (if trafficFails then [] else [KeyRetrieval(name)]))
  }

  /** Lines 128-146: create the blue deployment, route all traffic to it and,
      once that has been applied, fetch the endpoint's primary key. */
  method Finale(p: Platform, name: string, model: ModelRef) returns (out: Outcome, ghost calls: seq<Call>)
    modifies p`deployments, p`traffic, p`log
    ensures p.log == old(p.log) + calls
    ensures p.View() == old(p.View()) && p.clock == old(p.clock)
    ensures calls == FinaleCalls(name, model, p.deploymentFails, p.trafficFails)
    ensures p.deploymentFails ==>
      out == Raised(DeploymentFailed) &&
      calls == [DeploymentCreation(BlueDeployment(name, model))] &&
      p.traffic == old(p.traffic)
    ensures !p.deploymentFails && p.trafficFails ==>
      out == Raised(TrafficUpdateFailed) &&
      calls == [DeploymentCreation(BlueDeployment(name, model)), TrafficUpdate(name, BlueTraffic)] &&
      p.traffic == old(p.traffic)
    ensures !p.deploymentFails && !p.trafficFails ==>
      out == (if p.keyFails then Raised(KeyRetrievalFailed) else Deployed(p.primaryKey)) &&
      calls == [DeploymentCreation(BlueDeployment(name, model)), TrafficUpdate(name, BlueTraffic), KeyRetrieval(name)] &&
      p.traffic == BlueTraffic
    ensures p.deployments == if p.deploymentFails then old(p.deployments) else old(p.deployments) + [BlueDeployment(name, model)]
    ensures p.traffic == if Routed(out) then BlueTraffic else old(p.traffic)
    ensures out == PromotionOutcome(None, p.deploymentFails, p.trafficFails, p.keyFails, p.primaryKey)
  {
    calls := [DeploymentCreation(BlueDeployment(name, model))];
    var deployed := p.CreateDeployment(BlueDeployment(name, model));
    if !deployed {
      return Raised(DeploymentFailed), calls;
    }
    calls := calls + [TrafficUpdate(name, BlueTraffic)];
    var routed := p.UpdateTraffic(name, BlueTraffic);
    if !routed {
      return Raised(TrafficUpdateFailed), calls;
    }
    calls := calls + [KeyRetrieval(name)];
    var key := p.GetKeys(name);
    if key.None? {
      return Raised(KeyRetrievalFailed), calls;
    }
    out := Deployed(key.value);
  }

  /** Lines 112-146 after the polls: an exception raised while provisioning
      ends the script before the finale; otherwise the finale runs. */
  method Conclude(p: Platform, name: string, model: ModelRef, err: Option<Failure>)
    returns (out: Outcome, ghost calls: seq<Call>)
    modifies p`deployments, p`traffic, p`log
    ensures p.log == old(p.log) + calls
    ensures p.View() == old(p.View()) && p.clock == old(p.clock)
    ensures out == PromotionOutcome(err, p.deploymentFails, p.trafficFails, p.keyFails, p.primaryKey)
    ensures calls == if err.None? then FinaleCalls(name, model, p.deploymentFails, p.trafficFails) else []
    ensures p.deployments == if err.None? && !p.deploymentFails then old(p.deployments) + [BlueDeployment(name, model)]
                             else old(p.deployments)
    ensures p.traffic == if err.None? && !p.deploymentFails && !p.trafficFails then BlueTraffic else old(p.traffic)
  {
    if err.Some? {
      return Raised(err.value), [];
    }
    out, calls := Finale(p, name, model);
  }

  /** The answers a run of the poll loop can observe: at most 60, every one
      but the last pending, and a pending last one only when the budget is
      spent. */
  predicate PollAnswers(answers: seq<Option<ProvisioningState>>) {
    |answers| <= MaxWait / PollInterval &&
    (forall i :: 0 <= i < |answers| - 1 ==> Pending(answers[i])) &&
    (answers != [] && Pending(answers[|answers| - 1]) ==> |answers| == MaxWait / PollInterval)
  }

  /** The time the poll loop sleeps: once after every pending answer. */
  function PollWait(answers: seq<Option<ProvisioningState>>): nat {
    if answers != [] && !Pending(answers[|answers| - 1]) then PollInterval * (|answers| - 1)
    else PollInterval * |answers|
  }

  /** The calls the poll loop makes for the answers it observed: a lookup
      and a sleep per pending answer, and a last lookup without a sleep when
      the loop stopped on a settled or raising one. */
  function PollLog(name: string, answers: seq<Option<ProvisioningState>>): (calls: seq<Call>)
    ensures NoKeyFetch(calls)
  {
    if answers != [] && !Pending(answers[|answers| - 1]) then
      NoKeyFetchConcat(PollCalls(name, answers[..|answers| - 1]), [EndpointLookup(name, answers[|answers| - 1])]);
      PollCalls(name, answers[..|answers| - 1]) + [EndpointLookup(name, answers[|answers| - 1])]
    else PollCalls(name, answers)
  }

  /** The exception lines 81-125 end with, given the endpoint before, the
      platform's answer to a creation and the answers of the polls. */
  function ProvisionError(e: Option<ProvisioningState>, createError: Option<string>,
                          answers: seq<Option<ProvisioningState>>): (err: Option<Failure>)
    ensures err.Some? ==> !err.value.KeyRetrievalFailed? && !err.value.DeploymentFailed? && !err.value.TrafficUpdateFailed?
  {
    if CreationRaises(e, createError) then Some(CreationFailure(createError.value))
    else PollError(answers)
  }

  /** The exception the poll loop ends with, from the answers it observed. */
  function PollError(answers: seq<Option<ProvisioningState>>): (err: Option<Failure>)
    ensures err.Some? ==> err.value == EndpointLookupFailed || err.value == EndpointProvisioningFailed
  {
    if answers != [] && answers[|answers| - 1].None? then Some(EndpointLookupFailed)
    else if answers != [] && answers[|answers| - 1] == Some(Failed) then Some(EndpointProvisioningFailed)
    else None
  }

  /** Lines 112-125 as one step: the poll loop, with its result turned into
      the exception that ends the script, if any. */
  method AwaitEndpoint(p: Platform, name: string)
    returns (err: Option<Failure>, ghost answers: seq<Option<ProvisioningState>>, ghost calls: seq<Call>)
    modifies p`endpoint, p`progress, p`log, p`clock
    ensures p.log == old(p.log) + calls && NoKeyFetch(calls)
    ensures answers != [] && PollAnswers(answers)
    ensures calls == PollLog(name, answers)
    ensures (answers, p.View()) == Lookups(old(p.View()), |answers|)
    ensures p.clock == old(p.clock) + PollWait(answers)
    ensures err == PollError(answers)
    ensures var v := old(p.View());
      v.state.None? || !InProgress(v.state.value) || v.progress == [] ==>
        answers[|answers| - 1] == v.state
  {
    ghost var view := p.View();
    var ready, polls, ans, c := WaitUntilReady(p, name);
    answers, calls := ans, c;
    if view.state.None? || !InProgress(view.state.value) || view.progress == [] {
      LastLookup(view, polls);
    }
    err := if ready == ProvisioningFailed then Some(EndpointProvisioningFailed)
           else if ready == LookupRaised then Some(EndpointLookupFailed)
           else None;
  }

  /** Lines 112-125 once the endpoint was ensured: an exception `created`
      raised while creating it propagates before the poll loop starts, and
      otherwise the loop runs. */
  method AwaitCreated(p: Platform, name: string, created: Option<Failure>)
    returns (err: Option<Failure>, ghost answers: seq<Option<ProvisioningState>>, ghost calls: seq<Call>)
    modifies p`endpoint, p`progress, p`log, p`clock
    ensures p.log == old(p.log) + calls
    ensures answers == [] <==> created.Some?
    ensures PollAnswers(answers)
    ensures calls == PollLog(name, answers)
    ensures (answers, p.View()) == Lookups(old(p.View()), |answers|)
    ensures p.clock == old(p.clock) + PollWait(answers)
    ensures err == if created.Some? then created else PollError(answers)
    ensures var v := old(p.View());
      created.None? && (v.state.None? || !InProgress(v.state.value) || v.progress == []) ==>
        answers[|answers| - 1] == v.state
  {
    if created.Some? {
      assert PollLog(name, []) == [];
      return created, [], [];
    }
    err, answers, calls := AwaitEndpoint(p, name);
  }

  /** The calls of lines 81-125 open with those of ensuring the endpoint and
      fetch no key. */
  lemma ProvisionCalls(name: string, e: Option<ProvisioningState>, deleteFails: bool,
                       answers: seq<Option<ProvisioningState>>, calls: seq<Call>)
    requires calls == EnsureCalls(name, e, deleteFails) + PollLog(name, answers)
    ensures NoKeyFetch(calls) && |calls| >= 1
    ensures EnsureCalls(name, e, deleteFails) <= calls
    ensures e == Some(Failed) && !deleteFails ==> Recreation(name) <= calls
  {
    NoKeyFetchConcat(EnsureCalls(name, e, deleteFails), PollLog(name, answers));
  }

  /** Lines 81-125: ensure the endpoint, then wait for it. A creation error, a
      lookup that raises and a Failed poll end the rollout; a ready endpoint
      and an exhausted budget both let it go on to the deployment. `answers`
      are the poll answers (none when the creation raised). */
  method Provision(p: Platform, name: string)
    returns (err: Option<Failure>, ghost answers: seq<Option<ProvisioningState>>, ghost calls: seq<Call>)
    modifies p`endpoint, p`progress, p`log, p`clock
    ensures p.log == old(p.log) + calls && NoKeyFetch(calls) && |calls| >= 1
    ensures old(p.endpoint) == Some(Failed) && !p.deleteFails ==>
      Recreation(name) <= calls
    ensures answers == [] <==> CreationRaises(old(p.endpoint), p.createError)
    ensures PollAnswers(answers)
    ensures calls == EnsureCalls(name, old(p.endpoint), p.deleteFails) + PollLog(name, answers)
    ensures (answers, p.View()) == Lookups(Ensured(old(p.View()), p.deleteFails, p.createError), |answers|)
    ensures p.clock == old(p.clock) + EnsureWait(old(p.endpoint), p.deleteFails) + PollWait(answers)
    ensures err == ProvisionError(old(p.endpoint), p.createError, answers)
    ensures old(p.endpoint) == Some(Succeeded) ==> err.None?
    ensures old(p.endpoint).Some? && InProgress(old(p.endpoint).value) && old(p.progress) == [] ==>
      err.None?
  {
    var created, c1 := EnsureEndpoint(p, name);
    ghost var c2;
    err, answers, c2 := AwaitCreated(p, name, created);
    calls := c1 + c2;
    ConcatAssoc(old(p.log), c1, c2);
    ProvisionCalls(name, old(p.endpoint), p.deleteFails, answers, calls);
  }

  /** An endpoint that exists is never lost by a lookup, so polls of an
      endpoint that was fetched or created never raise: on this platform model,
      `EndpointLookupFailed` cannot arise after provisioning. */
  lemma {:induction false} LookupsOfExistingEndpoint(v: EndpointView, k: nat)
    requires v.state.Some?
    ensures Lookups(v, k).1.state.Some?
    ensures forall i :: 0 <= i < k ==> Lookups(v, k).0[i].Some?
  {
    if k > 0 {
      LookupsOfExistingEndpoint(v, k - 1);
    }
  }

  /** Provisioning lets the rollout go on exactly when the endpoint was created
      or kept, and the polls either saw it ready or used up the budget while it
      was still pending. */
  lemma ProvisionPassesIff(e: Option<ProvisioningState>, createError: Option<string>,
                           answers: seq<Option<ProvisioningState>>)
    requires PollAnswers(answers)
    requires answers == [] <==> CreationRaises(e, createError)
    ensures ProvisionError(e, createError, answers).None? <==>
      answers != [] &&
      (answers[|answers| - 1] == Some(Succeeded) ||
       (|answers| == MaxWait / PollInterval && Pending(answers[|answers| - 1])))
  {
  }

  /** The model reference the deployment uses when registration of `version`
      answered `registered`. */
  function ModelFor(registered: Option<ModelRef>, version: string): (m: ModelRef)
    ensures registered.None? ==> m == Fallback(FallbackId(version), ModelName, version)
    ensures registered.Some? ==> m == registered.value
  {
    registered.GetOr(Fallback(FallbackId(version), ModelName, version))
  }

  /** The model reference the deployment uses after registering `version`
      on a platform whose registry raises or answers with `registeredId`. */
  function UsedModel(registrationFails: bool, registeredId: string, version: string): (m: ModelRef)
    ensures m.version == version && m.name == ModelName
    ensures m.Fallback? <==> registrationFails
  {
    ModelFor(if registrationFails then None else Some(Registered(registeredId, ModelName, version)), version)
  }

  /** How the rollout ends once the model is registered: the provisioning
      error when there is one, then the first of the deployment, traffic and
      key errors, and otherwise the endpoint key. */
  function PromotionOutcome(provisioning: Option<Failure>, deploymentFails: bool, trafficFails: bool,
                            keyFails: bool, key: string): (out: Outcome)
    ensures out.Deployed? <==> provisioning.None? && !deploymentFails && !trafficFails && !keyFails
    ensures provisioning.None? ==> (Routed(out) <==> !deploymentFails && !trafficFails)
    ensures provisioning.Some? ==> out == Raised(provisioning.value)
  {
    if provisioning.Some? then Raised(provisioning.value)
    else if deploymentFails then Raised(DeploymentFailed)
    else if trafficFails then Raised(TrafficUpdateFailed)
    else if keyFails then Raised(KeyRetrievalFailed)
    else Deployed(key)
  }

  /** The outcomes reached after the traffic was routed to blue: the key was
      fetched, or fetching it raised. */
  predicate Routed(out: Outcome) {
    out.Deployed? || out == Raised(KeyRetrievalFailed)
  }

  /** The finale's calls after calls that fetch no key: the key is fetched
      last and only when the deployment and the traffic update returned. */
  lemma FinaleLog(pre: seq<Call>, name: string, model: ModelRef, deploymentFails: bool, trafficFails: bool)
    requires NoKeyFetch(pre)
    ensures var calls := pre + FinaleCalls(name, model, deploymentFails, trafficFails);
      (!deploymentFails && !trafficFails ==>
        |calls| >= 3 && NoKeyFetch(calls[..|calls| - 1]) &&
        calls[|calls| - 3..] == [DeploymentCreation(BlueDeployment(name, model)),
                                 TrafficUpdate(name, BlueTraffic),
                                 KeyRetrieval(name)]) &&
      (deploymentFails || trafficFails ==> NoKeyFetch(calls))
  {
    var f := FinaleCalls(name, model, deploymentFails, trafficFails);
    NoKeyFetchConcat(pre, f[..|f| - 1]);
    assert (pre + f)[..|pre + f| - 1] == pre + f[..|f| - 1];
    if deploymentFails || trafficFails {
      assert f[..|f| - 1] + [f[|f| - 1]] == f;
      NoKeyFetchConcat(pre + f[..|f| - 1], [f[|f| - 1]]);
      assert pre + f[..|f| - 1] + [f[|f| - 1]] == pre + f;
    } else {
      assert (pre + f)[|pre + f| - 3..] == f;
    }
  }

  /** The calls lines 81-146 make: those of ensuring the endpoint, those of
      the polls, then those of the finale when provisioning raised nothing. */
  function DeployCalls(name: string, model: ModelRef, e: Option<ProvisioningState>, deleteFails: bool,
                       createError: Option<string>, answers: seq<Option<ProvisioningState>>,
                       deploymentFails: bool, trafficFails: bool): (calls: seq<Call>)
    ensures EnsureCalls(name, e, deleteFails) <= calls
  {
    EnsureCalls(name, e, deleteFails) + PollLog(name, answers) +
    (if ProvisionError(e, createError, answers).None?
     then FinaleCalls(name, model, deploymentFails, trafficFails) else [])
  }

  /** The key is fetched last, and only once the traffic is routed to blue;
      a Failed endpoint whose deletion returned is recreated first. */
  lemma DeployCallsShape(name: string, model: ModelRef, e: Option<ProvisioningState>, deleteFails: bool,
                         createError: Option<string>, answers: seq<Option<ProvisioningState>>,
                         deploymentFails: bool, trafficFails: bool, keyFails: bool, key: string,
                         out: Outcome, calls: seq<Call>)
    requires out == PromotionOutcome(ProvisionError(e, createError, answers), deploymentFails, trafficFails, keyFails, key)
    requires calls == DeployCalls(name, model, e, deleteFails, createError, answers, deploymentFails, trafficFails)
    ensures |calls| >= 1
    ensures e == Some(Failed) && !deleteFails ==> Recreation(name) <= calls
    ensures Routed(out) ==>
      |calls| >= 3 && NoKeyFetch(calls[..|calls| - 1]) &&
      calls[|calls| - 3..] == [DeploymentCreation(BlueDeployment(name, model)),
                               TrafficUpdate(name, BlueTraffic),
                               KeyRetrieval(name)]
    ensures !Routed(out) ==> NoKeyFetch(calls)
  {
    var pre := EnsureCalls(name, e, deleteFails) + PollLog(name, answers);
    NoKeyFetchConcat(EnsureCalls(name, e, deleteFails), PollLog(name, answers));
    if ProvisionError(e, createError, answers).None? {
      FinaleLog(pre, name, model, deploymentFails, trafficFails);
    } else {
      assert pre + [] == pre;
    }
  }

  /** Calls that fetch no key, put before `d`, keep what `d` says about key
      fetches and about its last three calls. */
  lemma PrefixCalls(pre: seq<Call>, a: seq<Call>, d: seq<Call>)
    requires NoKeyFetch(pre)
    ensures |pre + d| == |pre| + |d| && (pre + d)[..|pre|] == pre
    ensures a <= d ==> pre + a <= pre + d
    ensures NoKeyFetch(d) ==> NoKeyFetch(pre + d)
    ensures |d| >= 3 && NoKeyFetch(d[..|d| - 1]) ==>
      NoKeyFetch((pre + d)[..|pre + d| - 1]) && (pre + d)[|pre + d| - 3..] == d[|d| - 3..]
  {
    if NoKeyFetch(d) {
      NoKeyFetchConcat(pre, d);
    }
    if |d| >= 3 && NoKeyFetch(d[..|d| - 1]) {
      assert (pre + d)[..|pre + d| - 1] == pre + d[..|d| - 1];
      NoKeyFetchConcat(pre, d[..|d| - 1]);
    }
  }

  /** Lines 81-146: provision the endpoint, then deploy `model` to it, route
      all traffic there and fetch the key. */
  method DeployTo(p: Platform, name: string, model: ModelRef)
    returns (out: Outcome, ghost answers: seq<Option<ProvisioningState>>, ghost calls: seq<Call>)
    modifies p`endpoint, p`progress, p`log, p`clock, p`deployments, p`traffic
    ensures p.log == old(p.log) + calls && |calls| >= 1
    ensures out == PromotionOutcome(ProvisionError(old(p.endpoint), p.createError, answers),
                                    p.deploymentFails, p.trafficFails, p.keyFails, p.primaryKey)
    ensures answers == [] <==> CreationRaises(old(p.endpoint), p.createError)
    ensures PollAnswers(answers)
    ensures calls == DeployCalls(name, model, old(p.endpoint), p.deleteFails, p.createError, answers,
                                 p.deploymentFails, p.trafficFails)
    ensures (answers, p.View()) == Lookups(Ensured(old(p.View()), p.deleteFails, p.createError), |answers|)
    ensures p.clock == old(p.clock) + EnsureWait(old(p.endpoint), p.deleteFails) + PollWait(answers)
    ensures p.deployments ==
      if ProvisionError(old(p.endpoint), p.createError, answers).None? && !p.deploymentFails
      then old(p.deployments) + [BlueDeployment(name, model)]
      else old(p.deployments)
    ensures p.traffic == if Routed(out) then BlueTraffic else old(p.traffic)
    ensures old(p.endpoint) == Some(Failed) && !p.deleteFails ==> Recreation(name) <= calls
    ensures Routed(out) ==>
      |calls| >= 3 && NoKeyFetch(calls[..|calls| - 1]) &&
      calls[|calls| - 3..] == [DeploymentCreation(BlueDeployment(name, model)),
                               TrafficUpdate(name, BlueTraffic),
                               KeyRetrieval(name)]
    ensures !Routed(out) ==> NoKeyFetch(calls)
    ensures old(p.endpoint) == Some(Succeeded) && !p.deploymentFails && !p.trafficFails && !p.keyFails ==>
      out == Deployed(p.primaryKey)
    ensures old(p.endpoint).Some? && InProgress(old(p.endpoint).value) && old(p.progress) == [] &&
            !p.deploymentFails && !p.trafficFails && !p.keyFails ==>
      out == Deployed(p.primaryKey)
  {
    var err;
    ghost var c1, c2;
    err, answers, c1 := Provision(p, name);
    out, c2 := Conclude(p, name, model, err);
    ConcatAssoc(old(p.log), c1, c2);
    calls := c1 + c2;
    assert calls == DeployCalls(name, model, old(p.endpoint), p.deleteFails, p.createError, answers,
                                p.deploymentFails, p.trafficFails);
    DeployCallsShape(name, model, old(p.endpoint), p.deleteFails, p.createError, answers,
                     p.deploymentFails, p.trafficFails, p.keyFails, p.primaryKey, out, calls);
  }

  /** The registration call put before the calls of lines 81-146 keeps their
      shape: first the registration, then any recreation, and the key fetched
      last and only once the traffic is routed. */
  lemma RegisteredCalls(modelName: string, version: string, path: string, name: string, model: ModelRef,
                        e: Option<ProvisioningState>, deleteFails: bool, createError: Option<string>,
                        answers: seq<Option<ProvisioningState>>, deploymentFails: bool, trafficFails: bool,
                        out: Outcome, c: seq<Call>, calls: seq<Call>)
    requires c == DeployCalls(name, model, e, deleteFails, createError, answers, deploymentFails, trafficFails)
    requires calls == [ModelRegistration(modelName, version, path)] + c
    requires e == Some(Failed) && !deleteFails ==> Recreation(name) <= c
    requires Routed(out) ==>
      |c| >= 3 && NoKeyFetch(c[..|c| - 1]) &&
      c[|c| - 3..] == [DeploymentCreation(BlueDeployment(name, model)), TrafficUpdate(name, BlueTraffic), KeyRetrieval(name)]
    requires !Routed(out) ==> NoKeyFetch(c)
    ensures |calls| >= 2 && calls[0] == ModelRegistration(modelName, version, path)
    ensures calls == [ModelRegistration(modelName, version, path)] +
      DeployCalls(name, model, e, deleteFails, createError, answers, deploymentFails, trafficFails)
    ensures e == Some(Failed) && !deleteFails ==> [calls[0]] + Recreation(name) <= calls
    ensures Routed(out) ==>
      |calls| >= 3 && NoKeyFetch(calls[..|calls| - 1]) &&
      calls[|calls| - 3..] == [DeploymentCreation(BlueDeployment(name, model)), TrafficUpdate(name, BlueTraffic), KeyRetrieval(name)]
    ensures !Routed(out) ==> NoKeyFetch(calls)
  {
    PrefixCalls([ModelRegistration(modelName, version, path)], Recreation(name), c);
  }

  /** What a promotion of `version` leaves behind, between the state before it
      and the state after it: the log grows by exactly the registration call
      followed by the calls of lines 81-146; the outcome, the registry, the
      endpoint, the clock, the deployments and the traffic are those the
      platform's answers determine; the key is fetched last and only once the
      traffic is routed. */
  twostate predicate Promoted(p: Platform, args: Args, version: string, new out: Outcome,
                              new answers: seq<Option<ProvisioningState>>, new calls: seq<Call>)
    reads p
  {
    && p.log == old(p.log) + calls
    && out == PromotionOutcome(ProvisionError(old(p.endpoint), p.createError, answers),
                               p.deploymentFails, p.trafficFails, p.keyFails, p.primaryKey)
    && (answers == [] <==> CreationRaises(old(p.endpoint), p.createError))
    && PollAnswers(answers)
    && (answers, p.View()) == Lookups(Ensured(old(p.View()), p.deleteFails, p.createError), |answers|)
    && p.clock == old(p.clock) + EnsureWait(old(p.endpoint), p.deleteFails) + PollWait(answers)
    && p.models == (if p.registrationFails then old(p.models)
                    else old(p.models) + [Registered(p.registeredId, ModelName, version)])
    && p.deployments ==
         (if ProvisionError(old(p.endpoint), p.createError, answers).None? && !p.deploymentFails
          then old(p.deployments) + [BlueDeployment(args.endpointName, UsedModel(p.registrationFails, p.registeredId, version))]
          else old(p.deployments))
    && p.traffic == (if Routed(out) then BlueTraffic else old(p.traffic))
    && |calls| >= 2 && calls[0] == ModelRegistration(ModelName, version, args.modelPath)
    && calls == [ModelRegistration(ModelName, version, args.modelPath)] +
                DeployCalls(args.endpointName, UsedModel(p.registrationFails, p.registeredId, version),
                            old(p.endpoint), p.deleteFails, p.createError, answers, p.deploymentFails, p.trafficFails)
    && (old(p.endpoint) == Some(Failed) && !p.deleteFails ==>
          [calls[0]] + Recreation(args.endpointName) <= calls)
    && (Routed(out) ==>
          |calls| >= 3 && NoKeyFetch(calls[..|calls| - 1]) &&
          calls[|calls| - 3..] == [DeploymentCreation(BlueDeployment(args.endpointName, UsedModel(p.registrationFails, p.registeredId, version))),
                                   TrafficUpdate(args.endpointName, BlueTraffic),
                                   KeyRetrieval(args.endpointName)])
    && (!Routed(out) ==> NoKeyFetch(calls))
    && (old(p.endpoint) == Some(Succeeded) && !p.deploymentFails && !p.trafficFails && !p.keyFails ==>
          out == Deployed(p.primaryKey))
    && (old(p.endpoint).Some? && InProgress(old(p.endpoint).value) && old(p.progress) == [] &&
        !p.deploymentFails && !p.trafficFails && !p.keyFails ==>
          out == Deployed(p.primaryKey))
  }

  /** Lines 52-146 once the gate has said deploy: register under the timestamp
      version (falling back to a stand-in reference), ensure the endpoint, wait
      for it, then deploy, route and fetch the key; what that leaves behind is
      `Promoted`. */
  method Promote(p: Platform, args: Args, version: string)
    returns (out: Outcome, ghost answers: seq<Option<ProvisioningState>>, ghost calls: seq<Call>)
    modifies p`models, p`endpoint, p`progress, p`log, p`clock, p`deployments, p`traffic
    ensures Promoted(p, args, version, out, answers, calls)
  {
    var registered := p.RegisterModel(ModelName, version, args.modelPath);
    assert p.View() == old(p.View()) && p.clock == old(p.clock) && p.endpoint == old(p.endpoint) && p.progress == old(p.progress) &&
           p.deployments == old(p.deployments) && p.traffic == old(p.traffic);
    var model := ModelFor(registered, version);
    assert model == UsedModel(p.registrationFails, p.registeredId, version);
    ghost var reg := [ModelRegistration(ModelName, version, args.modelPath)];
    ghost var models1 := p.models;
    ghost var c;
    out, answers, c := DeployTo(p, args.endpointName, model);
    assert p.models == models1;
    ConcatAssoc(old(p.log), reg, c);
    calls := reg + c;
    RegisteredCalls(ModelName, version, args.modelPath, args.endpointName, model, old(p.endpoint), p.deleteFails,
                    p.createError, answers, p.deploymentFails, p.trafficFails, out, c, calls);
  }

  /** The whole script: the metric gate, then the promotion when it passes. */
  method Rollout(p: Platform, metrics: Metrics, args: Args, now: DateTime)
    returns (out: Outcome, ghost answers: seq<Option<ProvisioningState>>, ghost calls: seq<Call>)
    requires ValidDateTime(now)
    modifies p
    ensures p.log == old(p.log) + calls
    ensures !Decide(metrics, args.metricName, args.threshold).deploy ==>
      out == Skipped && calls == [] && unchanged(p)
    ensures !Routed(out) ==> NoKeyFetch(calls)
    ensures Decide(metrics, args.metricName, args.threshold).deploy ==>
      Promoted(p, args, Timestamp(now), out, answers, calls)
  {
    var decision := Decide(metrics, args.metricName, args.threshold);
    if decision.deploy {
      out, answers, calls := Promote(p, args, Timestamp(now));
    } else {
      out, answers, calls := Skipped, [], [];
    }
  }

  /** A classification model below the accuracy threshold: the rollout is
      skipped and the platform sees no call at all. */
  method LowAccuracyMakesNoCalls()
  {
    var p := new Platform(Some(Succeeded), [], "key-1", false, "azureml:model-id", false, None, false, false, false);
    var metrics := Metrics(Some("classification"), map["accuracy" := 0.62]);
    LowAccuracySkips();
    var out, answers, calls := Rollout(p, metrics, Args("model", 0.8, "itsm-endpoint", Auto), DateTime(2025, 1, 2, 3, 4, 5));
    assert out == Skipped && p.log == [];
  }

  /** A regression model that passes on mse, a failing registration and an
      endpoint already ready: the rollout goes on with the stand-in reference
      and routes all traffic to blue. */
  method RegistrationFailureStillDeploys()
  {
    var p := new Platform(Some(Succeeded), [], "key-1", true, "", false, None, false, false, false);
    var metrics := Metrics(Some("regression"), map["mse" := 1.2]);
    RegressionAutoSelectsMse();
    var out, answers, calls := Rollout(p, metrics, Args("model", 1.5, "itsm-endpoint", Auto), DateTime(2025, 1, 2, 3, 4, 5));
    assert out == Deployed("key-1");
    assert p.traffic == map["blue" := 100];
  }

  /** The platform rejects the creation of a missing endpoint because its
      resource providers are not registered: the error is re-raised with the
      remediation shown, and nothing is deployed. */
  method CreationErrorIsReraised()
  {
    var p := new Platform(None, [], "key-1", false, "azureml:model-id", false,
                          Some("SubscriptionNotRegistered"), false, false, false);
    var out, answers, calls := Promote(p, Args("model", 0.8, "itsm-endpoint", Auto), "20250102030405");
    assert CreationRaises(None, Some("SubscriptionNotRegistered"));
    assert out == Raised(EndpointCreationFailed("SubscriptionNotRegistered", true));
    assert p.deployments == [] && p.traffic == map[];
  }

  /** An endpoint that moves from Creating to Failed: the second poll raises,
      and nothing is deployed. */
  method FailedPollRaises()
  {
    var p := new Platform(Some(Creating), [Failed], "key-1", false, "azureml:model-id", false, None, false, false, false);
    var out, answers, calls := Promote(p, Args("model", 0.8, "itsm-endpoint", Auto), "20250102030405");
    ghost var failed := EndpointView(Some(Failed), []);
    assert !CreationRaises(Some(Creating), None) && answers != [];
    assert Ensured(EndpointView(Some(Creating), [Failed]), false, None) == failed;
    LastLookup(failed, |answers|);
    assert ProvisionError(Some(Creating), None, answers) == Some(EndpointProvisioningFailed);
    assert out == Raised(EndpointProvisioningFailed);
    assert p.deployments == [] && p.traffic == map[];
  }

  /** A ready endpoint whose key cannot be fetched: the script ends after
      the traffic has moved to blue, without a key. */
  method KeyFailureLeavesTrafficOnBlue()
  {
    var p := new Platform(Some(Succeeded), [], "key-1", false, "azureml:model-id", false, None, false, false, true);
    var out, answers, calls := Promote(p, Args("model", 0.8, "itsm-endpoint", Auto), "20250102030405");
    ReadyEndpointPasses(answers, p.View());
    assert out == Raised(KeyRetrievalFailed);
    assert p.traffic == map["blue" := 100];
  }

  /** The polls of a ready endpoint that was kept end the provisioning
      without an exception. */
  lemma ReadyEndpointPasses(answers: seq<Option<ProvisioningState>>, v: EndpointView)
    requires answers == [] <==> CreationRaises(Some(Succeeded), None)
    requires (answers, v) == Lookups(Ensured(EndpointView(Some(Succeeded), []), false, None), |answers|)
    ensures ProvisionError(Some(Succeeded), None, answers).None?
  {
    var ready := EndpointView(Some(Succeeded), []);
    assert Ensured(ready, false, None) == ready;
    LastLookup(ready, |answers|);
  }


  /** An endpoint stuck in Creating: every poll of the budget sees Creating,
      and the rollout still creates the blue deployment and routes traffic to
      it, without the endpoint ever having reported Succeeded. */
  method StuckEndpointStillDeploys()
  {
    var p := new Platform(Some(Creating), [], "key-1", false, "azureml:model-id", false, None, false, false, false);
    var metrics := Metrics(Some("classification"), map["accuracy" := 0.9]);
    assert Decide(metrics, Auto, 0.8).deploy;
    var out, answers, calls := Rollout(p, metrics, Args("model", 0.8, "itsm-endpoint", Auto), DateTime(2025, 1, 2, 3, 4, 5));
    assert out == Deployed("key-1");
  }
}
