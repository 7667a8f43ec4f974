/// `Server/handler/email.go`: turning on Email Routing for each domain and
/// pointing its catch-all rule at a worker (`BatchEmailRouting`,
/// `processEmailRouting`, `enableEmailRouting`, `setCatchAllRule`).
module EmailHandler {
  import opened Text
  import opened HandlerCommon

  /// The JSON body `BatchEmailRoutingRequest`.
  datatype EmailRequest = EmailRequest(accountId: string, domains: seq<string>, worker: string)

  /// A Cloudflare answer: status code and raw body.
  datatype CallReply = CallReply(status: int, body: string)

  /// The failure text both calls report for a rejected request.
  function RejectedMessage(rep: CallReply): string {
    "HTTP " + IntToString(rep.status) + ": " + rep.body
  }

  /// `enableEmailRouting`: 200 or 201 is accepted (`None` is a request that
  /// never got an answer).
  function EnableResult(reply: Option<CallReply>): (r: (bool, string))
    ensures r.0 <==> reply.Some? && (reply.value.status == 200 || reply.value.status == 201)
    ensures r.0 ==> r.1 == "Success"
    ensures reply.None? ==> r.1 == "Request failed"
    ensures reply.Some? && !r.0 ==> r.1 == RejectedMessage(reply.value)
  {
    match reply
    case None => (false, "Request failed")
    case Some(rep) =>
      if rep.status == 200 || rep.status == 201 then (true, "Success") else (false, RejectedMessage(rep))
  }

  /// `setCatchAllRule`: only 200 is accepted.
  function CatchAllResult(reply: Option<CallReply>): (r: (bool, string))
    ensures r.0 <==> reply.Some? && reply.value.status == 200
    ensures r.0 ==> r.1 == "Success"
    ensures reply.None? ==> r.1 == "Request failed"
    ensures reply.Some? && !r.0 ==> r.1 == RejectedMessage(reply.value)
  {
    match reply
    case None => (false, "Request failed")
    case Some(rep) =>
      if rep.status == 200 then (true, "Success") else (false, RejectedMessage(rep))
  }

  /// A 201 enables routing but does not set the catch-all rule.
  lemma CreatedOnlyEnables(body: string)
    ensures EnableResult(Some(CallReply(201, body))).0
    ensures !CatchAllResult(Some(CallReply(201, body))).0
  {
  }

  datatype Matcher = Matcher(matcherType: string)
  datatype Action = Action(actionType: string, value: seq<string>)

  /// The body of the catch-all PUT.
  datatype CatchAllRule = CatchAllRule(matchers: seq<Matcher>, actions: seq<Action>, enabled: bool)

  /// The catch-all rule: match every address and hand it to the worker.
  function CatchAllPayload(worker: string): (r: CatchAllRule)
    ensures r.enabled
    ensures r.matchers == [Matcher("all")]
    ensures |r.actions| == 1 && r.actions[0].actionType == "worker" && r.actions[0].value == [worker]
  {
    CatchAllRule([Matcher("all")], [Action("worker", [worker])], true)
  }

  /// `processEmailRouting`: zone lookup, then enabling, then the catch-all
  /// rule; the first failure ends the pipeline with its prefixed message.
  function ProcessEmailRouting(lookup: ZoneLookup, enable: Option<CallReply>, catchAll: Option<CallReply>)
    : (r: (bool, string))
    ensures r.0 <==> ZoneIdOf(lookup).Ok? && EnableResult(enable).0 && CatchAllResult(catchAll).0
    ensures r.0 ==> r.1 == "Success"
    ensures ZoneIdOf(lookup).Err? ==> r.1 == ZoneIdOf(lookup).message
    ensures ZoneIdOf(lookup).Ok? && !EnableResult(enable).0 ==>
      r.1 == "Enable routing failed: " + EnableResult(enable).1
    ensures ZoneIdOf(lookup).Ok? && EnableResult(enable).0 && !CatchAllResult(catchAll).0 ==>
      r.1 == "Set catch-all rule failed: " + CatchAllResult(catchAll).1
  {
    match ZoneIdOf(lookup)
    case Err(m) => (false, m)
    case Ok(_) =>
      var (enabled, em) := EnableResult(enable);
      if !enabled then (false, "Enable routing failed: " + em)
      else
        var (ruleSet, cm) := CatchAllResult(catchAll);
        if !ruleSet then (false, "Set catch-all rule failed: " + cm)
        else (true, "Success")
  }

  /// A failing step decides the answer: the calls after it do not matter.
  lemma ShortCircuit(lookup: ZoneLookup, enable: Option<CallReply>, catchAll: Option<CallReply>,
                     enable': Option<CallReply>, catchAll': Option<CallReply>)
    ensures ZoneIdOf(lookup).Err? ==>
      ProcessEmailRouting(lookup, enable, catchAll) == ProcessEmailRouting(lookup, enable', catchAll')
    ensures !EnableResult(enable).0 ==>
      ProcessEmailRouting(lookup, enable, catchAll) == ProcessEmailRouting(lookup, enable, catchAll')
  {
  }

  /// `BatchEmailRouting`: 404 for an unknown account, otherwise one result
  /// per domain at its index.
  function BatchEmailRouting(accounts: seq<Account>, req: EmailRequest, lookup: nat -> ZoneLookup,
                             enable: nat -> Option<CallReply>, catchAll: nat -> Option<CallReply>)
    : (r: BatchResponse<DomainResult>)
    ensures r.AccountNotFound? <==> FindAccount(accounts, req.accountId).None?
    ensures r.Answered? ==> |r.results| == |req.domains|
    ensures r.Answered? ==> forall i :: 0 <= i < |req.domains| ==>
      r.results[i].domain == req.domains[i]
      && (r.results[i].success, r.results[i].message) == ProcessEmailRouting(lookup(i), enable(i), catchAll(i))
  {
    DomainBatch(accounts, req.accountId, req.domains,
                (i: nat, d: string) => ProcessEmailRouting(lookup(i), enable(i), catchAll(i)))
  }
}
