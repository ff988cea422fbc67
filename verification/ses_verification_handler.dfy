/**
 The Lambda behind the SES domain-ownership-verification custom resource.
 CloudFormation sends it a Create, Update or Delete lifecycle event; it calls
 SES (`verifyDomainIdentity`, `deleteIdentity`) and reports the outcome back
 through `cfn-response`.

 The handler is modelled as a pure function of the event, the answers SES
 gives (an `AdapterScript`) and whether sending the SUCCESS report throws (a
 `Delivery`). Its result records the SES requests in the order they were
 issued and the reports in the order they were sent.
 */
module SesVerificationHandler {
  import opened JsValues

  /** The fields of a CloudFormation custom-resource event that the handler reads. */
  datatype Event = Event(
    requestType: JsValue,
    physicalResourceId: JsValue,
    resourceProperties: JsValue,
    oldResourceProperties: JsValue)

  /** The answer of SES to `verifyDomainIdentity`. */
  datatype VerifyResponse = VerifyResponse(verificationToken: string)

  /** The answer of SES to `deleteIdentity`; it carries only response metadata. */
  datatype DeleteResponse = DeleteResponse(requestId: string)

  /** One request sent to SES, with the parameter the handler put in it. */
  datatype SesCall =
    | VerifyDomainIdentity(domain: JsValue)
    | DeleteIdentity(identity: JsValue)

  /** How SES settles each operation during one invocation. The handler calls
      each operation at most once (see `ProtocolOrder`), so one answer each is
      a complete description of the service's behaviour. */
  datatype AdapterScript = AdapterScript(
    verify: Settled<VerifyResponse>,
    delete: Settled<DeleteResponse>)

  /** The values a verifier promise can resolve with. */
  datatype Payload =
    | NoValue                                                         // `undefined`
    | Verified(physicalResourceId: JsValue, verificationToken: string) // from `doCreate`
    | Deleted(response: DeleteResponse)                                // from `doDelete`

  /** Whether `response.send` with status SUCCESS returns normally or throws. */
  datatype Delivery = Delivers | SendThrows(error: Thrown)

  /** One call of `response.send`: its status and its data argument. */
  datatype Report =
    | SuccessReport(data: Payload)
    | FailedReport(error: Thrown)    // data `{ error: err }`

  /** An operation that got as far as returning a promise: the SES requests
      it issued and how that promise settles. */
  datatype Started = Started(calls: seq<SesCall>, outcome: Settled<Payload>)

  /** One run of the handler: either it threw before any promise existed (and
      so reported nothing), or it ran and sent `reports`. */
  datatype Invocation =
    | Threw(error: Thrown)
    | Ran(calls: seq<SesCall>, reports: seq<Report>)

  /** The status string `cfn-response` sends for a report. */
  function Status(r: Report): string
  {
    if r.SuccessReport? then "SUCCESS" else "FAILED"
  }

  /** The SES API operation a request invokes. */
  function OperationName(c: SesCall): string
  {
    match c
    case VerifyDomainIdentity(_) => "VerifyDomainIdentity"
    case DeleteIdentity(_) => "DeleteIdentity"
  }

  /** The property `key` of a report's data object, as `Fn::GetAtt` reads it. */
  function DataAttribute(p: Payload, key: string): JsValue
  {
    match p
    case Verified(id, token) =>
      if key == "PhysicalResourceId" then id
      else if key == "VerificationToken" then Str(token)
      else Undefined
    case _ => Undefined
  }

  /** The request types the handler dispatches on; any other value is a no-op. */
  predicate IsLifecycleRequest(t: JsValue)
  {
    t == Str("Create") || t == Str("Delete") || t == Str("Update")
  }

  /** The orders in which SES requests may be issued during one invocation:
      at most one of each operation, and a verify is never followed by a delete. */
  predicate ProtocolOrder(calls: seq<SesCall>)
  {
    || calls == []
    || (|calls| == 1)
    || (|calls| == 2 && calls[0].DeleteIdentity? && calls[1].VerifyDomainIdentity?)
  }

  /** `Verifier.doCreate`: read `props.Domain`, ask SES to verify it, and
      resolve with the domain as physical id plus the token SES minted. */
  function DoCreate(props: JsValue, script: AdapterScript): (r: Completion<Started>)
    ensures r.Abrupt? <==> IsNullish(props)
    ensures r.Abrupt? ==> r.thrown == TypeError
    ensures r.Normal? ==> r.value.calls == [VerifyDomainIdentity(ReadDomain(props).value)]
    ensures r.Normal? ==> (r.value.outcome.Fulfilled? <==> script.verify.Fulfilled?)
    ensures r.Normal? && script.verify.Fulfilled? ==>
              r.value.outcome.value == Verified(ReadDomain(props).value, script.verify.value.verificationToken)
    ensures r.Normal? && script.verify.Rejected? ==> r.value.outcome.reason == script.verify.reason
  {
    match ReadDomain(props)
    case Abrupt(e) => Abrupt(e)
    case Normal(domain) =>
      // The continuation reads `props.Domain` again; `props` is unchanged and the
      // first read did not throw, so it yields the same `domain`.
      var outcome :=
        match script.verify
        case Fulfilled(resp) => Fulfilled(Verified(domain, resp.verificationToken))
        case Rejected(err) => Rejected(err);
      Normal(Started([VerifyDomainIdentity(domain)], outcome))
  }

  /** `Verifier.doDelete`: ask SES to delete the identity `props.Domain` and
      resolve with whatever SES answers. */
  function DoDelete(props: JsValue, script: AdapterScript): (r: Completion<Started>)
    ensures r.Abrupt? <==> IsNullish(props)
    ensures r.Abrupt? ==> r.thrown == TypeError
    ensures r.Normal? ==> r.value.calls == [DeleteIdentity(ReadDomain(props).value)]
    ensures r.Normal? ==> (r.value.outcome.Fulfilled? <==> script.delete.Fulfilled?)
    ensures r.Normal? && script.delete.Fulfilled? ==> r.value.outcome.value == Deleted(script.delete.value)
    ensures r.Normal? && script.delete.Rejected? ==> r.value.outcome.reason == script.delete.reason
  {
    match ReadDomain(props)
    case Abrupt(e) => Abrupt(e)
    case Normal(identity) =>
      var outcome :=
        match script.delete
        case Fulfilled(resp) => Fulfilled(Deleted(resp))
        case Rejected(err) => Rejected(err);
      Normal(Started([DeleteIdentity(identity)], outcome))
  }

  /** `Verifier.doUpdate`: `doDelete(oldProps.Domain)`, then `doCreate(props)`
      in the continuation of the delete. Note that `doDelete` is handed the old
      domain itself rather than the old properties object, so the identity it
      sends is that value's own `Domain` property. Because `doCreate` runs
      inside `then`, a throw there rejects the returned promise instead of
      escaping synchronously. The physical resource id is accepted and unused. */
  function DoUpdate(resourceId: JsValue, props: JsValue, oldProps: JsValue, script: AdapterScript)
    : (r: Completion<Started>)
    // It throws synchronously exactly when reading `oldProps.Domain`, or that
    // value's own `Domain`, throws.
    ensures r.Abrupt? <==> ReadDomain(oldProps).Abrupt? || IsNullish(ReadDomain(oldProps).value)
    ensures r.Abrupt? ==> r.thrown == TypeError
    // The first request deletes the `Domain` of the old domain value.
    ensures r.Normal? ==>
              |r.value.calls| >= 1 &&
              r.value.calls[0] == DeleteIdentity(ReadDomain(ReadDomain(oldProps).value).value)
    ensures r.Normal? && script.delete.Rejected? ==>
              r.value.calls == [r.value.calls[0]] && r.value.outcome == Rejected(script.delete.reason)
    // After a resolved delete, `doCreate(props)` runs in the continuation: its
    // requests follow the delete and its outcome is adopted; a throw in it
    // rejects the update.
    ensures r.Normal? && script.delete.Fulfilled? ==>
              var create := DoCreate(props, script);
              && r.value.calls == [r.value.calls[0]] + (if create.Normal? then create.value.calls else [])
              && r.value.outcome == (if create.Normal? then create.value.outcome else Rejected(create.thrown))
  {
    match ReadDomain(oldProps)
    case Abrupt(e) => Abrupt(e)
    case Normal(oldDomain) =>
      match DoDelete(oldDomain, script)
      case Abrupt(e) => Abrupt(e)
      case Normal(Started(deleteCalls, deleted)) =>
        match deleted
        case Rejected(err) => Normal(Started(deleteCalls, Rejected(err)))
        case Fulfilled(_) =>
          match DoCreate(props, script)
          case Abrupt(e) => Normal(Started(deleteCalls, Rejected(e)))
          case Normal(Started(createCalls, created)) => Normal(Started(deleteCalls + createCalls, created))
  }

  /** The `if`/`else if` chain of `handler`: pick the verifier operation for
      the request type; any other request type gets `Promise.resolve()`. */
  function Dispatch(evt: Event, script: AdapterScript): (r: Completion<Started>)
    ensures !IsLifecycleRequest(evt.requestType) ==> r == Normal(Started([], Fulfilled(NoValue)))
    ensures r.Normal? ==> ProtocolOrder(r.value.calls)
    ensures r.Abrupt? ==> r.thrown == TypeError
  {
    if evt.requestType == Str("Create") then
      DoCreate(evt.resourceProperties, script)
    else if evt.requestType == Str("Delete") then
      DoDelete(evt.resourceProperties, script)
    else if evt.requestType == Str("Update") then
      DoUpdate(evt.physicalResourceId, evt.resourceProperties, evt.oldResourceProperties, script)
    else
      Normal(Started([], Fulfilled(NoValue)))
  }

  /** The continuation `promise.then(send SUCCESS).catch(send FAILED)`. The
      catch is chained after the then, so it also catches a throw of the
      SUCCESS send itself, which is the only way to a second report. */
  function Respond(outcome: Settled<Payload>, delivery: Delivery): (reports: seq<Report>)
    ensures 1 <= |reports| <= 2
    ensures outcome.Fulfilled? ==> reports[0] == SuccessReport(outcome.value)
    ensures outcome.Rejected? ==> reports == [FailedReport(outcome.reason)]
    ensures |reports| == 2 <==> outcome.Fulfilled? && delivery.SendThrows?
    ensures |reports| == 2 ==> reports[1] == FailedReport(delivery.error)
  {
    match outcome
    case Rejected(err) => [FailedReport(err)]
    case Fulfilled(data) =>
      match delivery
      case Delivers => [SuccessReport(data)]
      case SendThrows(err) => [SuccessReport(data), FailedReport(err)]
  }

  /** `handler(evt, ctx)`. */
  function Handler(evt: Event, script: AdapterScript, delivery: Delivery): (inv: Invocation)
    // Once a promise exists exactly one terminal report follows, plus a FAILED
    // one only when sending the SUCCESS report threw.
    ensures inv.Ran? ==> 1 <= |inv.reports| <= 2
    ensures inv.Ran? && |inv.reports| == 2 ==>
              inv.reports[0].SuccessReport? && delivery.SendThrows? && inv.reports[1] == FailedReport(delivery.error)
    ensures inv.Ran? && delivery.Delivers? ==> |inv.reports| == 1
    ensures inv.Ran? ==> ProtocolOrder(inv.calls)
    // A synchronous throw comes only from a property read on a missing
    // properties object, which only the three lifecycle branches perform.
    ensures inv.Threw? ==> inv.error == TypeError && IsLifecycleRequest(evt.requestType)
  {
    match Dispatch(evt, script)
    case Abrupt(e) => Threw(e)
    case Normal(Started(calls, outcome)) => Ran(calls, Respond(outcome, delivery))
  }

  // ---------------------------------------------------------------------------
  // The lifecycle branches, one lemma each.

  /** Create: exactly one `verifyDomainIdentity` request, for
      `ResourceProperties.Domain`; on success the data is the domain as
      `PhysicalResourceId` and the minted `VerificationToken`; any SES error
      becomes a FAILED report carrying that error. */
  lemma CreateVerifiesDomain(evt: Event, script: AdapterScript, delivery: Delivery)
    requires evt.requestType == Str("Create") && evt.resourceProperties.Object?
    ensures Handler(evt, script, delivery).Ran?
    ensures Handler(evt, script, delivery).calls == [VerifyDomainIdentity(evt.resourceProperties.domain)]
    ensures script.verify.Fulfilled? ==>
              Handler(evt, script, delivery).reports[0]
                == SuccessReport(Verified(evt.resourceProperties.domain, script.verify.value.verificationToken))
    ensures script.verify.Rejected? ==>
              Handler(evt, script, delivery).reports == [FailedReport(script.verify.reason)]
  {
  }

  /** Delete: exactly one `deleteIdentity` request, for
      `ResourceProperties.Domain`, and no other SES request. The data of a
      SUCCESS report is the SES answer itself; every SES error, a "not found"
      included, becomes a FAILED report. */
  lemma DeleteRemovesIdentity(evt: Event, script: AdapterScript, delivery: Delivery)
    requires evt.requestType == Str("Delete") && evt.resourceProperties.Object?
    ensures Handler(evt, script, delivery).Ran?
    ensures Handler(evt, script, delivery).calls == [DeleteIdentity(evt.resourceProperties.domain)]
    ensures script.delete.Fulfilled? ==>
              Handler(evt, script, delivery).reports[0] == SuccessReport(Deleted(script.delete.value))
    ensures script.delete.Rejected? ==>
              Handler(evt, script, delivery).reports == [FailedReport(script.delete.reason)]
  {
  }

  /** Update: the delete is issued strictly before the create, and the create
      is issued only when the delete resolved. A rejected delete leaves no
      `verifyDomainIdentity` request and produces a FAILED report. */
  lemma UpdateDeletesBeforeCreating(evt: Event, script: AdapterScript, delivery: Delivery)
    requires evt.requestType == Str("Update")
    ensures var inv := Handler(evt, script, delivery);
            inv.Ran? ==> inv.calls[0].DeleteIdentity?
    ensures var inv := Handler(evt, script, delivery);
            inv.Ran? && script.delete.Rejected? ==>
              && (forall i :: 0 <= i < |inv.calls| ==> !inv.calls[i].VerifyDomainIdentity?)
              && inv.reports == [FailedReport(script.delete.reason)]
    ensures var inv := Handler(evt, script, delivery);
            inv.Ran? && |inv.calls| == 2 ==> script.delete.Fulfilled?
  {
  }

  /** Update, as written: the identity sent to `deleteIdentity` is the
      `Domain` property of the old domain string, that is `undefined`, and
      never the old domain. */
  lemma UpdateDeletesUndefinedIdentity(evt: Event, script: AdapterScript, delivery: Delivery, oldDomain: string)
    requires evt.requestType == Str("Update")
    requires evt.oldResourceProperties == Object(Str(oldDomain))
    ensures Handler(evt, script, delivery).Ran?
    ensures Handler(evt, script, delivery).calls[0] == DeleteIdentity(Undefined)
    ensures Handler(evt, script, delivery).calls[0] != DeleteIdentity(Str(oldDomain))
  {
  }

  /** Once the delete resolves, Update verifies the new domain; a successful
      Update reports the create payload built from the new properties: the new
      domain as `PhysicalResourceId` and the token of the fresh verification. */
  lemma UpdateReportsNewDomain(evt: Event, script: AdapterScript, delivery: Delivery, oldDomain: string)
    requires evt.requestType == Str("Update")
    requires evt.oldResourceProperties == Object(Str(oldDomain)) && evt.resourceProperties.Object?
    requires script.delete.Fulfilled?
    ensures Handler(evt, script, delivery).Ran?
    ensures Handler(evt, script, delivery).calls
              == [DeleteIdentity(Undefined), VerifyDomainIdentity(evt.resourceProperties.domain)]
    ensures script.verify.Fulfilled? ==>
              Handler(evt, script, delivery).reports[0]
                == SuccessReport(Verified(evt.resourceProperties.domain, script.verify.value.verificationToken))
    ensures script.verify.Rejected? ==>
              Handler(evt, script, delivery).reports == [FailedReport(script.verify.reason)]
  {
  }

  /** Update without new properties: the delete is still issued, the create's
      property read throws inside the continuation, and the throw becomes a
      FAILED report rather than escaping. */
  lemma UpdateWithoutNewPropertiesFailsAfterDelete(evt: Event, script: AdapterScript, delivery: Delivery, oldDomain: string)
    requires evt.requestType == Str("Update")
    requires evt.oldResourceProperties == Object(Str(oldDomain)) && evt.resourceProperties == Undefined
    requires script.delete.Fulfilled?
    ensures Handler(evt, script, delivery) == Ran([DeleteIdentity(Undefined)], [FailedReport(TypeError)])
  {
  }

  /** Any other request type: no SES request and a SUCCESS report with
      undefined data. */
  lemma OtherRequestsSucceedWithoutCalls(evt: Event, script: AdapterScript, delivery: Delivery)
    requires !IsLifecycleRequest(evt.requestType)
    ensures Handler(evt, script, delivery).Ran?
    ensures Handler(evt, script, delivery).calls == []
    ensures Handler(evt, script, delivery).reports[0] == SuccessReport(NoValue)
  {
  }

  /** A missing properties object (the new ones on Create or Delete, the old
      ones on Update) throws before any promise exists: no SES request and no
      report at all. */
  lemma MissingPropertiesThrowWithoutReport(evt: Event, script: AdapterScript, delivery: Delivery)
    requires || (evt.requestType == Str("Create") && IsNullish(evt.resourceProperties))
             || (evt.requestType == Str("Delete") && IsNullish(evt.resourceProperties))
             || (evt.requestType == Str("Update") && IsNullish(evt.oldResourceProperties))
    ensures Handler(evt, script, delivery) == Threw(TypeError)
  {
  }

  /** Over every event, SES answer and delivery: whenever the handler ran,
      each SES operation was requested at most once, and the first report's
      status is SUCCESS exactly when the operation promise fulfilled. */
  lemma EachOperationAtMostOnce(evt: Event, script: AdapterScript, delivery: Delivery)
    ensures var inv := Handler(evt, script, delivery);
            inv.Ran? ==>
              forall i, j :: 0 <= i < j < |inv.calls| ==> OperationName(inv.calls[i]) != OperationName(inv.calls[j])
    ensures var inv := Handler(evt, script, delivery);
            inv.Ran? ==>
              (Status(inv.reports[0]) == "SUCCESS" <==> Dispatch(evt, script).value.outcome.Fulfilled?)
  {
  }
}
