/**
 The `SESDomainOwnershipVerification` construct: the custom resource that runs
 the verification handler, the IAM permissions of that handler, and the two
 DNS records built from the domain and the resource's output (a TXT record
 holding the verification token, an MX record routing mail to SES).

 The lemmas at the end state what the construct and the handler must agree
 on: the property key the handler reads, the attribute the TXT record reads
 back, and the SES operations the handler is allowed to call.
 */
module SesDomainVerification {
  import opened JsValues
  import opened SesVerificationHandler
  import opened Strings

  const RecordTtlMinutes: nat := 30
  const MxPriority: nat := 10
  const DomainProperty: string := "Domain"
  const TokenAttribute: string := "VerificationToken"
  const TxtRecordPrefix: string := "_amazonses."

  /** A TXT value that CloudFormation resolves at deploy time to an
      attribute of the custom resource (`getAtt`). */
  datatype TxtValue = ResourceAttribute(attribute: string)

  datatype TxtRecord = TxtRecord(recordName: string, ttlMinutes: nat, values: seq<TxtValue>)

  datatype MxValue = MxValue(priority: nat, hostName: string)

  datatype MxRecord = MxRecord(recordName: string, ttlMinutes: nat, values: seq<MxValue>)

  datatype PolicyStatement = PolicyStatement(actions: seq<string>, resources: seq<string>)

  /** The singleton Lambda running the handler, with its added policy statement. */
  datatype VerifierLambda = VerifierLambda(functionName: string, policy: PolicyStatement)

  /** The custom resource; `properties` are its user-supplied properties. */
  datatype CustomResource = CustomResource(properties: map<string, string>)

  datatype Verification = Verification(
    txt: TxtRecord,
    mx: MxRecord,
    lambda: VerifierLambda,
    resource: CustomResource)

  /** The TXT record name SES looks up to check the verification token. */
  function TxtRecordName(domain: string): string
  {
    TxtRecordPrefix + domain
  }

  /** The regional SES inbound mail endpoint. */
  function InboundSmtpHost(region: string): string
  {
    "inbound-smtp." + region + ".amazonaws.com"
  }

  /** The region an inbound mail host names: the inverse of `InboundSmtpHost`. */
  function RegionOfInboundHost(host: string): string
  {
    var head, tail := |"inbound-smtp."|, |".amazonaws.com"|;
    if |host| >= head + tail then host[head..|host| - tail] else ""
  }

  /** The IAM action that authorises a request to SES. */
  function IamAction(c: SesCall): string
  {
    "ses:" + OperationName(c)
  }

  /** The construct for `domain`, in a stack with the given name and region. */
  function Build(domain: string, region: string, stackName: string): (v: Verification)
    ensures v.txt.recordName == TxtRecordName(domain)
    ensures v.txt.values == [ResourceAttribute(TokenAttribute)]
    ensures v.mx.recordName == domain
    ensures v.mx.values == [MxValue(MxPriority, InboundSmtpHost(region))]
    ensures v.txt.ttlMinutes == v.mx.ttlMinutes == RecordTtlMinutes
    ensures v.resource.properties.Keys == {DomainProperty} && v.resource.properties[DomainProperty] == domain
    ensures v.lambda.policy.actions == ["ses:VerifyDomainIdentity", "ses:DeleteIdentity"]
  {
    Verification(
      TxtRecord(TxtRecordName(domain), RecordTtlMinutes, [ResourceAttribute(TokenAttribute)]),
      MxRecord(domain, RecordTtlMinutes, [MxValue(MxPriority, InboundSmtpHost(region))]),
      VerifierLambda(stackName + "-ses-domain-verifier",
                     PolicyStatement(["ses:VerifyDomainIdentity", "ses:DeleteIdentity"], ["*"])),
      CustomResource(map[DomainProperty := domain]))
  }

  /** The properties object the handler receives for a property map. Only
      the `Domain` key is read, so it is the only one represented. */
  function PropertiesObject(props: map<string, string>): JsValue
  {
    Object(if DomainProperty in props then Str(props[DomainProperty]) else Undefined)
  }

  /** A lifecycle event for this construct's custom resource. */
  function LifecycleEvent(requestType: string, v: Verification, previous: Verification): Event
  {
    Event(Str(requestType), Undefined, PropertiesObject(v.resource.properties), PropertiesObject(previous.resource.properties))
  }

  // ---------------------------------------------------------------------------
  // Names

  /** The TXT record lies inside the zone of the domain, and its name
      determines the domain. */
  lemma TxtRecordInZone(domain: string)
    ensures TxtRecordName(domain)[..|TxtRecordPrefix|] == "_amazonses."
    ensures IsSuffix("." + domain, TxtRecordName(domain))
    ensures TxtRecordName(domain)[|TxtRecordPrefix|..] == domain
  {
  }

  /** `RegionOfInboundHost` recovers the region from the MX host. */
  lemma InboundHostRoundTrip(region: string)
    ensures RegionOfInboundHost(InboundSmtpHost(region)) == region
  {
  }

  // ---------------------------------------------------------------------------
  // Agreement between the construct and the handler

  /** The `Domain` property the construct passes is the key the handler
      reads: a Create verifies exactly the construct's domain, and the TXT
      record's `VerificationToken` attribute resolves to the token SES minted. */
  lemma CreateVerifiesConstructDomain(domain: string, region: string, stackName: string,
                                      script: AdapterScript, delivery: Delivery)
    requires script.verify.Fulfilled?
    ensures var v := Build(domain, region, stackName);
            var inv := Handler(LifecycleEvent("Create", v, v), script, delivery);
            && inv.Ran?
            && inv.calls == [VerifyDomainIdentity(Str(domain))]
            && inv.reports[0].SuccessReport?
            && DataAttribute(inv.reports[0].data, v.txt.values[0].attribute)
                 == Str(script.verify.value.verificationToken)
            && DataAttribute(inv.reports[0].data, "PhysicalResourceId") == Str(domain)
  {
    var v := Build(domain, region, stackName);
    CreateVerifiesDomain(LifecycleEvent("Create", v, v), script, delivery);
  }

  /** A Delete removes exactly the construct's domain. */
  lemma DeleteRemovesConstructDomain(domain: string, region: string, stackName: string,
                                     script: AdapterScript, delivery: Delivery)
    ensures var v := Build(domain, region, stackName);
            var inv := Handler(LifecycleEvent("Delete", v, v), script, delivery);
            inv.Ran? && inv.calls == [DeleteIdentity(Str(domain))]
  {
    var v := Build(domain, region, stackName);
    DeleteRemovesIdentity(LifecycleEvent("Delete", v, v), script, delivery);
  }

  /** An Update from one domain to another, as written: the identity deleted
      is `undefined`, never the old domain, and the new domain is verified
      only if SES accepts that delete. */
  lemma UpdateNeverDeletesOldDomain(oldDomain: string, newDomain: string, region: string, stackName: string,
                                    script: AdapterScript, delivery: Delivery)
    ensures var inv := Handler(LifecycleEvent("Update", Build(newDomain, region, stackName), Build(oldDomain, region, stackName)),
                               script, delivery);
            && inv.Ran?
            && inv.calls[0] == DeleteIdentity(Undefined)
            && DeleteIdentity(Str(oldDomain)) !in inv.calls
            && (VerifyDomainIdentity(Str(newDomain)) in inv.calls <==> script.delete.Fulfilled?)
  {
    var evt := LifecycleEvent("Update", Build(newDomain, region, stackName), Build(oldDomain, region, stackName));
    UpdateDeletesUndefinedIdentity(evt, script, delivery, oldDomain);
    if script.delete.Fulfilled? {
      UpdateReportsNewDomain(evt, script, delivery, oldDomain);
    }
  }

  /** Every SES request the handler makes, for any event and any answers, is
      authorised by the policy the construct grants. The handler can only
      issue a `SesCall`, and that type has exactly the two granted
      operations, so the proof holds for any sequence of requests. */
  lemma GrantedActionsCoverCalls(domain: string, region: string, stackName: string,
                                 evt: Event, script: AdapterScript, delivery: Delivery)
    ensures var inv := Handler(evt, script, delivery);
            inv.Ran? ==>
              forall i :: 0 <= i < |inv.calls| ==> IamAction(inv.calls[i]) in Build(domain, region, stackName).lambda.policy.actions
  {
    forall c: SesCall
      ensures IamAction(c) in Build(domain, region, stackName).lambda.policy.actions
    {
      IamActionOfCall(c);
    }
  }

  /** Each request maps to one of the two granted action names. */
  lemma IamActionOfCall(c: SesCall)
    ensures c.VerifyDomainIdentity? ==> IamAction(c) == "ses:VerifyDomainIdentity"
    ensures c.DeleteIdentity? ==> IamAction(c) == "ses:DeleteIdentity"
  {
  }

  /** Every granted action is used: a Create and a Delete of the construct's
      own resource between them request each granted operation. */
  lemma GrantedActionsAllUsed(domain: string, region: string, stackName: string,
                              script: AdapterScript, delivery: Delivery)
    ensures var v := Build(domain, region, stackName);
            var create := Handler(LifecycleEvent("Create", v, v), script, delivery);
            var delete := Handler(LifecycleEvent("Delete", v, v), script, delivery);
            && create.Ran? && delete.Ran?
            && (set c | c in create.calls + delete.calls :: IamAction(c)) == set a | a in v.lambda.policy.actions
  {
    var v := Build(domain, region, stackName);
    CreateVerifiesDomain(LifecycleEvent("Create", v, v), script, delivery);
    DeleteRemovesIdentity(LifecycleEvent("Delete", v, v), script, delivery);
    var create := Handler(LifecycleEvent("Create", v, v), script, delivery);
    var delete := Handler(LifecycleEvent("Delete", v, v), script, delivery);
    var calls := create.calls + delete.calls;
    assert calls == [VerifyDomainIdentity(Str(domain)), DeleteIdentity(Str(domain))];
    IamActionOfCall(calls[0]);
    IamActionOfCall(calls[1]);
    assert (set c | c in calls :: IamAction(c)) == {"ses:VerifyDomainIdentity", "ses:DeleteIdentity"};
  }
}
