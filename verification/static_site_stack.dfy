/**
 `StaticSiteStack`: creates the hosted zone for the root domain, verifies the
 domain with SES and routes its incoming mail to an SNS topic, and hosts every
 configured site behind its own CloudFront distribution.
 */
module StaticSiteStack {
  import opened SiteLayout
  import opened Strings
  import SesDomainVerification

  /** An SES receipt rule added to an existing rule set. */
  datatype ReceiptRule = ReceiptRule(
    ruleSetName: string,
    ruleName: string,
    recipients: seq<string>,
    topicArn: string,
    scanEnabled: bool)

  datatype StaticSitePlan = StaticSitePlan(
    zoneName: string,
    verification: SesDomainVerification.Verification,
    receiptRule: ReceiptRule,
    certificate: Certificate,
    hostingBucket: Bucket,
    logBucket: Bucket,
    sites: seq<SitePlan>)

  /** `_setupDomainEmailForwarding`'s receipt rule: named after the domain,
      accepting mail for the domain only. */
  function DomainReceiptRule(domain: string, ruleSetName: string, topicArn: string): (r: ReceiptRule)
    ensures r.ruleName == domain && r.recipients == [domain]
    ensures r.ruleSetName == ruleSetName && r.topicArn == topicArn
  {
    ReceiptRule(ruleSetName, domain, [domain], topicArn, true)
  }

  /** The resources the stack's constructor creates. */
  function Synthesize(stackName: string, region: string, rootDomain: string, ruleSetName: string,
                      topicArn: string, sites: seq<SiteConfig>): (p: StaticSitePlan)
    ensures p.zoneName == rootDomain
    ensures p.verification == SesDomainVerification.Build(rootDomain, region, stackName)
    ensures p.receiptRule == DomainReceiptRule(rootDomain, ruleSetName, topicArn)
    ensures p.certificate == DomainCertificate(rootDomain)
    ensures p.hostingBucket.bucketName == HostingBucketName(rootDomain)
    ensures p.logBucket.bucketName == LogBucketName(rootDomain)
    ensures |p.sites| == |sites|
    ensures forall i :: 0 <= i < |sites| ==>
              && p.sites[i].distribution.aliases == Aliases(rootDomain, sites[i].subdomain)
              && p.sites[i].distribution.originPath == OriginPath(sites[i].subdomain)
              && !p.sites[i].distribution.rewritesDirectoryRoots
  {
    StaticSitePlan(
      rootDomain,
      SesDomainVerification.Build(rootDomain, region, stackName),
      DomainReceiptRule(rootDomain, ruleSetName, topicArn),
      DomainCertificate(rootDomain),
      Bucket(HostingBucketName(rootDomain)),
      Bucket(LogBucketName(rootDomain)),
      PlanSites(rootDomain, sites, false))
  }

  /** Mail for the root domain is routed to SES and accepted by the rule:
      the MX record sits at the zone apex, the rule's only recipient is the
      zone's domain, and the verification TXT record lies inside the zone. */
  lemma MailSetupAgrees(stackName: string, region: string, rootDomain: string, ruleSetName: string,
                        topicArn: string, sites: seq<SiteConfig>)
    ensures var p := Synthesize(stackName, region, rootDomain, ruleSetName, topicArn, sites);
            && p.verification.mx.recordName == p.zoneName
            && p.receiptRule.recipients == [p.zoneName]
            && p.receiptRule.ruleName == p.zoneName
            && IsSuffix("." + p.zoneName, p.verification.txt.recordName)
  {
    SesDomainVerification.TxtRecordInZone(rootDomain);
  }

  /** Each site gets one A record per alias, named after the alias, pointing
      at that site's own distribution and lying inside the zone; the primary
      alias is the site's full domain, and the root is an alias exactly for `www`. */
  lemma RecordsFollowAliases(stackName: string, region: string, rootDomain: string, ruleSetName: string,
                             topicArn: string, sites: seq<SiteConfig>)
    ensures var p := Synthesize(stackName, region, rootDomain, ruleSetName, topicArn, sites);
            forall i :: 0 <= i < |sites| ==>
              && |p.sites[i].records| == |p.sites[i].distribution.aliases|
              && p.sites[i].records[0].recordName == FullDomain(rootDomain, sites[i].subdomain)
              && (|p.sites[i].records| == 2 <==> sites[i].subdomain == "www")
              && (forall j :: 0 <= j < |p.sites[i].records| ==>
                    && p.sites[i].records[j].recordName == p.sites[i].distribution.aliases[j]
                    && p.sites[i].records[j].target == p.sites[i].distribution.id
                    && InZone(rootDomain, p.sites[i].records[j].recordName))
  {
    var p := Synthesize(stackName, region, rootDomain, ruleSetName, topicArn, sites);
    forall i | 0 <= i < |sites| {
      SiteRecordsFollowAliases(rootDomain, sites[i], p.sites[i].distribution.rewritesDirectoryRoots);
    }
  }

  /** Distribution and record construct ids are the prefix, a dash and the
      dot-stripped domain, and contain no dot. */
  lemma ConstructIdsDotFree(stackName: string, region: string, rootDomain: string, ruleSetName: string,
                            topicArn: string, sites: seq<SiteConfig>)
    ensures var p := Synthesize(stackName, region, rootDomain, ruleSetName, topicArn, sites);
            forall i :: 0 <= i < |sites| ==>
              && p.sites[i].distribution.id == ConstructId("Distribution", FullDomain(rootDomain, sites[i].subdomain))
              && '.' !in p.sites[i].distribution.id
              && forall j :: 0 <= j < |p.sites[i].records| ==>
                   && p.sites[i].records[j].id == ConstructId("RecordSet", p.sites[i].distribution.aliases[j])
                   && '.' !in p.sites[i].records[j].id
  {
    var p := Synthesize(stackName, region, rootDomain, ruleSetName, topicArn, sites);
    forall i | 0 <= i < |sites|
      ensures p.sites[i] == PlanSite(rootDomain, sites[i], false)
    {
    }
  }
}
