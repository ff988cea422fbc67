/**
 `SiteHostingStack`: hosts every configured site of an existing hosted zone
 behind its own CloudFront distribution, all served from one bucket, with the
 directory-root rewriter attached to every distribution.
 */
module SiteHostingStack {
  import opened SiteLayout
  import opened Strings

  datatype HostingPlan = HostingPlan(
    certificate: Certificate,
    hostingBucket: Bucket,
    logBucket: Bucket,
    rewriterFunctionName: string,
    sites: seq<SitePlan>)

  /** The resources the stack's constructor creates for the zone `zoneName`. */
  function Synthesize(stackName: string, zoneName: string, sites: seq<SiteConfig>): (p: HostingPlan)
    ensures p.certificate == DomainCertificate(zoneName)
    ensures p.hostingBucket.bucketName == HostingBucketName(zoneName)
    ensures p.logBucket.bucketName == LogBucketName(zoneName)
    ensures |p.sites| == |sites|
    ensures forall i :: 0 <= i < |sites| ==>
              && p.sites[i].distribution.aliases == Aliases(zoneName, sites[i].subdomain)
              && p.sites[i].distribution.originPath == OriginPath(sites[i].subdomain)
              && p.sites[i].distribution.rewritesDirectoryRoots
  {
    HostingPlan(
      DomainCertificate(zoneName),
      Bucket(HostingBucketName(zoneName)),
      Bucket(LogBucketName(zoneName)),
      stackName + "-directory-root-rewriter",
      PlanSites(zoneName, sites, true))
  }

  /** Each site gets one A record per alias, named after the alias, pointing
      at that site's own distribution and lying inside the zone; the primary
      alias is the site's full domain, and the root is an alias exactly for `www`. */
  lemma RecordsFollowAliases(stackName: string, zoneName: string, sites: seq<SiteConfig>)
    ensures var p := Synthesize(stackName, zoneName, sites);
            forall i :: 0 <= i < |sites| ==>
              && |p.sites[i].records| == |p.sites[i].distribution.aliases|
              && p.sites[i].records[0].recordName == FullDomain(zoneName, sites[i].subdomain)
              && (|p.sites[i].records| == 2 <==> sites[i].subdomain == "www")
              && (forall j :: 0 <= j < |p.sites[i].records| ==>
                    && p.sites[i].records[j].recordName == p.sites[i].distribution.aliases[j]
                    && p.sites[i].records[j].target == p.sites[i].distribution.id
                    && InZone(zoneName, p.sites[i].records[j].recordName))
  {
    var p := Synthesize(stackName, zoneName, sites);
    forall i | 0 <= i < |sites| {
      SiteRecordsFollowAliases(zoneName, sites[i], p.sites[i].distribution.rewritesDirectoryRoots);
    }
  }

  /** Distribution and record construct ids contain no dot. */
  lemma ConstructIdsDotFree(stackName: string, zoneName: string, sites: seq<SiteConfig>)
    ensures var p := Synthesize(stackName, zoneName, sites);
            forall i :: 0 <= i < |sites| ==>
              && p.sites[i].distribution.id == ConstructId("Distribution", FullDomain(zoneName, sites[i].subdomain))
              && '.' !in p.sites[i].distribution.id
              && forall j :: 0 <= j < |p.sites[i].records| ==> '.' !in p.sites[i].records[j].id
  {
    var p := Synthesize(stackName, zoneName, sites);
    forall i | 0 <= i < |sites|
      ensures '.' !in p.sites[i].distribution.id
      ensures forall j :: 0 <= j < |p.sites[i].records| ==> '.' !in p.sites[i].records[j].id
    {
      var aliases := p.sites[i].distribution.aliases;
      assert p.sites[i].distribution.id == ConstructId("Distribution", aliases[0]);
      assert p.sites[i].records == AliasRecords(aliases, p.sites[i].distribution.id);
    }
  }

  /** The certificate is valid for every alias of every site whose subdomain
      is empty or a single label, and the two buckets never share a name. */
  lemma CertificateAndBucketsFitSites(stackName: string, zoneName: string, sites: seq<SiteConfig>)
    requires forall i :: 0 <= i < |sites| ==> sites[i].subdomain == "" || IsSingleLabel(sites[i].subdomain)
    ensures var p := Synthesize(stackName, zoneName, sites);
            && (forall i, a :: 0 <= i < |sites| && a in p.sites[i].distribution.aliases ==> Covers(p.certificate, a))
            && p.hostingBucket.bucketName != p.logBucket.bucketName
  {
    forall i | 0 <= i < |sites| {
      CertificateCoversAliases(zoneName, sites[i].subdomain);
    }
    BucketNamesDistinct(zoneName, zoneName);
  }
}
