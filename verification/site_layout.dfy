/**
 The names both site stacks derive from the root domain and each configured
 site: the site's full domain, its alias list, the construct ids of its
 distribution and alias records, its origin path, the bucket names and the
 certificate. `SiteHostingStack` and `StaticSiteStack` write the same
 derivations out twice; here they are defined once.
 */
module SiteLayout {
  import opened Strings

  /** One entry of the `sites` configuration list. */
  datatype SiteConfig = SiteConfig(subdomain: string)

  /** A CloudFront web distribution, as far as names are concerned. */
  datatype Distribution = Distribution(
    id: string,
    aliases: seq<string>,
    originPath: string,
    rewritesDirectoryRoots: bool)

  /** A Route 53 A record aliasing a distribution. */
  datatype AliasRecord = AliasRecord(id: string, recordName: string, target: string)

  /** What one iteration of the per-site loop creates. */
  datatype SitePlan = SitePlan(distribution: Distribution, records: seq<AliasRecord>)

  /** An S3 bucket, by name. */
  datatype Bucket = Bucket(bucketName: string)

  /** An ACM certificate request. */
  datatype Certificate = Certificate(domainName: string, subjectAlternativeNames: seq<string>)

  /** A DNS label as a wildcard can match it: non-empty and without a dot. */
  predicate IsSingleLabel(s: string)
  {
    |s| > 0 && '.' !in s
  }

  // ---------------------------------------------------------------------------
  // Full domain of a site

  /** `_getFullDomainForSite`: an empty subdomain is falsy and yields the root. */
  function FullDomain(root: string, subdomain: string): (r: string)
    ensures IsSuffix(root, r)
    ensures InZone(root, r)
    ensures subdomain == "" ==> r == root
    ensures subdomain != "" ==> |r| == |subdomain| + 1 + |root| && r[..|subdomain|] == subdomain && r[|subdomain|] == '.'
  {
    if subdomain != "" then
      assert subdomain + "." + root == subdomain + ("." + root);
      subdomain + "." + root
    else root
  }

  /** The subdomain a full domain was built from: the inverse of `FullDomain`. */
  function SubdomainOf(full: string, root: string): string
    requires IsSuffix(root, full)
  {
    if |full| == |root| then "" else full[..|full| - |root| - 1]
  }

  /** `SubdomainOf` recovers the subdomain, so distinct sites of one root
      domain have distinct full domains. */
  lemma FullDomainRoundTrip(root: string, subdomain: string)
    ensures SubdomainOf(FullDomain(root, subdomain), root) == subdomain
  {
  }

  lemma FullDomainInjective(root: string, sub1: string, sub2: string)
    requires FullDomain(root, sub1) == FullDomain(root, sub2)
    ensures sub1 == sub2
  {
    FullDomainRoundTrip(root, sub1);
    FullDomainRoundTrip(root, sub2);
  }

  // ---------------------------------------------------------------------------
  // Alias list

  /** `domainNames`: the full domain, then the root when the subdomain is `www`. */
  function Aliases(root: string, subdomain: string): (r: seq<string>)
    ensures |r| == 1 || |r| == 2
    ensures r[0] == FullDomain(root, subdomain)
    ensures |r| == 2 <==> subdomain == "www"
    ensures |r| == 2 ==> r[1] == root
  {
    var primary := FullDomain(root, subdomain);
    if subdomain == "www" then [primary, root] else [primary]
  }

  /** The alias list never names one domain twice. */
  lemma AliasesDistinct(root: string, subdomain: string)
    ensures forall i, j :: 0 <= i < j < |Aliases(root, subdomain)| ==> Aliases(root, subdomain)[i] != Aliases(root, subdomain)[j]
  {
  }

  // ---------------------------------------------------------------------------
  // Construct ids

  /** `s.replace(/\./g, '')`. */
  function StripDots(s: string): (r: string)
    ensures '.' !in r
    ensures |r| <= |s|
  {
    if s == [] then []
    else if s[0] == '.' then StripDots(s[1..])
    else [s[0]] + StripDots(s[1..])
  }

  /** Every character other than a dot is kept, as many times as it occurs. */
  lemma {:induction false} StripDotsKeepsOtherCharacters(s: string)
    ensures forall c :: c != '.' ==> multiset(StripDots(s))[c] == multiset(s)[c]
    decreases |s|
  {
    if s != [] {
      assert s == [s[0]] + s[1..];
      StripDotsKeepsOtherCharacters(s[1..]);
    }
  }

  /** Stripping distributes over concatenation, so the characters that remain
      keep their order. */
  lemma {:induction false} StripDotsAppend(a: string, b: string)
    ensures StripDots(a + b) == StripDots(a) + StripDots(b)
    decreases |a|
  {
    if a == [] {
      assert a + b == b;
    } else {
      assert (a + b)[0] == a[0];
      assert (a + b)[1..] == a[1..] + b;
      StripDotsAppend(a[1..], b);
    }
  }

  /** A string without dots is left as it is. */
  lemma {:induction false} StripDotsOfDotFree(s: string)
    requires '.' !in s
    ensures StripDots(s) == s
    decreases |s|
  {
    if s != [] {
      assert s[0] in s;
      assert forall c :: c in s[1..] ==> c in s;
      StripDotsOfDotFree(s[1..]);
    }
  }

  /** The result contains no dot, so stripping twice is stripping once. */
  lemma StripDotsIdempotent(s: string)
    ensures StripDots(StripDots(s)) == StripDots(s)
  {
    StripDotsOfDotFree(StripDots(s));
  }

  /** A lone dot strips to nothing. */
  lemma StripDotOnly()
    ensures StripDots(".") == []
  {
    assert "."[1..] == [];
  }

  /** The full domain of a site without a dotted subdomain strips to the
      subdomain followed by the stripped root. */
  lemma StripFullDomain(root: string, subdomain: string)
    requires '.' !in subdomain
    ensures StripDots(FullDomain(root, subdomain))
              == subdomain + StripDots(root)
  {
    if subdomain != "" {
      var dot := ".";
      var head := subdomain + dot;
      assert FullDomain(root, subdomain) == head + root;
      StripDotsAppend(head, root);
      StripDotsAppend(subdomain, dot);
      StripDotOnly();
      StripDotsOfDotFree(subdomain);
      assert StripDots(head) == subdomain;
    }
  }

  /** A construct id: the prefix, a dash, and the domain without dots. */
  function ConstructId(prefix: string, domain: string): (r: string)
    ensures '.' !in prefix ==> '.' !in r
  {
    var stripped := StripDots(domain);
    assert forall i :: 0 <= i < |stripped| ==> stripped[i] != '.';
    prefix + "-" + stripped
  }

  // ---------------------------------------------------------------------------
  // Origin path, buckets and certificate

  /** `/${site.subdomain}`: the folder of the hosting bucket the site serves. */
  function OriginPath(subdomain: string): (r: string)
    ensures |r| == |subdomain| + 1 && r[0] == '/' && r[1..] == subdomain
  {
    "/" + subdomain
  }

  const HostingBucketPrefix: string := "static-site-hosting-"
  const LogBucketPrefix: string := "static-site-logs-"

  function HostingBucketName(root: string): string
  {
    HostingBucketPrefix + root
  }

  function LogBucketName(root: string): string
  {
    LogBucketPrefix + root
  }

  /** The hosting bucket name never equals a log bucket name, whatever the two
      root domains; and each name determines its root domain. */
  lemma BucketNamesDistinct(root1: string, root2: string)
    ensures HostingBucketName(root1)[|HostingBucketPrefix|..] == root1
    ensures LogBucketName(root1)[|LogBucketPrefix|..] == root1
    ensures HostingBucketName(root1) != LogBucketName(root2)
    ensures HostingBucketName(root1) == HostingBucketName(root2) ==> root1 == root2
    ensures LogBucketName(root1) == LogBucketName(root2) ==> root1 == root2
  {
    // Both prefixes start with `static-site-`; the next letter tells them apart.
    var shared := |"static-site-"|;
    assert HostingBucketName(root1)[shared] == 'h';
    assert LogBucketName(root2)[shared] == 'l';
  }

  /** The domain certificate: the wildcard of the root, with the root itself
      as the only subject alternative name. */
  function DomainCertificate(root: string): Certificate
  {
    Certificate("*." + root, [root])
  }

  /** Wildcard matching as in section 6.4.3 of RFC 6125: `*.base` matches a
      name made of exactly one non-empty label, a dot, and `base`. */
  predicate WildcardMatches(pattern: string, name: string)
  {
    && |pattern| >= 2 && pattern[..2] == "*."
    && |name| > |pattern| - 1
    && name[|name| - (|pattern| - 1)..] == pattern[1..]
    && IsSingleLabel(name[..|name| - (|pattern| - 1)])
  }

  /** Whether a certificate is valid for a host name. */
  predicate Covers(c: Certificate, name: string)
  {
    name == c.domainName || name in c.subjectAlternativeNames || WildcardMatches(c.domainName, name)
  }

  /** The certificate is valid exactly for the root itself, for its own
      wildcard name, and for every name of one label below the root. */
  lemma CertificateValidFor(root: string, name: string)
    ensures Covers(DomainCertificate(root), name) <==>
              (|| name == root
               || name == "*." + root
               || (IsSuffix("." + root, name) && IsSingleLabel(name[..|name| - |root| - 1])))
  {
    var c := DomainCertificate(root);
    assert c.domainName[1..] == "." + root;
    assert c.subjectAlternativeNames == [root];
  }

  /** For a site whose subdomain is empty or one label, the certificate is
      valid for every alias of the site. */
  lemma CertificateCoversAliases(root: string, subdomain: string)
    requires subdomain == "" || IsSingleLabel(subdomain)
    ensures forall a :: a in Aliases(root, subdomain) ==> Covers(DomainCertificate(root), a)
  {
    var c := DomainCertificate(root);
    if subdomain != "" {
      var full := FullDomain(root, subdomain);
      assert full == subdomain + ("." + root);
      assert full[|full| - (|c.domainName| - 1)..] == c.domainName[1..];
      assert full[..|full| - (|c.domainName| - 1)] == subdomain;
      assert WildcardMatches(c.domainName, full);
    }
  }

  /** A subdomain of several labels (one containing a dot) yields a full
      domain the certificate is not valid for: the wildcard matches one label only. */
  lemma CertificateMissesDottedSubdomain(root: string, subdomain: string)
    requires '.' in subdomain
    ensures !Covers(DomainCertificate(root), FullDomain(root, subdomain))
  {
    var c := DomainCertificate(root);
    var full := FullDomain(root, subdomain);
    assert full == subdomain + ("." + root);
    // The only candidate label is the whole subdomain, and it holds a dot.
    assert full[..|full| - (|c.domainName| - 1)] == subdomain;
    assert full[..|subdomain|] == subdomain;
    assert c.domainName[..1] == "*";
  }

  // ---------------------------------------------------------------------------
  // One site

  /** The A records for an alias list: one per alias, named after it, each
      aliasing the distribution `target`. */
  function AliasRecords(aliases: seq<string>, target: string): (r: seq<AliasRecord>)
    ensures |r| == |aliases|
    ensures forall i :: 0 <= i < |r| ==> r[i].recordName == aliases[i] && r[i].target == target
    ensures forall i :: 0 <= i < |r| ==> r[i].id == ConstructId("RecordSet", aliases[i])
  {
    seq(|aliases|, i requires 0 <= i < |aliases| => AliasRecord(ConstructId("RecordSet", aliases[i]), aliases[i], target))
  }

  /** The body of `props.sites.forEach`: one distribution serving the site's
      aliases from the site's folder, and one A record per alias. */
  function PlanSite(root: string, site: SiteConfig, rewritesDirectoryRoots: bool): (p: SitePlan)
    ensures p.distribution.aliases == Aliases(root, site.subdomain)
    ensures p.distribution.originPath == OriginPath(site.subdomain)
    ensures p.distribution.rewritesDirectoryRoots == rewritesDirectoryRoots
    ensures |p.records| == |p.distribution.aliases|
    ensures forall i :: 0 <= i < |p.records| ==>
              p.records[i].recordName == p.distribution.aliases[i] && p.records[i].target == p.distribution.id
    // Construct ids: the prefix, a dash and the dot-stripped domain, never a dot.
    ensures p.distribution.id == ConstructId("Distribution", FullDomain(root, site.subdomain)) && '.' !in p.distribution.id
    ensures forall j :: 0 <= j < |p.records| ==>
              p.records[j].id == ConstructId("RecordSet", p.distribution.aliases[j]) && '.' !in p.records[j].id
  {
    var aliases := Aliases(root, site.subdomain);
    var id := ConstructId("Distribution", aliases[0]);
    SitePlan(Distribution(id, aliases, OriginPath(site.subdomain), rewritesDirectoryRoots), AliasRecords(aliases, id))
  }

  /** All sites, in configuration order. */
  function PlanSites(root: string, sites: seq<SiteConfig>, rewritesDirectoryRoots: bool): (r: seq<SitePlan>)
    ensures |r| == |sites|
    ensures forall i :: 0 <= i < |r| ==> r[i] == PlanSite(root, sites[i], rewritesDirectoryRoots)
  {
    seq(|sites|, i requires 0 <= i < |sites| => PlanSite(root, sites[i], rewritesDirectoryRoots))
  }

  /** Each site gets one A record per alias, named after the alias, pointing
      at the site's own distribution and lying inside the root's zone; the
      primary alias is the full domain, and the root is an alias exactly for `www`. */
  lemma SiteRecordsFollowAliases(root: string, site: SiteConfig, rewritesDirectoryRoots: bool)
    ensures var p := PlanSite(root, site, rewritesDirectoryRoots);
            && |p.records| == |p.distribution.aliases|
            && p.records[0].recordName == FullDomain(root, site.subdomain)
            && (|p.records| == 2 <==> site.subdomain == "www")
            && (forall j :: 0 <= j < |p.records| ==>
                  && p.records[j].recordName == p.distribution.aliases[j]
                  && p.records[j].target == p.distribution.id
                  && InZone(root, p.records[j].recordName))
  {
    var p := PlanSite(root, site, rewritesDirectoryRoots);
    var aliases := p.distribution.aliases;
    assert forall j :: 0 <= j < |aliases| ==> aliases[j] == FullDomain(root, site.subdomain) || aliases[j] == root;
  }

  /** Within one site the record ids are distinct: only a `www` site has two
      records, and their ids differ by the `www` the first one starts with. */
  lemma RecordIdsDistinctWithinSite(root: string, site: SiteConfig, rewritesDirectoryRoots: bool)
    ensures var p := PlanSite(root, site, rewritesDirectoryRoots);
            forall i, j :: 0 <= i < j < |p.records| ==> p.records[i].id != p.records[j].id
  {
    var p := PlanSite(root, site, rewritesDirectoryRoots);
    if |p.records| == 2 {
      StripFullDomain(root, site.subdomain);
      assert p.records[0].id == "RecordSet-" + ("www" + StripDots(root));
      assert p.records[1].id == "RecordSet-" + StripDots(root);
    }
  }

  /** Configuring both an apex site (empty subdomain) and a `www` site makes
      two A records with the same construct id, which CDK rejects at
      synthesis: the apex site's record and the `www` site's record for the root. */
  lemma ApexAndWwwRecordIdsCollide(root: string, rewritesDirectoryRoots: bool)
    ensures var plans := PlanSites(root, [SiteConfig(""), SiteConfig("www")], rewritesDirectoryRoots);
            plans[0].records[0].id == plans[1].records[1].id
  {
  }

  /** Two non-empty subdomains that differ only in their dots, such as `a.b`
      and `ab`, give their distributions the same construct id, which CDK
      rejects at synthesis. */
  lemma DistributionIdsCollide(root: string, s: string, t: string, rewritesDirectoryRoots: bool)
    requires s != "" && t != "" && StripDots(s) == StripDots(t)
    ensures PlanSite(root, SiteConfig(s), rewritesDirectoryRoots).distribution.id
              == PlanSite(root, SiteConfig(t), rewritesDirectoryRoots).distribution.id
  {
    StripDotsAppend(s + ".", root);
    StripDotsAppend(s, ".");
    StripDotsAppend(t + ".", root);
    StripDotsAppend(t, ".");
    assert FullDomain(root, s) == s + "." + root;
    assert FullDomain(root, t) == t + "." + root;
  }

  /** `a.b` and `ab` are such a pair. */
  lemma DottedAndUndottedSubdomainsCollide(root: string, rewritesDirectoryRoots: bool)
    ensures PlanSite(root, SiteConfig("a.b"), rewritesDirectoryRoots).distribution.id
              == PlanSite(root, SiteConfig("ab"), rewritesDirectoryRoots).distribution.id
  {
    StripDotsAppend("a.", "b");
    StripDotsAppend("a", ".");
    StripDotOnly();
    StripDotsOfDotFree("ab");
    assert "a.b" == "a." + "b" && "a." == "a" + ".";
    DistributionIdsCollide(root, "a.b", "ab", rewritesDirectoryRoots);
  }

  /** The apex site's origin path `/` is a prefix of every other site's: the
      apex distribution can read every site's folder in the shared bucket. */
  lemma ApexOriginPathContainsAllSites(subdomain: string)
    ensures OriginPath("") <= OriginPath(subdomain)
  {
  }
}
