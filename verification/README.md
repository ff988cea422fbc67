# static-site-hosting, modelled in Dafny

This project models the parts of the static-site-hosting CDK application that compute something. The rest is declarative configuration.

- **The SES domain-verification custom resource handler** (`ses_verification_handler.dfy`). CloudFormation sends the Lambda a `Create`, `Update` or `Delete` lifecycle event. The handler calls SES `verifyDomainIdentity` and/or `deleteIdentity` and reports the outcome through `cfn-response`. It is modelled as a pure function `Handler(event, script, delivery)`:
  - the `AdapterScript` fixes how SES settles each of its two operations;
  - the `Delivery` fixes whether sending the SUCCESS report throws;
  - the result is either `Threw` (a synchronous throw before any promise exists, with no report) or `Ran(calls, reports)`, the SES requests in issue order and the `response.send` calls in send order.
- **The JavaScript values the handler touches** (`js_values.dfy`). Objects are represented only by their `Domain` property. Reading `.Domain` of `undefined` or `null` throws a `TypeError`. Reading it from a string yields `undefined`.
- **The directory-root rewriter** (`directory_root_rewrite.dfy`). This is the Lambda@Edge handler that appends `index.html` to a URI ending in `/`.
- **The names both site stacks derive** (`site_layout.dfy`): full domain, alias list, dot-stripped construct ids, origin path, bucket names, the certificate and the per-site records. The two stacks spell these derivations out separately; here they are defined once. `site_hosting_stack.dfy` and `static_site_stack.dfy` use them. The static-site stack also has the SES receipt rule.
- **The `SESDomainOwnershipVerification` construct** (`ses_domain_verification.dfy`): the TXT and MX records, the `Domain` property and the IAM actions. Its lemmas state what the construct and the handler must agree on.

### Behaviour as written

In these places the model follows the code as written:

- `doUpdate` passes `oldProps.Domain`, a string, to `doDelete`. `doDelete` then reads `.Domain` of that string, so an update sends a `deleteIdentity` request carrying `Identity: undefined` and never the old domain (`UpdateDeletesUndefinedIdentity`, `UpdateNeverDeletesOldDomain`). The SDK's parameter validation normally rejects such a request before it reaches SES, and then the update fails at the delete. The model leaves that answer to the scripted SES result.
- Every SES error fails the operation, including "identity not found"; the code has no rule that treats a missing identity as already deleted.
- The code does not validate the domain.
- The data of a FAILED report is `{ error: err }`, where `err` is the thrown value itself.
- The handler passes only a data payload to `cfn-response`. The payload's `PhysicalResourceId` key is the domain. The physical resource id that `cfn-response` reports is its own default and is not modelled.

## Model

| member | source | states |
|---|---|---|
| JsValues.ReadDomain | src/custom-resources/ses-domain-ownership-verification/SESDomainOwnershipVerificationHandler.js:10-21 | reading `.Domain` throws a TypeError exactly when the value is undefined or null; from a string it yields undefined, and from an object its `Domain` property |
| SesVerificationHandler.DoCreate | src/custom-resources/ses-domain-ownership-verification/SESDomainOwnershipVerificationHandler.js:9-14 | throws synchronously exactly when the properties are undefined/null; otherwise issues exactly one verify request for `props.Domain`, and resolves iff SES resolves, with that domain as `PhysicalResourceId` and the minted token, or rejects with the SES error |
| SesVerificationHandler.DoDelete | src/custom-resources/ses-domain-ownership-verification/SESDomainOwnershipVerificationHandler.js:16-18 | throws synchronously exactly when the properties are undefined/null; otherwise issues exactly one delete request for `props.Domain`; resolves iff SES resolves, with the SES answer as the value, and otherwise rejects with the SES error |
| SesVerificationHandler.DoUpdate | src/custom-resources/ses-domain-ownership-verification/SESDomainOwnershipVerificationHandler.js:20-22 | throws (a TypeError) exactly when the old properties, or their `Domain` value, are undefined/null; the first request deletes the `Domain` of the old `Domain` value; a rejected delete is the only request and rejects the update with the same error; after a resolved delete, `doCreate(props)` follows, its requests appended and its outcome adopted, and a throw in it rejects the update |
| SesVerificationHandler.Dispatch | src/custom-resources/ses-domain-ownership-verification/SESDomainOwnershipVerificationHandler.js:36-44 | an unrecognised request type makes no request and resolves with undefined; the requests always follow the protocol order (at most one of each operation, delete before verify); a synchronous throw is always a TypeError |
| SesVerificationHandler.Respond | src/custom-resources/ses-domain-ownership-verification/SESDomainOwnershipVerificationHandler.js:47-53 | one or two sends: SUCCESS with the resolved value, or FAILED with the rejection reason; a second send, FAILED with the thrown error, happens iff the SUCCESS send throws |
| SesVerificationHandler.Handler | src/custom-resources/ses-domain-ownership-verification/SESDomainOwnershipVerificationHandler.js:28-54 | once the operation promise settles, exactly one terminal report follows, plus a FAILED one only when the SUCCESS send throws; requests follow the protocol order; a synchronous throw is a TypeError in one of the three lifecycle branches |
| SesVerificationHandler.CreateVerifiesDomain | src/custom-resources/ses-domain-ownership-verification/SESDomainOwnershipVerificationHandler.js:38-39 | Create issues exactly `[verifyDomainIdentity(ResourceProperties.Domain)]`; success reports `{PhysicalResourceId: Domain, VerificationToken: token}`, and an SES error reports FAILED with that error only |
| SesVerificationHandler.DeleteRemovesIdentity | src/custom-resources/ses-domain-ownership-verification/SESDomainOwnershipVerificationHandler.js:40-41 | Delete issues exactly `[deleteIdentity(ResourceProperties.Domain)]` and nothing else; the SUCCESS data is the SES answer; any SES error, including "not found", reports FAILED |
| SesVerificationHandler.UpdateDeletesBeforeCreating | src/custom-resources/ses-domain-ownership-verification/SESDomainOwnershipVerificationHandler.js:20-22 | on Update the delete comes first; if the delete rejects, no verify request is issued and the only report is FAILED; a second request implies that the delete resolved |
| SesVerificationHandler.UpdateDeletesUndefinedIdentity | src/custom-resources/ses-domain-ownership-verification/SESDomainOwnershipVerificationHandler.js:17-21 | with old properties `{Domain: old}`, the identity sent to deleteIdentity is `undefined` and never `old` |
| SesVerificationHandler.UpdateReportsNewDomain | src/custom-resources/ses-domain-ownership-verification/SESDomainOwnershipVerificationHandler.js:9-22 | after a resolved delete, Update verifies the new `Domain`; success reports the new domain as `PhysicalResourceId` with the fresh token, and a verify error reports FAILED |
| SesVerificationHandler.UpdateWithoutNewPropertiesFailsAfterDelete | src/custom-resources/ses-domain-ownership-verification/SESDomainOwnershipVerificationHandler.js:10-21 | an Update whose new properties are missing still issues the delete; the create's property read then throws inside the continuation, giving exactly one FAILED report with a TypeError |
| SesVerificationHandler.OtherRequestsSucceedWithoutCalls | src/custom-resources/ses-domain-ownership-verification/SESDomainOwnershipVerificationHandler.js:36-49 | any other request type makes zero SES requests and reports SUCCESS with undefined data |
| SesVerificationHandler.MissingPropertiesThrowWithoutReport | src/custom-resources/ses-domain-ownership-verification/SESDomainOwnershipVerificationHandler.js:38-43 | missing properties (new ones on Create/Delete, old ones on Update) throw before any promise exists: no request and no report |
| SesVerificationHandler.EachOperationAtMostOnce | src/custom-resources/ses-domain-ownership-verification/SESDomainOwnershipVerificationHandler.js:36-53 | for every event and SES answer, no operation is requested twice, and the first report is SUCCESS iff the operation promise fulfilled |
| DirectoryRootRewrite.RewriteUri | src/functions/DirectoryRootRewriteHandler.js:8-9 | the input URI is always a prefix of the output; the output differs iff the URI is non-empty and ends in `/`, and then exactly by `index.html` appended, so the length grows by exactly 0 or 10 |
| DirectoryRootRewrite.RewriteRequest | src/functions/DirectoryRootRewriteHandler.js:8-9 | only `uri` can change: every other field is kept, and an absent URI stays absent |
| DirectoryRootRewrite.Handle | src/functions/DirectoryRootRewriteHandler.js:5-13 | with at least one record, the callback is invoked exactly once with a null error and the first record's request with its other fields unchanged; with no record, the handler throws |
| DirectoryRootRewrite.HandleServesIndexDocument | src/functions/DirectoryRootRewriteHandler.js:5-13 | for a first record whose URI ends in `/`, the callback gets a null error and that request with `index.html` appended to the URI, every other field unchanged |
| DirectoryRootRewrite.RewrittenUriIsNotDirectory | src/functions/DirectoryRootRewriteHandler.js:8-9 | a rewritten URI no longer satisfies the trailing-slash guard |
| DirectoryRootRewrite.RewriteIdempotent | src/functions/DirectoryRootRewriteHandler.js:8-9 | rewriting twice equals rewriting once |
| DirectoryRootRewrite.NonDirectoryRequestsPassThrough | src/functions/DirectoryRootRewriteHandler.js:8 | a request with an absent, empty or non-slash-terminated URI is returned unchanged |
| DirectoryRootRewrite.RewriteRequestIdempotent | src/functions/DirectoryRootRewriteHandler.js:8-9 | the request rewrite is idempotent |
| SiteLayout.FullDomain | src/stacks/SiteHostingStack.ts:215-217 | the full domain always lies inside the root's zone (it is the root itself or ends in `.` plus the root, so the match falls on a label boundary); an empty subdomain gives the root itself; otherwise it is the subdomain, then a dot, then the root |
| SiteLayout.FullDomainRoundTrip | src/stacks/SiteHostingStack.ts:216 | stripping the root (and the dot) from a full domain recovers the subdomain |
| SiteLayout.FullDomainInjective | src/stacks/SiteHostingStack.ts:216 | two sites of one root with the same full domain have the same subdomain |
| SiteLayout.Aliases | src/stacks/SiteHostingStack.ts:68-73 | the alias list starts with the full domain; it has length 2, with the root appended, iff the subdomain is exactly `www`, and length 1 otherwise |
| SiteLayout.AliasesDistinct | src/stacks/SiteHostingStack.ts:68-73 | no alias list names a domain twice |
| SiteLayout.StripDots | src/stacks/SiteHostingStack.ts:75 | the result contains no `.` and is never longer than the input |
| SiteLayout.StripDotsKeepsOtherCharacters | src/stacks/SiteHostingStack.ts:75 | every character other than `.` occurs in the result exactly as often as in the input |
| SiteLayout.StripDotsAppend | src/stacks/SiteHostingStack.ts:75 | stripping distributes over concatenation, so the remaining characters keep their order |
| SiteLayout.StripDotsOfDotFree | src/stacks/SiteHostingStack.ts:75 | a string without dots is unchanged |
| SiteLayout.StripDotsIdempotent | src/stacks/SiteHostingStack.ts:75 | stripping twice equals stripping once |
| SiteLayout.StripFullDomain | src/stacks/SiteHostingStack.ts:75 | for a dot-free subdomain, the stripped full domain is the subdomain followed by the stripped root |
| SiteLayout.ConstructId | src/stacks/SiteHostingStack.ts:75 | a construct id with a dot-free prefix (`Distribution`, `RecordSet`) contains no dot |
| SiteLayout.OriginPath | src/stacks/SiteHostingStack.ts:92 | the origin path is `/` followed by the subdomain (just `/` when it is empty), so the subdomain can be recovered from it |
| SiteLayout.BucketNamesDistinct | src/stacks/SiteHostingStack.ts:134-165 | the hosting bucket is `static-site-hosting-` followed by the root and the log bucket `static-site-logs-` followed by the root; a hosting bucket name never equals a log bucket name, whatever the roots, and each name determines its root |
| SiteLayout.CertificateValidFor | src/stacks/SiteHostingStack.ts:51-54 | the certificate (`*.` plus the root, with the root as its only SAN) is valid for a name iff the name is the root, the wildcard name itself, or one label, a dot and the root (wildcard matching as in RFC 6125, section 6.4.3) |
| SiteLayout.CertificateCoversAliases | src/stacks/SiteHostingStack.ts:51-73 | for a site with an empty or single-label subdomain, the certificate is valid for every alias (wildcard matching as in RFC 6125, section 6.4.3) |
| SiteLayout.CertificateMissesDottedSubdomain | src/stacks/SiteHostingStack.ts:51-54 | for a subdomain that contains a dot, the certificate is not valid for the site's full domain |
| SiteLayout.AliasRecords | src/stacks/SiteHostingStack.ts:123-130 | there is exactly one A record per alias, in alias order; each is named after its alias and aliases the given distribution |
| SiteLayout.PlanSite | src/stacks/SiteHostingStack.ts:67-131 | a site's distribution serves the site's alias list from the site's origin path; its records match the aliases one to one and target that distribution; the distribution id is `Distribution-` plus the dot-stripped full domain, each record id is `RecordSet-` plus its dot-stripped alias, and no id contains a dot |
| SiteLayout.PlanSites | src/stacks/SiteHostingStack.ts:67 | one site plan per configured site, in configuration order |
| SiteLayout.SiteRecordsFollowAliases | src/stacks/SiteHostingStack.ts:123-130 | a site's first record is named after its full domain; it has two records iff the subdomain is `www`; every record is named after its alias, targets the site's distribution and lies inside the root's zone (it is the root itself or ends in `.` plus the root, so the match falls on a label boundary) |
| SiteLayout.RecordIdsDistinctWithinSite | src/stacks/SiteHostingStack.ts:123-130 | within any one site, no two A records share a construct id |
| SiteLayout.ApexAndWwwRecordIdsCollide | src/stacks/SiteHostingStack.ts:123-130 | configuring both an apex site and a `www` site gives two A records the same construct id, which CDK rejects at synthesis |
| SiteLayout.DistributionIdsCollide | src/stacks/SiteHostingStack.ts:75 | two non-empty subdomains that are equal once their dots are removed give their distributions the same construct id, which CDK rejects at synthesis |
| SiteLayout.DottedAndUndottedSubdomainsCollide | src/stacks/SiteHostingStack.ts:75 | the subdomains `a.b` and `ab` are such a pair |
| SiteLayout.ApexOriginPathContainsAllSites | src/stacks/SiteHostingStack.ts:62-92 | the apex site's origin path is a prefix of every site's origin path in the shared bucket |
| SiteHostingStack.Synthesize | src/stacks/SiteHostingStack.ts:43-132 | the stack has the wildcard certificate, both buckets named after the zone, and one distribution per site with that site's aliases and origin path, each with the directory-root rewriter attached |
| SiteHostingStack.RecordsFollowAliases | src/stacks/SiteHostingStack.ts:67-130 | for every site: one A record per alias, named after it, targeting the site's distribution and inside the zone (the apex itself or a name ending in `.` plus the zone); the root is an alias iff the subdomain is `www` |
| SiteHostingStack.ConstructIdsDotFree | src/stacks/SiteHostingStack.ts:75-125 | distribution ids are `Distribution-` plus the dot-stripped full domain; no distribution or record id contains a dot |
| SiteHostingStack.CertificateAndBucketsFitSites | src/stacks/SiteHostingStack.ts:51-64 | if every subdomain is empty or a single label, the certificate covers every alias of every site, and the hosting and log buckets have different names |
| StaticSiteStack.DomainReceiptRule | src/stacks/StaticSiteStack.ts:137-147 | the receipt rule's name and its only recipient are the domain; it goes in the given rule set and notifies the given topic |
| StaticSiteStack.Synthesize | src/stacks/StaticSiteStack.ts:34-122 | the zone, the SES verification, the receipt rule, the certificate and both buckets are derived from the root domain; there is one distribution per site with the shared alias and origin-path derivations, none with a rewriter |
| StaticSiteStack.MailSetupAgrees | src/stacks/StaticSiteStack.ts:124-148 | the MX record sits at the zone apex; the receipt rule's name and only recipient are the zone's domain; the verification TXT record lies inside the zone |
| StaticSiteStack.RecordsFollowAliases | src/stacks/StaticSiteStack.ts:113-120 | for every site: one A record per alias, named after it, targeting the site's distribution and inside the zone (the apex itself or a name ending in `.` plus the zone); the root is an alias iff the subdomain is `www` |
| StaticSiteStack.ConstructIdsDotFree | src/stacks/StaticSiteStack.ts:71-115 | distribution ids are `Distribution-` plus the dot-stripped full domain, record ids are `RecordSet-` plus the dot-stripped alias, and no distribution or record id contains a dot |
| SesDomainVerification.Build | src/custom-resources/ses-domain-ownership-verification/SESDomainOwnershipVerification.ts:21-66 | one TXT value, the resource's `VerificationToken` attribute; an MX record at the domain with the single value (10, `inbound-smtp.<region>.amazonaws.com`); 30-minute TTL on both; the single property `Domain` = domain; exactly the actions VerifyDomainIdentity and DeleteIdentity |
| SesDomainVerification.TxtRecordInZone | src/custom-resources/ses-domain-ownership-verification/SESDomainOwnershipVerification.ts:23 | the TXT record name is `_amazonses.` followed by the domain: it ends in `.` plus the domain, so it lies inside the domain's zone, and the domain can be read back from it |
| SesDomainVerification.InboundHostRoundTrip | src/custom-resources/ses-domain-ownership-verification/SESDomainOwnershipVerification.ts:34 | the region can be recovered from the MX host name |
| SesDomainVerification.CreateVerifiesConstructDomain | src/custom-resources/ses-domain-ownership-verification/SESDomainOwnershipVerification.ts:63-65 | a Create built from the construct's properties verifies exactly the construct's domain; the TXT record's attribute resolves to the minted token, and `PhysicalResourceId` resolves to the domain |
| SesDomainVerification.DeleteRemovesConstructDomain | src/custom-resources/ses-domain-ownership-verification/SESDomainOwnershipVerification.ts:63-65 | a Delete built from the construct's properties deletes exactly the construct's domain |
| SesDomainVerification.UpdateNeverDeletesOldDomain | src/custom-resources/ses-domain-ownership-verification/SESDomainOwnershipVerification.ts:61-66 | changing the construct's domain sends a delete of `undefined` and never of the old domain; the new domain is verified iff that delete resolved |
| SesDomainVerification.GrantedActionsCoverCalls | src/custom-resources/ses-domain-ownership-verification/SESDomainOwnershipVerification.ts:56-59 | for every event and SES answer, each request the handler issues is authorised by the granted actions |
| SesDomainVerification.GrantedActionsAllUsed | src/custom-resources/ses-domain-ownership-verification/SESDomainOwnershipVerification.ts:57 | a Create and a Delete of the construct's resource together use exactly the granted actions |

## Left out

- The AWS SDK and its network calls are left out. SES is a scripted answer per operation (`AdapterScript`), and an error is an opaque code. The SDK's own parameter validation, such as a request whose `Domain` or `Identity` is `undefined`, is part of that scripted answer.
- The HTTP delivery of `cfn-response` is left out. A report is the status and data passed to `response.send`; whether that call throws is the `Delivery` parameter. The physical resource id it reports is that module's own default, which is not modelled.
- Promise scheduling is left out. Continuations run in program order, and there is no concurrency within an invocation.
- `console.log` is left out.
- SesVerificationHandler.Handler: an SES request that never settles is left out, because `Settled` has only the resolved and rejected cases. The verifier Lambda is created with the default timeout (no timeout is set in `SESDomainOwnershipVerification.ts`), and an invocation that times out while a request is pending sends no report. The model promises a report only once the operation promise settles.
- SiteHostingStack.Synthesize, StaticSiteStack.Synthesize: CDK's check that construct ids in one scope are unique, and the synthesis error it raises, are not modelled. The plan is returned even when two ids collide; `ApexAndWwwRecordIdsCollide` and `DistributionIdsCollide` name the configurations that CDK rejects.
- An unhandled rejection, which happens when the FAILED send itself throws, is left out. It sends no further report.
- JavaScript objects are left out beyond their `Domain` property, the only property the handler reads. Other event fields, such as `ServiceToken` and `ResponseURL`, reach only `cfn-response`.
- Subdomains are modelled as strings, their declared type. Values of another type from the YAML configuration are left out: the configuration is not type-checked, and `index.ts` is not part of this model.
- The CDK construct graph is left out: bucket policies, public-access blocks, CloudFront behaviours, TTLs, price class and TLS settings, the lifecycle rule, and the origin access identity. These are configuration with no computation.
- The Lambda packaging is left out: `readFileSync`, the runtime, and the sha256-derived version id of the rewriter. These are file I/O and hashing.
- `DomainResourcesStack.ts` is not part of this model. It passes the domain through to the same construct and receipt rule.
- `index.ts` is not part of this model. It reads and parses the configuration, and its dot-stripping of the stack name is the same `StripDots`.
- The region and the stack name are parameters. The region is the deployment's own, because no `env` is set. The stack name is set by `index.ts` from the configured domain.
