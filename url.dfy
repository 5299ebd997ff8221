/**
 * lib/url.ts: the application's base URL. Environment variables are
 * parameters; an unset variable and an empty one are both falsy and are
 * written `None` or `Some("")`.
 */
module Url {
  import opened Js

  const LocalOrigin := "http://localhost:5000"

  /** A JavaScript truthiness test on an optional string. */
  predicate IsSet(v: Option<string>) {
    v.Some? && v.value != ""
  }

  /** `"https://"` plus the trimmed first comma-separated entry of `REPLIT_DOMAINS`. */
  function PrimaryDomainUrl(replitDomains: string): string {
    "https://" + Trim(Split(replitDomains, ',')[0])
  }

  /** `getBaseUrl`. */
  function BaseUrl(appUrl: Option<string>, replitDomains: Option<string>, requestOrigin: Option<string>): (r: string)
    ensures r != ""
  {
    if IsSet(appUrl) then appUrl.value
    else if IsSet(replitDomains) then PrimaryDomainUrl(replitDomains.value)
    else if IsSet(requestOrigin) then requestOrigin.value
    else LocalOrigin
  }

  /**
   * The priority chain: the app URL as given, else the first Replit domain
   * over https, else the request's origin, else the local default; each
   * source is ignored whenever an earlier one is set.
   */
  lemma BaseUrlPriority(appUrl: Option<string>, replitDomains: Option<string>, requestOrigin: Option<string>)
    ensures IsSet(appUrl) ==> BaseUrl(appUrl, replitDomains, requestOrigin) == appUrl.value
    ensures !IsSet(appUrl) && IsSet(replitDomains) ==>
      BaseUrl(appUrl, replitDomains, requestOrigin) == "https://" + Trim(Split(replitDomains.value, ',')[0])
    ensures !IsSet(appUrl) && !IsSet(replitDomains) ==>
      BaseUrl(appUrl, replitDomains, requestOrigin) == (if IsSet(requestOrigin) then requestOrigin.value else "http://localhost:5000")
    ensures IsSet(appUrl) || IsSet(replitDomains) ==>
      forall other :: BaseUrl(appUrl, replitDomains, other) == BaseUrl(appUrl, replitDomains, requestOrigin)
  {
  }

  /** Only the first domain of the list matters. */
  lemma LaterDomainsIgnored(first: string, rest: string)
    requires ',' !in first && first != ""
    ensures BaseUrl(None, Some(first + [','] + rest), None) == "https://" + Trim(first)
  {
    SplitCons(first, ',', rest);
  }
}
