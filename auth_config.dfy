/**
 * lib/auth.ts: the configuration handed to the authentication library, from
 * the environment: the trusted origins, the secret and the base URL. The
 * library itself and its database adapter are not part of this model.
 */
module AuthConfig {
  import opened Js
  import opened Url

  const DevelopmentSecret := "development-secret-change-in-production"

  /** The origin one comma-separated Replit domain contributes. */
  function DomainOrigin(domain: string): string {
    "https://" + Trim(domain)
  }

  /** The origins of the Replit domains, in order. */
  function DomainOrigins(domains: seq<string>): (r: seq<string>)
    ensures |r| == |domains|
    ensures forall i :: 0 <= i < |domains| ==> r[i] == DomainOrigin(domains[i])
  {
    seq(|domains|, i requires 0 <= i < |domains| => DomainOrigin(domains[i]))
  }

  /** The comma-separated Replit domains, untrimmed; none when the variable is unset or empty. */
  function ReplitDomainList(replitDomains: Option<string>): seq<string> {
    if IsSet(replitDomains) then Split(replitDomains.value, ',') else []
  }

  /** The app URL's entry: the URL itself when set, nothing otherwise. */
  function AppUrlEntry(appUrl: Option<string>): seq<string> {
    if IsSet(appUrl) then [appUrl.value] else []
  }

  /** The trusted origins as a list: the local origin, the Replit domains in order, then the app URL. */
  function TrustedOrigins(replitDomains: Option<string>, appUrl: Option<string>): seq<string> {
    [LocalOrigin] + DomainOrigins(ReplitDomainList(replitDomains)) + AppUrlEntry(appUrl)
  }

  /** `buildTrustedOrigins`: start from the local origin and push each entry. */
  method BuildTrustedOrigins(replitDomains: Option<string>, appUrl: Option<string>) returns (origins: seq<string>)
    ensures origins == TrustedOrigins(replitDomains, appUrl)
  {
    origins := [LocalOrigin];
    if IsSet(replitDomains) {
      var domains := Split(replitDomains.value, ',');
      for i := 0 to |domains|
        invariant origins == [LocalOrigin] + DomainOrigins(domains[..i])
      {
        DomainOriginsSnoc(domains, i);
        origins := origins + [DomainOrigin(domains[i])];
      }
      assert domains[..|domains|] == domains;
    }
    if IsSet(appUrl) {
      origins := origins + [appUrl.value];
    }
  }

  /** One more domain adds its origin at the end. */
  lemma DomainOriginsSnoc(domains: seq<string>, i: nat)
    requires i < |domains|
    ensures DomainOrigins(domains[..i + 1]) == DomainOrigins(domains[..i]) + [DomainOrigin(domains[i])]
  {
    var a := DomainOrigins(domains[..i + 1]);
    var b := DomainOrigins(domains[..i]) + [DomainOrigin(domains[i])];
    assert |a| == |b|;
    forall k | 0 <= k < |a| ensures a[k] == b[k] {
      assert domains[..i + 1][k] == domains[k];
      if k < i {
        assert domains[..i][k] == domains[k];
      }
    }
  }

  /**
   * The list starts with the local origin, holds one https origin per Replit
   * domain in order, and ends with the app URL when it is set.
   */
  lemma TrustedOriginsShape(replitDomains: Option<string>, appUrl: Option<string>)
    ensures var origins := TrustedOrigins(replitDomains, appUrl);
      var domains := ReplitDomainList(replitDomains);
      && |origins| == 1 + |domains| + (if IsSet(appUrl) then 1 else 0)
      && origins[0] == LocalOrigin
      && (forall i :: 0 <= i < |domains| ==> origins[1 + i] == DomainOrigin(domains[i]))
      && (IsSet(appUrl) ==> origins[|origins| - 1] == appUrl.value)
  {
    Layout(LocalOrigin, DomainOrigins(ReplitDomainList(replitDomains)), AppUrlEntry(appUrl));
  }

  /** Where each part of `[first] + middle + last` sits. */
  lemma Layout<T>(first: T, middle: seq<T>, last: seq<T>)
    ensures |[first] + middle + last| == 1 + |middle| + |last|
    ensures ([first] + middle + last)[0] == first
    ensures forall i :: 0 <= i < |middle| ==> ([first] + middle + last)[1 + i] == middle[i]
    ensures |last| > 0 ==> ([first] + middle + last)[|middle| + |last|] == last[|last| - 1]
  {
  }

  /** The session secret: `SESSION_SECRET`, else `BETTER_AUTH_SECRET`, else the development default. */
  function Secret(sessionSecret: Option<string>, betterAuthSecret: Option<string>): (r: string)
    ensures r != ""
    ensures IsSet(sessionSecret) ==> r == sessionSecret.value
    ensures !IsSet(sessionSecret) && IsSet(betterAuthSecret) ==> r == betterAuthSecret.value
    ensures r == DevelopmentSecret <==>
      (!IsSet(sessionSecret) || sessionSecret.value == DevelopmentSecret)
      && (IsSet(sessionSecret) || !IsSet(betterAuthSecret) || betterAuthSecret.value == DevelopmentSecret)
  {
    if IsSet(sessionSecret) then sessionSecret.value
    else if IsSet(betterAuthSecret) then betterAuthSecret.value
    else DevelopmentSecret
  }

  /** The authentication library's base URL: the app URL, else the local origin. */
  function AuthBaseUrl(appUrl: Option<string>): (r: string)
    ensures r != ""
  {
    if IsSet(appUrl) then appUrl.value else LocalOrigin
  }

  /** The authentication library's own base URL is always one of its trusted origins. */
  lemma AuthBaseUrlIsTrusted(replitDomains: Option<string>, appUrl: Option<string>)
    ensures AuthBaseUrl(appUrl) in TrustedOrigins(replitDomains, appUrl)
  {
    var origins := TrustedOrigins(replitDomains, appUrl);
    TrustedOriginsShape(replitDomains, appUrl);
    if IsSet(appUrl) {
      assert origins[|origins| - 1] == appUrl.value;
    } else {
      assert origins[0] == LocalOrigin;
    }
  }

  /**
   * Without a request origin, the URL `getBaseUrl` builds (lib/url.ts) is
   * one the authentication library trusts: both read the same variables.
   */
  lemma BaseUrlIsTrusted(appUrl: Option<string>, replitDomains: Option<string>)
    ensures BaseUrl(appUrl, replitDomains, None) in TrustedOrigins(replitDomains, appUrl)
  {
    var origins := TrustedOrigins(replitDomains, appUrl);
    TrustedOriginsShape(replitDomains, appUrl);
    if IsSet(appUrl) {
      assert origins[|origins| - 1] == appUrl.value;
    } else if IsSet(replitDomains) {
      assert origins[1] == PrimaryDomainUrl(replitDomains.value);
    } else {
      assert origins[0] == LocalOrigin;
    }
  }
}
