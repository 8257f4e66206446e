/** `getSiteUrl`: the public base URL of the site. */
module SiteUrl {
  import opened Wrappers

  const LocalUrl: string := "http://localhost:3000"

  /** An environment variable is truthy when set and non-empty. */
  predicate Truthy(v: Option<string>) {
    v.Some? && v.value != ""
  }

  /** `NEXT_PUBLIC_SITE_URL || (VERCEL_URL ? "https://" + VERCEL_URL : null) || "http://localhost:3000"` */
  function GetSiteUrl(siteUrl: Option<string>, vercelUrl: Option<string>): (url: string)
    ensures Truthy(siteUrl) ==> url == siteUrl.value
    ensures !Truthy(siteUrl) && Truthy(vercelUrl) ==> url == "https://" + vercelUrl.value
    ensures !Truthy(siteUrl) && !Truthy(vercelUrl) ==> url == LocalUrl
    ensures url != ""
  {
    var vercel := if Truthy(vercelUrl) then Some("https://" + vercelUrl.value) else None;
    if Truthy(siteUrl) then siteUrl.value
    else if vercel.Some? then vercel.value
    else LocalUrl
  }
}
