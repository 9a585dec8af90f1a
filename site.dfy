/** The two site-wide defaults the notification route and task share: the
    public URL (`NEXT_PUBLIC_SERVER_URL`, passed in as a parameter) and the
    site name from the `settings` global. */
module Site {

  const DefaultSiteUrl: string := "https://status.example.com"
  const DefaultSiteName: string := "Status Page"

  /** `process.env.NEXT_PUBLIC_SERVER_URL || 'https://status.example.com'` */
  function SiteUrl(serverUrl: string): (r: string)
    ensures serverUrl != "" ==> r == serverUrl
    ensures serverUrl == "" ==> r == DefaultSiteUrl
    ensures r != ""
  {
    if serverUrl != "" then serverUrl else DefaultSiteUrl
  }

  /** `settings.siteName || 'Status Page'` */
  function SiteName(setting: string): (r: string)
    ensures setting != "" ==> r == setting
    ensures setting == "" ==> r == DefaultSiteName
    ensures r != ""
  {
    if setting != "" then setting else DefaultSiteName
  }
}
