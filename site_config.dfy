/**
 * Which counter the page serves and which spreadsheet belongs to it: the
 * `?site=` query parameter, else the build's environment setting, else the
 * default counter; then a fixed table from counter to sheet id.
 */
module SiteConfig {
  import opened Wrappers
  import opened Text

  /** The counter used when neither the address nor the build names one. */
  const DefaultSite: string := "CDG_T2A"

  /** `SITE_SHEETS`: the counters that have a sheet. */
  const SiteSheets: map<string, string> := map[
    "P10" := "14m0-BHCaBHeKK7Aq-At4-ybdrkf1s3Ma1JD_VGKjzx4",
    "CDG_T2B" := "PASTE_SHEET_ID_FOR_T2B"]

  /**
   * `getQueryParam`: `None` (the page's `null`) without a browser window, else
   * the parameter's value, `None` when the address does not carry it.
   */
  function GetQueryParam(window: Option<map<string, string>>, name: string): (r: Option<string>)
    ensures window.None? ==> r.None?
    ensures window.Some? ==> (r.Some? <==> name in window.value)
    ensures r.Some? ==> r.value == window.value[name]
  {
    if window.None? then None
    else if name in window.value then Some(window.value[name])
    else None
  }

  /** `SITE_ID`: the query parameter, else the environment setting, else the default; never empty. */
  function SiteId(window: Option<map<string, string>>, env: Option<string>): (r: string)
    ensures r != ""
    ensures var q := GetQueryParam(window, "site");
      && (q.Some? && q.value != "" ==> r == q.value)
      && ((q.None? || q.value == "") && env.Some? && env.value != "" ==> r == env.value)
      && ((q.None? || q.value == "") && (env.None? || env.value == "") ==> r == DefaultSite)
  {
    // absent and empty text both fall through `||`
    OrElse(GetQueryParam(window, "site").GetOr(""), OrElse(env.GetOr(""), DefaultSite))
  }

  /** `getCurrentSheetId`: the table's entry, absent for an unlisted counter. */
  function GetCurrentSheetId(site: string): (r: Option<string>)
    ensures r.Some? <==> site in SiteSheets
    ensures r.Some? ==> r.value == SiteSheets[site] && r.value != ""
  {
    if site in SiteSheets then Some(SiteSheets[site]) else None
  }

  /** The default counter has no sheet, so a page that names no counter has none either. */
  lemma DefaultSiteUnmapped(env: Option<string>)
    ensures GetCurrentSheetId(DefaultSite).None?
    ensures env.None? ==> GetCurrentSheetId(SiteId(None, env)).None?
  {
    assert DefaultSite != "P10" && DefaultSite != "CDG_T2B";
  }

  /** `requireSheetId`: the sheet id, or the error naming the counter. */
  function RequireSheetId(site: string): (r: Result<string, string>)
    ensures r.Success? <==> site in SiteSheets
    ensures r.Success? ==> r.value == SiteSheets[site]
    ensures r.Failure? ==> r.error == "Aucun Sheet ID pour le site \"" + site + "\""
  {
    var id := GetCurrentSheetId(site);
    if id.None? then Failure("Aucun Sheet ID pour le site \"" + site + "\"") else Success(id.value)
  }
}
