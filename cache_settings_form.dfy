/// `Frontend/src/modules/cache_settings.js`: the form of
/// `applyCacheSettings`.  The purge checkbox counts as an operation like
/// the four selects, whose empty value means "leave as it is".
module CacheSettingsForm {
  import opened Text
  import opened DomainList
  import opened Forms
  import opened ZoneSettings
  import CacheHandler

  const OperationsMissing := "请至少选择一项要执行的操作"

  /// Neither the purge box nor any select is set.
  predicate NothingChosen(purgeCache: bool, cacheLevel: string, browserTtl: string, alwaysOnline: string,
                          developmentMode: string)
  {
    !purgeCache && cacheLevel == "" && browserTtl == "" && alwaysOnline == "" && developmentMode == ""
  }

  /// `applyCacheSettings`.  The guards run in order: account, blank text,
  /// at least one operation, empty list (which can never be reached); the
  /// purge flag is posted as a boolean, the four settings as strings.
  function ApplyCacheSettings(accountId: string, text: string, purgeCache: bool, cacheLevel: string,
                              browserTtl: string, alwaysOnline: string, developmentMode: string)
    : (r: Submission<CacheHandler.Request>)
    ensures accountId == "" ==> r == Alerted(AccountMissing)
    ensures accountId != "" && IsBlank(text) ==> r == Alerted(DomainsMissing)
    ensures accountId != "" && !IsBlank(text)
            && NothingChosen(purgeCache, cacheLevel, browserTtl, alwaysOnline, developmentMode) ==>
      r == Alerted(OperationsMissing)
    ensures r != Alerted(DomainsEmpty) && !r.Declined?
    ensures r.Sent? <==> accountId != "" && !IsBlank(text)
                          && !NothingChosen(purgeCache, cacheLevel, browserTtl, alwaysOnline, developmentMode)
    ensures r.Sent? ==> r.body == CacheHandler.Request(accountId, ParseLines(text), purgeCache, cacheLevel,
                                                       browserTtl, alwaysOnline, developmentMode)
  {
    if accountId == "" then Alerted(AccountMissing)
    else if IsBlank(text) then Alerted(DomainsMissing)
    else if NothingChosen(purgeCache, cacheLevel, browserTtl, alwaysOnline, developmentMode) then
      Alerted(OperationsMissing)
    else
      var domains := ParseLines(text);
      NonBlankGivesEntries(text);
      if domains == [] then Alerted(DomainsEmpty)
      else Sent(CacheHandler.Request(accountId, domains, purgeCache, cacheLevel, browserTtl, alwaysOnline,
                                     developmentMode))
  }

  /// The form's guard is the server's "nothing requested" case, the purge
  /// included: a posted request always makes the server attempt at least
  /// one operation per domain.
  lemma GuardMatchesServer(accountId: string, text: string, purgeCache: bool, cacheLevel: string,
                           browserTtl: string, alwaysOnline: string, developmentMode: string)
    ensures |Requested(CacheHandler.Operations(CacheHandler.Request(accountId, ParseLines(text), purgeCache,
               cacheLevel, browserTtl, alwaysOnline, developmentMode)))| == 0
      <==> NothingChosen(purgeCache, cacheLevel, browserTtl, alwaysOnline, developmentMode)
    ensures var r := ApplyCacheSettings(accountId, text, purgeCache, cacheLevel, browserTtl, alwaysOnline,
                                        developmentMode);
      r.Sent? ==> |Requested(CacheHandler.Operations(r.body))| > 0
  {
    CacheHandler.NothingRequestedIff(CacheHandler.Request(accountId, ParseLines(text), purgeCache, cacheLevel,
                                                          browserTtl, alwaysOnline, developmentMode));
  }
}
