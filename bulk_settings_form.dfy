/// `Frontend/src/modules/bulk_settings.js`: the form of `applyBulkSettings`.  Each
/// select's empty value means "leave this setting as it is".
module BulkSettingsForm {
  import opened Text
  import opened DomainList
  import opened Forms
  import opened ZoneSettings
  import BulkSettingsHandler

  /// No select has a value: there is nothing to change.
  predicate NothingChosen(
      securityLevel: string, challengePassage: string, browserIntegrity: string,
      hotlinkProtection: string, emailObfuscation: string, serverSideExcludes: string,
      waf: string, privacyPass: string, automaticPlatform: string, orangeToOrange: string,
      proxyReadTimeout: string, prefetchPreload: string, responseBuffering: string,
      sortQueryString: string, trueClientIp: string, crawlerHints: string)
  {
    securityLevel == "" && challengePassage == "" && browserIntegrity == "" &&
    hotlinkProtection == "" && emailObfuscation == "" && serverSideExcludes == "" &&
    waf == "" && privacyPass == "" && automaticPlatform == "" && orangeToOrange == "" &&
    proxyReadTimeout == "" && prefetchPreload == "" && responseBuffering == "" &&
    sortQueryString == "" && trueClientIp == "" && crawlerHints == ""
  }

  /// `applyBulkSettings`.  The guards run in order: account, blank text, at least
  /// one of the sixteen options, empty list (which can never be reached); the
  /// request carries every field verbatim.
  function ApplyBulkSettings(accountId: string, text: string,
      securityLevel: string, challengePassage: string, browserIntegrity: string,
      hotlinkProtection: string, emailObfuscation: string, serverSideExcludes: string,
      waf: string, privacyPass: string, automaticPlatform: string, orangeToOrange: string,
      proxyReadTimeout: string, prefetchPreload: string, responseBuffering: string,
      sortQueryString: string, trueClientIp: string, crawlerHints: string)
    : (r: Submission<BulkSettingsHandler.Request>)
    ensures accountId == "" ==> r == Alerted(AccountMissing)
    ensures accountId != "" && IsBlank(text) ==> r == Alerted(DomainsMissing)
    ensures accountId != "" && !IsBlank(text) && NothingChosen(
        securityLevel, challengePassage, browserIntegrity, hotlinkProtection, emailObfuscation,
        serverSideExcludes, waf, privacyPass, automaticPlatform, orangeToOrange,
        proxyReadTimeout, prefetchPreload, responseBuffering, sortQueryString, trueClientIp,
        crawlerHints) ==>
      r == Alerted(SettingsMissing)
    ensures r != Alerted(DomainsEmpty) && !r.Declined?
    ensures r.Sent? <==> accountId != "" && !IsBlank(text) && !NothingChosen(
        securityLevel, challengePassage, browserIntegrity, hotlinkProtection, emailObfuscation,
        serverSideExcludes, waf, privacyPass, automaticPlatform, orangeToOrange,
        proxyReadTimeout, prefetchPreload, responseBuffering, sortQueryString, trueClientIp,
        crawlerHints)
    ensures r.Sent? ==> r.body == BulkSettingsHandler.Request(accountId, ParseLines(text),
        securityLevel, challengePassage, browserIntegrity, hotlinkProtection, emailObfuscation,
        serverSideExcludes, waf, privacyPass, automaticPlatform, orangeToOrange,
        proxyReadTimeout, prefetchPreload, responseBuffering, sortQueryString, trueClientIp,
        crawlerHints)
  {
    if accountId == "" then Alerted(AccountMissing)
    else if IsBlank(text) then Alerted(DomainsMissing)
    else if NothingChosen(
        securityLevel, challengePassage, browserIntegrity, hotlinkProtection, emailObfuscation,
        serverSideExcludes, waf, privacyPass, automaticPlatform, orangeToOrange,
        proxyReadTimeout, prefetchPreload, responseBuffering, sortQueryString, trueClientIp,
        crawlerHints) then Alerted(SettingsMissing)
    else
      var domains := ParseLines(text);
      NonBlankGivesEntries(text);
      if domains == [] then Alerted(DomainsEmpty)
      else Sent(BulkSettingsHandler.Request(accountId, domains,
        securityLevel, challengePassage, browserIntegrity, hotlinkProtection, emailObfuscation,
        serverSideExcludes, waf, privacyPass, automaticPlatform, orangeToOrange,
        proxyReadTimeout, prefetchPreload, responseBuffering, sortQueryString, trueClientIp,
        crawlerHints))
  }

  /// The form's "nothing chosen" guard is the server's "nothing requested"
  /// case: every posted request makes the server attempt at least one
  /// setting per domain, and every request the guard stops would have
  /// made it attempt none.
  lemma GuardMatchesServer(accountId: string, text: string,
      securityLevel: string, challengePassage: string, browserIntegrity: string,
      hotlinkProtection: string, emailObfuscation: string, serverSideExcludes: string,
      waf: string, privacyPass: string, automaticPlatform: string, orangeToOrange: string,
      proxyReadTimeout: string, prefetchPreload: string, responseBuffering: string,
      sortQueryString: string, trueClientIp: string, crawlerHints: string)
    ensures |Requested(BulkSettingsHandler.Operations(BulkSettingsHandler.Request(accountId, ParseLines(text),
        securityLevel, challengePassage, browserIntegrity, hotlinkProtection, emailObfuscation,
        serverSideExcludes, waf, privacyPass, automaticPlatform, orangeToOrange,
        proxyReadTimeout, prefetchPreload, responseBuffering, sortQueryString, trueClientIp,
        crawlerHints)))| == 0
      <==> NothingChosen(
        securityLevel, challengePassage, browserIntegrity, hotlinkProtection, emailObfuscation,
        serverSideExcludes, waf, privacyPass, automaticPlatform, orangeToOrange,
        proxyReadTimeout, prefetchPreload, responseBuffering, sortQueryString, trueClientIp,
        crawlerHints)
    ensures var r := ApplyBulkSettings(accountId, text,
        securityLevel, challengePassage, browserIntegrity, hotlinkProtection, emailObfuscation,
        serverSideExcludes, waf, privacyPass, automaticPlatform, orangeToOrange,
        proxyReadTimeout, prefetchPreload, responseBuffering, sortQueryString, trueClientIp,
        crawlerHints);
      r.Sent? ==> |Requested(BulkSettingsHandler.Operations(r.body))| > 0
  {
    BulkSettingsHandler.NothingRequestedIff(BulkSettingsHandler.Request(accountId, ParseLines(text),
        securityLevel, challengePassage, browserIntegrity, hotlinkProtection, emailObfuscation,
        serverSideExcludes, waf, privacyPass, automaticPlatform, orangeToOrange,
        proxyReadTimeout, prefetchPreload, responseBuffering, sortQueryString, trueClientIp,
        crawlerHints));
  }
}
