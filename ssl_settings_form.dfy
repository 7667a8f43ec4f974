/// `Frontend/src/modules/ssl_settings.js`: the form of `applySSLSettings`.  Each
/// select's empty value means "leave this setting as it is".
module SslSettingsForm {
  import opened Text
  import opened DomainList
  import opened Forms
  import opened ZoneSettings
  import SslHandler

  /// No select has a value: there is nothing to change.
  predicate NothingChosen(
      sslMode: string, minTlsVersion: string, alwaysUseHttps: string, automaticHttps: string,
      opportunisticEnc: string)
  {
    sslMode == "" && minTlsVersion == "" && alwaysUseHttps == "" && automaticHttps == "" &&
    opportunisticEnc == ""
  }

  /// `applySSLSettings`.  The guards run in order: account, blank text, at least
  /// one of the five settings, empty list (which can never be reached); the
  /// request carries every field verbatim.
  function ApplySslSettings(accountId: string, text: string,
      sslMode: string, minTlsVersion: string, alwaysUseHttps: string, automaticHttps: string,
      opportunisticEnc: string)
    : (r: Submission<SslHandler.Request>)
    ensures accountId == "" ==> r == Alerted(AccountMissing)
    ensures accountId != "" && IsBlank(text) ==> r == Alerted(DomainsMissing)
    ensures accountId != "" && !IsBlank(text) && NothingChosen(
        sslMode, minTlsVersion, alwaysUseHttps, automaticHttps, opportunisticEnc) ==>
      r == Alerted(SettingsMissing)
    ensures r != Alerted(DomainsEmpty) && !r.Declined?
    ensures r.Sent? <==> accountId != "" && !IsBlank(text) && !NothingChosen(
        sslMode, minTlsVersion, alwaysUseHttps, automaticHttps, opportunisticEnc)
    ensures r.Sent? ==> r.body == SslHandler.Request(accountId, ParseLines(text),
        sslMode, minTlsVersion, alwaysUseHttps, automaticHttps, opportunisticEnc)
  {
    if accountId == "" then Alerted(AccountMissing)
    else if IsBlank(text) then Alerted(DomainsMissing)
    else if NothingChosen(
        sslMode, minTlsVersion, alwaysUseHttps, automaticHttps, opportunisticEnc) then Alerted(SettingsMissing)
    else
      var domains := ParseLines(text);
      NonBlankGivesEntries(text);
      if domains == [] then Alerted(DomainsEmpty)
      else Sent(SslHandler.Request(accountId, domains,
        sslMode, minTlsVersion, alwaysUseHttps, automaticHttps, opportunisticEnc))
  }

  /// The form's "nothing chosen" guard is the server's "nothing requested"
  /// case: every posted request makes the server attempt at least one
  /// setting per domain, and every request the guard stops would have
  /// made it attempt none.
  lemma GuardMatchesServer(accountId: string, text: string,
      sslMode: string, minTlsVersion: string, alwaysUseHttps: string, automaticHttps: string,
      opportunisticEnc: string)
    ensures |Requested(SslHandler.Operations(SslHandler.Request(accountId, ParseLines(text),
        sslMode, minTlsVersion, alwaysUseHttps, automaticHttps, opportunisticEnc)))| == 0
      <==> NothingChosen(
        sslMode, minTlsVersion, alwaysUseHttps, automaticHttps, opportunisticEnc)
    ensures var r := ApplySslSettings(accountId, text,
        sslMode, minTlsVersion, alwaysUseHttps, automaticHttps, opportunisticEnc);
      r.Sent? ==> |Requested(SslHandler.Operations(r.body))| > 0
  {
    SslHandler.NothingRequestedIff(SslHandler.Request(accountId, ParseLines(text),
        sslMode, minTlsVersion, alwaysUseHttps, automaticHttps, opportunisticEnc));
  }
}
