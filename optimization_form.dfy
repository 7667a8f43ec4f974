/// `Frontend/src/modules/optimization.js`: the form of `applyOptimization`.  Each
/// select's empty value means "leave this setting as it is".
module OptimizationForm {
  import opened Text
  import opened DomainList
  import opened Forms
  import opened ZoneSettings
  import OptimizationHandler

  /// No select has a value: there is nothing to change.
  predicate NothingChosen(
      minify: string, brotli: string, earlyHints: string, http2: string, http3: string,
      zeroRtt: string, ipv6: string, webSockets: string, pseudoIpv4: string,
      rocketLoader: string, mirage: string, polish: string)
  {
    minify == "" && brotli == "" && earlyHints == "" && http2 == "" && http3 == "" &&
    zeroRtt == "" && ipv6 == "" && webSockets == "" && pseudoIpv4 == "" &&
    rocketLoader == "" && mirage == "" && polish == ""
  }

  /// `applyOptimization`.  The guards run in order: account, blank text, at least
  /// one of the twelve options, empty list (which can never be reached); the
  /// request carries every field verbatim.
  function ApplyOptimization(accountId: string, text: string,
      minify: string, brotli: string, earlyHints: string, http2: string, http3: string,
      zeroRtt: string, ipv6: string, webSockets: string, pseudoIpv4: string,
      rocketLoader: string, mirage: string, polish: string)
    : (r: Submission<OptimizationHandler.Request>)
    ensures accountId == "" ==> r == Alerted(AccountMissing)
    ensures accountId != "" && IsBlank(text) ==> r == Alerted(DomainsMissing)
    ensures accountId != "" && !IsBlank(text) && NothingChosen(
        minify, brotli, earlyHints, http2, http3, zeroRtt, ipv6, webSockets, pseudoIpv4,
        rocketLoader, mirage, polish) ==>
      r == Alerted(SettingsMissing)
    ensures r != Alerted(DomainsEmpty) && !r.Declined?
    ensures r.Sent? <==> accountId != "" && !IsBlank(text) && !NothingChosen(
        minify, brotli, earlyHints, http2, http3, zeroRtt, ipv6, webSockets, pseudoIpv4,
        rocketLoader, mirage, polish)
    ensures r.Sent? ==> r.body == OptimizationHandler.Request(accountId, ParseLines(text),
        minify, brotli, earlyHints, http2, http3, zeroRtt, ipv6, webSockets, pseudoIpv4,
        rocketLoader, mirage, polish)
  {
    if accountId == "" then Alerted(AccountMissing)
    else if IsBlank(text) then Alerted(DomainsMissing)
    else if NothingChosen(
        minify, brotli, earlyHints, http2, http3, zeroRtt, ipv6, webSockets, pseudoIpv4,
        rocketLoader, mirage, polish) then Alerted(SettingsMissing)
    else
      var domains := ParseLines(text);
      NonBlankGivesEntries(text);
      if domains == [] then Alerted(DomainsEmpty)
      else Sent(OptimizationHandler.Request(accountId, domains,
        minify, brotli, earlyHints, http2, http3, zeroRtt, ipv6, webSockets, pseudoIpv4,
        rocketLoader, mirage, polish))
  }

  /// The form's "nothing chosen" guard is the server's "nothing requested"
  /// case: every posted request makes the server attempt at least one
  /// setting per domain, and every request the guard stops would have
  /// made it attempt none.
  lemma GuardMatchesServer(accountId: string, text: string,
      minify: string, brotli: string, earlyHints: string, http2: string, http3: string,
      zeroRtt: string, ipv6: string, webSockets: string, pseudoIpv4: string,
      rocketLoader: string, mirage: string, polish: string)
    ensures |Requested(OptimizationHandler.Operations(OptimizationHandler.Request(accountId, ParseLines(text),
        minify, brotli, earlyHints, http2, http3, zeroRtt, ipv6, webSockets, pseudoIpv4,
        rocketLoader, mirage, polish)))| == 0
      <==> NothingChosen(
        minify, brotli, earlyHints, http2, http3, zeroRtt, ipv6, webSockets, pseudoIpv4,
        rocketLoader, mirage, polish)
    ensures var r := ApplyOptimization(accountId, text,
        minify, brotli, earlyHints, http2, http3, zeroRtt, ipv6, webSockets, pseudoIpv4,
        rocketLoader, mirage, polish);
      r.Sent? ==> |Requested(OptimizationHandler.Operations(r.body))| > 0
  {
    OptimizationHandler.NothingRequestedIff(OptimizationHandler.Request(accountId, ParseLines(text),
        minify, brotli, earlyHints, http2, http3, zeroRtt, ipv6, webSockets, pseudoIpv4,
        rocketLoader, mirage, polish));
  }
}
