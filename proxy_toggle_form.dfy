/// `Frontend/src/modules/proxy_toggle.js`: the proxy switch form
/// (`startToggle`).
module ProxyToggleForm {
  import opened Text
  import opened DomainList
  import opened Forms
  import DnsHandler

  /// `startToggle`.  The host record is trimmed, the record type is sent as
  /// selected (empty for every type), and the switch is on exactly when
  /// the checked radio's value is the string `true`.
  function StartToggle(accountId: string, text: string, recordType: string, hostText: string,
                       statusValue: string): (r: Submission<DnsHandler.ProxyRequest>)
    ensures accountId == "" ==> r == Alerted(AccountMissing)
    ensures accountId != "" && IsBlank(text) ==> r == Alerted(DomainsMissing)
    ensures r.Sent? <==> accountId != "" && !IsBlank(text)
    ensures r != Alerted(DomainsEmpty)
    ensures r.Sent? ==> r.body == DnsHandler.ProxyRequest(accountId, ParseLines(text), recordType,
                                                          Trim(hostText), statusValue == "true")
    ensures r.Sent? ==> (r.body.proxyStatus <==> statusValue == "true") && IsTrimmed(r.body.hostRecord)
  {
    var hostRecord := Trim(hostText);
    var proxyStatus := statusValue == "true";
    if accountId == "" then Alerted(AccountMissing)
    else if IsBlank(text) then Alerted(DomainsMissing)
    else
      var domains := ParseLines(text);
      NonBlankGivesEntries(text);
      if domains == [] then Alerted(DomainsEmpty)
      else Sent(DnsHandler.ProxyRequest(accountId, domains, recordType, hostRecord, proxyStatus))
  }

  /// "All types" with a blank host sends no filter at all, so the server
  /// lists every record of the zone.
  lemma AllTypesNoFilter(accountId: string, text: string, hostText: string, statusValue: string)
    requires IsBlank(hostText)
    requires StartToggle(accountId, text, "", hostText, statusValue).Sent?
    ensures var body := StartToggle(accountId, text, "", hostText, statusValue).body;
      DnsHandler.ProxyQuery(body.recordType, body.hostRecord) == ""
  {
  }
}
