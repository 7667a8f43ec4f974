/// `Frontend/src/modules/del_zone.js`: the zone deletion form
/// (`batchDeleteZones`).
module DelZoneForm {
  import opened Text
  import opened DomainList
  import opened Forms
  import ZoneHandler

  /// `batchDeleteZones`: account, blank text and empty list are checked in
  /// that order, then the user confirms a prompt stating the number of
  /// domains (`confirm(n)` is the answer).  Duplicates are kept.
  function BatchDeleteZones(accountId: string, text: string, confirm: nat -> bool)
    : (r: Submission<ZoneHandler.ZonesRequest>)
    ensures accountId == "" ==> r == Alerted(AccountMissing)
    ensures accountId != "" && IsBlank(text) ==> r == Alerted(DomainsMissing)
    ensures r != Alerted(DomainsEmpty)
    ensures r.Declined? <==> accountId != "" && !IsBlank(text) && !confirm(|ParseLines(text)|)
    ensures r.Sent? <==> accountId != "" && !IsBlank(text) && confirm(|ParseLines(text)|)
    ensures r.Sent? ==> r.body == ZoneHandler.ZonesRequest(accountId, ParseLines(text))
  {
    if accountId == "" then Alerted(AccountMissing)
    else if IsBlank(text) then Alerted(DomainsMissing)
    else
      var domains := ParseLines(text);
      NonBlankGivesEntries(text);
      if domains == [] then Alerted(DomainsEmpty)
      else if !confirm(|domains|) then Declined
      else Sent(ZoneHandler.ZonesRequest(accountId, domains))
  }
}
