/// `Frontend/src/modules/export_zones.js`: the zone export panel
/// (`exportZones`, `copyZones`, `downloadTxt`) and the global
/// `window.exportedZones` it fills.
module ExportZonesForm {
  import opened Text
  import opened HandlerCommon
  import opened DomainList
  import ZoneHandler

  type ExportedZone = ZoneHandler.ExportedZone

  /// How the export request ended, as the page sees it: it threw, or the
  /// body was `null`, a zone array, or an error object (404 or 500), which
  /// has no `length`.
  datatype ExportReply = Threw | NullBody | ZoneArray(zones: seq<ExportedZone>) | ErrorObject(error: string)

  /// The body the server sends for each answer of its `ExportZones`, as
  /// written: the zone list is collected into a slice that starts out nil,
  /// and Go encodes a nil slice as `null`, so an account without zones is
  /// answered `null` rather than `[]`.
  function WireReply(response: ZoneHandler.ExportResponse): (r: ExportReply)
    ensures r.ZoneArray? <==> response.Exported? && response.zones != []
    ensures r.ZoneArray? ==> r.zones == response.zones
    ensures r == NullBody <==> response == ZoneHandler.Exported([])
  {
    match response
    case Exported(zones) => if zones == [] then NullBody else ZoneArray(zones)
    case ExportFailed(e) => ErrorObject(e)
    case ExportAccountNotFound => ErrorObject("Account not found")
  }

  /// The body with the zone slice initialised empty: every successful
  /// export is an array, the empty one included.
  function FixedWireReply(response: ZoneHandler.ExportResponse): (r: ExportReply)
    ensures r.ZoneArray? <==> response.Exported?
    ensures r.ZoneArray? ==> r.zones == response.zones
    ensures r != NullBody
  {
    match response
    case Exported(zones) => ZoneArray(zones)
    case ExportFailed(e) => ErrorObject(e)
    case ExportAccountNotFound => ErrorObject("Account not found")
  }

  /// `window.exportedZones`: never set, set to a zone array, or set to an
  /// error object (which `exportZones` stores before it fails to render it).
  datatype Stored = Unset | Zones(zones: seq<ExportedZone>) | NotAList

  /// What the panel shows after a click.
  datatype ExportView = AccountAlert | NoDomains | ZoneTable(zones: seq<ExportedZone>) | RequestAlert

  /// The domains of the zones, in result order.
  function ZoneDomains(zones: seq<ExportedZone>): (r: seq<string>)
    ensures |r| == |zones|
    ensures forall i :: 0 <= i < |zones| ==> r[i] == zones[i].domain
  {
    seq(|zones|, i requires 0 <= i < |zones| => zones[i].domain)
  }

  /// The text copied or downloaded: the domains joined by '\n'.
  function ExportText(zones: seq<ExportedZone>): string {
    Join(ZoneDomains(zones), '\n')
  }

  /// Pasting the exported text into any of the bulk forms gives back the
  /// domain list, in order, when every domain is a plain trimmed name.
  lemma ExportTextParsesBack(zones: seq<ExportedZone>)
    requires forall i :: 0 <= i < |zones| ==> IsEntry(zones[i].domain)
    ensures ParseLines(ExportText(zones)) == ZoneDomains(zones)
  {
    ParseJoin(ZoneDomains(zones));
  }

  /// The status cell: the "Active" badge exactly for `active`, otherwise
  /// the raw status.
  datatype StatusCell = ActiveBadge | RawStatus(status: string)

  function StatusCellOf(status: string): (r: StatusCell)
    ensures r == ActiveBadge <==> status == "active"
    ensures r.RawStatus? ==> r.status == status
  {
    if status == "active" then ActiveBadge else RawStatus(status)
  }

  /// What `exportZones` shows: the account alert, the request alert when
  /// the request throws or `data.length` cannot be read, the "no domains"
  /// message for an empty array, and the zone table otherwise.
  function ViewFor(accountId: string, reply: ExportReply): (r: ExportView)
    ensures r == AccountAlert <==> accountId == ""
    ensures r == NoDomains <==> accountId != "" && reply == ZoneArray([])
    ensures r.ZoneTable? <==> accountId != "" && reply.ZoneArray? && reply.zones != []
    ensures r.ZoneTable? ==> r.zones == reply.zones
  {
    if accountId == "" then AccountAlert
    else match reply
      case ZoneArray(zones) => if zones == [] then NoDomains else ZoneTable(zones)
      case _ => RequestAlert
  }

  /// An account without zones: as written the page reports a failed
  /// request; with the slice initialised empty it says there are no
  /// domains, the message the page has for that case.
  lemma EmptyAccountExport(accountId: string)
    requires accountId != ""
    ensures ViewFor(accountId, WireReply(ZoneHandler.Exported([]))) == RequestAlert
    ensures ViewFor(accountId, FixedWireReply(ZoneHandler.Exported([]))) == NoDomains
  {
  }

  /// With the corrected body every successful export shows its zones or
  /// the "no domains" message, never the request alert.
  lemma FixedExportNeverAlerts(accountId: string, response: ZoneHandler.ExportResponse)
    requires accountId != "" && response.Exported?
    ensures ViewFor(accountId, FixedWireReply(response)) != RequestAlert
  {
  }

  /// The panel's state: the global export and whether the copy and
  /// download buttons are shown.
  class ZoneExport {
    var exported: Stored
    var actionsShown: bool

    /// The copy and download buttons are only visible over a non-empty
    /// zone list.
    ghost predicate Valid()
      reads this
    {
      actionsShown ==> exported.Zones? && exported.zones != []
    }

    constructor()
      ensures exported == Unset && !actionsShown
      ensures Valid()
    {
      exported := Unset;
      actionsShown := false;
    }

    /// `exportZones`.  Without an account nothing happens but the alert.
    /// Otherwise the buttons are hidden first; an empty array leaves the
    /// global as it was, a non-empty one replaces it and shows the buttons,
    /// an error object replaces it and fails with the request alert, and a
    /// throw changes nothing more.
    method Export(accountId: string, reply: ExportReply) returns (view: ExportView)
      requires Valid()
      modifies this
      ensures Valid()
      ensures view == ViewFor(accountId, reply)
      ensures accountId == "" ==> exported == old(exported) && actionsShown == old(actionsShown)
      ensures accountId != "" && (reply.Threw? || reply.NullBody? || reply == ZoneArray([])) ==>
        exported == old(exported) && !actionsShown
      ensures accountId != "" && reply.ZoneArray? && reply.zones != [] ==>
        exported == Zones(reply.zones) && actionsShown
      ensures accountId != "" && reply.ErrorObject? ==> exported == NotAList && !actionsShown
    {
      if accountId == "" {
        return AccountAlert;
      }
      actionsShown := false;
      match reply
      case Threw =>
        view := RequestAlert;
      case NullBody =>
        view := RequestAlert;
      case ErrorObject(_) =>
        exported := NotAList;
        view := RequestAlert;
      case ZoneArray(zones) =>
        if |zones| == 0 {
          view := NoDomains;
        } else {
          exported := Zones(zones);
          view := ZoneTable(zones);
          actionsShown := true;
        }
    }

    /// `copyZones` / `downloadTxt`: the text handed to the clipboard or the
    /// file, or nothing when there is no non-empty zone list (a stored
    /// error object makes the call throw before any text is built).
    function ExportedText(): (r: Option<string>)
      reads this
      ensures r.Some? <==> exported.Zones? && exported.zones != []
      ensures r.Some? ==> r.value == ExportText(exported.zones)
    {
      if exported.Zones? && exported.zones != [] then Some(ExportText(exported.zones)) else None
    }

    /// Whenever the buttons are visible, copying yields the text of the
    /// zones currently on screen.
    lemma VisibleButtonsCopy()
      requires Valid() && actionsShown
      ensures ExportedText().Some?
    {
    }
  }
}
