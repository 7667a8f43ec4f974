/// `Server/handler/dns.go`: the bulk DNS record import (`BatchParseDNS`,
/// `parseRecords`, `addDNSRecord`), bulk record deletion (`BatchDeleteDNS`,
/// `deleteDNSRecords`) and the proxy switch (`BatchProxyToggle`,
/// `toggleProxyStatus`).
module DnsHandler {
  import opened Text
  import opened Seqs
  import opened HandlerCommon

  /// The JSON body `BatchParseDNSRequest`.  `offlineMode` is read but never used.
  datatype ParseRequest = ParseRequest(accountId: string, records: seq<string>, ttl: int,
                                       proxied: bool, deleteOld: bool, offlineMode: bool)

  /// The JSON body `BatchDeleteDNSRequest`.
  datatype DeleteRequest = DeleteRequest(accountId: string, domains: seq<string>,
                                         recordType: string, hostRecord: string, deleteAll: bool)

  /// The JSON body `BatchProxyToggleRequest`.
  datatype ProxyRequest = ProxyRequest(accountId: string, domains: seq<string>,
                                       recordType: string, hostRecord: string, proxyStatus: bool)

  /// `DNSRecord`: one parsed `domain|host|type|value` line.
  datatype Record = Record(domain: string, host: string, recordType: string, value: string)

  /// The record a single line yields: lines with fewer than four
  /// '|'-separated fields (fewer than three '|') are skipped; otherwise the
  /// first four fields, trimmed, and nothing after them.
  function LineRecord(line: string): (r: Option<Record>)
    ensures r.Some? <==> CountChar(line, '|') >= 3
    ensures r.Some? ==> (IsTrimmed(r.value.domain) && IsTrimmed(r.value.host)
                         && IsTrimmed(r.value.recordType) && IsTrimmed(r.value.value))
    ensures r.Some? ==> ('|' !in r.value.domain && '|' !in r.value.host
                         && '|' !in r.value.recordType && '|' !in r.value.value)
  {
    var parts := Split(line, '|');
    SplitLength(line, '|');
    if |parts| < 4 then None
    else Some(Record(Trim(parts[0]), Trim(parts[1]), Trim(parts[2]), Trim(parts[3])))
  }

  /// What one line contributes: its record, or nothing.
  function LineRecords(line: string): (r: seq<Record>)
    ensures |r| <= 1
  {
    match LineRecord(line)
    case None => []
    case Some(rec) => [rec]
  }

  /// The records of a list of lines, in line order.
  function ParsedRecords(lines: seq<string>): (r: seq<Record>)
    ensures |r| <= |lines|
  {
    if lines == [] then [] else LineRecords(lines[0]) + ParsedRecords(lines[1..])
  }

  /// Parsing keeps line order: it distributes over concatenation.
  lemma {:induction false} ParsedRecordsAppend(a: seq<string>, b: seq<string>)
    ensures ParsedRecords(a + b) == ParsedRecords(a) + ParsedRecords(b)
  {
    if a == [] {
      assert a + b == b;
    } else {
      assert (a + b)[1..] == a[1..] + b;
      ParsedRecordsAppend(a[1..], b);
    }
  }

  /// A record is produced exactly when some line yields it.
  lemma {:induction false} ParsedRecordsMembership(lines: seq<string>, rec: Record)
    ensures rec in ParsedRecords(lines) <==> exists i :: 0 <= i < |lines| && LineRecord(lines[i]) == Some(rec)
  {
    if lines != [] {
      ParsedRecordsMembership(lines[1..], rec);
      assert rec in LineRecords(lines[0]) <==> LineRecord(lines[0]) == Some(rec);
      if exists i :: 0 <= i < |lines| && LineRecord(lines[i]) == Some(rec) {
        var i :| 0 <= i < |lines| && LineRecord(lines[i]) == Some(rec);
        if i > 0 {
          assert lines[1..][i - 1] == lines[i];
        }
      }
      if exists i :: 0 <= i < |lines[1..]| && LineRecord(lines[1..][i]) == Some(rec) {
        var i :| 0 <= i < |lines[1..]| && LineRecord(lines[1..][i]) == Some(rec);
        assert lines[i + 1] == lines[1..][i];
      }
    }
  }

  /// One more line extends the parse by that line's record, if any.
  lemma ParsedStep(lines: seq<string>, i: nat)
    requires i < |lines|
    ensures ParsedRecords(lines[..i + 1]) == ParsedRecords(lines[..i]) + LineRecords(lines[i])
  {
    assert lines[..i + 1] == lines[..i] + [lines[i]];
    ParsedRecordsAppend(lines[..i], [lines[i]]);
    assert ParsedRecords([lines[i]]) == LineRecords(lines[i]) + ParsedRecords([]);
  }

  /// `LineRecords` in terms of the split fields, as the loop computes it.
  lemma LineRecordsOfParts(line: string)
    ensures var parts := Split(line, '|');
      LineRecords(line) == if |parts| >= 4
        then [Record(Trim(parts[0]), Trim(parts[1]), Trim(parts[2]), Trim(parts[3]))]
        else []
  {
  }

  /// `parseRecords`: the loop that appends one record per accepted line.
  method ParseRecords(lines: seq<string>) returns (records: seq<Record>)
    ensures records == ParsedRecords(lines)
  {
    records := [];
    var i := 0;
    while i < |lines|
      invariant 0 <= i <= |lines|
      invariant records == ParsedRecords(lines[..i])
    {
      ParsedStep(lines, i);
      var parts := Split(lines[i], '|');
      LineRecordsOfParts(lines[i]);
      if |parts| >= 4 {
        records := records + [Record(Trim(parts[0]), Trim(parts[1]), Trim(parts[2]), Trim(parts[3]))];
      }
      i := i + 1;
    }
    assert lines[..|lines|] == lines;
  }

  /// `addDNSRecord`'s `if ttl == 0 { ttl = 1 }`: Cloudflare's "automatic" TTL.
  function EffectiveTtl(ttl: int): (r: int)
    ensures r != 0
    ensures ttl != 0 ==> r == ttl
  {
    if ttl == 0 then 1 else ttl
  }

  /// The body POSTed to `/zones/<id>/dns_records`.
  datatype RecordPayload = RecordPayload(recordType: string, name: string, content: string,
                                         ttl: int, proxied: bool)

  function Payload(rec: Record, ttl: int, proxied: bool): (p: RecordPayload)
    ensures p.ttl != 0
  {
    RecordPayload(rec.recordType, rec.host, rec.value, EffectiveTtl(ttl), proxied)
  }

  /// `addDNSRecord`'s answer: the zone lookup's error, a failed POST, "Success"
  /// on 200, otherwise the API's first error or `HTTP <status>`.  The
  /// optional deletion of old records before the POST does not affect it.
  function AddRecordOutcome(lookup: ZoneLookup, post: Option<ApiReply>): (r: (bool, string))
    ensures r.0 <==> ZoneIdOf(lookup).Ok? && post.Some? && post.value.status == 200
    ensures r.0 ==> r.1 == "Success"
    ensures ZoneIdOf(lookup).Err? ==> r.1 == ZoneIdOf(lookup).message
    ensures ZoneIdOf(lookup).Ok? && post.None? ==> r.1 == "Request failed"
    ensures ZoneIdOf(lookup).Ok? && post.Some? && post.value.status != 200 ==>
      r.1 == ApiErrorMessage(post.value)
  {
    match ZoneIdOf(lookup)
    case Err(m) => (false, m)
    case Ok(_) =>
      match post
      case None => (false, "Request failed")
      case Some(reply) =>
        if reply.status == 200 then (true, "Success") else (false, ApiErrorMessage(reply))
  }

  /// `DNSResult`: the record's fields with its outcome.
  datatype RecordResult = RecordResult(domain: string, host: string, recordType: string,
                                       value: string, success: bool, message: string)

  /// `BatchParseDNS`: 404 for an unknown account, 400 when no line has four
  /// fields, otherwise one result per parsed record, at the record's index.
  /// `post(i)` answers the POST of `Payload(records[i], ttl, proxied)`.
  function BatchParseDns(accounts: seq<Account>, req: ParseRequest, lookup: nat -> ZoneLookup,
                         post: nat -> Option<ApiReply>): (r: BatchResponse<RecordResult>)
    ensures r.AccountNotFound? <==> FindAccount(accounts, req.accountId).None?
    ensures r.BadRequest? <==>
      FindAccount(accounts, req.accountId).Some? && ParsedRecords(req.records) == []
    ensures r.BadRequest? ==> r.error == "No valid records"
    ensures r.Answered? ==> |r.results| == |ParsedRecords(req.records)| <= |req.records|
    ensures r.Answered? ==> forall i :: 0 <= i < |r.results| ==>
      var rec := ParsedRecords(req.records)[i];
      r.results[i].domain == rec.domain && r.results[i].host == rec.host
      && r.results[i].recordType == rec.recordType && r.results[i].value == rec.value
      && (r.results[i].success, r.results[i].message) == AddRecordOutcome(lookup(i), post(i))
  {
    if FindAccount(accounts, req.accountId).None? then AccountNotFound
    else
      var records := ParsedRecords(req.records);
      if records == [] then BadRequest("No valid records")
      else
        Answered(seq(|records|, i requires 0 <= i < |records| =>
          var o := AddRecordOutcome(lookup(i), post(i));
          RecordResult(records[i].domain, records[i].host, records[i].recordType,
                       records[i].value, o.0, o.1)))
  }

  /// `deleteDNSRecords`' filter: no query when everything is deleted,
  /// otherwise `?type=` first, then the name with `&` or `?` as needed.
  function DeleteQuery(recordType: string, hostRecord: string, deleteAll: bool): (r: string)
    ensures r == "" <==> deleteAll || (recordType == "" && hostRecord == "")
  {
    if deleteAll then ""
    else
      var url := if recordType != "" then "?type=" + recordType else "";
      if hostRecord != "" then
        (if recordType != "" then url + "&name=" + hostRecord else url + "?name=" + hostRecord)
      else url
  }

  /// `toggleProxyStatus`' filter: the present parameters joined with '&'
  /// after a '?'.
  function ProxyQuery(recordType: string, hostRecord: string): string {
    var params := (if recordType != "" then ["type=" + recordType] else [])
                + (if hostRecord != "" then ["name=" + hostRecord] else []);
    if params == [] then "" else "?" + Join(params, '&')
  }

  /// The two independently written filters agree whenever deletion is not
  /// of every record.
  lemma QueriesAgree(recordType: string, hostRecord: string)
    ensures DeleteQuery(recordType, hostRecord, false) == ProxyQuery(recordType, hostRecord)
  {
    var t := "type=" + recordType;
    var n := "name=" + hostRecord;
    if recordType != "" && hostRecord != "" {
      var params := [t, n];
      assert params[1..] == [n];
      assert Join(params, '&') == t + "&" + n;
      assert "?" + (t + "&" + n) == "?type=" + recordType + "&name=" + hostRecord;
    } else if recordType != "" {
      assert Join([t], '&') == t;
      assert "?" + t == "?type=" + recordType;
    } else if hostRecord != "" {
      assert Join([n], '&') == n;
      assert "?" + n == "" + "?name=" + hostRecord;
    }
  }

  /// What the record listing `GET /zones/<id>/dns_records<filter>` answered.
  datatype Listing = ListFailed | Listed(records: seq<DnsEntry>)

  datatype DnsEntry = DnsEntry(id: string, recordType: string, proxied: bool)

  /// The delete loop: one DELETE per listed record, counting 200 answers.
  method CountDeleted(records: seq<DnsEntry>, deleteStatus: nat -> Option<int>) returns (count: nat)
    ensures count == OkCount(|records|, deleteStatus)
  {
    count := 0;
    var i := 0;
    while i < |records|
      invariant 0 <= i <= |records|
      invariant count == OkCount(i, deleteStatus)
    {
      if CallSucceeded(deleteStatus(i)) {
        count := count + 1;
      }
      i := i + 1;
    }
  }

  /// `deleteDNSRecords`' answer (success, message, count); `deleteStatus(i)`
  /// answers the DELETE of the i-th listed record.
  function DeleteOutcome(lookup: ZoneLookup, listing: Listing, deleteStatus: nat -> Option<int>)
    : (r: (bool, string, nat))
    ensures r.0 <==> r.2 > 0
    ensures r.0 <==> (ZoneIdOf(lookup).Ok? && listing.Listed?
      && exists i :: 0 <= i < |listing.records| && CallSucceeded(deleteStatus(i)))
    ensures listing.Listed? ==> r.2 <= |listing.records|
    ensures ZoneIdOf(lookup).Ok? && listing.Listed? && listing.records == [] ==>
      r == (false, "No records found", 0)
    ensures r.0 ==> r.1 == "Deleted " + NatToString(r.2) + " records"
  {
    match ZoneIdOf(lookup)
    case Err(m) => (false, m, 0)
    case Ok(_) =>
      match listing
      case ListFailed => (false, "Request failed", 0)
      case Listed(records) =>
        if records == [] then (false, "No records found", 0)
        else
          var count := OkCount(|records|, deleteStatus);
          if count > 0 then (true, "Deleted " + NatToString(count) + " records", count)
          else (false, "Failed to delete records", 0)
  }

  /// `deleteDNSRecords` for one domain.
  method DeleteDnsRecords(lookup: ZoneLookup, listing: Listing, deleteStatus: nat -> Option<int>)
    returns (success: bool, message: string, count: nat)
    ensures (success, message, count) == DeleteOutcome(lookup, listing, deleteStatus)
  {
    var zone := ZoneIdOf(lookup);
    if zone.Err? {
      return false, zone.message, 0;
    }
    if listing.ListFailed? {
      return false, "Request failed", 0;
    }
    if listing.records == [] {
      return false, "No records found", 0;
    }
    count := CountDeleted(listing.records, deleteStatus);
    if count > 0 {
      success, message := true, "Deleted " + NatToString(count) + " records";
    } else {
      success, message := false, "Failed to delete records";
    }
  }

  /// The record types whose proxy flag is switched.
  predicate Proxiable(recordType: string) {
    recordType == "A" || recordType == "AAAA" || recordType == "CNAME"
  }

  /// Among the first `n` listed records, the proxiable ones whose PATCH was answered 200.
  function PatchedCount(records: seq<DnsEntry>, n: nat, patchStatus: nat -> Option<int>): (r: nat)
    requires n <= |records|
    ensures r <= n
    ensures r > 0 <==> (exists i :: 0 <= i < n && Proxiable(records[i].recordType)
                                   && CallSucceeded(patchStatus(i)))
  {
    if n == 0 then 0
    else
      var last := if Proxiable(records[n - 1].recordType) && CallSucceeded(patchStatus(n - 1)) then 1 else 0;
      PatchedCount(records, n - 1, patchStatus) + last
  }

  /// The proxy loop: a PATCH for each A/AAAA/CNAME record, counting 200 answers.
  method CountPatched(records: seq<DnsEntry>, patchStatus: nat -> Option<int>) returns (count: nat)
    ensures count == PatchedCount(records, |records|, patchStatus)
  {
    count := 0;
    var i := 0;
    while i < |records|
      invariant 0 <= i <= |records|
      invariant count == PatchedCount(records, i, patchStatus)
    {
      if Proxiable(records[i].recordType) {
        if CallSucceeded(patchStatus(i)) {
          count := count + 1;
        }
      }
      i := i + 1;
    }
  }

  /// The success text names the direction of the switch and the count.
  function ProxyMessage(proxyStatus: bool, count: nat): string {
    (if proxyStatus then "开启" else "关闭") + "代理 " + NatToString(count) + " 条记录"
  }

  /// `toggleProxyStatus`' answer (success, message, count).
  function ProxyOutcome(lookup: ZoneLookup, listing: Listing, proxyStatus: bool,
                        patchStatus: nat -> Option<int>): (r: (bool, string, nat))
    ensures r.0 <==> r.2 > 0
    ensures r.0 <==> (ZoneIdOf(lookup).Ok? && listing.Listed?
      && exists i :: 0 <= i < |listing.records| && Proxiable(listing.records[i].recordType)
                     && CallSucceeded(patchStatus(i)))
    ensures listing.Listed? ==> r.2 <= |listing.records|
    ensures r.0 ==> r.1 == ProxyMessage(proxyStatus, r.2)
    ensures ZoneIdOf(lookup).Ok? && listing.Listed? && listing.records != [] && !r.0 ==>
      r.1 == "No proxiable records found"
  {
    match ZoneIdOf(lookup)
    case Err(m) => (false, m, 0)
    case Ok(_) =>
      match listing
      case ListFailed => (false, "Request failed", 0)
      case Listed(records) =>
        if records == [] then (false, "No records found", 0)
        else
          var count := PatchedCount(records, |records|, patchStatus);
          if count > 0 then (true, ProxyMessage(proxyStatus, count), count)
          else (false, "No proxiable records found", 0)
  }

  /// `toggleProxyStatus` for one domain.
  method ToggleProxyStatus(lookup: ZoneLookup, listing: Listing, proxyStatus: bool,
                           patchStatus: nat -> Option<int>)
    returns (success: bool, message: string, count: nat)
    ensures (success, message, count) == ProxyOutcome(lookup, listing, proxyStatus, patchStatus)
  {
    var zone := ZoneIdOf(lookup);
    if zone.Err? {
      return false, zone.message, 0;
    }
    if listing.ListFailed? {
      return false, "Request failed", 0;
    }
    if listing.records == [] {
      return false, "No records found", 0;
    }
    count := CountPatched(listing.records, patchStatus);
    if count > 0 {
      success, message := true, ProxyMessage(proxyStatus, count);
    } else {
      success, message := false, "No proxiable records found";
    }
  }

  /// `DeleteResult` / `ProxyToggleResult`.
  datatype CountResult = CountResult(domain: string, success: bool, message: string, count: nat)

  /// The shape shared by `BatchDeleteDNS` and `BatchProxyToggle`: 404 for an
  /// unknown account, 400 for an empty domain list, otherwise one result per
  /// domain at its index.
  function CountBatch(accounts: seq<Account>, accountId: string, domains: seq<string>,
                      work: nat -> (bool, string, nat)): (r: BatchResponse<CountResult>)
    ensures r.AccountNotFound? <==> FindAccount(accounts, accountId).None?
    ensures r.BadRequest? <==> FindAccount(accounts, accountId).Some? && domains == []
    ensures r.BadRequest? ==> r.error == "No domains provided"
    ensures r.Answered? ==> |r.results| == |domains|
    ensures r.Answered? ==> forall i :: 0 <= i < |domains| ==>
      r.results[i].domain == domains[i]
      && (r.results[i].success, r.results[i].message, r.results[i].count) == work(i)
  {
    if FindAccount(accounts, accountId).None? then AccountNotFound
    else if domains == [] then BadRequest("No domains provided")
    else Answered(RunBatch(domains, (i: nat, d: string) => CountResult(d, work(i).0, work(i).1, work(i).2)))
  }

  /// `BatchDeleteDNS`.
  function BatchDeleteDns(accounts: seq<Account>, req: DeleteRequest, lookup: nat -> ZoneLookup,
                          listing: nat -> Listing, deleteStatus: nat -> nat -> Option<int>)
    : (r: BatchResponse<CountResult>)
    ensures r.AccountNotFound? <==> FindAccount(accounts, req.accountId).None?
    ensures r.BadRequest? <==> FindAccount(accounts, req.accountId).Some? && req.domains == []
    ensures r.Answered? ==> |r.results| == |req.domains|
    ensures r.Answered? ==> forall i :: 0 <= i < |req.domains| ==>
      r.results[i].domain == req.domains[i]
      && (r.results[i].success, r.results[i].message, r.results[i].count)
         == DeleteOutcome(lookup(i), listing(i), deleteStatus(i))
  {
    CountBatch(accounts, req.accountId, req.domains, DeleteWork(lookup, listing, deleteStatus))
  }

  /// The per-domain work of `BatchDeleteDNS`: domain `i` gets the outcome
  /// of deleting its own listing.
  function DeleteWork(lookup: nat -> ZoneLookup, listing: nat -> Listing,
                      deleteStatus: nat -> nat -> Option<int>): (w: nat -> (bool, string, nat))
    ensures forall i: nat :: w(i) == DeleteOutcome(lookup(i), listing(i), deleteStatus(i))
  {
    var w := (i: nat) => DeleteOutcome(lookup(i), listing(i), deleteStatus(i));
    assert forall i: nat :: w(i) == DeleteOutcome(lookup(i), listing(i), deleteStatus(i));
    w
  }

  /// `BatchProxyToggle`.
  function BatchProxyToggle(accounts: seq<Account>, req: ProxyRequest, lookup: nat -> ZoneLookup,
                            listing: nat -> Listing, patchStatus: nat -> nat -> Option<int>)
    : (r: BatchResponse<CountResult>)
    ensures r.AccountNotFound? <==> FindAccount(accounts, req.accountId).None?
    ensures r.BadRequest? <==> FindAccount(accounts, req.accountId).Some? && req.domains == []
    ensures r.Answered? ==> |r.results| == |req.domains|
    ensures r.Answered? ==> forall i :: 0 <= i < |req.domains| ==>
      r.results[i].domain == req.domains[i]
      && (r.results[i].success, r.results[i].message, r.results[i].count)
         == ProxyOutcome(lookup(i), listing(i), req.proxyStatus, patchStatus(i))
  {
    CountBatch(accounts, req.accountId, req.domains, ProxyWork(lookup, listing, req.proxyStatus, patchStatus))
  }

  /// The per-domain work of `BatchProxyToggle`.
  function ProxyWork(lookup: nat -> ZoneLookup, listing: nat -> Listing, proxyStatus: bool,
                     patchStatus: nat -> nat -> Option<int>): (w: nat -> (bool, string, nat))
    ensures forall i: nat :: w(i) == ProxyOutcome(lookup(i), listing(i), proxyStatus, patchStatus(i))
  {
    var w := (i: nat) => ProxyOutcome(lookup(i), listing(i), proxyStatus, patchStatus(i));
    assert forall i: nat :: w(i) == ProxyOutcome(lookup(i), listing(i), proxyStatus, patchStatus(i));
    w
  }

  /// A listing with no A, AAAA or CNAME record never succeeds, whatever the
  /// PATCH answers would have been (none is sent).
  lemma NothingProxiableFails(lookup: ZoneLookup, records: seq<DnsEntry>, proxyStatus: bool,
                              patchStatus: nat -> Option<int>)
    requires forall i :: 0 <= i < |records| ==> !Proxiable(records[i].recordType)
    ensures !ProxyOutcome(lookup, Listed(records), proxyStatus, patchStatus).0
  {
    assert !exists i :: 0 <= i < |records| && CallSucceeded(patchStatus(i))
                        && Proxiable(records[i].recordType);
  }
}
