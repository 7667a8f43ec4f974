/// `Frontend/src/modules/dns_records.js`: the bulk DNS record form
/// (`startParse`).  Each non-empty line is one `domain|host|type|value`
/// record; the form previews the records with defaults filled in and posts
/// the trimmed lines, which the server parses again by its own rule.
module DnsRecordsForm {
  import opened Text
  import opened HandlerCommon
  import opened DomainList
  import opened Forms
  import DnsHandler

  const RecordsMissing := "请输入域名解析记录"
  const RecordsEmpty := "域名记录列表为空"

  /// `parts[k] || fallback`: the field when present and non-empty.
  function FieldOr(parts: seq<string>, k: nat, fallback: string): (r: string)
    ensures k < |parts| && parts[k] != "" ==> r == parts[k]
    ensures k >= |parts| || parts[k] == "" ==> r == fallback
  {
    if k < |parts| && parts[k] != "" then parts[k] else fallback
  }

  /// The preview row of one line: the first four '|'-separated fields,
  /// untrimmed, with host `@`, type `A` and empty domain and value standing
  /// in for missing or empty fields.
  function PreviewRecord(line: string): (r: DnsHandler.Record)
    ensures r.host != "" && r.recordType != ""
    ensures '|' !in r.domain && '|' !in r.host && '|' !in r.recordType && '|' !in r.value
    ensures r.domain == Split(line, '|')[0]
  {
    var parts := Split(line, '|');
    DnsHandler.Record(FieldOr(parts, 0, ""), FieldOr(parts, 1, "@"), FieldOr(parts, 2, "A"), FieldOr(parts, 3, ""))
  }

  /// The queued rows, one per posted line.
  function Preview(lines: seq<string>): (r: seq<DnsHandler.Record>)
    ensures |r| == |lines|
    ensures forall i :: 0 <= i < |lines| ==> r[i] == PreviewRecord(lines[i])
  {
    seq(|lines|, i requires 0 <= i < |lines| => PreviewRecord(lines[i]))
  }

  /// A bare domain previews with the defaults.
  lemma PreviewBareDomain()
    ensures PreviewRecord("example.com") == DnsHandler.Record("example.com", "@", "A", "")
  {
    assert Split("example.com", '|') == ["example.com"] by {
      SplitNoSep("example.com", '|');
    }
  }

  /// A full line previews as written.
  lemma PreviewFullLine()
    ensures PreviewRecord("example.com|@|A|1.2.3.4") == DnsHandler.Record("example.com", "@", "A", "1.2.3.4")
  {
    var line := "example.com" + "|" + "@" + "|" + "A" + "|" + "1.2.3.4";
    assert "example.com|@|A|1.2.3.4" == line;
    SplitFour("example.com", "@", "A", "1.2.3.4", '|');
  }

  /// The preview and the server disagree on short lines: a bare domain is
  /// queued with defaults in the preview, while the server's parser drops
  /// it and never reports on it.
  lemma PreviewQueuesWhatServerDrops()
    ensures PreviewRecord("example.com").host == "@"
    ensures DnsHandler.LineRecord("example.com").None?
  {
    SplitNoSep("example.com", '|');
    SplitLength("example.com", '|');
  }

  /// On a line of exactly four non-empty trimmed fields the preview and the
  /// server's parser agree.
  lemma PreviewAgreesOnFullLines(a: string, b: string, c: string, d: string)
    requires a != "" && b != "" && c != "" && d != ""
    requires IsTrimmed(a) && IsTrimmed(b) && IsTrimmed(c) && IsTrimmed(d)
    requires '|' !in a && '|' !in b && '|' !in c && '|' !in d
    ensures var line := a + "|" + b + "|" + c + "|" + d;
      DnsHandler.LineRecord(line) == Some(PreviewRecord(line))
      && PreviewRecord(line) == DnsHandler.Record(a, b, c, d)
  {
    var line := a + "|" + b + "|" + c + "|" + d;
    var rec := DnsHandler.Record(a, b, c, d);
    assert Split(line, '|') == [a, b, c, d] by {
      SplitFour(a, b, c, d, '|');
    }
    assert PreviewRecord(line) == rec;
    assert DnsHandler.LineRecord(line) == Some(rec) by {
      SplitLength(line, '|');
      TrimOfTrimmed(a);
      TrimOfTrimmed(b);
      TrimOfTrimmed(c);
      TrimOfTrimmed(d);
    }
  }

  /// `startParse`: no account, then blank text, stop with an alert;
  /// otherwise the trimmed non-empty lines are posted with the TTL and the
  /// three flags.  The empty-list alert can never be reached.
  function StartParse(accountId: string, text: string, ttl: int, proxied: bool, deleteOld: bool,
                      offlineMode: bool): (r: Submission<DnsHandler.ParseRequest>)
    ensures accountId == "" ==> r == Alerted(AccountMissing)
    ensures accountId != "" && IsBlank(text) ==> r == Alerted(RecordsMissing)
    ensures r.Sent? <==> accountId != "" && !IsBlank(text)
    ensures r != Alerted(RecordsEmpty)
    ensures r.Sent? ==> r.body == DnsHandler.ParseRequest(accountId, ParseLines(text), ttl, proxied, deleteOld, offlineMode)
    ensures r.Sent? ==> r.body.records != []
  {
    if accountId == "" then Alerted(AccountMissing)
    else if IsBlank(text) then Alerted(RecordsMissing)
    else
      var records := ParseLines(text);
      NonBlankGivesEntries(text);
      if records == [] then Alerted(RecordsEmpty)
      else Sent(DnsHandler.ParseRequest(accountId, records, ttl, proxied, deleteOld, offlineMode))
  }
}
