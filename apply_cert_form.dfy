/// `Frontend/src/modules/apply_cert.js`: the certificate form
/// (`applyCert`) and the way it shows the server's results.
module ApplyCertForm {
  import opened Text
  import opened Seqs
  import opened HandlerCommon
  import opened DomainList
  import opened Forms
  import CertHandler

  /// `applyCert`: no account, then blank text, stop with an alert; the
  /// trimmed non-empty lines are posted as they are (duplicates kept) with
  /// the wildcard flag.  The empty-list alert can never be reached.
  function ApplyCert(accountId: string, text: string, includeWildcard: bool)
    : (r: Submission<CertHandler.CertRequest>)
    ensures accountId == "" ==> r == Alerted(AccountMissing)
    ensures accountId != "" && IsBlank(text) ==> r == Alerted(DomainsMissing)
    ensures r.Sent? <==> accountId != "" && !IsBlank(text)
    ensures r != Alerted(DomainsEmpty)
    ensures r.Sent? ==> r.body == CertHandler.CertRequest(accountId, ParseLines(text), includeWildcard)
  {
    if accountId == "" then Alerted(AccountMissing)
    else if IsBlank(text) then Alerted(DomainsMissing)
    else
      var domains := ParseLines(text);
      NonBlankGivesEntries(text);
      if domains == [] then Alerted(DomainsEmpty)
      else Sent(CertHandler.CertRequest(accountId, domains, includeWildcard))
  }

  /// The domain cell of a row: the domain, followed by its wildcard when
  /// the box is checked.
  function DomainLabel(domain: string, includeWildcard: bool): (r: string)
    ensures StartsWith(r, domain)
    ensures !includeWildcard ==> r == domain
    ensures includeWildcard ==> r[|domain|..] == " + *." + domain
  {
    if includeWildcard then domain + " + *." + domain else domain
  }

  /// The label names exactly the names the certificate is issued for (the
  /// `-d` arguments of acme.sh), and reads like the server's own
  /// "preparing" step.
  lemma LabelNamesIssuedDomains(domain: string, includeWildcard: bool)
    ensures var args := CertHandler.DomainArgs(domain, includeWildcard);
      DomainLabel(domain, includeWildcard)
        == (if includeWildcard then args[1] + " + " + args[3] else args[1])
    ensures DomainLabel(domain, includeWildcard) == CertHandler.DomainList(domain, includeWildcard)
  {
  }

  /// The colour a step line is shown in.
  datatype StepColour = Danger | Success | Info | Muted

  predicate IsErrorStep(step: string) {
    StartsWith(step, "✗") || StartsWith(step, "错误")
  }

  predicate IsSuccessStep(step: string) {
    StartsWith(step, "✓")
  }

  predicate IsProgressStep(step: string) {
    StartsWith(step, "→")
  }

  /// The colour chain as written: muted, overwritten by danger, then by
  /// success, then by info, each when its prefix test holds; the last
  /// test that holds wins.
  function StepColourOf(step: string): (r: StepColour)
    ensures r == Muted <==> !IsErrorStep(step) && !IsSuccessStep(step) && !IsProgressStep(step)
  {
    var colour := Muted;
    var colour := if IsErrorStep(step) then Danger else colour;
    var colour := if IsSuccessStep(step) then Success else colour;
    if IsProgressStep(step) then Info else colour
  }

  /// The four prefixes begin with different characters, so at most one
  /// test holds and the order of the chain does not matter: each prefix
  /// gets its own colour.
  lemma StepColoursDisjoint(step: string)
    ensures IsErrorStep(step) ==> !IsSuccessStep(step) && !IsProgressStep(step)
    ensures IsSuccessStep(step) ==> !IsProgressStep(step)
    ensures IsErrorStep(step) <==> StepColourOf(step) == Danger
    ensures IsSuccessStep(step) <==> StepColourOf(step) == Success
    ensures IsProgressStep(step) <==> StepColourOf(step) == Info
  {
    if IsErrorStep(step) {
      if StartsWith(step, "✗") {
        assert step[0] == "✗"[0];
      } else {
        assert step[0] == "错误"[0];
      }
    }
    if IsSuccessStep(step) {
      assert step[0] == "✓"[0];
    }
  }

  /// The result cell's link: shown only for a successful result that
  /// carries a download URL.
  function DownloadLink(result: CertHandler.CertResult): (r: Option<string>)
    ensures r.Some? <==> result.success && result.downloadUrl != ""
    ensures r.Some? ==> r.value == result.downloadUrl
  {
    if result.success && result.downloadUrl != "" then Some(result.downloadUrl) else None
  }

  /// For the server's results the link appears exactly for a success that
  /// produced a certificate archive.
  lemma LinkForArchivedSuccess(domain: string, o: CertHandler.CertOutcome)
    ensures var result := CertHandler.CertResult(domain, o.success, o.message, o.steps, o.certPath,
                                                 CertHandler.DownloadUrl(o.success, o.certPath));
      DownloadLink(result).Some? <==> o.success && o.certPath != ""
  {
  }

  /// Whether the page is re-rendered after the results are shown: when
  /// `data.filter(r => r.success).length > 0`.
  function Rerenders(results: seq<CertHandler.CertResult>): (r: bool)
  {
    |Filter(results, (x: CertHandler.CertResult) => x.success)| > 0
  }

  /// The page re-renders exactly when some result succeeded.
  lemma RerenderIffSomeSuccess(results: seq<CertHandler.CertResult>)
    ensures Rerenders(results) <==> exists i :: 0 <= i < |results| && results[i].success
  {
    var p := (x: CertHandler.CertResult) => x.success;
    var f := Filter(results, p);
    if Rerenders(results) {
      FilterMembership(results, p, f[0]);
    } else {
      forall i | 0 <= i < |results| ensures !results[i].success {
        FilterMembership(results, p, results[i]);
      }
    }
  }
}
