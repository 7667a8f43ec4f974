/// `Frontend/src/modules/email_routing.js`: the e-mail routing form
/// (`batchEmailRouting`).
module EmailRoutingForm {
  import opened Text
  import opened Seqs
  import opened DomainList
  import opened Forms
  import EmailHandler

  /// The one alert the three guards share.
  const InputMissing := "请选择账号并输入 Worker 名称和域名列表"
  const ListEmpty := "域名列表为空或格式不正确"

  /// `batchEmailRouting`: an account, a worker name and non-blank text are
  /// required; the deduplicated domains are posted with the worker name as
  /// typed (not trimmed).  The empty-list alert can never be reached.
  function BatchEmailRouting(accountId: string, worker: string, text: string)
    : (r: Submission<EmailHandler.EmailRequest>)
    ensures r.Sent? <==> accountId != "" && worker != "" && !IsBlank(text)
    ensures !r.Sent? ==> r == Alerted(InputMissing)
    ensures r.Sent? ==> r.body == EmailHandler.EmailRequest(accountId, ParseUnique(text), worker)
    ensures r.Sent? ==> r.body.domains != [] && NoDuplicates(r.body.domains)
  {
    if accountId == "" || worker == "" || IsBlank(text) then Alerted(InputMissing)
    else
      var domains := ParseUnique(text);
      NonBlankGivesEntries(text);
      if domains == [] then Alerted(ListEmpty)
      else Sent(EmailHandler.EmailRequest(accountId, domains, worker))
  }

  /// A worker name of spaces passes the guard and reaches the server's
  /// catch-all rule unchanged.
  lemma UntrimmedWorker(accountId: string, text: string)
    requires accountId != "" && !IsBlank(text)
    ensures var r := BatchEmailRouting(accountId, " ", text);
      r.Sent? && EmailHandler.CatchAllPayload(r.body.worker).actions[0].value == [" "]
  {
  }
}
