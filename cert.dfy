/// `Server/handler/cert.go`: issuing certificates with acme.sh
/// (`BatchApplyCert`, `applyCertificate`, `installExistingCert`), serving the
/// zipped result (`DownloadCert`) and listing the zips (`ListCerts`).  The
/// acme.sh runs, the ZIP writer and the file system are oracles.
module CertHandler {
  import opened Text
  import opened HandlerCommon

  /// The JSON body `BatchApplyCertRequest`.
  datatype CertRequest = CertRequest(accountId: string, domains: seq<string>, includeWildcard: bool)

  /// `filepath.Join("certs", domain)`, without Go's path cleaning.
  function CertDir(domain: string): string {
    "certs/" + domain
  }

  /// The zip written for a domain.
  function ZipPath(domain: string): string {
    CertDir(domain) + ".zip"
  }

  /// `filepath.Base`: the last '/'-separated segment of a path.
  function Base(path: string): (r: string)
    ensures '/' !in r
  {
    var parts := Split(path, '/');
    parts[|parts| - 1]
  }

  /// The base name of a domain's zip is the domain followed by ".zip".
  lemma ZipBase(domain: string)
    requires '/' !in domain
    ensures Base(ZipPath(domain)) == domain + ".zip"
  {
    assert ZipPath(domain) == "certs" + ['/'] + (domain + ".zip");
    SplitAppend("certs", domain + ".zip", '/');
    SplitNoSep(domain + ".zip", '/');
  }

  /// The `-d` arguments given to acme.sh: the domain, and its wildcard when asked.
  function DomainArgs(domain: string, wildcard: bool): (r: seq<string>)
    ensures |r| == if wildcard then 4 else 2
    ensures r[0] == "-d" && r[1] == domain
    ensures wildcard ==> r[2] == "-d" && r[3] == "*." + domain
  {
    ["-d", domain] + (if wildcard then ["-d", "*." + domain] else [])
  }

  /// The issue command line after the acme.sh path.
  function IssueArgs(domain: string, wildcard: bool): (r: seq<string>)
    ensures |r| == 3 + |DomainArgs(domain, wildcard)|
    ensures r[0] == "--issue" && r[3..] == DomainArgs(domain, wildcard)
  {
    ["--issue", "--dns", "dns_cf"] + DomainArgs(domain, wildcard)
  }

  /// The certificate files acme.sh installs and `zipCertFiles` packs, in
  /// that order.
  const PemFiles: seq<string> := ["cert.pem", "key.pem", "fullchain.pem", "ca.pem"]

  /// The install options naming where each of `PemFiles` goes.
  const FileOptions: seq<string> := ["--cert-file", "--key-file", "--fullchain-file", "--ca-file"]

  /// The paths `zipCertFiles` reads: each of `PemFiles` inside the domain's
  /// directory.
  function ZipSource(domain: string, k: nat): string
    requires k < |PemFiles|
  {
    CertDir(domain) + "/" + PemFiles[k]
  }

  /// The install command line after the acme.sh path: the same `-d`
  /// arguments, then one option per certificate file, writing it to the
  /// path the zip is later packed from.
  function InstallArgs(domain: string, wildcard: bool): (r: seq<string>)
    ensures var n := |DomainArgs(domain, wildcard)|;
      |r| == n + 1 + 2 * |PemFiles| && r[0] == "--install-cert" && r[1..n + 1] == DomainArgs(domain, wildcard)
      && forall k :: 0 <= k < |PemFiles| ==>
           r[n + 1 + 2 * k] == FileOptions[k] && r[n + 2 + 2 * k] == ZipSource(domain, k)
  {
    var dir := CertDir(domain);
    var r := ["--install-cert"] + DomainArgs(domain, wildcard)
      + ["--cert-file", dir + "/cert.pem", "--key-file", dir + "/key.pem",
         "--fullchain-file", dir + "/fullchain.pem", "--ca-file", dir + "/ca.pem"];
    var n := |DomainArgs(domain, wildcard)|;
    assert r[n + 1..] == ["--cert-file", dir + "/cert.pem", "--key-file", dir + "/key.pem",
                          "--fullchain-file", dir + "/fullchain.pem", "--ca-file", dir + "/ca.pem"];
    r
  }

  /// The install names the same domains as the issue, so it installs the
  /// certificate that was just issued.
  lemma InstallRepeatsIssuedDomains(domain: string, wildcard: bool)
    ensures var n := |DomainArgs(domain, wildcard)|;
      InstallArgs(domain, wildcard)[1..n + 1] == IssueArgs(domain, wildcard)[3..]
  {
  }

  /// Every file the install writes lies in the domain's directory and has
  /// the name `zipCertFiles` stores it under in the archive.
  lemma InstalledFilesAreZipped(domain: string, wildcard: bool)
    ensures var r, n := InstallArgs(domain, wildcard), |DomainArgs(domain, wildcard)|;
      forall k :: 0 <= k < |PemFiles| ==>
        r[n + 2 + 2 * k][..|CertDir(domain)| + 1] == CertDir(domain) + "/"
        && Base(r[n + 2 + 2 * k]) == PemFiles[k]
  {
    forall k | 0 <= k < |PemFiles|
      ensures Base(ZipSource(domain, k)) == PemFiles[k]
    {
      assert '/' !in PemFiles[k];
      assert ZipSource(domain, k) == CertDir(domain) + ['/'] + PemFiles[k];
      SplitLastAfterSep(CertDir(domain), PemFiles[k], '/');
    }
  }

  /// The domains named in the "preparing" step.
  function DomainList(domain: string, wildcard: bool): string {
    if wildcard then domain + " + *." + domain else domain
  }

  /// What `applyCertificate` / `installExistingCert` return.
  datatype CertOutcome = CertOutcome(success: bool, message: string, steps: seq<string>, certPath: string)

  /// `installExistingCert`: `run` gives acme.sh's error output for a command
  /// line (`None` when it ran cleanly), `zipped` whether the zip could be
  /// created.
  function InstallExistingCert(domain: string, wildcard: bool, steps: seq<string>,
                               run: seq<string> -> Option<string>, zipped: bool): (r: CertOutcome)
    ensures steps <= r.steps
    ensures var install := run(InstallArgs(domain, wildcard));
      (r.success <==> install.None? && zipped)
      && (install.Some? ==> r == CertOutcome(false, "安装失败",
            steps + ["→ 安装证书文件...", "✗ 证书安装失败", "错误详情: " + install.value], ""))
      && (install.None? && !zipped ==> r.message == "打包失败" && r.certPath == CertDir(domain))
    ensures r.success ==> r.message == "申请成功" && r.certPath == ZipPath(domain)
  {
    var installing := steps + ["→ 安装证书文件..."];
    match run(InstallArgs(domain, wildcard))
    case Some(out) =>
      CertOutcome(false, "安装失败", installing + ["✗ 证书安装失败", "错误详情: " + out], "")
    case None =>
      var zipping := installing + ["✓ 证书文件安装完成", "→ 打包证书为 ZIP..."];
      if !zipped then CertOutcome(false, "打包失败", zipping + ["✗ ZIP 打包失败"], CertDir(domain))
      else CertOutcome(true, "申请成功", zipping + ["✓ 证书打包完成", "✓ 全部完成，可以下载"], ZipPath(domain))
  }

  /// The steps logged before acme.sh is asked to issue.
  function PreparedSteps(domain: string, wildcard: bool): seq<string> {
    ["✓ 检查 acme.sh 环境", "✓ 创建证书目录", "✓ 准备申请域名: " + DomainList(domain, wildcard),
     "→ 调用 acme.sh 申请证书..."]
  }

  /// Whether acme.sh's issue output lets the install go ahead: no error, or
  /// an error reporting that the certificate already exists.
  predicate IssueUsable(issue: Option<string>) {
    issue.None? || Contains(issue.value, "Domains not changed")
  }

  /// `applyCertificate`: `acmeInstalled` whether acme.sh exists, `run`
  /// acme.sh's error output for a command line (`None` when it succeeded).
  /// An issue error reporting "Domains not changed" means the certificate
  /// already exists and goes on to be installed.
  function ApplyCertificate(domain: string, wildcard: bool, acmeInstalled: bool,
                            run: seq<string> -> Option<string>, zipped: bool): (r: CertOutcome)
    ensures !acmeInstalled ==> r == CertOutcome(false, "acme.sh not installed", ["错误: acme.sh 未安装"], "")
    ensures acmeInstalled ==> PreparedSteps(domain, wildcard) <= r.steps
    ensures r.success <==> acmeInstalled && IssueUsable(run(IssueArgs(domain, wildcard)))
                           && run(InstallArgs(domain, wildcard)).None? && zipped
    ensures acmeInstalled && !IssueUsable(run(IssueArgs(domain, wildcard))) ==>
      r.message == "申请失败" && r.certPath == ""
    ensures r.success ==> r.certPath == ZipPath(domain)
  {
    if !acmeInstalled then CertOutcome(false, "acme.sh not installed", ["错误: acme.sh 未安装"], "")
    else
      var steps := PreparedSteps(domain, wildcard);
      match run(IssueArgs(domain, wildcard))
      case None => InstallExistingCert(domain, wildcard, steps + ["✓ 证书申请成功"], run, zipped)
      case Some(out) =>
        if Contains(out, "Domains not changed") then
          InstallExistingCert(domain, wildcard, steps + ["✓ 证书已存在，准备安装"], run, zipped)
        else
          CertOutcome(false, "申请失败", steps + ["✗ 申请失败", "错误详情: " + out], "")
  }

  /// acme.sh is asked nothing but the issue and the install command lines:
  /// runs that agree on those two give the same outcome.
  lemma OnlyIssueAndInstallRun(domain: string, wildcard: bool, acmeInstalled: bool,
                               run: seq<string> -> Option<string>, other: seq<string> -> Option<string>,
                               zipped: bool)
    requires run(IssueArgs(domain, wildcard)) == other(IssueArgs(domain, wildcard))
    requires run(InstallArgs(domain, wildcard)) == other(InstallArgs(domain, wildcard))
    ensures ApplyCertificate(domain, wildcard, acmeInstalled, run, zipped)
         == ApplyCertificate(domain, wildcard, acmeInstalled, other, zipped)
  {
  }

  /// A failed issue stops before the install: its outcome does not depend on
  /// what the install command would have answered.
  lemma FailedIssueSkipsInstall(domain: string, wildcard: bool,
                                run: seq<string> -> Option<string>, other: seq<string> -> Option<string>,
                                zipped: bool)
    requires !IssueUsable(run(IssueArgs(domain, wildcard)))
    requires run(IssueArgs(domain, wildcard)) == other(IssueArgs(domain, wildcard))
    ensures ApplyCertificate(domain, wildcard, true, run, zipped)
         == ApplyCertificate(domain, wildcard, true, other, zipped)
  {
  }

  const DownloadPrefix := "/api/certs/download/"

  /// The link `BatchApplyCert` adds to a result.
  function DownloadUrl(success: bool, certPath: string): (r: string)
    ensures r != "" <==> success && certPath != ""
  {
    if success && certPath != "" then DownloadPrefix + Base(certPath) else ""
  }

  /// `CertResult`.
  datatype CertResult = CertResult(domain: string, success: bool, message: string, steps: seq<string>,
                                   certPath: string, downloadUrl: string)

  /// `BatchApplyCert`: 404 for an unknown account, otherwise one result per
  /// domain at its index.  Oracles are indexed by domain.
  function BatchApplyCert(accounts: seq<Account>, req: CertRequest, acmeInstalled: bool,
                          run: nat -> seq<string> -> Option<string>, zipped: nat -> bool)
    : (r: BatchResponse<CertResult>)
    ensures r.AccountNotFound? <==> FindAccount(accounts, req.accountId).None?
    ensures !r.BadRequest?
    ensures r.Answered? ==> |r.results| == |req.domains|
    ensures r.Answered? ==> forall i :: 0 <= i < |req.domains| ==>
      var o := ApplyCertificate(req.domains[i], req.includeWildcard, acmeInstalled, run(i), zipped(i));
      r.results[i] == CertResult(req.domains[i], o.success, o.message, o.steps, o.certPath,
                                 DownloadUrl(o.success, o.certPath))
  {
    if FindAccount(accounts, req.accountId).None? then AccountNotFound
    else Answered(RunBatch(req.domains, (i: nat, d: string) =>
      var o := ApplyCertificate(d, req.includeWildcard, acmeInstalled, run(i), zipped(i));
      CertResult(d, o.success, o.message, o.steps, o.certPath, DownloadUrl(o.success, o.certPath))))
  }

  /// What `DownloadCert` answers: 400, 404, or the file under `certs/` sent
  /// as an attachment with that name.
  datatype DownloadResponse = InvalidFilename | FileNotFound | Attachment(path: string, filename: string)

  /// `DownloadCert`; `stored` is the set of paths that exist.
  function DownloadCert(filename: string, stored: set<string>): (r: DownloadResponse)
    ensures r.InvalidFilename? <==> filename == "" || Contains(filename, "..")
    ensures r.FileNotFound? <==> filename != "" && !Contains(filename, "..") && "certs/" + filename !in stored
    ensures r.Attachment? ==> r.path == "certs/" + filename && r.path in stored && r.filename == filename
  {
    if filename == "" || Contains(filename, "..") then InvalidFilename
    else if "certs/" + filename !in stored then FileNotFound
    else Attachment("certs/" + filename, filename)
  }

  /// A directory entry of `certs/`.
  datatype FileInfo = FileInfo(name: string, size: int, modifiedAt: string)

  /// An entry of the `ListCerts` answer.
  datatype CertEntry = CertEntry(domain: string, filename: string, size: int, modifiedAt: string, downloadUrl: string)

  /// The entry for a ".zip" file.
  function EntryOf(file: FileInfo): (r: CertEntry)
    requires EndsWith(file.name, ".zip")
    ensures r.domain + ".zip" == r.filename == file.name
    ensures r.downloadUrl == DownloadPrefix + file.name
  {
    var domain := file.name[..|file.name| - 4];
    assert domain + ".zip" == file.name;
    CertEntry(domain, file.name, file.size, file.modifiedAt, DownloadPrefix + file.name)
  }

  /// The entries for the ".zip" files among `files`, in directory order.
  function CertEntries(files: seq<FileInfo>): (r: seq<CertEntry>)
    ensures |r| <= |files|
    ensures forall k :: 0 <= k < |r| ==> r[k].domain + ".zip" == r[k].filename
    ensures forall k :: 0 <= k < |r| ==> r[k].downloadUrl == DownloadPrefix + r[k].filename
  {
    if files == [] then []
    else
      var rest := CertEntries(files[..|files| - 1]);
      var last := files[|files| - 1];
      if EndsWith(last.name, ".zip") then rest + [EntryOf(last)] else rest
  }

  /// Every ".zip" file is listed, and only those.
  lemma CertEntriesComplete(files: seq<FileInfo>, name: string)
    ensures (exists k :: 0 <= k < |CertEntries(files)| && CertEntries(files)[k].filename == name)
        <==> (exists j :: 0 <= j < |files| && files[j].name == name && EndsWith(name, ".zip"))
  {
    if exists j :: 0 <= j < |files| && files[j].name == name && EndsWith(name, ".zip") {
      var j :| 0 <= j < |files| && files[j].name == name && EndsWith(name, ".zip");
      ZipIsListed(files, j);
    }
    if exists k :: 0 <= k < |CertEntries(files)| && CertEntries(files)[k].filename == name {
      var k :| 0 <= k < |CertEntries(files)| && CertEntries(files)[k].filename == name;
      ListedIsZip(files, k);
    }
  }

  /// A ".zip" file has an entry.
  lemma {:induction false} ZipIsListed(files: seq<FileInfo>, j: int)
    requires 0 <= j < |files| && EndsWith(files[j].name, ".zip")
    ensures exists k :: 0 <= k < |CertEntries(files)| && CertEntries(files)[k].filename == files[j].name
  {
    var init := files[..|files| - 1];
    var rest := CertEntries(init);
    var last := files[|files| - 1];
    if j < |files| - 1 {
      assert init[j] == files[j];
      ZipIsListed(init, j);
      var k :| 0 <= k < |rest| && rest[k].filename == files[j].name;
      assert CertEntries(files)[k] == rest[k];
    } else {
      assert CertEntries(files) == rest + [EntryOf(last)];
      assert CertEntries(files)[|rest|] == EntryOf(last);
    }
  }

  /// An entry comes from a ".zip" file.
  lemma {:induction false} ListedIsZip(files: seq<FileInfo>, k: int)
    requires 0 <= k < |CertEntries(files)|
    ensures exists j :: 0 <= j < |files| && files[j].name == CertEntries(files)[k].filename
                        && EndsWith(files[j].name, ".zip")
  {
    var init := files[..|files| - 1];
    var rest := CertEntries(init);
    var last := files[|files| - 1];
    if k < |rest| {
      assert CertEntries(files)[k] == rest[k];
      ListedIsZip(init, k);
      var j :| 0 <= j < |init| && init[j].name == rest[k].filename && EndsWith(init[j].name, ".zip");
      assert files[j] == init[j];
    } else {
      assert CertEntries(files) == rest + [EntryOf(last)];
      assert CertEntries(files)[k] == EntryOf(last);
    }
  }

  /// `ListCerts`: `listing` is the directory read, `None` when `certs/` is
  /// missing or unreadable.  The answer is always an array, empty in those
  /// cases.
  method ListCerts(listing: Option<seq<FileInfo>>) returns (certs: seq<CertEntry>)
    ensures listing.None? ==> certs == []
    ensures listing.Some? ==> certs == CertEntries(listing.value)
  {
    certs := [];
    if listing.None? {
      return;
    }
    var files := listing.value;
    var i := 0;
    while i < |files|
      invariant 0 <= i <= |files|
      invariant certs == CertEntries(files[..i])
    {
      assert files[..i + 1][..i] == files[..i];
      if EndsWith(files[i].name, ".zip") {
        certs := certs + [EntryOf(files[i])];
      }
      i := i + 1;
    }
    assert files[..|files|] == files;
  }

  /// A certificate issued for a domain with no '/' carries the download link
  /// of its zip's name.
  lemma IssuedDownloadUrl(domain: string, wildcard: bool, run: seq<string> -> Option<string>)
    requires '/' !in domain
    requires ApplyCertificate(domain, wildcard, true, run, true).success
    ensures var o := ApplyCertificate(domain, wildcard, true, run, true);
      DownloadUrl(o.success, o.certPath) == DownloadPrefix + domain + ".zip"
  {
    ZipBase(domain);
  }

  /// The zip's name is one `DownloadCert` serves when it has no "..", and
  /// `ListCerts` lists it once the directory holds it.
  lemma ZipIsServedAndListed(domain: string, files: seq<FileInfo>, j: nat)
    requires !Contains(domain + ".zip", "..")
    requires j < |files| && files[j].name == domain + ".zip"
    ensures DownloadCert(domain + ".zip", {ZipPath(domain)}) == Attachment(ZipPath(domain), domain + ".zip")
    ensures exists k :: 0 <= k < |CertEntries(files)| && CertEntries(files)[k].filename == domain + ".zip"
  {
    assert "certs/" + (domain + ".zip") == ZipPath(domain);
    assert EndsWith(domain + ".zip", ".zip");
    CertEntriesComplete(files, domain + ".zip");
  }
}
