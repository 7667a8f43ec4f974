/// `Server/handler/account.go`: the in-memory account list with its upsert
/// (`AddAccount`) and removal (`DeleteAccount`), each followed by saving the
/// list, and the credential check (`TestAccount`).
module AccountHandler {
  import opened Text
  import opened HandlerCommon

  /// The position of the first account with the id.
  function IndexOf(accounts: seq<Account>, id: string): (r: Option<nat>)
    ensures r.None? <==> forall i :: 0 <= i < |accounts| ==> accounts[i].id != id
    ensures r.Some? ==> FirstWithId(accounts, id, r.value)
  {
    if accounts == [] then None
    else if accounts[0].id == id then Some(0)
    else
      match IndexOf(accounts[1..], id)
      case None => None
      case Some(k) =>
        assert FirstWithId(accounts, id, k + 1) by {
          forall j | 0 <= j < k + 1 ensures accounts[j].id != id {
            if j > 0 {
              assert accounts[j] == accounts[1..][j - 1];
            }
          }
        }
        Some(k + 1)
  }

  /// Only one position holds the first account with an id.
  lemma FirstWithIdUnique(accounts: seq<Account>, id: string, i: int, j: int)
    requires FirstWithId(accounts, id, i) && FirstWithId(accounts, id, j)
    ensures i == j
  {
  }

  /// The account every batch handler resolves is the one at `IndexOf`.
  lemma IndexOfAgreesWithFind(accounts: seq<Account>, id: string)
    ensures IndexOf(accounts, id).None? <==> FindAccount(accounts, id).None?
    ensures IndexOf(accounts, id).Some? ==> FindAccount(accounts, id) == Some(accounts[IndexOf(accounts, id).value])
  {
    if IndexOf(accounts, id).Some? {
      var i := IndexOf(accounts, id).value;
      var found := FindAccount(accounts, id);
      assert found.Some?;
      var j :| FirstWithId(accounts, id, j) && accounts[j] == found.value;
      FirstWithIdUnique(accounts, id, i, j);
    }
  }

  /// The list after `AddAccount`, with the account answered: an account with
  /// an id replaces the first one with that id (none: `None`, nothing
  /// changes); one without gets `freshId` and is appended.
  function Upsert(accounts: seq<Account>, acc: Account, freshId: string): (r: Option<(seq<Account>, Account)>)
    ensures r.None? <==> acc.id != "" && IndexOf(accounts, acc.id).None?
    ensures r.Some? && acc.id != "" ==>
      var i := IndexOf(accounts, acc.id).value;
      r.value.1 == acc && |r.value.0| == |accounts| && r.value.0[i] == acc
      && forall j :: 0 <= j < |accounts| && j != i ==> r.value.0[j] == accounts[j]
    ensures acc.id == "" ==> r.Some? && r.value.1 == acc.(id := freshId) && r.value.0 == accounts + [r.value.1]
  {
    if acc.id != "" then
      match IndexOf(accounts, acc.id)
      case None => None
      case Some(i) => Some((accounts[i := acc], acc))
    else
      var stored := acc.(id := freshId);
      Some((accounts + [stored], stored))
  }

  /// The list after `DeleteAccount`: the first account with the id removed
  /// (none: `None`, nothing changes).
  function Remove(accounts: seq<Account>, id: string): (r: Option<seq<Account>>)
    ensures r.None? <==> IndexOf(accounts, id).None?
    ensures r.Some? ==> var i := IndexOf(accounts, id).value;
      r.value == accounts[..i] + accounts[i + 1..] && |r.value| == |accounts| - 1
  {
    match IndexOf(accounts, id)
    case None => None
    case Some(i) => Some(accounts[..i] + accounts[i + 1..])
  }

  /// A new account can be looked up under the id it was given, provided the
  /// id was not in use.
  lemma NewAccountIsFound(accounts: seq<Account>, acc: Account, freshId: string)
    requires acc.id == ""
    requires forall i :: 0 <= i < |accounts| ==> accounts[i].id != freshId
    ensures var r := Upsert(accounts, acc, freshId).value;
      FindAccount(r.0, freshId) == Some(acc.(id := freshId))
  {
    var r := Upsert(accounts, acc, freshId).value;
    assert r.0[|accounts|] == acc.(id := freshId);
    assert IndexOf(r.0, freshId) == Some(|accounts|) by {
      assert forall j :: 0 <= j < |accounts| ==> r.0[j] == accounts[j];
      assert FirstWithId(r.0, freshId, |accounts|);
    }
    IndexOfAgreesWithFind(r.0, freshId);
  }

  /// Removing an account drops exactly one occurrence of it.
  lemma RemoveDropsOne(accounts: seq<Account>, id: string)
    requires Remove(accounts, id).Some?
    ensures multiset(Remove(accounts, id).value) + multiset{accounts[IndexOf(accounts, id).value]}
         == multiset(accounts)
  {
    SpliceDropsOne(accounts, IndexOf(accounts, id).value);
  }

  lemma SpliceDropsOne<T>(s: seq<T>, i: nat)
    requires i < |s|
    ensures multiset(s[..i] + s[i + 1..]) + multiset{s[i]} == multiset(s)
  {
    var before, after := s[..i], s[i + 1..];
    assert s == before + [s[i]] + after;
    assert multiset(s) == multiset(before) + multiset{s[i]} + multiset(after);
  }

  /// What `AddAccount` and `DeleteAccount` answer.
  datatype StoreResponse = UnknownAccount | SaveFailed(error: string) | Stored(account: Account) | Deleted

  /// The account list held by the server, and the copy last written to
  /// `accounts.json`.
  class AccountStore {
    var accounts: seq<Account>
    var persisted: seq<Account>

    constructor(loaded: seq<Account>)
      ensures accounts == loaded && persisted == loaded
    {
      accounts := loaded;
      persisted := loaded;
    }

    /// `SaveAccounts`: `saveError` is the write's error, if any.
    method Save(saveError: Option<string>) returns (ok: bool)
      modifies this
      ensures ok <==> saveError.None?
      ensures accounts == old(accounts)
      ensures persisted == if ok then accounts else old(persisted)
    {
      if saveError.None? {
        persisted := accounts;
        return true;
      }
      return false;
    }

    /// `AddAccount`.  The list is changed before saving and stays changed
    /// when the save fails.
    method AddAccount(acc: Account, freshId: string, saveError: Option<string>) returns (response: StoreResponse)
      modifies this
      ensures Upsert(old(accounts), acc, freshId).None? ==>
        response == UnknownAccount && accounts == old(accounts) && persisted == old(persisted)
      ensures Upsert(old(accounts), acc, freshId).Some? ==>
        accounts == Upsert(old(accounts), acc, freshId).value.0
        && (saveError.None? ==> response == Stored(Upsert(old(accounts), acc, freshId).value.1) && persisted == accounts)
        && (saveError.Some? ==> response == SaveFailed(saveError.value) && persisted == old(persisted))
    {
      var stored := acc;
      if acc.id != "" {
        var i := 0;
        while i < |accounts| && accounts[i].id != acc.id
          invariant 0 <= i <= |accounts|
          invariant forall j :: 0 <= j < i ==> accounts[j].id != acc.id
        {
          i := i + 1;
        }
        if i == |accounts| {
          return UnknownAccount;
        }
        FirstWithIdUnique(accounts, acc.id, i, IndexOf(accounts, acc.id).value);
        accounts := accounts[i := acc];
      } else {
        stored := acc.(id := freshId);
        accounts := accounts + [stored];
      }
      var ok := Save(saveError);
      if !ok {
        return SaveFailed(saveError.value);
      }
      response := Stored(stored);
    }

    /// `DeleteAccount`.  As with adding, a failed save does not restore the
    /// account.
    method DeleteAccount(id: string, saveError: Option<string>) returns (response: StoreResponse)
      modifies this
      ensures Remove(old(accounts), id).None? ==>
        response == UnknownAccount && accounts == old(accounts) && persisted == old(persisted)
      ensures Remove(old(accounts), id).Some? ==>
        accounts == Remove(old(accounts), id).value
        && (saveError.None? ==> response == Deleted && persisted == accounts)
        && (saveError.Some? ==> response == SaveFailed(saveError.value) && persisted == old(persisted))
    {
      var i := 0;
      while i < |accounts|
        invariant 0 <= i <= |accounts|
        invariant accounts == old(accounts)
        invariant forall j :: 0 <= j < i ==> accounts[j].id != id
      {
        if accounts[i].id == id {
          FirstWithIdUnique(accounts, id, i, IndexOf(accounts, id).value);
          accounts := accounts[..i] + accounts[i + 1..];
          var ok := Save(saveError);
          if !ok {
            return SaveFailed(saveError.value);
          }
          return Deleted;
        }
        i := i + 1;
      }
      return UnknownAccount;
    }
  }

  /// What `TestAccount` answers, always with HTTP 200.
  datatype TestResult = TestResult(success: bool, message: Option<string>)

  /// A Cloudflare answer: status code and raw body.
  datatype ProbeReply = ProbeReply(status: int, body: string)

  /// `TestAccount`: probe `GET /zones?per_page=1` with the credentials
  /// (`None` is a request that never got an answer).
  function TestAccount(reply: Option<ProbeReply>): (r: TestResult)
    ensures r.success <==> reply.Some? && reply.value.status == 200
    ensures r.success <==> r.message.None?
    ensures reply.None? ==> r.message == Some("无法连接到 Cloudflare API")
    ensures reply.Some? && !r.success ==>
      r.message == Some("校验失败 (HTTP " + IntToString(reply.value.status) + "): " + reply.value.body)
  {
    match reply
    case None => TestResult(false, Some("无法连接到 Cloudflare API"))
    case Some(rep) =>
      if rep.status == 200 then TestResult(true, None)
      else TestResult(false, Some("校验失败 (HTTP " + IntToString(rep.status) + "): " + rep.body))
  }
}
