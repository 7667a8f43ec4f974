/// `Frontend/src/modules/accounts.js`: the account list view.  Its static
/// state (current page, page size, search text, status filter, the set of
/// selected ids and the map of test results) is the class `AccountsModule`;
/// the list it renders is computed by the pure functions below from that
/// state and the account list fetched from the server.
module AccountsView {
  import opened Text
  import opened Seqs
  import opened HandlerCommon

  /// `pageSize`: a number of rows per page, or `'all'`.
  datatype PageSize = Rows(n: nat) | AllRows

  /// The page-size select offers 25, 50, 100 and `'all'`; a number is
  /// never zero.
  predicate ValidSize(size: PageSize) {
    size.Rows? ==> size.n > 0
  }

  // ---------------------------------------------------------------------
  // Filtering

  /// The search test: the lower-cased name or e-mail contains the
  /// lower-cased query.
  predicate MatchesSearch(acc: Account, query: string) {
    Contains(Lower(acc.name), Lower(query)) || Contains(Lower(acc.email), Lower(query))
  }

  /// The status test: `'valid'` keeps a recorded `true`, any other filter
  /// value a recorded `false`; an id never tested has no status and is
  /// kept by neither.
  predicate MatchesStatus(acc: Account, filter: string, statuses: map<string, bool>) {
    acc.id in statuses && statuses[acc.id] == (filter == "valid")
  }

  function SearchTest(query: string): Account -> bool {
    acc => MatchesSearch(acc, query)
  }

  function StatusTest(filter: string, statuses: map<string, bool>): Account -> bool {
    acc => MatchesStatus(acc, filter, statuses)
  }

  /// Whether an account survives both filters: an empty query and the
  /// filter `'all'` switch their test off.
  predicate Shown(acc: Account, query: string, filter: string, statuses: map<string, bool>) {
    (query == "" || MatchesSearch(acc, query)) && (filter == "all" || MatchesStatus(acc, filter, statuses))
  }

  /// The two filter passes of `renderContent` and `getFilteredAccounts`.
  function Filtered(all: seq<Account>, query: string, filter: string, statuses: map<string, bool>)
    : (r: seq<Account>)
    ensures |r| <= |all|
    ensures forall i :: 0 <= i < |r| ==> Shown(r[i], query, filter, statuses)
    ensures filter != "all" ==> forall i :: 0 <= i < |r| ==> r[i].id in statuses
  {
    var searched := if query != "" then Filter(all, SearchTest(query)) else all;
    var r := if filter != "all" then Filter(searched, StatusTest(filter, statuses)) else searched;
    forall i | 0 <= i < |r| ensures Shown(r[i], query, filter, statuses) {
      if filter != "all" {
        FilterMembership(searched, StatusTest(filter, statuses), r[i]);
      }
    }
    r
  }

  /// An account is listed exactly when it is in the list and passes both
  /// filters; with no query and the filter `'all'` the whole list is kept.
  lemma FilteredMembership(all: seq<Account>, query: string, filter: string, statuses: map<string, bool>,
                           acc: Account)
    ensures acc in Filtered(all, query, filter, statuses) <==> acc in all && Shown(acc, query, filter, statuses)
    ensures query == "" && filter == "all" ==> Filtered(all, query, filter, statuses) == all
  {
    var searched := if query != "" then Filter(all, SearchTest(query)) else all;
    if query != "" {
      FilterMembership(all, SearchTest(query), acc);
    }
    if filter != "all" {
      FilterMembership(searched, StatusTest(filter, statuses), acc);
    }
  }

  /// Filtering keeps the relative order: the filtered concatenation is the
  /// concatenation of the filtered parts.
  lemma FilteredAppend(a: seq<Account>, b: seq<Account>, query: string, filter: string,
                       statuses: map<string, bool>)
    ensures Filtered(a + b, query, filter, statuses)
         == Filtered(a, query, filter, statuses) + Filtered(b, query, filter, statuses)
  {
    if query != "" {
      FilterAppend(a, b, SearchTest(query));
    }
    var sa := if query != "" then Filter(a, SearchTest(query)) else a;
    var sb := if query != "" then Filter(b, SearchTest(query)) else b;
    if filter != "all" {
      FilterAppend(sa, sb, StatusTest(filter, statuses));
    }
  }

  /// The badge a row shows for an id's recorded status.
  datatype Badge = ValidBadge | InvalidBadge | UntestedBadge

  function StatusBadge(statuses: map<string, bool>, id: string): (r: Badge)
    ensures r == ValidBadge <==> id in statuses && statuses[id]
    ensures r == InvalidBadge <==> id in statuses && !statuses[id]
    ensures r == UntestedBadge <==> id !in statuses
  {
    if id in statuses then (if statuses[id] then ValidBadge else InvalidBadge) else UntestedBadge
  }

  /// A row's badge agrees with the status filter: the `'valid'` filter keeps
  /// exactly the rows with the valid badge, `'invalid'` those with the
  /// invalid badge.
  lemma BadgeMatchesFilter(acc: Account, statuses: map<string, bool>)
    ensures MatchesStatus(acc, "valid", statuses) <==> StatusBadge(statuses, acc.id) == ValidBadge
    ensures MatchesStatus(acc, "invalid", statuses) <==> StatusBadge(statuses, acc.id) == InvalidBadge
  {
  }

  // ---------------------------------------------------------------------
  // Paging

  /// `Math.ceil(n / s)` for a count `n` and a positive page size `s`.
  function CeilDiv(n: nat, s: nat): (r: nat)
    requires s > 0
    ensures n <= r * s
    ensures r > 0 ==> (r - 1) * s < n
    decreases n
  {
    if n == 0 then 0
    else if n <= s then 1
    else
      var k := CeilDiv(n - s, s);
      assert (k + 1) * s == k * s + s;
      k + 1
  }

  /// `totalPages`: one page when every row is shown.
  function TotalPages(count: nat, size: PageSize): nat
    requires ValidSize(size)
  {
    if size.AllRows? then 1 else CeilDiv(count, size.n)
  }

  /// A page `p` is within `1 .. ceil(n / s)` exactly when its first row
  /// exists.
  lemma PageWithinTotal(count: nat, s: nat, p: int)
    requires s > 0 && p >= 1
    ensures p <= CeilDiv(count, s) <==> (p - 1) * s < count
  {
    var r := CeilDiv(count, s);
    if p <= r {
      assert (p - 1) * s <= (r - 1) * s by {
        MultiplyMonotone(p - 1, r - 1, s);
      }
    } else {
      assert r * s <= (p - 1) * s by {
        MultiplyMonotone(r, p - 1, s);
      }
    }
  }

  lemma MultiplyMonotone(a: int, b: int, s: nat)
    requires a <= b
    ensures a * s <= b * s
  {
  }

  /// The rows of page `page`: `filtered.slice(start, start + s)` with
  /// `start = (page - 1) * s`, or every row for `'all'`.  JavaScript's
  /// `slice` clamps both ends to the length.
  function Visible(filtered: seq<Account>, page: int, size: PageSize): (r: seq<Account>)
    requires page >= 1 && ValidSize(size)
  {
    if size.AllRows? then filtered
    else
      var start := (page - 1) * size.n;
      var end := start + size.n;
      if start >= |filtered| then [] else filtered[start .. if end < |filtered| then end else |filtered|]
  }

  /// For a numeric size `s`, page `p` shows at most `s` rows, the `k`-th of
  /// them being row `(p - 1) * s + k` of the filtered list, and it is empty
  /// exactly when it lies past the last page.  With `'all'` there is one
  /// page holding everything.
  lemma VisibleSlice(filtered: seq<Account>, page: int, size: PageSize)
    requires page >= 1 && ValidSize(size)
    ensures size.AllRows? ==> Visible(filtered, page, size) == filtered && TotalPages(|filtered|, size) == 1
    ensures size.Rows? ==> |Visible(filtered, page, size)| <= size.n
    ensures size.Rows? ==> forall k :: 0 <= k < |Visible(filtered, page, size)| ==>
      (page - 1) * size.n + k < |filtered| && Visible(filtered, page, size)[k] == filtered[(page - 1) * size.n + k]
    ensures size.Rows? ==> (Visible(filtered, page, size) != [] <==> page <= TotalPages(|filtered|, size))
  {
    if size.Rows? {
      PageWithinTotal(|filtered|, size.n, page);
    }
  }

  /// Every filtered row appears on exactly one reachable page: row `k`
  /// is row `k % s` of page `k / s + 1`.
  lemma RowOnItsPage(filtered: seq<Account>, s: nat, k: nat)
    requires s > 0 && k < |filtered|
    ensures k / s + 1 <= TotalPages(|filtered|, Rows(s))
    ensures k % s < |Visible(filtered, k / s + 1, Rows(s))|
    ensures Visible(filtered, k / s + 1, Rows(s))[k % s] == filtered[k]
  {
    var p := k / s + 1;
    assert (p - 1) * s + k % s == k;
    PageWithinTotal(|filtered|, s, p);
    VisibleSlice(filtered, p, Rows(s));
  }

  // ---------------------------------------------------------------------
  // The page list

  /// One entry of the page list: a numbered link or an ellipsis.
  datatype PageLink = Number(n: int) | Gap

  /// `generatePagination`: every page when there are at most 7, otherwise
  /// 7 entries around the current page with ellipses for skipped runs.
  function PageList(total: nat, current: int): (r: seq<PageLink>)
    ensures total <= 7 ==> |r| == total && forall i :: 0 <= i < |r| ==> r[i] == Number(i + 1)
    ensures total > 7 ==> |r| == 7 && r[0] == Number(1) && r[6] == Number(total)
  {
    if total <= 7 then seq(total, i requires 0 <= i < total => Number(i + 1))
    else if current <= 4 then [Number(1), Number(2), Number(3), Number(4), Number(5), Gap, Number(total)]
    else if current >= total - 3 then
      [Number(1), Gap, Number(total - 4), Number(total - 3), Number(total - 2), Number(total - 1), Number(total)]
    else [Number(1), Gap, Number(current - 1), Number(current), Number(current + 1), Gap, Number(total)]
  }

  /// The numbered entries lie in `1 .. total`; neighbouring numbers are
  /// consecutive pages, and an ellipsis always sits between two numbers
  /// and stands for at least one skipped page.
  lemma PageListSteps(total: nat, current: int)
    ensures var r := PageList(total, current);
      forall i :: 0 <= i < |r| && r[i].Number? ==> 1 <= r[i].n <= total
    ensures var r := PageList(total, current);
      forall i :: 0 <= i < |r| - 1 && r[i].Number? && r[i + 1].Number? ==> r[i + 1].n == r[i].n + 1
    ensures var r := PageList(total, current);
      forall i :: 0 <= i < |r| && r[i].Gap? ==>
        (0 < i < |r| - 1 && r[i - 1].Number? && r[i + 1].Number? && r[i - 1].n + 1 < r[i + 1].n)
  {
  }

  /// The numbered entries strictly increase, and the current page is among
  /// them whenever it is a real page.
  lemma PageListOrdered(total: nat, current: int)
    ensures var r := PageList(total, current);
      forall i, j :: 0 <= i < j < |r| && r[i].Number? && r[j].Number? ==> r[i].n < r[j].n
    ensures 1 <= current <= total ==> Number(current) in PageList(total, current)
  {
    var r := PageList(total, current);
    if total <= 7 {
      if 1 <= current <= total {
        assert r[current - 1] == Number(current);
      }
    } else {
      assert 1 <= current <= total ==> Number(current) in r;
    }
  }

  /// The three shapes for ten pages.
  lemma PageListForTenPages()
    ensures PageList(10, 1) == [Number(1), Number(2), Number(3), Number(4), Number(5), Gap, Number(10)]
    ensures PageList(10, 10) == [Number(1), Gap, Number(6), Number(7), Number(8), Number(9), Number(10)]
    ensures PageList(10, 5) == [Number(1), Gap, Number(4), Number(5), Number(6), Gap, Number(10)]
  {
  }

  // ---------------------------------------------------------------------
  // Page clicks

  /// The `data-page` of a clicked pagination link.
  datatype PageTarget = Prev | Next | PageNumber(n: int)

  /// `next`: `Math.ceil(count / pageSize)` is `NaN` for `'all'`, and
  /// `currentPage < NaN` is false, so the page stays.
  function NextPage(current: int, size: PageSize, count: nat): int
    requires ValidSize(size)
  {
    if size.Rows? && current < CeilDiv(count, size.n) then current + 1 else current
  }

  /// The click handler as written: `'prev'` on page 1 fails the first test
  /// and falls through to `parseInt('prev')`, which is `NaN` (`None` here).
  function ClickAsWritten(current: int, target: PageTarget, size: PageSize, count: nat): (r: Option<int>)
    requires ValidSize(size)
  {
    match target
    case Prev => if current > 1 then Some(current - 1) else None
    case Next => Some(NextPage(current, size, count))
    case PageNumber(n) => Some(n)
  }

  /// The click handler with `'prev'` on the first page doing nothing.
  function Click(current: int, target: PageTarget, size: PageSize, count: nat): (r: int)
    requires ValidSize(size)
    ensures target.Prev? ==> r <= current && (current > 1 ==> r == current - 1)
    ensures target.Prev? && current >= 1 ==> r >= 1
    ensures target.Next? ==> r >= current
    ensures target.Next? && size.Rows? && current <= TotalPages(count, size) ==> r <= TotalPages(count, size)
    ensures target.Next? && size.Rows? && current < TotalPages(count, size) ==> r == current + 1
    ensures target.Next? && size.AllRows? ==> r == current
    ensures target.PageNumber? ==> r == target.n
  {
    match target
    case Prev => if current > 1 then current - 1 else current
    case Next => NextPage(current, size, count)
    case PageNumber(n) => n
  }

  /// On the first page, `'prev'` as written leaves the page number `NaN`,
  /// and the rows shown are then `slice(NaN, NaN)`, none at all.
  lemma PrevOnFirstPageIsNaN(size: PageSize, count: nat)
    requires ValidSize(size)
    ensures ClickAsWritten(1, Prev, size, count).None?
    ensures Click(1, Prev, size, count) == 1
  {
  }

  /// That is the only click where the two handlers differ.
  lemma ClickAgreesElsewhere(current: int, target: PageTarget, size: PageSize, count: nat)
    requires ValidSize(size)
    requires !(target.Prev? && current <= 1)
    ensures ClickAsWritten(current, target, size, count) == Some(Click(current, target, size, count))
  {
  }

  /// Every numbered link of the page list leads to a page that shows rows.
  lemma NumberedLinksReachRows(filtered: seq<Account>, s: nat, current: int, i: nat)
    requires s > 0
    requires i < |PageList(CeilDiv(|filtered|, s), current)|
    requires PageList(CeilDiv(|filtered|, s), current)[i].Number?
    ensures Visible(filtered, PageList(CeilDiv(|filtered|, s), current)[i].n, Rows(s)) != []
  {
    VisibleSlice(filtered, PageList(CeilDiv(|filtered|, s), current)[i].n, Rows(s));
  }


  // ---------------------------------------------------------------------
  // Selection and test results

  /// The ids of a list of accounts.
  function IdsOf(accounts: seq<Account>): set<string> {
    set i | 0 <= i < |accounts| :: accounts[i].id
  }

  /// `allAccounts.find(a => a.id === id)` succeeds exactly for the ids in
  /// the list.
  lemma FindKnown(all: seq<Account>, id: string)
    ensures FindAccount(all, id).Some? <==> id in IdsOf(all)
  {
    if FindAccount(all, id).Some? {
      var i :| FirstWithId(all, id, i);
      assert all[i].id in IdsOf(all);
    }
  }

  /// The members of a JavaScript `Set`, held as its entries in insertion
  /// order.
  function Members(s: seq<string>): set<string> {
    set x | x in s
  }

  lemma MembersOf(s: seq<string>)
    ensures forall id :: id in s <==> id in Members(s)
  {
  }

  /// The ids of a prefix grow by one id per row.
  lemma IdsOfSnoc(rows: seq<Account>, i: int)
    requires 0 <= i < |rows|
    ensures IdsOf(rows[..i + 1]) == IdsOf(rows[..i]) + {rows[i].id}
  {
    assert forall k :: 0 <= k < i ==> rows[..i + 1][k] == rows[..i][k];
    assert rows[..i + 1][i] == rows[i];
  }

  lemma IdsOfContains(rows: seq<Account>)
    ensures forall i :: 0 <= i < |rows| ==> rows[i].id in IdsOf(rows)
  {
  }

  /// `set.add(id)`: a new id goes to the end, a present one stays put.
  function With(s: seq<string>, id: string): (r: seq<string>)
    ensures Members(r) == Members(s) + {id}
    ensures NoDuplicates(s) ==> NoDuplicates(r)
    ensures id in s ==> r == s
  {
    if id in s then s else s + [id]
  }

  function Differs(id: string): string -> bool {
    x => x != id
  }

  /// `set.delete(id)`: the id is gone and the others keep their order.
  function Without(s: seq<string>, id: string): (r: seq<string>)
    ensures Members(r) == Members(s) - {id}
    ensures NoDuplicates(s) ==> NoDuplicates(r)
  {
    var r := Filter(s, Differs(id));
    forall x ensures x in r <==> x in s && x != id {
      FilterMembership(s, Differs(id), x);
    }
    assert NoDuplicates(s) ==> NoDuplicates(r) by {
      if NoDuplicates(s) {
        FilterNoDuplicates(s, Differs(id));
      }
    }
    r
  }

  /// The answer to testing one account: the request threw, the server
  /// answered with `TestAccount`'s result (`data.success`), or it answered
  /// a body without `success` (the middleware's 401 `{"error": ...}` or the
  /// handler's 400 "Invalid data"), where `data.success` is `undefined`.
  datatype Probe = Threw | Replied(success: bool) | NoVerdict

  predicate Passed(p: Probe) {
    p.Replied? && p.success
  }

  /// The status map after testing `ids`: each gets `true` when its test
  /// passed and `false` otherwise; every other entry is kept.
  function Recorded(statuses: map<string, bool>, ids: set<string>, probe: string -> Probe)
    : (r: map<string, bool>)
    ensures r.Keys == statuses.Keys + ids
    ensures forall id :: id in ids ==> r[id] == Passed(probe(id))
    ensures forall id :: id in statuses && id !in ids ==> r[id] == statuses[id]
  {
    map id | id in statuses.Keys + ids :: if id in ids then Passed(probe(id)) else statuses[id]
  }

  /// The tested ids whose test passed.
  function Passing(ids: set<string>, probe: string -> Probe): (r: set<string>)
    ensures r <= ids
    ensures forall id :: id in r <==> id in ids && Passed(probe(id))
  {
    set id | id in ids && Passed(probe(id))
  }

  /// The status map after deleting `ids`: the entry of every id whose
  /// delete did not throw is gone; every other entry is kept.
  function Forgotten(statuses: map<string, bool>, ids: set<string>, threw: string -> bool)
    : (r: map<string, bool>)
    ensures r.Keys <= statuses.Keys
    ensures forall id :: id in ids && !threw(id) ==> id !in r
    ensures forall id :: id in statuses && (id !in ids || threw(id)) ==> id in r && r[id] == statuses[id]
  {
    map id | id in statuses.Keys && (id !in ids || threw(id)) :: statuses[id]
  }

  /// After a batch test, the `'valid'` filter keeps exactly the tested
  /// accounts whose test passed and `'invalid'` exactly the others.
  lemma TestedAccountsFilter(acc: Account, statuses: map<string, bool>, ids: set<string>,
                             probe: string -> Probe)
    requires acc.id in ids
    ensures MatchesStatus(acc, "valid", Recorded(statuses, ids, probe)) <==> Passed(probe(acc.id))
    ensures MatchesStatus(acc, "invalid", Recorded(statuses, ids, probe)) <==> !Passed(probe(acc.id))
  {
  }

  /// The loop of `batchTest` over the ids in iteration order: each id in
  /// the list gets its outcome written, in turn.
  function TestRun(statuses: map<string, bool>, ids: seq<string>, known: set<string>, probe: string -> Probe)
    : map<string, bool>
  {
    if ids == [] then statuses
    else
      var before := TestRun(statuses, ids[..|ids| - 1], known, probe);
      var id := ids[|ids| - 1];
      if id in known then before[id := Passed(probe(id))] else before
  }

  /// How many of the ids in the list passed, and how many were tested.
  function PassCount(ids: seq<string>, known: set<string>, probe: string -> Probe): nat {
    if ids == [] then 0
    else PassCount(ids[..|ids| - 1], known, probe)
         + (if ids[|ids| - 1] in known && Passed(probe(ids[|ids| - 1])) then 1 else 0)
  }

  function TestCount(ids: seq<string>, known: set<string>): nat {
    if ids == [] then 0
    else TestCount(ids[..|ids| - 1], known) + (if ids[|ids| - 1] in known then 1 else 0)
  }

  /// Testing one more id writes its outcome over the results so far.
  lemma RecordOne(statuses: map<string, bool>, ids: set<string>, id: string, probe: string -> Probe)
    ensures Recorded(statuses, ids + {id}, probe) == Recorded(statuses, ids, probe)[id := Passed(probe(id))]
  {
    var a := Recorded(statuses, ids + {id}, probe);
    var b := Recorded(statuses, ids, probe)[id := Passed(probe(id))];
    assert a.Keys == b.Keys;
    forall k | k in a ensures a[k] == b[k] {
      if k != id {
        assert k in ids <==> k in ids + {id};
      }
    }
  }

  lemma MembersSnoc(ids: seq<string>)
    requires ids != []
    ensures Members(ids) == Members(ids[..|ids| - 1]) + {ids[|ids| - 1]}
  {
    assert ids == ids[..|ids| - 1] + [ids[|ids| - 1]];
  }

  /// Whatever the order, the loop leaves each tested id with its own
  /// outcome and every other entry as it was.
  lemma {:induction false} TestRunRecords(statuses: map<string, bool>, ids: seq<string>, known: set<string>,
                                          probe: string -> Probe)
    ensures TestRun(statuses, ids, known, probe) == Recorded(statuses, Members(ids) * known, probe)
    decreases |ids|
  {
    if ids == [] {
      assert Members(ids) * known == {};
      assert Recorded(statuses, {}, probe) == statuses;
    } else {
      var init := ids[..|ids| - 1];
      var id := ids[|ids| - 1];
      TestRunRecords(statuses, init, known, probe);
      MembersSnoc(ids);
      if id in known {
        assert Members(ids) * known == Members(init) * known + {id};
        RecordOne(statuses, Members(init) * known, id, probe);
      } else {
        assert Members(ids) * known == Members(init) * known;
      }
    }
  }

  /// Adding an untested id adds one test, and one pass when it passed.
  lemma PassingOne(ids: set<string>, id: string, probe: string -> Probe)
    requires id !in ids
    ensures |ids + {id}| == |ids| + 1
    ensures |Passing(ids + {id}, probe)| == |Passing(ids, probe)| + (if Passed(probe(id)) then 1 else 0)
  {
    if Passed(probe(id)) {
      assert Passing(ids + {id}, probe) == Passing(ids, probe) + {id};
    } else {
      assert Passing(ids + {id}, probe) == Passing(ids, probe);
    }
  }

  /// The ids visited before the last one, and whether the last one is new
  /// to them.
  lemma VisitLast(ids: seq<string>, known: set<string>)
    requires ids != [] && NoDuplicates(ids)
    ensures NoDuplicates(ids[..|ids| - 1])
    ensures ids[|ids| - 1] !in Members(ids[..|ids| - 1]) * known
    ensures ids[|ids| - 1] in known ==>
      Members(ids) * known == Members(ids[..|ids| - 1]) * known + {ids[|ids| - 1]}
    ensures ids[|ids| - 1] !in known ==> Members(ids) * known == Members(ids[..|ids| - 1]) * known
  {
    MembersSnoc(ids);
    assert ids[|ids| - 1] !in ids[..|ids| - 1];
  }

  /// With no id repeated, the loop counts each tested id once: the passes
  /// are the passing ids and the tests the ids in the list.
  lemma {:induction false} CountsMatch(ids: seq<string>, known: set<string>, probe: string -> Probe)
    requires NoDuplicates(ids)
    ensures PassCount(ids, known, probe) == |Passing(Members(ids) * known, probe)|
    ensures TestCount(ids, known) == |Members(ids) * known|
    decreases |ids|
  {
    if ids == [] {
      assert Members(ids) * known == {};
      assert Passing({}, probe) == {};
    } else {
      var init := ids[..|ids| - 1];
      var id := ids[|ids| - 1];
      VisitLast(ids, known);
      CountsMatch(init, known, probe);
      if id in known {
        PassingOne(Members(init) * known, id, probe);
      }
    }
  }

  /// The loop of `batchTest`: each selected id found in the list is tested
  /// and its outcome written into the status map, and the passes and
  /// failures are counted; ids not in the list are skipped.  `probe(id)` is
  /// the answer for `id`.
  method TestSelected(selected: seq<string>, statuses: map<string, bool>, all: seq<Account>,
                      probe: string -> Probe)
    returns (updated: map<string, bool>, successCount: nat, failCount: nat)
    requires NoDuplicates(selected)
    ensures updated == Recorded(statuses, Members(selected) * IdsOf(all), probe)
    ensures successCount == |Passing(Members(selected) * IdsOf(all), probe)|
    ensures successCount + failCount == |Members(selected) * IdsOf(all)|
  {
    updated, successCount, failCount := statuses, 0, 0;
    for i := 0 to |selected|
      invariant updated == TestRun(statuses, selected[..i], IdsOf(all), probe)
      invariant successCount == PassCount(selected[..i], IdsOf(all), probe)
      invariant successCount + failCount == TestCount(selected[..i], IdsOf(all))
    {
      var id := selected[i];
      assert selected[..i + 1][..i] == selected[..i];
      var acc := FindAccount(all, id);
      FindKnown(all, id);
      if acc.Some? {
        var outcome := probe(id);
        if Passed(outcome) {
          successCount := successCount + 1;
          updated := updated[id := true];
        } else {
          failCount := failCount + 1;
          updated := updated[id := false];
        }
      }
    }
    assert selected[..|selected|] == selected;
    TestRunRecords(statuses, selected, IdsOf(all), probe);
    CountsMatch(selected, IdsOf(all), probe);
  }

  /// The loop of `batchDelete`: the status of each id whose delete did not
  /// throw is dropped.
  method DeleteSelected(selected: seq<string>, statuses: map<string, bool>, threw: string -> bool)
    returns (updated: map<string, bool>)
    ensures updated == Forgotten(statuses, Members(selected), threw)
  {
    updated := statuses;
    for i := 0 to |selected|
      invariant updated == Forgotten(statuses, Members(selected[..i]), threw)
    {
      var id := selected[i];
      MembersSnoc(selected[..i + 1]);
      assert selected[..i + 1][..i] == selected[..i];
      if !threw(id) {
        updated := updated - {id};
      }
    }
    assert selected[..|selected|] == selected;
  }

  /// The view state of the account list.
  class AccountsModule {
    var currentPage: int
    var pageSize: PageSize
    var searchQuery: string
    var statusFilter: string
    var selected: seq<string>
    var statuses: map<string, bool>

    ghost predicate Valid()
      reads this
    {
      currentPage >= 1 && ValidSize(pageSize) && NoDuplicates(selected)
    }

    /// The initial static state.
    constructor()
      ensures Valid()
      ensures currentPage == 1 && pageSize == Rows(25) && searchQuery == "" && statusFilter == "all"
      ensures selected == [] && statuses == map[]
    {
      currentPage := 1;
      pageSize := Rows(25);
      searchQuery := "";
      statusFilter := "all";
      selected := [];
      statuses := map[];
    }

    /// `getFilteredAccounts`: the filtered list under the current state,
    /// the same list `renderContent` shows.
    function FilteredAccounts(all: seq<Account>): (r: seq<Account>)
      reads this
      ensures forall acc :: acc in r <==> acc in all && Shown(acc, searchQuery, statusFilter, statuses)
    {
      forall acc ensures acc in Filtered(all, searchQuery, statusFilter, statuses)
                         <==> acc in all && Shown(acc, searchQuery, statusFilter, statuses) {
        FilteredMembership(all, searchQuery, statusFilter, statuses, acc);
      }
      Filtered(all, searchQuery, statusFilter, statuses)
    }

    /// `paginatedAccounts`: the rows on the current page.
    function PageRows(all: seq<Account>): (r: seq<Account>)
      reads this
      requires Valid()
      ensures pageSize.Rows? ==> |r| <= pageSize.n
      ensures forall i :: 0 <= i < |r| ==> r[i] in all && Shown(r[i], searchQuery, statusFilter, statuses)
    {
      var filtered := FilteredAccounts(all);
      VisibleSlice(filtered, currentPage, pageSize);
      assert forall i :: 0 <= i < |Visible(filtered, currentPage, pageSize)| ==>
        Visible(filtered, currentPage, pageSize)[i] in filtered;
      Visible(filtered, currentPage, pageSize)
    }

    /// `allSelected`: the select-all box is ticked when the page has rows
    /// and all of them are selected.
    predicate AllSelected(all: seq<Account>)
      reads this
      requires Valid()
    {
      PageRows(all) != [] && forall i :: 0 <= i < |PageRows(all)| ==> PageRows(all)[i].id in selected
    }

    /// The batch buttons are disabled exactly when nothing is selected.
    function BatchDisabled(): (r: bool)
      reads this
      ensures r <==> Members(selected) == {}
    {
      assert selected != [] ==> selected[0] in Members(selected);
      |selected| == 0
    }

    /// Typing in the search box.
    method Search(query: string)
      modifies this
      ensures searchQuery == query && currentPage == 1
      ensures pageSize == old(pageSize) && statusFilter == old(statusFilter)
      ensures selected == old(selected) && statuses == old(statuses)
      ensures old(Valid()) ==> Valid()
    {
      searchQuery := query;
      currentPage := 1;
    }

    /// Choosing a status filter.
    method ChooseStatus(filter: string)
      modifies this
      ensures statusFilter == filter && currentPage == 1
      ensures pageSize == old(pageSize) && searchQuery == old(searchQuery)
      ensures selected == old(selected) && statuses == old(statuses)
      ensures old(Valid()) ==> Valid()
    {
      statusFilter := filter;
      currentPage := 1;
    }

    /// Choosing a page size.
    method ChoosePageSize(size: PageSize)
      requires ValidSize(size)
      modifies this
      ensures pageSize == size && currentPage == 1
      ensures searchQuery == old(searchQuery) && statusFilter == old(statusFilter)
      ensures selected == old(selected) && statuses == old(statuses)
      ensures old(Valid()) ==> Valid()
    {
      pageSize := size;
      currentPage := 1;
    }

    /// Clicking a pagination link, with `'prev'` on the first page doing
    /// nothing.
    method ClickPage(target: PageTarget, all: seq<Account>)
      requires Valid()
      modifies this
      ensures pageSize == old(pageSize) && searchQuery == old(searchQuery) && statusFilter == old(statusFilter)
      ensures selected == old(selected) && statuses == old(statuses)
      ensures currentPage == Click(old(currentPage), target, pageSize, |old(FilteredAccounts(all))|)
      ensures (target.PageNumber? ==> target.n >= 1) ==> Valid()
    {
      match target
      case Prev =>
        if currentPage > 1 {
          currentPage := currentPage - 1;
        }
      case Next =>
        if pageSize.Rows? {
          var total := CeilDiv(|FilteredAccounts(all)|, pageSize.n);
          if currentPage < total {
            currentPage := currentPage + 1;
          }
        }
      case PageNumber(n) =>
        currentPage := n;
    }

    /// The select-all box: every id on the current page is added or
    /// removed; selections on other pages stay.
    method SelectAll(checked: bool, all: seq<Account>)
      requires Valid()
      modifies this
      ensures currentPage == old(currentPage) && pageSize == old(pageSize)
      ensures searchQuery == old(searchQuery) && statusFilter == old(statusFilter) && statuses == old(statuses)
      ensures Valid()
      ensures checked ==> Members(selected) == Members(old(selected)) + IdsOf(old(PageRows(all)))
      ensures !checked ==> Members(selected) == Members(old(selected)) - IdsOf(old(PageRows(all)))
      ensures forall id :: id !in IdsOf(old(PageRows(all))) ==> (id in selected <==> id in old(selected))
      ensures checked && old(PageRows(all)) != [] ==> AllSelected(all)
    {
      var rows := PageRows(all);
      ghost var before := selected;
      for i := 0 to |rows|
        invariant NoDuplicates(selected)
        invariant checked ==> Members(selected) == Members(before) + IdsOf(rows[..i])
        invariant !checked ==> Members(selected) == Members(before) - IdsOf(rows[..i])
        invariant currentPage == old(currentPage) && pageSize == old(pageSize)
        invariant searchQuery == old(searchQuery) && statusFilter == old(statusFilter) && statuses == old(statuses)
      {
        IdsOfSnoc(rows, i);
        if checked {
          selected := With(selected, rows[i].id);
        } else {
          selected := Without(selected, rows[i].id);
        }
      }
      assert rows[..|rows|] == rows;
      MembersOf(selected);
      MembersOf(before);
      if checked && rows != [] {
        IdsOfContains(rows);
      }
    }

    /// One row's checkbox: exactly its id is added or removed.
    method ToggleOne(id: string, checked: bool)
      requires Valid()
      modifies this
      ensures currentPage == old(currentPage) && pageSize == old(pageSize)
      ensures searchQuery == old(searchQuery) && statusFilter == old(statusFilter) && statuses == old(statuses)
      ensures Valid()
      ensures Members(selected) == if checked then Members(old(selected)) + {id} else Members(old(selected)) - {id}
    {
      if checked {
        selected := With(selected, id);
      } else {
        selected := Without(selected, id);
      }
    }

    /// `batchTest`: test every selected id that is in the list, record the
    /// outcome, and answer how many passed and failed.  Nothing happens
    /// when nothing is selected.
    method BatchTest(all: seq<Account>, probe: string -> Probe) returns (successCount: nat, failCount: nat)
      requires Valid()
      modifies this
      ensures selected == old(selected) && currentPage == old(currentPage) && pageSize == old(pageSize)
      ensures searchQuery == old(searchQuery) && statusFilter == old(statusFilter)
      ensures statuses == Recorded(old(statuses), Members(old(selected)) * IdsOf(all), probe)
      ensures successCount == |Passing(Members(old(selected)) * IdsOf(all), probe)|
      ensures successCount + failCount == |Members(old(selected)) * IdsOf(all)|
    {
      if |selected| == 0 {
        assert Members(selected) * IdsOf(all) == {};
        assert statuses == Recorded(statuses, {}, probe);
        return 0, 0;
      }
      var updated;
      updated, successCount, failCount := TestSelected(selected, statuses, all, probe);
      statuses := updated;
    }

    /// `batchDelete`: unless nothing is selected or the confirmation is
    /// declined, delete every selected id, dropping the status of each one
    /// whose request did not throw, then clear the selection.
    method BatchDelete(confirmed: bool, threw: string -> bool)
      requires Valid()
      modifies this
      ensures currentPage == old(currentPage) && pageSize == old(pageSize)
      ensures searchQuery == old(searchQuery) && statusFilter == old(statusFilter)
      ensures Valid()
      ensures old(selected) == [] || !confirmed ==> selected == old(selected) && statuses == old(statuses)
      ensures old(selected) != [] && confirmed ==>
        selected == [] && statuses == Forgotten(old(statuses), Members(old(selected)), threw)
    {
      if |selected| == 0 || !confirmed {
        return;
      }
      statuses := DeleteSelected(selected, statuses, threw);
      selected := [];
    }
  }
}
