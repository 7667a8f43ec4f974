/// `Frontend/src/modules/add_zone.js`: the bulk zone form
/// (`batchAddZones`).  The domain list is deduplicated before it is posted.
module AddZoneForm {
  import opened Text
  import opened Seqs
  import opened DomainList
  import opened Forms
  import ZoneHandler

  /// The one alert both guards share.
  const InputMissing := "请选择账号并输入域名列表"
  const ListEmpty := "域名列表为空或格式不正确"

  /// `batchAddZones`: an account and non-blank text are required;
  /// the distinct non-empty trimmed lines, first occurrences in order, are
  /// posted.  The empty-list alert can never be reached.
  function BatchAddZones(accountId: string, text: string): (r: Submission<ZoneHandler.ZonesRequest>)
    ensures r.Sent? <==> accountId != "" && !IsBlank(text)
    ensures !r.Sent? ==> r == Alerted(InputMissing)
    ensures r.Sent? ==> r.body == ZoneHandler.ZonesRequest(accountId, ParseUnique(text))
    ensures r.Sent? ==> r.body.domains != [] && NoDuplicates(r.body.domains)
  {
    if accountId == "" || IsBlank(text) then Alerted(InputMissing)
    else
      var domains := ParseUnique(text);
      NonBlankGivesEntries(text);
      if domains == [] then Alerted(ListEmpty)
      else Sent(ZoneHandler.ZonesRequest(accountId, domains))
  }

  /// A repeated line and an empty line disappear, and the order of first
  /// occurrences is kept: `a\na\n\nb` gives `[a, b]`.
  lemma DedupeExample(a: string, b: string)
    requires IsEntry(a) && IsEntry(b) && a != b
    ensures ParseUnique(a + "\n" + a + "\n\n" + b) == [a, b]
  {
    ExampleLines(a, b);
    var s := [a, a, b];
    assert s[..2] == [a, a] && s[..2][..1] == [a] && [a][..0] == [];
    assert Dedupe([a]) == [a];
    assert Dedupe([a, a]) == [a];
  }

  lemma ExampleLines(a: string, b: string)
    requires IsEntry(a) && IsEntry(b)
    ensures ParseLines(a + "\n" + a + "\n\n" + b) == [a, a, b]
  {
    var text := a + "\n" + a + "\n\n" + b;
    var s := [a, a, "", b];
    ExampleSplit(a, b);
    ExampleTrim(a, b);
    ExampleFilter(a, b);
    assert ParseLines(text) == Filter(TrimAll(Split(text, '\n')), NonEmpty);
  }

  lemma ExampleSplit(a: string, b: string)
    requires IsEntry(a) && IsEntry(b)
    ensures Split(a + "\n" + a + "\n\n" + b, '\n') == [a, a, "", b]
  {
    SplitFour(a, a, "", b, '\n');
    assert a + "\n" + a + "\n\n" + b == a + ['\n'] + a + ['\n'] + "" + ['\n'] + b;
  }

  lemma ExampleTrim(a: string, b: string)
    requires IsEntry(a) && IsEntry(b)
    ensures TrimAll([a, a, "", b]) == [a, a, "", b]
  {
    var s := [a, a, "", b];
    assert forall i :: 0 <= i < |s| ==> IsTrimmed(s[i]);
    TrimAllOfTrimmed(s);
  }

  lemma ExampleFilter(a: string, b: string)
    requires IsEntry(a) && IsEntry(b)
    ensures Filter([a, a, "", b], NonEmpty) == [a, a, b]
  {
    assert [b][1..] == [];
    assert Filter([b], NonEmpty) == [b];
    assert ["", b][1..] == [b];
    assert Filter(["", b], NonEmpty) == [b];
    assert [a, "", b][1..] == ["", b];
    assert Filter([a, "", b], NonEmpty) == [a, b];
    assert [a, a, "", b][1..] == [a, "", b];
  }

  /// The same on concrete names.
  lemma DedupeConcreteExample()
    ensures ParseUnique("a.com\na.com\n\nb.com") == ["a.com", "b.com"]
  {
    assert "a.com\na.com\n\nb.com" == "a.com" + "\n" + "a.com" + "\n\n" + "b.com";
    assert "a.com"[0] != "b.com"[0];
    DedupeExample("a.com", "b.com");
  }
}
