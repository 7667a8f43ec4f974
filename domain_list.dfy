/// The textarea parsing every bulk form performs before it posts: split the
/// text on newlines, trim each line, drop the empty ones
/// (`text.split('\n').map(d => d.trim()).filter(d => d)`), and, in the forms
/// that deduplicate, keep the first occurrence of each line.
module DomainList {
  import opened Text
  import opened Seqs

  /// A line the parser can hand on: non-empty, trimmed, a single line.
  predicate IsEntry(d: string) {
    d != "" && IsTrimmed(d) && '\n' !in d
  }

  predicate NonEmpty(d: string) {
    d != ""
  }

  function TrimAll(parts: seq<string>): (r: seq<string>)
    ensures |r| == |parts|
    ensures forall i :: 0 <= i < |parts| ==> r[i] == Trim(parts[i])
  {
    seq(|parts|, i requires 0 <= i < |parts| => Trim(parts[i]))
  }

  /// Split on '\n', trim, drop empty lines; duplicates are kept.
  function ParseLines(text: string): (r: seq<string>)
    ensures forall i :: 0 <= i < |r| ==> IsEntry(r[i])
  {
    var parts := Split(text, '\n');
    var trimmed := TrimAll(parts);
    var r := Filter(trimmed, NonEmpty);
    assert forall i :: 0 <= i < |r| ==> IsEntry(r[i]) by {
      forall i | 0 <= i < |r| ensures IsEntry(r[i]) {
        FilterMembership(trimmed, NonEmpty, r[i]);
        var j :| 0 <= j < |trimmed| && trimmed[j] == r[i];
        assert '\n' !in parts[j];
      }
    }
    r
  }

  /// `[...new Set(ParseLines(text))]`: the parse of the forms that deduplicate.
  function ParseUnique(text: string): (r: seq<string>)
    ensures NoDuplicates(r)
    ensures forall i :: 0 <= i < |r| ==> IsEntry(r[i])
    ensures forall d :: d in r <==> d in ParseLines(text)
  {
    Dedupe(ParseLines(text))
  }

  /// Text the forms accept (`text.trim()` is truthy) always yields at least
  /// one line, so the "no valid domain" alert that follows the parse cannot
  /// fire once the blank-text guard has passed.
  lemma NonBlankGivesEntries(text: string)
    requires !IsBlank(text)
    ensures ParseLines(text) != []
    ensures ParseUnique(text) != []
  {
    var k :| 0 <= k < |text| && !IsSpace(text[k]);
    var parts := Split(text, '\n');
    var j := SplitKeepsNonSpace(text, k);
    var trimmed := TrimAll(parts);
    assert Trim(parts[j]) != "";
    assert trimmed[j] in trimmed;
    FilterMembership(trimmed, NonEmpty, trimmed[j]);
  }

  /// A non-whitespace character of `s` ends up in a non-blank part.
  lemma {:induction false} SplitKeepsNonSpace(s: string, k: nat) returns (j: nat)
    requires k < |s| && !IsSpace(s[k])
    ensures j < |Split(s, '\n')| && !IsBlank(Split(s, '\n')[j])
  {
    var parts := Split(s, '\n');
    if k == 0 {
      j := 0;
      assert parts[0][0] == s[0];
    } else {
      var rest := Split(s[1..], '\n');
      var j' := SplitKeepsNonSpace(s[1..], k - 1);
      var m :| 0 <= m < |rest[j']| && !IsSpace(rest[j'][m]);
      if s[0] == '\n' {
        j := j' + 1;
        assert parts[j] == rest[j'];
      } else if j' == 0 {
        j := 0;
        assert parts[0][m + 1] == rest[0][m];
      } else {
        j := j';
        assert parts[j] == rest[j'];
      }
    }
  }

  /// Parsing the newline-joined list of entries gives the list back.
  lemma ParseJoin(ds: seq<string>)
    requires forall i :: 0 <= i < |ds| ==> IsEntry(ds[i])
    ensures ParseLines(Join(ds, '\n')) == ds
  {
    if ds == [] {
      ParseEmpty();
    } else {
      ParseJoinNonEmpty(ds);
    }
  }

  /// The empty text has no entries.
  lemma ParseEmpty()
    ensures ParseLines(Join([], '\n')) == []
  {
    assert Join([], '\n') == "";
    assert Split("", '\n') == [""];
    assert TrimAll([""]) == [""];
    assert Filter([""], NonEmpty) == [];
  }

  lemma ParseJoinNonEmpty(ds: seq<string>)
    requires ds != []
    requires forall i :: 0 <= i < |ds| ==> IsEntry(ds[i])
    ensures ParseLines(Join(ds, '\n')) == ds
  {
    SplitJoin(ds, '\n');
    TrimAllOfEntries(ds);
    FilterAll(ds, NonEmpty);
  }

  /// Entries are already trimmed.
  lemma TrimAllOfEntries(ds: seq<string>)
    requires forall i :: 0 <= i < |ds| ==> IsEntry(ds[i])
    ensures TrimAll(ds) == ds
  {
    TrimAllOfTrimmed(ds);
  }

  lemma TrimAllOfTrimmed(ds: seq<string>)
    requires forall i :: 0 <= i < |ds| ==> IsTrimmed(ds[i])
    ensures TrimAll(ds) == ds
  {
    forall i | 0 <= i < |ds| ensures Trim(ds[i]) == ds[i] {
      TrimOfTrimmed(ds[i]);
    }
  }

  /// Re-parsing what the parser produced changes nothing.
  lemma ParseLinesIdempotent(text: string)
    ensures ParseLines(Join(ParseLines(text), '\n')) == ParseLines(text)
  {
    ParseJoin(ParseLines(text));
  }

  lemma ParseUniqueIdempotent(text: string)
    ensures ParseUnique(Join(ParseUnique(text), '\n')) == ParseUnique(text)
  {
    ParseJoin(ParseUnique(text));
    DedupeOfDistinct(ParseUnique(text));
  }
}
