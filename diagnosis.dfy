/** The diagnosis sheet: one `Diag` per check, rendered as a minihtml section,
    and `tabulate`, which joins the sections under a heading. */
module Diagnosis {
  import opened Wrappers
  import opened Strings

  /** The outcome of one check: an empty `okValue` marks a failed check. */
  datatype Diag = Diag(checkName: string, okValue: string, errorSuggestion: string)
  {
    /** `not bool(ok_value)` */
    predicate IsError() {
      |okValue| == 0
    }

    /** `minihtml`: the section as a list of fragments. */
    function MiniHtml(): seq<string> {
      ["<div class='check'><h2>Check: ", checkName, "</h2>"]
      + (if IsError() then
           ["<ul>", "<li>", "<p>Problem! Suggested Action: ", errorSuggestion, "</p>", "</li>", "</ul>"]
         else
           ["<ul>", "<li>", "<p>Current Value: ", okValue, "</p>", "</li>",
            "<li>", "<p>No problem here.</p>", "</li>", "</ul>"])
      + ["</div>"]
    }

    /** The section as one string. */
    function Section(): string {
      Concat(MiniHtml())
    }
  }

  /** Joining three fragments. */
  lemma Concat3(a: string, b: string, c: string)
    ensures Concat([a, b, c]) == a + b + c
  {
    assert [a, b, c][..2] == [a, b] && [a, b][..1] == [a] && [a][..0] == [];
    assert Concat([a]) == a;
    assert Concat([a, b]) == a + b;
  }

  /** A run of consecutive fragments appears in the joined string. */
  lemma ConcatSplit3(parts: seq<string>, i: int, j: int)
    requires 0 <= i <= j <= |parts|
    ensures Concat(parts) == Concat(parts[..i]) + Concat(parts[i..j]) + Concat(parts[j..])
  {
    var front := parts[..j];
    ConcatTakeDrop(parts, j);
    ConcatTakeDrop(front, i);
    assert front[..i] == parts[..i] && front[i..] == parts[i..j];
    AppendChain(Concat(parts), Concat(front), Concat(parts[..i]), Concat(parts[i..j]), Concat(parts[j..]));
  }

  lemma ConcatContainsRun(parts: seq<string>, i: int, j: int)
    requires 0 <= i <= j <= |parts|
    ensures Contains(Concat(parts), Concat(parts[i..j]))
  {
    var run := Concat(parts[i..j]);
    ConcatSplit3(parts, i, j);
    ContainsSelf(run);
    ContainsInConcat(Concat(parts[..i]), run, Concat(parts[j..]), run);
  }

  /** The sections of the checks, in order. */
  function Sections(data: seq<Diag>): string {
    if |data| == 0 then "" else Sections(data[..|data| - 1]) + data[|data| - 1].Section()
  }

  /** The whole sheet: the heading, then every check's section. */
  function Report(data: seq<Diag>): string {
    "<h1>Diagnosis</h1>" + Sections(data)
  }

  /** `tabulate`: joins the heading and every check's fragments. */
  method Tabulate(data: seq<Diag>) returns (html: string)
    ensures html == Report(data)
  {
    var result := ["<h1>Diagnosis</h1>"];
    assert result[..0] == [];
    for i := 0 to |data|
      invariant Concat(result) == Report(data[..i])
    {
      ConcatAppend(result, data[i].MiniHtml());
      assert data[..i + 1][..i] == data[..i];
      result := result + data[i].MiniHtml();
    }
    assert data[..|data|] == data;
    html := Concat(result);
  }

  lemma SectionsSnoc(data: seq<Diag>, d: Diag)
    ensures Sections(data + [d]) == Sections(data) + d.Section()
  {
    assert (data + [d])[..|data|] == data;
  }

  lemma {:induction false} SectionsAppend(a: seq<Diag>, b: seq<Diag>)
    ensures Sections(a + b) == Sections(a) + Sections(b)
    decreases |b|
  {
    if |b| == 0 {
      assert a + b == a;
    } else {
      var init, d := b[..|b| - 1], b[|b| - 1];
      assert b == init + [d];
      assert a + b == (a + init) + [d];
      SectionsSnoc(a + init, d);
      SectionsSnoc(init, d);
      SectionsAppend(a, init);
      AppendAssoc(Sections(a), Sections(init), d.Section());
    }
  }

  /** The sheet split around the `i`-th check. */
  lemma ReportSplit(data: seq<Diag>, i: int)
    requires 0 <= i < |data|
    ensures Report(data) == Report(data[..i]) + data[i].Section() + Sections(data[i + 1..])
  {
    var before, d, after := data[..i], data[i], data[i + 1..];
    assert data == (before + [d]) + after;
    SectionsAppend(before + [d], after);
    SectionsSnoc(before, d);
    var h := "<h1>Diagnosis</h1>";
    AppendAssoc(h, Sections(before), d.Section());
    AppendAssoc(h, Sections(before) + d.Section(), Sections(after));
  }

  /** Every check's section appears in the sheet, between the sections of
      the checks before it and those after it. */
  lemma ReportHasSection(data: seq<Diag>, i: int)
    requires 0 <= i < |data|
    ensures Report(data) == Report(data[..i]) + data[i].Section() + Sections(data[i + 1..])
    ensures Contains(Report(data), data[i].Section())
  {
    ReportSplit(data, i);
    ContainsSelf(data[i].Section());
    ContainsInConcat(Report(data[..i]), data[i].Section(), Sections(data[i + 1..]), data[i].Section());
  }

  /** A section opens with the check's name; a failed check then shows its
      suggested action, a passed one its current value and an all-clear line. */
  lemma SectionShowsOutcome(d: Diag)
    ensures StartsWith(d.Section(), "<div class='check'><h2>Check: " + d.checkName + "</h2>")
    ensures d.IsError() ==> Contains(d.Section(), "<p>Problem! Suggested Action: " + d.errorSuggestion + "</p>")
    ensures !d.IsError() ==> Contains(d.Section(), "<p>Current Value: " + d.okValue + "</p>")
    ensures !d.IsError() ==> Contains(d.Section(), "<li>" + "<p>No problem here.</p>" + "</li>")
  {
    var parts := d.MiniHtml();
    assert parts == parts[..3] + parts[3..];
    ConcatAppend(parts[..3], parts[3..]);
    assert parts[..3] == ["<div class='check'><h2>Check: ", d.checkName, "</h2>"];
    Concat3("<div class='check'><h2>Check: ", d.checkName, "</h2>");
    ConcatContainsRun(parts, 5, 8);
    if d.IsError() {
      assert parts[5..8] == ["<p>Problem! Suggested Action: ", d.errorSuggestion, "</p>"];
      Concat3("<p>Problem! Suggested Action: ", d.errorSuggestion, "</p>");
    } else {
      assert parts[5..8] == ["<p>Current Value: ", d.okValue, "</p>"];
      Concat3("<p>Current Value: ", d.okValue, "</p>");
      ConcatContainsRun(parts, 9, 12);
      assert parts[9..12] == ["<li>", "<p>No problem here.</p>", "</li>"];
      Concat3("<li>", "<p>No problem here.</p>", "</li>");
    }
  }
}
