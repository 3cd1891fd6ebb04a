/**
 * Layout Generator: how `generate_dynamic_template` cuts the markup
 * document out of the language model's reply (portfolio.py, lines 109-112).
 */
module Layout {
  import opened Wrappers
  import opened Ascii
  import opened Search

  const HtmlOpen: string := "<html"
  const HtmlClose: string := "</html>"

  /** `re.search(r'(<html.*</html>)', reply.strip(), re.DOTALL).group(0)`,
      or `None` when there is no match. The search is case-sensitive. */
  function ExtractHtml(reply: string): (r: Option<string>)
    ensures r.Some? ==>
      exists i, e :: IsFirstToLast(Strip(reply), HtmlOpen, HtmlClose, i, e) && r.value == Strip(reply)[i..e]
    ensures r.Some? ==>
      |r.value| >= |HtmlOpen| + |HtmlClose| && r.value[..5] == HtmlOpen && r.value[|r.value| - 7..] == HtmlClose
    ensures r.None? <==>
      forall i, p :: OccursAt(Strip(reply), HtmlOpen, i) && i + |HtmlOpen| <= p ==> !OccursAt(Strip(reply), HtmlClose, p)
  {
    HtmlSearch(Strip(reply));
    SearchSpan(Strip(reply), HtmlOpen, HtmlClose)
  }

  /** What the search on the stripped reply `t` finds, or why it finds nothing. */
  lemma HtmlSearch(t: string)
    ensures var r := SearchSpan(t, HtmlOpen, HtmlClose);
      && (r.Some? ==> exists i, e :: IsFirstToLast(t, HtmlOpen, HtmlClose, i, e) && r.value == t[i..e])
      && (r.Some? ==> |r.value| >= |HtmlOpen| + |HtmlClose| && r.value[..5] == HtmlOpen && r.value[|r.value| - 7..] == HtmlClose)
      && (r.None? <==> forall i, p :: OccursAt(t, HtmlOpen, i) && i + |HtmlOpen| <= p ==> !OccursAt(t, HtmlClose, p))
  {
    if SearchSpan(t, HtmlOpen, HtmlClose).Some? {
      DocumentShape(t);
    } else {
      NoDocument(t);
    }
  }

  lemma NoDocument(t: string)
    requires SearchSpan(t, HtmlOpen, HtmlClose).None?
    ensures forall i, p :: OccursAt(t, HtmlOpen, i) && i + |HtmlOpen| <= p ==> !OccursAt(t, HtmlClose, p)
  {
    forall i, p | OccursAt(t, HtmlOpen, i) && i + |HtmlOpen| <= p ensures !OccursAt(t, HtmlClose, p) {
      assert !IsMatch(t, HtmlOpen, HtmlClose, i, p + |HtmlClose|);
    }
  }

  lemma DocumentShape(t: string)
    requires SearchSpan(t, HtmlOpen, HtmlClose).Some?
    ensures exists i, e :: IsFirstToLast(t, HtmlOpen, HtmlClose, i, e) && SearchSpan(t, HtmlOpen, HtmlClose).value == t[i..e]
    ensures var v := SearchSpan(t, HtmlOpen, HtmlClose).value;
      |v| >= |HtmlOpen| + |HtmlClose| && v[..5] == HtmlOpen && v[|v| - 7..] == HtmlClose
    ensures exists i, p :: OccursAt(t, HtmlOpen, i) && i + |HtmlOpen| <= p && OccursAt(t, HtmlClose, p)
  {
    var v := SearchSpan(t, HtmlOpen, HtmlClose).value;
    var i, e :| IsSearchResult(t, HtmlOpen, HtmlClose, i, e) && v == t[i..e];
    SearchResultIsFirstToLast(t, HtmlOpen, HtmlClose, i, e);
    MatchShape(t, HtmlOpen, HtmlClose, i, e);
    assert OccursAt(t, HtmlOpen, i) && i + |HtmlOpen| <= e - |HtmlClose| && OccursAt(t, HtmlClose, e - |HtmlClose|);
  }
}
