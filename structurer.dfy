/**
 * Structurer: how `generate_json` turns the language model's reply into
 * structured data (portfolio.py, lines 49-60). The parser `json.loads` is
 * a parameter: `parse(t)` is `Some(v)` when it accepts `t` and yields `v`,
 * and `None` when it raises `JSONDecodeError`.
 */
module Structurer {
  import opened Wrappers
  import opened Search
  import opened JsonData

  /** Some `'{'` of `s` comes before some `'}'`. */
  ghost predicate HasBracePair(s: string)
  {
    exists i, j :: 0 <= i < j < |s| && s[i] == '{' && s[j] == '}'
  }

  /** `v` is the infix of `s` from its first `'{'` to its last `'}'`. */
  ghost predicate IsBraceSpan(s: string, v: string)
  {
    exists i, e ::
      && 0 <= i < e <= |s| && v == s[i..e]
      && s[i] == '{' && (forall k :: 0 <= k < i ==> s[k] != '{')
      && s[e - 1] == '}' && (forall k :: e <= k < |s| ==> s[k] != '}')
  }

  /** One-character patterns occur exactly where that character is. */
  lemma OccursAtChar(s: string, c: char, k: int)
    ensures OccursAt(s, [c], k) <==> 0 <= k < |s| && s[k] == c
  {
    if 0 <= k < |s| {
      assert s[k..k + 1] == [s[k]];
    }
  }

  /** For the pattern `\{.*\}`, matches are the infixes that begin with
      `'{'` and end with a later `'}'`. */
  lemma BraceMatch(s: string, i: int, e: int)
    ensures IsMatch(s, "{", "}", i, e) <==> 0 <= i && i + 2 <= e <= |s| && s[i] == '{' && s[e - 1] == '}'
  {
    OccursAtChar(s, '{', i);
    OccursAtChar(s, '}', e - 1);
  }

  /** The reported match of `\{.*\}` is the span from the first `'{'` to the last `'}'`. */
  lemma BraceSearchResult(s: string, i: int, e: int)
    requires IsSearchResult(s, "{", "}", i, e)
    ensures IsBraceSpan(s, s[i..e])
  {
    SearchResultIsFirstToLast(s, "{", "}", i, e);
    BraceMatch(s, i, e);
    forall k | 0 <= k < i ensures s[k] != '{' {
      OccursAtChar(s, '{', k);
    }
    forall k | e <= k < |s| ensures s[k] != '}' {
      OccursAtChar(s, '}', k);
    }
  }

  /** `re.search(r'\{.*\}', reply, re.DOTALL).group(0)`, or `None` when there is no match. */
  function JsonSpan(reply: string): (r: Option<string>)
    ensures r.Some? <==> HasBracePair(reply)
    ensures r.Some? ==> IsBraceSpan(reply, r.value)
  {
    BraceSearch(reply);
    SearchSpan(reply, "{", "}")
  }

  lemma BraceSearch(s: string)
    ensures SearchSpan(s, "{", "}").Some? <==> HasBracePair(s)
    ensures SearchSpan(s, "{", "}").Some? ==> IsBraceSpan(s, SearchSpan(s, "{", "}").value)
  {
    var r := SearchSpan(s, "{", "}");
    if r.Some? {
      var i, e :| IsSearchResult(s, "{", "}", i, e) && r.value == s[i..e];
      BraceSearchResult(s, i, e);
      BraceMatch(s, i, e);
      assert s[i] == '{' && s[e - 1] == '}';
    } else {
      forall i, j | 0 <= i < j < |s| ensures !(s[i] == '{' && s[j] == '}') {
        BraceMatch(s, i, j + 1);
      }
    }
  }

  /** There is at most one span from the first `'{'` to the last `'}'`. */
  lemma BraceSpanUnique(s: string, v: string, w: string)
    requires IsBraceSpan(s, v) && IsBraceSpan(s, w)
    ensures v == w
  {
    var i1, e1 :| 0 <= i1 < e1 <= |s| && v == s[i1..e1]
                  && s[i1] == '{' && (forall k :: 0 <= k < i1 ==> s[k] != '{')
                  && s[e1 - 1] == '}' && (forall k :: e1 <= k < |s| ==> s[k] != '}');
    var i2, e2 :| 0 <= i2 < e2 <= |s| && w == s[i2..e2]
                  && s[i2] == '{' && (forall k :: 0 <= k < i2 ==> s[k] != '{')
                  && s[e2 - 1] == '}' && (forall k :: e2 <= k < |s| ==> s[k] != '}');
    assert i1 == i2 && e1 == e2;
  }

  /** A reply that holds one brace-delimited block, with no `'{'` before it
      and no `'}'` after it, yields exactly that block. */
  lemma BlockAmidText(pre: string, block: string, post: string)
    requires '{' !in pre && '}' !in post
    requires |block| >= 2 && block[0] == '{' && block[|block| - 1] == '}'
    ensures JsonSpan(pre + block + post) == Some(block)
  {
    var s := pre + block + post;
    var i, e := |pre|, |pre| + |block|;
    assert s[i..e] == block;
    assert s[i] == '{' && s[e - 1] == '}';
    forall k | 0 <= k < i ensures s[k] != '{' {
      assert s[k] == pre[k];
    }
    forall k | e <= k < |s| ensures s[k] != '}' {
      assert s[k] == post[k - e];
    }
    assert IsBraceSpan(s, block);
    assert HasBracePair(s);
    BraceSpanUnique(s, JsonSpan(s).value, block);
  }

  /** The greedy `.*` joins two objects into one span, which a JSON parser
      then rejects: `{"a": 1} or {"b": 2}` is extracted whole. */
  lemma GreedySpanJoinsObjects()
    ensures JsonSpan("{\"a\": 1} or {\"b\": 2}") == Some("{\"a\": 1} or {\"b\": 2}")
  {
    var s := "{\"a\": 1} or {\"b\": 2}";
    assert [] + s + [] == s;
    BlockAmidText([], s, []);
  }

  /** `generate_json`'s result for a given model reply. */
  function GenerateJson(reply: string, parse: string -> Option<Json>): (r: Option<Json>)
    ensures !HasBracePair(reply) ==> r == None
    ensures forall v :: IsBraceSpan(reply, v) ==> r == parse(v)
  {
    match JsonSpan(reply)
    case None => None
    case Some(v) =>
      assert forall w :: IsBraceSpan(reply, w) ==> w == v by {
        forall w | IsBraceSpan(reply, w) ensures w == v {
          BraceSpanUnique(reply, v, w);
        }
      }
      parse(v)
  }

  /** The scenario `Sure! {"name": "Ann"} thanks`: the object is cut out of
      the surrounding text and handed to the parser on its own. */
  lemma AnnExample(parse: string -> Option<Json>)
    requires parse("{\"name\": \"Ann\"}") == Some(JObject(map["name" := JString("Ann")]))
    ensures GenerateJson("Sure! {\"name\": \"Ann\"} thanks", parse) == Some(JObject(map["name" := JString("Ann")]))
  {
    var block := "{\"name\": \"Ann\"}";
    assert "Sure! {\"name\": \"Ann\"} thanks" == "Sure! " + block + " thanks";
    BlockAmidText("Sure! ", block, " thanks");
  }
}
