/**
 * Theme Selector: the post-processing that `select_template` applies to
 * the language model's reply (portfolio.py, lines 79-80).
 */
module Theme {
  import opened Ascii

  /** The membership list exactly as written in the source: 13 entries,
      three of which ("minimalist", "dark_theme", "creative") repeat. */
  const Choices: seq<string> :=
    ["modern", "minimalist", "dark_theme", "creative", "minimalist", "dark_theme", "creative",
     "corporate", "elegant", "tech", "artistic", "classic", "grid_based"]

  /** The ten distinct theme labels. */
  const Labels: set<string> :=
    {"modern", "minimalist", "dark_theme", "creative", "corporate",
     "elegant", "tech", "artistic", "classic", "grid_based"}

  /** The label chosen when the reply names no allowed theme. */
  const Fallback: string := "tech"

  /** `reply.strip().lower()`: lower case, without white space at either end,
      and empty exactly when the reply is all white space. */
  function Normalize(reply: string): (t: string)
    ensures NoUpper(t)
    ensures t == [] || (!IsSpace(t[0]) && !IsSpace(t[|t| - 1]))
    ensures t == [] <==> AllSpace(reply)
  {
    StripEmpty(reply);
    Lower(Strip(reply))
  }

  /** `select_template`'s return value for a given model reply. */
  function SelectTemplate(reply: string): (theme: string)
    ensures theme in Labels
    ensures Normalize(reply) in Labels ==> theme == Normalize(reply)
    ensures Normalize(reply) !in Labels ==> theme == Fallback
  {
    ChoicesAreLabels();
    var t := Normalize(reply);
    if t in Choices then t else Fallback
  }

  /** The duplicated entries change nothing: the list holds exactly the ten labels. */
  lemma ChoicesAreLabels()
    ensures forall c :: c in Choices <==> c in Labels
    ensures Fallback in Labels
  {
  }

  lemma ListSizes()
    ensures |Choices| == 13 && |Labels| == 10
  {
  }

  /** A string without spaces or upper-case letters is its own normal form. */
  lemma NormalizeNormal(t: string)
    requires NoSpace(t) && NoUpper(t)
    ensures Normalize(t) == t
  {
    assert [] + t + [] == t;
    StripPadded([], t, []);
    LowerNoUpper(t);
  }

  /** Every label is already stripped and lower case. */
  lemma LabelIsNormal(l: string)
    requires l in Labels
    ensures Normalize(l) == l
  {
    assert forall i :: 0 <= i < |l| ==> 'a' <= l[i] <= 'z' || l[i] == '_';
    NormalizeNormal(l);
  }

  /** Normalising a chosen theme again returns it unchanged. */
  lemma {:induction false} SelectTemplateIdempotent(reply: string)
    ensures SelectTemplate(SelectTemplate(reply)) == SelectTemplate(reply)
  {
    LabelIsNormal(SelectTemplate(reply));
  }

  /** Both directions of the choice: a label `l` is chosen exactly when the
      normalised reply is `l`, or when it is no label at all and `l` is the fallback. */
  lemma SelectTemplateIff(reply: string, l: string)
    requires l in Labels
    ensures SelectTemplate(reply) == l <==>
            (Normalize(reply) == l || (Normalize(reply) !in Labels && l == Fallback))
  {
  }

  /** A word padded by spaces is accepted when its lower-case form is a label. */
  lemma PaddedLabelAccepted(pre: string, word: string, post: string)
    requires AllSpace(pre) && AllSpace(post)
    requires word == [] || (!IsSpace(word[0]) && !IsSpace(word[|word| - 1]))
    requires Lower(word) in Labels
    ensures SelectTemplate(pre + word + post) == Lower(word)
  {
    StripPadded(pre, word, post);
  }

  /** `"  Tech  "` is accepted as the label "tech". */
  lemma PaddedCapitalisedLabel(reply: string)
    requires reply == "  Tech  "
    ensures SelectTemplate(reply) == "tech"
  {
    var pad, word := "  ", "Tech";
    assert reply == pad + word + pad;
    var r := Lower(word);
    assert r[0] == LowerChar('T') && r[1] == LowerChar('e') && r[2] == LowerChar('c') && r[3] == LowerChar('h');
    assert r == "tech";
    PaddedLabelAccepted(pad, word, pad);
  }

  /** A reply that is already in normal form but names no label falls back to "tech". */
  lemma NormalNonLabelFallsBack(reply: string)
    requires NoSpace(reply) && NoUpper(reply) && reply !in Labels
    ensures SelectTemplate(reply) == Fallback
  {
    NormalizeNormal(reply);
  }

  /** `"fancy"` is no label and falls back to "tech". */
  lemma UnknownLabelFallsBack(reply: string)
    requires reply == "fancy"
    ensures SelectTemplate(reply) == "tech"
  {
    assert forall i :: 0 <= i < |reply| ==> 'a' <= reply[i] <= 'z';
    assert forall l :: l in Labels ==> |l| != 5;
    NormalNonLabelFallsBack(reply);
  }
}
