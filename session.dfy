/**
 * Session Controller: the Streamlit session dictionary `st.session_state`
 * and the two fixed files the script writes, with the transitions
 * `reset_state` (portfolio.py, lines 14-20), the initialisation block
 * (lines 22-31), `generate_dynamic_template` (lines 108-118),
 * `generate_html` (lines 82-91) and the Generate branch (lines 126-146).
 *
 * The replies of the three language-model calls are inputs; `json.loads`
 * and Jinja2's `Template(t).render(**data)` are the parameters `parse` and
 * `render`, where `None` stands for a raised exception.
 */
module Session {
  import opened Wrappers
  import opened JsonData
  import Theme
  import Structurer
  import Layout

  /** The five keys the script keeps in `st.session_state`. */
  datatype Field = ParsedJson | SelectedTemplate | HtmlContent | FileSaved | GeneratedTemplate

  /** A value stored under a key; `Nothing` is Python's `None`. */
  datatype Value = Nothing | Flag(b: bool) | Data(json: Json) | Text(text: string)

  /** The session dictionary: a key that is not in the map is absent. */
  type State = map<Field, Value>

  /** The value `reset_state` and the initialisation block store. */
  function Default(f: Field): Value
  {
    if f == FileSaved then Flag(false) else Nothing
  }

  /** Every key is present. */
  predicate Complete(m: State)
  {
    forall f: Field :: f in m
  }

  /** A map that holds each of the five keys is complete. */
  lemma FiveKeys(m: State)
    requires ParsedJson in m && SelectedTemplate in m && HtmlContent in m && FileSaved in m && GeneratedTemplate in m
    ensures Complete(m)
  {
    forall f: Field ensures f in m {
      match f
      case ParsedJson =>
      case SelectedTemplate =>
      case HtmlContent =>
      case FileSaved =>
      case GeneratedTemplate =>
    }
  }

  /** The session together with the contents of `templates/generated_template.html`
      and of `index.html` (`None`: the file does not exist). */
  datatype World = World(session: State, templateFile: Option<string>, indexFile: Option<string>)

  /** Why a Generate run stopped: the template file could not be opened, or
      Jinja2 raised (a template it cannot compile or render, or parsed data
      that is not a mapping and so cannot be spread with `**`). */
  datatype Failure = TemplateMissing | RenderError

  datatype Outcome = Saved | Aborted(reason: Failure)

  /** The state after a step, with what the step returned. */
  datatype HtmlRun = HtmlRun(world: World, html: Result<string, Failure>)
  datatype Run = Run(world: World, outcome: Outcome)

  /** The session name `generate_dynamic_template` records. */
  const TemplateName: string := "generated_template"

  /** `reset_state`: every key holds its default, whatever it held before. */
  function ResetSession(m: State): (r: State)
    ensures Complete(r)
    ensures forall f :: r[f] == Default(f)
  {
    var r := m[ParsedJson := Nothing][SelectedTemplate := Nothing][HtmlContent := Nothing]
              [FileSaved := Flag(false)][GeneratedTemplate := Nothing];
    FiveKeys(r);
    r
  }

  /** The initialisation block: absent keys get their default, present keys
      keep their value. */
  function InitSession(m: State): (r: State)
    ensures Complete(r)
    ensures forall f :: f in m ==> r[f] == m[f]
    ensures forall f :: f !in m ==> r[f] == Default(f)
  {
    var m1 := if ParsedJson in m then m else m[ParsedJson := Nothing];
    var m2 := if SelectedTemplate in m1 then m1 else m1[SelectedTemplate := Nothing];
    var m3 := if HtmlContent in m2 then m2 else m2[HtmlContent := Nothing];
    var m4 := if FileSaved in m3 then m3 else m3[FileSaved := Flag(false)];
    var m5 := if GeneratedTemplate in m4 then m4 else m4[GeneratedTemplate := Nothing];
    FiveKeys(m5);
    m5
  }

  /** What `generate_json` returns, as stored in the session. */
  function FromParse(r: Option<Json>): Value
  {
    match r
    case None => Nothing
    case Some(j) => Data(j)
  }

  /** `generate_dynamic_template`: on a match, the document is written to the
      template file and the session records the template name; otherwise
      nothing changes. */
  function DynamicTemplateStep(w: World, layoutReply: string): (r: World)
    ensures w.session.Keys <= r.session.Keys
    ensures r.indexFile == w.indexFile
    ensures forall f :: f in w.session && f != GeneratedTemplate ==> r.session[f] == w.session[f]
  {
    match Layout.ExtractHtml(layoutReply)
    case None => w
    case Some(doc) => w.(session := w.session[GeneratedTemplate := Text(TemplateName)], templateFile := Some(doc))
  }

  /** `generate_html`: generate the template, read it back and render it
      with the top-level fields of the parsed data. */
  function HtmlStep(w: World, parsed: Value, layoutReply: string,
                    render: (string, map<string, Json>) -> Option<string>): (r: HtmlRun)
    ensures w.session.Keys <= r.world.session.Keys
    ensures r.world == DynamicTemplateStep(w, layoutReply)
    ensures r.html == Failure(TemplateMissing) <==> r.world.templateFile.None?
    ensures r.html.Success? <==>
      r.world.templateFile.Some? && parsed.Data? && parsed.json.JObject?
      && render(r.world.templateFile.value, parsed.json.fields).Some?
    ensures r.html.Success? ==> Some(r.html.value) == render(r.world.templateFile.value, parsed.json.fields)
  {
    var w1 := DynamicTemplateStep(w, layoutReply);
    match w1.templateFile
    case None => HtmlRun(w1, Failure(TemplateMissing))
    case Some(t) =>
      if parsed.Data? && parsed.json.JObject? then
        match render(t, parsed.json.fields)
        case None => HtmlRun(w1, Failure(RenderError))
        case Some(h) => HtmlRun(w1, Success(h))
      else
        HtmlRun(w1, Failure(RenderError))
  }

  /** `generate_json` runs only when the session holds no parse yet. */
  function ParseStep(m: State, jsonReply: string, parse: string -> Option<Json>): (r: State)
    requires ParsedJson in m
    ensures r.Keys == m.Keys
    ensures forall f :: f in m && f != ParsedJson ==> r[f] == m[f]
  {
    if m[ParsedJson] == Nothing then m[ParsedJson := FromParse(Structurer.GenerateJson(jsonReply, parse))] else m
  }

  /** The end of a Generate run: on success `html_content` is stored,
      `index.html` written and `file_saved` set, in that order. */
  function FinishRun(h: HtmlRun): (r: Run)
    ensures r.world.session.Keys == h.world.session.Keys + (if h.html.Success? then {HtmlContent, FileSaved} else {})
    ensures r.world.templateFile == h.world.templateFile
    ensures forall f :: f in h.world.session && f != HtmlContent && f != FileSaved ==>
              r.world.session[f] == h.world.session[f]
    ensures h.html.Success? ==>
      && r.outcome == Saved
      && r.world.session[HtmlContent] == Text(h.html.value)
      && r.world.session[FileSaved] == Flag(true)
      && r.world.indexFile == Some(h.html.value)
    ensures h.html.Failure? ==> r == Run(h.world, Aborted(h.html.error))
  {
    match h.html
    case Failure(f) => Run(h.world, Aborted(f))
    case Success(html) =>
      Run(h.world.(session := h.world.session[HtmlContent := Text(html)][FileSaved := Flag(true)],
                   indexFile := Some(html)),
          Saved)
  }

  /** One Generate run (lines 135-146): parse only when nothing is parsed
      yet, always choose the theme again, render, and only then write
      `index.html` and set `file_saved`. An exception stops the run with
      the updates made so far. */
  function GenerateRun(w: World, jsonReply: string, themeReply: string, layoutReply: string,
                       parse: string -> Option<Json>,
                       render: (string, map<string, Json>) -> Option<string>): (r: Run)
    requires Complete(w.session)
    ensures Complete(r.world.session)
    ensures r.outcome == Saved ==>
      && r.world.session[FileSaved] == Flag(true) && r.world.session[HtmlContent].Text?
      && r.world.indexFile == Some(r.world.session[HtmlContent].text)
  {
    var s1 := ParseStep(w.session, jsonReply, parse)[SelectedTemplate := Text(Theme.SelectTemplate(themeReply))];
    var h := HtmlStep(w.(session := s1), s1[ParsedJson], layoutReply, render);
    assert Complete(h.world.session) by {
      assert w.session.Keys <= s1.Keys <= h.world.session.Keys;
    }
    FinishRun(h)
  }

  /** The three stages of a Generate run, one after the other. */
  lemma GenerateRunStages(w: World, jsonReply: string, themeReply: string, layoutReply: string,
                          parse: string -> Option<Json>,
                          render: (string, map<string, Json>) -> Option<string>)
    requires Complete(w.session)
    ensures var s1 := ParseStep(w.session, jsonReply, parse)[SelectedTemplate := Text(Theme.SelectTemplate(themeReply))];
      GenerateRun(w, jsonReply, themeReply, layoutReply, parse, render)
      == FinishRun(HtmlStep(w.(session := s1), s1[ParsedJson], layoutReply, render))
  {
  }

  /** What every reachable state satisfies: each key holds a value of its
      type, a recorded template name means the template file exists, and
      `file_saved` is true only when `index.html` holds the session's
      `html_content`. */
  predicate Consistent(w: World)
  {
    var s := w.session;
    && (ParsedJson in s ==> s[ParsedJson] == Nothing || s[ParsedJson].Data?)
    && (SelectedTemplate in s ==>
          s[SelectedTemplate] == Nothing || (s[SelectedTemplate].Text? && s[SelectedTemplate].text in Theme.Labels))
    && (HtmlContent in s ==> s[HtmlContent] == Nothing || s[HtmlContent].Text?)
    && (FileSaved in s ==> s[FileSaved].Flag?)
    && (GeneratedTemplate in s ==>
          s[GeneratedTemplate] == Nothing || (s[GeneratedTemplate] == Text(TemplateName) && w.templateFile.Some?))
    && (FileSaved in s && s[FileSaved] == Flag(true) ==>
          HtmlContent in s && s[HtmlContent].Text? && w.indexFile == Some(s[HtmlContent].text))
  }

  /** One rerun of the script after a user action: the uploader's
      `on_change` callback resets the session when the file changed, the
      initialisation block runs, and the Generate branch runs when the
      button was clicked with a file present. */
  datatype Event = Event(fileChanged: bool, hasFile: bool, clicked: bool,
                         jsonReply: string, themeReply: string, layoutReply: string)

  function RerunStep(w: World, ev: Event, parse: string -> Option<Json>,
                 render: (string, map<string, Json>) -> Option<string>): (r: World)
    ensures Complete(r.session)
    ensures !(ev.clicked && ev.hasFile) ==> r.templateFile == w.templateFile && r.indexFile == w.indexFile
    ensures ev.fileChanged && !(ev.clicked && ev.hasFile) ==> r.session == ResetSession(w.session)
  {
    var w1 := if ev.fileChanged then w.(session := ResetSession(w.session)) else w;
    var w2 := w1.(session := InitSession(w1.session));
    if ev.clicked && ev.hasFile
    then GenerateRun(w2, ev.jsonReply, ev.themeReply, ev.layoutReply, parse, render).world
    else w2
  }

  /** The state after a sequence of user actions. */
  function RunAll(w: World, evs: seq<Event>, parse: string -> Option<Json>,
                  render: (string, map<string, Json>) -> Option<string>): World
    decreases |evs|
  {
    if evs == [] then w else RunAll(RerunStep(w, evs[0], parse, render), evs[1..], parse, render)
  }

  /** The initialisation block changes nothing once every key is present. */
  lemma InitIdempotent(m: State)
    ensures InitSession(InitSession(m)) == InitSession(m)
  {
  }

  /** Right after `reset_state` the initialisation block finds every key and changes nothing. */
  lemma InitAfterReset(m: State)
    ensures InitSession(ResetSession(m)) == ResetSession(m)
  {
  }

  /** A fresh session, once initialised, holds exactly what `reset_state` stores. */
  lemma FreshSessionIsReset(m: State)
    ensures InitSession(map[]) == ResetSession(m)
  {
  }

  lemma ResetConsistent(w: World)
    ensures Consistent(w.(session := ResetSession(w.session)))
  {
  }

  lemma InitConsistent(w: World)
    requires Consistent(w)
    ensures Consistent(w.(session := InitSession(w.session)))
  {
  }

  /** Generating a template records its name only together with the file. */
  lemma HtmlStepConsistent(w: World, parsed: Value, layoutReply: string,
                           render: (string, map<string, Json>) -> Option<string>)
    requires Consistent(w)
    ensures Consistent(HtmlStep(w, parsed, layoutReply, render).world)
    ensures HtmlStep(w, parsed, layoutReply, render).world.indexFile == w.indexFile
  {
  }

  lemma ParseStepConsistent(w: World, jsonReply: string, themeReply: string, parse: string -> Option<Json>)
    requires Complete(w.session) && Consistent(w)
    ensures Consistent(w.(session := ParseStep(w.session, jsonReply, parse)
                                     [SelectedTemplate := Text(Theme.SelectTemplate(themeReply))]))
  {
  }

  lemma FinishConsistent(h: HtmlRun)
    requires Consistent(h.world)
    ensures Consistent(FinishRun(h).world)
  {
  }

  /** A Generate run keeps every invariant: in particular `file_saved` is
      true afterwards only if `index.html` holds `html_content`. */
  lemma GenerateConsistent(w: World, jsonReply: string, themeReply: string, layoutReply: string,
                           parse: string -> Option<Json>,
                           render: (string, map<string, Json>) -> Option<string>)
    requires Complete(w.session) && Consistent(w)
    ensures Consistent(GenerateRun(w, jsonReply, themeReply, layoutReply, parse, render).world)
  {
    var s1 := ParseStep(w.session, jsonReply, parse)[SelectedTemplate := Text(Theme.SelectTemplate(themeReply))];
    ParseStepConsistent(w, jsonReply, themeReply, parse);
    var h := HtmlStep(w.(session := s1), s1[ParsedJson], layoutReply, render);
    HtmlStepConsistent(w.(session := s1), s1[ParsedJson], layoutReply, render);
    FinishConsistent(h);
    assert GenerateRun(w, jsonReply, themeReply, layoutReply, parse, render) == FinishRun(h);
  }

  lemma RerunConsistent(w: World, ev: Event, parse: string -> Option<Json>,
                        render: (string, map<string, Json>) -> Option<string>)
    requires Consistent(w)
    ensures Consistent(RerunStep(w, ev, parse, render))
  {
    var w1 := if ev.fileChanged then w.(session := ResetSession(w.session)) else w;
    ResetConsistent(w);
    InitConsistent(w1);
    var w2 := w1.(session := InitSession(w1.session));
    if ev.clicked && ev.hasFile {
      GenerateConsistent(w2, ev.jsonReply, ev.themeReply, ev.layoutReply, parse, render);
    }
  }

  /** Every state reachable from a new session, whatever the files on disk
      and whatever the users and models do, is consistent. */
  lemma {:induction false} ReachableConsistent(w: World, evs: seq<Event>, parse: string -> Option<Json>,
                                               render: (string, map<string, Json>) -> Option<string>)
    requires Consistent(w)
    ensures Consistent(RunAll(w, evs, parse, render))
    decreases |evs|
  {
    if evs != [] {
      RerunConsistent(w, evs[0], parse, render);
      ReachableConsistent(RerunStep(w, evs[0], parse, render), evs[1..], parse, render);
    }
  }

  /** A new session is consistent whatever the files on disk hold. */
  lemma FreshConsistent(templateFile: Option<string>, indexFile: Option<string>)
    ensures Consistent(World(map[], templateFile, indexFile))
  {
  }

  /** Once parsed data is held, a Generate run keeps it and does not depend
      on the reply to the structuring prompt. */
  lemma GenerateReusesParse(w: World, jsonReply: string, otherReply: string, themeReply: string, layoutReply: string,
                            parse: string -> Option<Json>,
                            render: (string, map<string, Json>) -> Option<string>)
    requires Complete(w.session) && w.session[ParsedJson] != Nothing
    ensures GenerateRun(w, jsonReply, themeReply, layoutReply, parse, render).world.session[ParsedJson]
            == w.session[ParsedJson]
    ensures GenerateRun(w, jsonReply, themeReply, layoutReply, parse, render)
            == GenerateRun(w, otherReply, themeReply, layoutReply, parse, render)
  {
  }

  /** Without parsed data, a Generate run stores what `generate_json` returns for this reply. */
  lemma GenerateParsesWhenEmpty(w: World, jsonReply: string, themeReply: string, layoutReply: string,
                                parse: string -> Option<Json>,
                                render: (string, map<string, Json>) -> Option<string>)
    requires Complete(w.session) && w.session[ParsedJson] == Nothing
    ensures GenerateRun(w, jsonReply, themeReply, layoutReply, parse, render).world.session[ParsedJson]
            == FromParse(Structurer.GenerateJson(jsonReply, parse))
  {
    var s1 := ParseStep(w.session, jsonReply, parse)[SelectedTemplate := Text(Theme.SelectTemplate(themeReply))];
    assert s1[ParsedJson] == FromParse(Structurer.GenerateJson(jsonReply, parse));
    var h := HtmlStep(w.(session := s1), s1[ParsedJson], layoutReply, render);
    assert h.world.session[ParsedJson] == s1[ParsedJson];
    assert GenerateRun(w, jsonReply, themeReply, layoutReply, parse, render) == FinishRun(h);
  }

  /** Every run, successful or not, stores the theme chosen from this run's reply. */
  lemma GenerateReassignsTheme(w: World, jsonReply: string, themeReply: string, layoutReply: string,
                               parse: string -> Option<Json>,
                               render: (string, map<string, Json>) -> Option<string>)
    requires Complete(w.session)
    ensures GenerateRun(w, jsonReply, themeReply, layoutReply, parse, render).world.session[SelectedTemplate]
            == Text(Theme.SelectTemplate(themeReply))
  {
    var s1 := ParseStep(w.session, jsonReply, parse)[SelectedTemplate := Text(Theme.SelectTemplate(themeReply))];
    var h := HtmlStep(w.(session := s1), s1[ParsedJson], layoutReply, render);
    assert h.world.session[SelectedTemplate] == s1[SelectedTemplate];
    assert GenerateRun(w, jsonReply, themeReply, layoutReply, parse, render) == FinishRun(h);
  }

  /** `file_saved` is set exactly by a run that rendered and wrote `index.html`;
      a run that stops leaves `html_content`, `file_saved` and `index.html` as they were. */
  lemma GenerateSaveOrder(w: World, jsonReply: string, themeReply: string, layoutReply: string,
                          parse: string -> Option<Json>,
                          render: (string, map<string, Json>) -> Option<string>)
    requires Complete(w.session)
    ensures var r := GenerateRun(w, jsonReply, themeReply, layoutReply, parse, render);
      r.outcome == Saved ==>
        r.world.session[FileSaved] == Flag(true) && r.world.session[HtmlContent].Text?
        && r.world.indexFile == Some(r.world.session[HtmlContent].text)
    ensures var r := GenerateRun(w, jsonReply, themeReply, layoutReply, parse, render);
      r.outcome.Aborted? ==>
        r.world.session[FileSaved] == w.session[FileSaved] && r.world.session[HtmlContent] == w.session[HtmlContent]
        && r.world.indexFile == w.indexFile
    ensures var s1 := ParseStep(w.session, jsonReply, parse)[SelectedTemplate := Text(Theme.SelectTemplate(themeReply))];
      var h := HtmlStep(w.(session := s1), s1[ParsedJson], layoutReply, render);
      var r := GenerateRun(w, jsonReply, themeReply, layoutReply, parse, render);
      && (r.outcome == Saved <==> h.html.Success?)
      && (r.outcome == Saved ==> r.world.session[HtmlContent] == Text(h.html.value))
  {
    var s1 := ParseStep(w.session, jsonReply, parse)[SelectedTemplate := Text(Theme.SelectTemplate(themeReply))];
    var h := HtmlStep(w.(session := s1), s1[ParsedJson], layoutReply, render);
    GenerateRunStages(w, jsonReply, themeReply, layoutReply, parse, render);
    if h.html.Failure? {
      assert FinishRun(h).world == h.world;
      assert h.world.session[FileSaved] == s1[FileSaved] == w.session[FileSaved];
      assert h.world.session[HtmlContent] == s1[HtmlContent] == w.session[HtmlContent];
      assert h.world.indexFile == w.indexFile;
    }
  }

  /** A reply without a document writes no template and leaves `generated_template` alone. */
  lemma LayoutFailureChangesNothing(w: World, layoutReply: string)
    requires Layout.ExtractHtml(layoutReply) == None
    ensures DynamicTemplateStep(w, layoutReply) == w
  {
  }

  /** A reply with a document overwrites the template file with it and records the name. */
  lemma LayoutSuccessWrites(w: World, layoutReply: string)
    requires Layout.ExtractHtml(layoutReply).Some?
    ensures DynamicTemplateStep(w, layoutReply).templateFile == Layout.ExtractHtml(layoutReply)
    ensures DynamicTemplateStep(w, layoutReply).session == w.session[GeneratedTemplate := Text(TemplateName)]
  {
  }

  /** When the document cannot be extracted, the run goes on with the template
      file an earlier run left behind; only when there is none does it stop. */
  lemma StaleTemplateRendered(w: World, jsonReply: string, themeReply: string, layoutReply: string,
                              parse: string -> Option<Json>,
                              render: (string, map<string, Json>) -> Option<string>)
    requires Complete(w.session) && Layout.ExtractHtml(layoutReply) == None
    ensures var r := GenerateRun(w, jsonReply, themeReply, layoutReply, parse, render);
      r.world.templateFile == w.templateFile
      && r.world.session[GeneratedTemplate] == w.session[GeneratedTemplate]
      && (r.outcome == Aborted(TemplateMissing) <==> w.templateFile.None?)
  {
    var s1 := ParseStep(w.session, jsonReply, parse)[SelectedTemplate := Text(Theme.SelectTemplate(themeReply))];
    var h := HtmlStep(w.(session := s1), s1[ParsedJson], layoutReply, render);
    GenerateRunStages(w, jsonReply, themeReply, layoutReply, parse, render);
    LayoutFailureChangesNothing(w.(session := s1), layoutReply);
    assert h.world == w.(session := s1);
    var r := FinishRun(h);
    assert r.world.templateFile == w.templateFile;
    assert s1[GeneratedTemplate] == w.session[GeneratedTemplate];
    assert r.world.session[GeneratedTemplate] == h.world.session[GeneratedTemplate];
    assert h.html == Failure(TemplateMissing) <==> w.templateFile.None?;
    assert r.outcome == Aborted(TemplateMissing) <==> h.html == Failure(TemplateMissing);
  }

  /** ... and the page such a run saves is that old template rendered with the parsed data. */
  lemma StaleTemplateUsed(w: World, jsonReply: string, themeReply: string, layoutReply: string,
                          parse: string -> Option<Json>,
                          render: (string, map<string, Json>) -> Option<string>)
    requires Complete(w.session) && Layout.ExtractHtml(layoutReply) == None
    ensures var r := GenerateRun(w, jsonReply, themeReply, layoutReply, parse, render);
      var parsed := r.world.session[ParsedJson];
      r.outcome == Saved ==>
        && w.templateFile.Some? && parsed.Data? && parsed.json.JObject?
        && render(w.templateFile.value, parsed.json.fields).Some?
        && r.world.session[HtmlContent] == Text(render(w.templateFile.value, parsed.json.fields).value)
  {
    var s1 := ParseStep(w.session, jsonReply, parse)[SelectedTemplate := Text(Theme.SelectTemplate(themeReply))];
    var h := HtmlStep(w.(session := s1), s1[ParsedJson], layoutReply, render);
    GenerateRunStages(w, jsonReply, themeReply, layoutReply, parse, render);
    LayoutFailureChangesNothing(w.(session := s1), layoutReply);
    assert h.world == w.(session := s1);
    if h.html.Success? {
      assert FinishRun(h).world.session[ParsedJson] == s1[ParsedJson];
    }
  }

  /** A failed parse never leads to a saved portfolio, and the next click parses again. */
  lemma ParseFailureNeverSaves(w: World, jsonReply: string, themeReply: string, layoutReply: string,
                               parse: string -> Option<Json>,
                               render: (string, map<string, Json>) -> Option<string>)
    requires Complete(w.session) && w.session[ParsedJson] == Nothing
    requires Structurer.GenerateJson(jsonReply, parse) == None
    ensures var r := GenerateRun(w, jsonReply, themeReply, layoutReply, parse, render);
      r.outcome.Aborted? && r.world.session[ParsedJson] == Nothing
  {
    var s1 := ParseStep(w.session, jsonReply, parse)[SelectedTemplate := Text(Theme.SelectTemplate(themeReply))];
    var h := HtmlStep(w.(session := s1), s1[ParsedJson], layoutReply, render);
    GenerateRunStages(w, jsonReply, themeReply, layoutReply, parse, render);
    assert s1[ParsedJson] == Nothing;
    assert h.html.Failure?;
    assert FinishRun(h).world == h.world;
    assert h.world.session[ParsedJson] == s1[ParsedJson];
  }

  /** A click without a new upload keeps the parsed data; a new upload
      followed by a click parses the new reply. */
  lemma RerunParsedData(w: World, ev: Event, parse: string -> Option<Json>,
                        render: (string, map<string, Json>) -> Option<string>)
    requires Consistent(w)
    ensures !ev.fileChanged && ParsedJson in w.session && w.session[ParsedJson] != Nothing ==>
      RerunStep(w, ev, parse, render).session[ParsedJson] == w.session[ParsedJson]
    ensures ev.fileChanged && ev.clicked && ev.hasFile ==>
      RerunStep(w, ev, parse, render).session[ParsedJson] == FromParse(Structurer.GenerateJson(ev.jsonReply, parse))
    ensures ev.fileChanged && !(ev.clicked && ev.hasFile) ==>
      RerunStep(w, ev, parse, render).session == ResetSession(w.session)
  {
    var w1 := if ev.fileChanged then w.(session := ResetSession(w.session)) else w;
    var w2 := w1.(session := InitSession(w1.session));
    if ev.clicked && ev.hasFile {
      if w2.session[ParsedJson] != Nothing {
        GenerateReusesParse(w2, ev.jsonReply, ev.jsonReply, ev.themeReply, ev.layoutReply, parse, render);
      } else {
        GenerateParsesWhenEmpty(w2, ev.jsonReply, ev.themeReply, ev.layoutReply, parse, render);
      }
    }
  }

  /** The running script: the session dictionary and the two files. */
  class App {
    var session: State
    var templateFile: Option<string>
    var indexFile: Option<string>

    function Snapshot(): World
      reads this
    {
      World(session, templateFile, indexFile)
    }

    /** A new browser session starts with no keys; the files on disk are
        whatever earlier runs left there. */
    constructor(templateFile: Option<string>, indexFile: Option<string>)
      ensures Snapshot() == World(map[], templateFile, indexFile)
    {
      session := map[];
      this.templateFile := templateFile;
      this.indexFile := indexFile;
    }

    /** `reset_state`, run when a new file is uploaded. */
    method ResetState()
      modifies this
      ensures Snapshot() == old(Snapshot()).(session := ResetSession(old(session)))
    {
      session := session[ParsedJson := Nothing];
      session := session[SelectedTemplate := Nothing];
      session := session[HtmlContent := Nothing];
      session := session[FileSaved := Flag(false)];
      session := session[GeneratedTemplate := Nothing];
    }

    /** The initialisation block at the top of every run of the script. */
    method InitState()
      modifies this
      ensures Snapshot() == old(Snapshot()).(session := InitSession(old(session)))
    {
      if ParsedJson !in session {
        session := session[ParsedJson := Nothing];
      }
      if SelectedTemplate !in session {
        session := session[SelectedTemplate := Nothing];
      }
      if HtmlContent !in session {
        session := session[HtmlContent := Nothing];
      }
      if FileSaved !in session {
        session := session[FileSaved := Flag(false)];
      }
      if GeneratedTemplate !in session {
        session := session[GeneratedTemplate := Nothing];
      }
    }

    /** `generate_dynamic_template`, given the model's reply. */
    method GenerateDynamicTemplate(layoutReply: string) returns (doc: Option<string>)
      modifies this
      ensures doc == Layout.ExtractHtml(layoutReply)
      ensures Snapshot() == DynamicTemplateStep(old(Snapshot()), layoutReply)
    {
      doc := Layout.ExtractHtml(layoutReply);
      if doc.Some? {
        templateFile := doc;
        session := session[GeneratedTemplate := Text(TemplateName)];
      }
    }

    /** `generate_html`: `Failure` stands for the exception it raises. */
    method GenerateHtml(parsed: Value, layoutReply: string,
                        render: (string, map<string, Json>) -> Option<string>)
      returns (html: Result<string, Failure>)
      modifies this
      ensures HtmlRun(Snapshot(), html) == HtmlStep(old(Snapshot()), parsed, layoutReply, render)
    {
      ghost var w0 := Snapshot();
      var _ := GenerateDynamicTemplate(layoutReply);
      ghost var w1 := Snapshot();
      assert w1 == DynamicTemplateStep(w0, layoutReply);
      if templateFile.None? {
        assert HtmlStep(w0, parsed, layoutReply, render) == HtmlRun(w1, Failure(TemplateMissing));
        return Failure(TemplateMissing);
      }
      var content := templateFile.value;
      if !(parsed.Data? && parsed.json.JObject?) {
        assert HtmlStep(w0, parsed, layoutReply, render) == HtmlRun(w1, Failure(RenderError));
        return Failure(RenderError);
      }
      var rendered := render(content, parsed.json.fields);
      if rendered.None? {
        assert HtmlStep(w0, parsed, layoutReply, render) == HtmlRun(w1, Failure(RenderError));
        return Failure(RenderError);
      }
      html := Success(rendered.value);
      assert HtmlStep(w0, parsed, layoutReply, render) == HtmlRun(w1, html);
    }

    /** The Generate branch, run when the button is clicked with a file uploaded. */
    method Generate(jsonReply: string, themeReply: string, layoutReply: string,
                    parse: string -> Option<Json>,
                    render: (string, map<string, Json>) -> Option<string>)
      returns (outcome: Outcome)
      requires Complete(session)
      modifies this
      ensures Run(Snapshot(), outcome) == GenerateRun(old(Snapshot()), jsonReply, themeReply, layoutReply, parse, render)
    {
      if session[ParsedJson] == Nothing {
        session := session[ParsedJson := FromParse(Structurer.GenerateJson(jsonReply, parse))];
      }
      session := session[SelectedTemplate := Text(Theme.SelectTemplate(themeReply))];
      ghost var h := HtmlStep(Snapshot(), session[ParsedJson], layoutReply, render);
      assert GenerateRun(old(Snapshot()), jsonReply, themeReply, layoutReply, parse, render) == FinishRun(h);
      var html := GenerateHtml(session[ParsedJson], layoutReply, render);
      assert h == HtmlRun(Snapshot(), html);
      if html.Failure? {
        return Aborted(html.error);
      }
      session := session[HtmlContent := Text(html.value)];
      indexFile := Some(html.value);
      session := session[FileSaved := Flag(true)];
      outcome := Saved;
    }

    /** One run of the script after a user action. */
    method Rerun(ev: Event, parse: string -> Option<Json>,
                 render: (string, map<string, Json>) -> Option<string>)
      modifies this
      ensures Snapshot() == RerunStep(old(Snapshot()), ev, parse, render)
    {
      if ev.fileChanged {
        ResetState();
      }
      InitState();
      if ev.clicked && ev.hasFile {
        var _ := Generate(ev.jsonReply, ev.themeReply, ev.layoutReply, parse, render);
      }
    }
  }
}
