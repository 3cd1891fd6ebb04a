# PortfolioGenerator, modelled in Dafny

PortfolioGenerator is a Streamlit script, `portfolio.py`. It turns an uploaded
resume into a portfolio web page with the help of three language-model prompts:

1. The *structurer* asks for the resume as JSON. It cuts the first `{` … last
   `}` span out of the reply and parses it.
2. The *theme selector* asks for one of ten theme names. It normalises the reply
   with `strip().lower()` and falls back to `tech`.
3. The *layout generator* asks for a Jinja2 page. It cuts the `<html` … last
   `</html>` span out of the stripped reply and writes it to the template file.

The script then renders that template with the parsed data, writes `index.html`
and sets `file_saved`. All of this state lives in `st.session_state` and in two
files, and survives between reruns of the script.

The model is split into these modules:

- `Ascii`: Python's `str.strip()` and `str.lower()`. Strip is written as the two
  index scans that CPython performs.
- `Search`: the two `re.search` patterns of the form `open.*close` with
  `re.DOTALL`.
  - The predicate `IsSearchResult` states what the regex engine reports: the
    leftmost start and, for that start, the rightmost end.
  - `SearchSpan` computes the span from the first `open` and the last `close`.
  - The two are proved to agree.
- `Theme`: `select_template`.
- `Structurer`: the extraction in `generate_json`.
- `Layout`: the extraction in `generate_dynamic_template`.
- `Session`: the session dictionary as a `map<Field, Value>`, plus the
  world-level spec functions.
  - `ResetSession`, `InitSession`, `DynamicTemplateStep`, `HtmlStep`,
    `GenerateRun` and `RerunStep` are pure functions of that state.
  - The class `App` holds the mutable script state: the session and the
    contents of `templates/generated_template.html` and `index.html`. Each of
    its methods is proved to produce exactly the state its spec function
    describes.
  - A key absent from the map is a key absent from `st.session_state`.
  - `Consistent` is the invariant kept on every path of a rerun. Every key holds
    a value of its type. A recorded template name implies the template file
    exists. `file_saved` is true only when `index.html` holds `html_content`.

Calls the model cannot see become parameters:

- Each language-model reply is a `string`.
- `json.loads` is a `parse: string -> Option<Json>`.
- Jinja2's `Template(t).render(**d)` is a `render: (string, map<string, Json>) -> Option<string>`.

In both, `None` stands for the call raising an exception.

Two details of the code the model keeps as written:

- The accepted list on `portfolio.py:80` has thirteen entries but only ten
  distinct labels, so a reply is accepted exactly when it is one of ten names.
- A failed parse does not halt the run. `generate_json` returns `None`, after
  which the theme is still chosen and the layout prompt still runs. Only
  `render(**None)` then raises. `GenerateRun` models this: the theme and any
  new template are stored, and the run is aborted before `html_content`,
  `index.html` and `file_saved` are touched.

## Model

| member | source | states |
|---|---|---|
| Ascii.Strip | portfolio.py:79 | the result is an infix `s[i..j]` with only spaces before `i` and after `j`, and neither begins nor ends with a space |
| Ascii.StripEmpty | portfolio.py:109 | `strip()` gives the empty string exactly when the whole reply is white space |
| Ascii.StripPadded | portfolio.py:79 | a core that neither begins nor ends with a space, padded by spaces, strips to that core |
| Ascii.StripIdempotent | portfolio.py:79 | stripping twice is stripping once |
| Ascii.Lower | portfolio.py:79 | `lower()` keeps the length, lower-cases each character on its own and leaves no upper-case letter |
| Ascii.LowerNoUpper | portfolio.py:79 | text without upper-case letters is unchanged by `lower()` |
| Theme.SelectTemplate | portfolio.py:79-80 | the result is always one of the ten labels: the normalised reply when it is a label, otherwise "tech" |
| Theme.ChoicesAreLabels | portfolio.py:80 | the thirteen-entry list and the set of ten labels accept the same strings, and the fallback is a label |
| Theme.ListSizes | portfolio.py:80 | the list has thirteen entries and ten distinct labels |
| Theme.Normalize | portfolio.py:79 | the normalised reply has no capitals, no white space at either end, and is empty exactly when the reply is all white space |
| Theme.NormalizeNormal | portfolio.py:79 | a string without spaces or capitals is its own normal form |
| Theme.LabelIsNormal | portfolio.py:80 | every label is its own normal form |
| Theme.SelectTemplateIdempotent | portfolio.py:79-80 | selecting again from a selected theme returns the same theme |
| Theme.SelectTemplateIff | portfolio.py:79-80 | label `l` is chosen if and only if the normalised reply is `l`, or the reply is no label and `l` is "tech" |
| Theme.PaddedLabelAccepted | portfolio.py:79-80 | a word padded by white space is chosen as its lower-case form when that is a label |
| Theme.PaddedCapitalisedLabel | portfolio.py:79-80 | the reply "  Tech  " selects "tech" |
| Theme.NormalNonLabelFallsBack | portfolio.py:80 | a normalised reply that is no label gives "tech" |
| Theme.UnknownLabelFallsBack | portfolio.py:80 | the reply "fancy" gives "tech" |
| Search.FirstFrom | portfolio.py:53 | the first occurrence of a pattern at or after a position, or none when there is no occurrence there |
| Search.LastUpTo | portfolio.py:53 | the last occurrence of a pattern starting at or before a position, or none |
| Search.SearchSpan | portfolio.py:53 | when a span is returned it is the regex engine's match (leftmost start, then rightmost end); none is returned exactly when no match exists |
| Search.MatchShape | portfolio.py:110 | a match begins with `open`, ends with `close` and holds both without overlap |
| Search.SearchResultIsFirstToLast | portfolio.py:110 | the regex's match is exactly the span from the first `open` to the end of the last `close` that follows it |
| Structurer.JsonSpan | portfolio.py:53-54 | a span is found exactly when some `{` precedes some `}`; the span runs from the first `{` to the last `}` |
| Structurer.BraceSpanUnique | portfolio.py:53 | at most one string has the shape of the brace span |
| Structurer.BlockAmidText | portfolio.py:53 | a block with no `{` before it and no `}` after it is extracted exactly |
| Structurer.GreedySpanJoinsObjects | portfolio.py:53 | two objects in one reply are extracted as one span from the first `{` to the last `}` |
| Structurer.GenerateJson | portfolio.py:49-60 | no brace pair gives `None`; otherwise the result is the parser's result on the brace span, with `None` for a parse error |
| Structurer.AnnExample | portfolio.py:53-56 | a reply with prose around `{"name": "Ann"}` yields the parsed object |
| Layout.ExtractHtml | portfolio.py:109-112 | the result is the first `<html` to last `</html>` span of the stripped reply, begins with `<html` and ends with `</html>`; it is `None` exactly when no `<html` is followed by a `</html>` |
| Layout.DocumentShape | portfolio.py:110-112 | a found document is the first-to-last span and is at least twelve characters long |
| Layout.NoDocument | portfolio.py:110-111 | when the search finds nothing, no `<html` is followed by a `</html>` |
| Session.ResetSession | portfolio.py:14-20 | afterwards all five keys are present, each holding its default |
| Session.InitSession | portfolio.py:22-31 | afterwards all five keys are present; a present key keeps its value and an absent one gets its default |
| Session.InitIdempotent | portfolio.py:22-31 | running the initialisation block twice is running it once |
| Session.InitAfterReset | portfolio.py:14-31 | after `reset_state` the initialisation block changes nothing |
| Session.FreshSessionIsReset | portfolio.py:14-31 | an initialised new session equals a reset one |
| Session.DynamicTemplateStep | portfolio.py:108-118 | the step loses no key, leaves `index.html` and every key but `generated_template` unchanged |
| Session.LayoutFailureChangesNothing | portfolio.py:111-118 | a reply without a document changes nothing |
| Session.LayoutSuccessWrites | portfolio.py:111-116 | a reply with a document overwrites the template file with it and records "generated_template" |
| Session.HtmlStep | portfolio.py:82-91 | a missing template file is the one failure `TemplateMissing`; success means a template exists, the data is an object and the render succeeded, and then the page is the render's output |
| Session.ParseStep | portfolio.py:135-137 | parsing adds no key and changes no key but `parsed_json` |
| Session.FinishRun | portfolio.py:141-146 | after a successful render the run is saved, `html_content` holds this run's page, `index.html` holds the same page and `file_saved` is true; every other key and the template file are kept; after a failure the run aborts with that failure and nothing changes |
| Session.GenerateRun | portfolio.py:135-146 | a run from a complete session leaves a complete session; a saved run has `file_saved` true and `index.html` holding `html_content` |
| Session.ResetConsistent | portfolio.py:14-20 | a reset session is consistent |
| Session.InitConsistent | portfolio.py:22-31 | the initialisation block keeps consistency |
| Session.HtmlStepConsistent | portfolio.py:82-118 | `generate_html` keeps consistency and does not touch `index.html` |
| Session.ParseStepConsistent | portfolio.py:135-140 | parsing and storing the theme keep consistency |
| Session.FinishConsistent | portfolio.py:141-146 | storing the page, writing `index.html` and setting `file_saved` keep consistency |
| Session.GenerateConsistent | portfolio.py:135-146 | a whole Generate run keeps consistency |
| Session.RerunStep | portfolio.py:14-146 | one rerun of the script leaves all five keys present; without a click on a loaded file neither file changes, and a new upload alone leaves exactly the reset session |
| Session.RerunConsistent | portfolio.py:123-146 | one rerun of the script keeps consistency |
| Session.ReachableConsistent | portfolio.py:14-146 | every state reached by any sequence of reruns from a consistent state is consistent |
| Session.FreshConsistent | portfolio.py:22-31 | a new session is consistent whatever the files on disk hold |
| Session.GenerateReusesParse | portfolio.py:135 | once parsed data is held, a run keeps it and does not depend on the structurer's reply |
| Session.GenerateParsesWhenEmpty | portfolio.py:135-137 | without parsed data, a run stores `generate_json`'s result for this reply |
| Session.GenerateReassignsTheme | portfolio.py:140 | every run, successful or not, stores the theme chosen from this run's reply |
| Session.GenerateSaveOrder | portfolio.py:141-146 | a run is saved exactly when its `generate_html` step succeeds, and then `html_content` is that step's page, `file_saved` is true and `index.html` equals `html_content`; an aborted run leaves `html_content`, `file_saved` and `index.html` as they were |
| Session.StaleTemplateRendered | portfolio.py:85-118 | without a document in the reply the old template file and `generated_template` are kept; the run stops for a missing template exactly when no file exists |
| Session.StaleTemplateUsed | portfolio.py:85-91 | without a document in the reply, a saved run's `html_content` is the old template file rendered with the parsed object |
| Session.ParseFailureNeverSaves | portfolio.py:135-141 | a failed parse aborts the run and leaves `parsed_json` empty for the next click |
| Session.RerunParsedData | portfolio.py:123-137 | a click without a new upload keeps the parsed data; a new upload and a click parse the new reply; a new upload alone resets the session |
| Session.App.ResetState | portfolio.py:14-20 | the session becomes the reset session; the files are untouched |
| Session.App.InitState | portfolio.py:22-31 | the session becomes the initialised session; the files are untouched |
| Session.App.GenerateDynamicTemplate | portfolio.py:108-118 | returns the extracted document, and the new state is the step's result |
| Session.App.GenerateHtml | portfolio.py:82-91 | the new state and the returned page or failure are exactly `HtmlStep`'s |
| Session.App.Generate | portfolio.py:135-146 | the new state and the outcome are exactly `GenerateRun`'s |
| Session.App.Rerun | portfolio.py:123-126 | the new state is exactly `RerunStep`'s |

## Left out

- The three language-model calls are left out, because they are network I/O. Their replies are inputs.
- `json.loads` is a `parse` parameter. The model keeps only the text the parser receives and whether the parser raised.
- Jinja2's `Template(...).render(**data)` is a `render` parameter. A template syntax error and a render error are the same `None`.
- `render(**d)` on a value that is not a dictionary is modelled as the same failure.
- JSON numbers are integers only. Floating point is left out.
- `Json` does not model key order during rendering.
- `extract_text_from_pdf` is not part of this model. Nor are saving and removing the uploaded PDF (lines 41-47, 128-133). These are file and library I/O, and nothing else uses their result beyond the prompt text.
- The `parser.json` write (lines 138-139) is left out. No other part of the script reads it.
- Everything Streamlit draws is left out: the title, messages, spinner, preview, download button, and the `st.error` calls in `generate_json`. Only the uploader's `on_change` and the button state are kept, as the fields of `Event`.
- The prompt texts, and the theme passed into the layout prompt, are left out. They only shape the language model's reply.
- The `print("Resetting State")` in `reset_state` (line 15) is left out. It is console output only.
- `generate_json` catches only `json.JSONDecodeError` (line 57). Any other exception from `json.loads`, such as a `RecursionError` on deeply nested input, escapes and ends the run before line 137 assigns `parsed_json`. The model's `parse` returning `None` treats every failure as the caught one.
- `parse` may return a value that is not an object for a brace span. `json.loads` cannot do that for text starting with `{`: it returns a dict or raises. So the branch of `HtmlStep` that fails for non-object data is reached in the source only through `None`.
- Ascii.Strip: only ASCII white space is removed. Python also strips other Unicode white space.
- Ascii.Lower: only `A`-`Z` are lower-cased. Python also lower-cases other scripts, and can change the length, for example with U+0130.
- Exceptions are not modelled in the files themselves. The only outcomes are a missing template file and a failed render. A failure to write a file is not modelled.
- Session.App: concurrent sessions and Streamlit's rerun scheduling are left out. Each rerun is one call of `Rerun`.
