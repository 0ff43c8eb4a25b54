/** The content writer's deterministic heuristics around its language model:
    save-keyword detection, file-name extraction, the save/end routing, the
    save node's result text and the composition of the final answer. */
module ContentWriter {
  import opened Common
  import opened Text
  import ToolBridge

  // ---------------------------------------------------------------------------
  // Save detection
  // ---------------------------------------------------------------------------

  const SaveKeywords: seq<string> := ["save", "write to file", "store", "save to", "save as"]

  /** `any(keyword in query.lower() for keyword in SaveKeywords)` */
  predicate ShouldSave(query: string)
  {
    exists k :: 0 <= k < |SaveKeywords| && Contains(Lower(query), SaveKeywords[k])
  }

  /** "save to" and "save as" add nothing: they contain "save", so the save
      decision comes down to three keywords. */
  lemma ShouldSaveThreeKeywords(query: string)
    ensures ShouldSave(query) <==>
      Contains(Lower(query), "save") || Contains(Lower(query), "write to file") || Contains(Lower(query), "store")
  {
    var q := Lower(query);
    if Contains(q, "save to") {
      ContainsPrefix(q, "save to", 4);
      assert "save to"[..4] == "save";
    }
    if Contains(q, "save as") {
      ContainsPrefix(q, "save as", 4);
      assert "save as"[..4] == "save";
    }
    if Contains(q, "save") {
      assert Contains(q, SaveKeywords[0]);
    }
    if Contains(q, "write to file") {
      assert Contains(q, SaveKeywords[1]);
    }
    if Contains(q, "store") {
      assert Contains(q, SaveKeywords[2]);
    }
  }

  // ---------------------------------------------------------------------------
  // File names
  // ---------------------------------------------------------------------------

  const FilenameMarkers: seq<string> := ["save as ", "save to ", "write to "]

  /** `query[idx:].strip().split()[0] if idx < len(query) else ""`: the
      first whitespace-separated token from `idx` on; a remainder of
      whitespace only makes `split()[0]` raise IndexError. */
  function TokenFrom(query: string, idx: nat): (r: Result<string>)
    requires idx <= |query|
    ensures r.Err? <==> idx < |query| && forall i :: idx <= i < |query| ==> IsSpace(query[i])
    ensures r.Err? ==> r.error == IndexErrorText
    ensures idx == |query| ==> r == Ok("")
    ensures r.Ok? && idx < |query| ==> exists p :: TokenAt(query[idx..], r.value, p)
  {
    if idx < |query| then
      match FirstToken(query[idx..])
      case None => Err(IndexErrorText)
      case Some(token) => Ok(token)
    else Ok("")
  }

  /** What one marker yields: the token of the original query after the
      marker's first occurrence in the lowercased query; "" when the marker
      is absent or ends the query. */
  function Candidate(query: string, marker: string): (r: Result<string>)
    ensures r.Err? ==> r.error == IndexErrorText
    ensures !Contains(Lower(query), marker) ==> r == Ok("")
    ensures Contains(Lower(query), marker) ==> r == TokenFrom(query, MarkerEnd(query, marker))
  {
    if Contains(Lower(query), marker) then TokenFrom(query, MarkerEnd(query, marker)) else Ok("")
  }

  /** `query_lower.index(marker) + len(marker)`: just past the marker's first
      occurrence in the lowercased query. */
  function MarkerEnd(query: string, marker: string): (e: nat)
    requires Contains(Lower(query), marker)
    ensures |marker| <= e <= |query|
    ensures OccursAt(Lower(query), marker, e - |marker|)
    ensures forall j :: 0 <= j < e - |marker| ==> !OccursAt(Lower(query), marker, j)
  {
    IndexOf(Lower(query), marker).value + |marker|
  }

  /** A candidate without a dot gets ".md". */
  function WithExtension(candidate: string): (r: string)
    ensures '.' in r
    ensures '.' in candidate ==> r == candidate
    ensures '.' !in candidate ==> r == candidate + ".md"
  {
    if '.' !in candidate then candidate + ".md" else candidate
  }

  /** The file name chosen from the content type named in the query. */
  function DefaultFilename(lower: string): (r: string)
    ensures '.' in r && r != ""
    ensures Contains(lower, "blog") ==> r == "blog_post.md"
    ensures !Contains(lower, "blog") && Contains(lower, "article") ==> r == "article.md"
    ensures !Contains(lower, "blog") && !Contains(lower, "article") && Contains(lower, "email") ==> r == "email.md"
    ensures !Contains(lower, "blog") && !Contains(lower, "article") && !Contains(lower, "email") ==> r == "content.md"
  {
    if Contains(lower, "blog") then "blog_post.md"
    else if Contains(lower, "article") then "article.md"
    else if Contains(lower, "email") then "email.md"
    else "content.md"
  }

  /** Marker `k` decides the search: its candidate is non-empty or a crash,
      and every marker before it yielded "". */
  predicate Decides(query: string, markers: seq<string>, k: int)
  {
    && 0 <= k < |markers|
    && Candidate(query, markers[k]) != Ok("")
    && forall j :: 0 <= j < k ==> Candidate(query, markers[j]) == Ok("")
  }

  /** The marker loop: the first marker with a non-empty candidate decides;
      a crash on one marker ends the search. None: no marker decided. */
  function ExtractFrom(query: string, markers: seq<string>): (r: Result<Option<string>>)
    ensures r.Ok? && r.value.Some? ==> '.' in r.value.value
    ensures forall k :: Decides(query, markers, k) && Candidate(query, markers[k]).Ok? ==>
      r == Ok(Some(WithExtension(Candidate(query, markers[k]).value)))
    ensures forall k :: Decides(query, markers, k) && Candidate(query, markers[k]).Err? ==>
      r == Err(Candidate(query, markers[k]).error)
    ensures r == Ok(None) <==> forall k :: 0 <= k < |markers| ==> Candidate(query, markers[k]) == Ok("")
    ensures r.Err? ==> r.error == IndexErrorText
  {
    if |markers| == 0 then Ok(None)
    else match Candidate(query, markers[0])
      case Err(e) => Err(e)
      case Ok(c) =>
        if c != "" then Ok(Some(WithExtension(c)))
        else
          var rest := ExtractFrom(query, markers[1..]);
          DecidesTail(query, markers);
          rest
  }

  /** Once the first marker yields "", the marker deciding the search is the
      one deciding it among the remaining markers. */
  lemma DecidesTail(query: string, markers: seq<string>)
    requires |markers| > 0 && Candidate(query, markers[0]) == Ok("")
    ensures forall k :: Decides(query, markers, k) ==> k > 0 && Decides(query, markers[1..], k - 1)
  {
    forall k | Decides(query, markers, k)
      ensures k > 0 && Decides(query, markers[1..], k - 1)
    {
      forall j | 0 <= j < k - 1
        ensures Candidate(query, markers[1..][j]) == Ok("")
      {
        assert markers[1..][j] == markers[j + 1];
      }
    }
  }

  /** `_extract_filename`. */
  function ExtractFilename(query: string): (r: Result<string>)
    ensures r.Ok? ==> r.value != "" && '.' in r.value
    ensures r.Err? ==> r.error == IndexErrorText
    ensures ExtractFrom(query, FilenameMarkers) == Ok(None) ==> r == Ok(DefaultFilename(Lower(query)))
    ensures ExtractFrom(query, FilenameMarkers).Ok? && ExtractFrom(query, FilenameMarkers).value.Some? ==>
      r == Ok(ExtractFrom(query, FilenameMarkers).value.value)
    ensures ExtractFrom(query, FilenameMarkers).Err? ==> r == Err(ExtractFrom(query, FilenameMarkers).error)
  {
    match ExtractFrom(query, FilenameMarkers)
    case Err(e) => Err(e)
    case Ok(Some(name)) => Ok(name)
    case Ok(None) => Ok(DefaultFilename(Lower(query)))
  }

  /** With none of the markers in the query, the name comes from the
      content-type keywords. */
  lemma NoMarkerMeansDefault(query: string)
    requires forall k :: 0 <= k < |FilenameMarkers| ==> !Contains(Lower(query), FilenameMarkers[k])
    ensures ExtractFilename(query) == Ok(DefaultFilename(Lower(query)))
  {
  }

  /** A string without whitespace is its own first token. */
  lemma SingleToken(s: string)
    requires s != [] && forall i :: 0 <= i < |s| ==> !IsSpace(s[i])
    ensures FirstToken(s) == Some(s)
  {
    assert !IsSpace(s[0]);
    assert SkipSpaces(s) == 0;
    assert s[0..] == s;
    assert TakeToken(s) == |s|;
    assert s[0..0 + |s|] == s;
  }

  /** "save as " is already lower case. */
  lemma SaveAsLeads(rest: string)
    ensures IndexOf(Lower("save as " + rest), "save as ") == Some(0)
  {
  }

  /** A name given after "save as" keeps the query's own case, and gains
      ".md" when it has no extension. */
  lemma {:induction false} ExtractFilenameAfterMarker(name: string)
    requires name != [] && forall i :: 0 <= i < |name| ==> !IsSpace(name[i])
    requires '.' !in name
    ensures ExtractFilename("save as " + name) == Ok(name + ".md")
  {
    var q := "save as " + name;
    SaveAsLeads(name);
    assert q[8..] == name;
    SingleToken(name);
    assert TokenFrom(q, 8) == Ok(name);
    assert Candidate(q, FilenameMarkers[0]) == Ok(name);
    assert ExtractFrom(q, FilenameMarkers) == Ok(Some(name + ".md"));
  }

  /** The crash the code carries: "save as " followed by whitespace only
      makes `split()[0]` raise, instead of falling back to a default. */
  lemma {:induction false} ExtractFilenameCrashes(spaces: string)
    requires spaces != [] && forall i :: 0 <= i < |spaces| ==> IsSpace(spaces[i])
    ensures ExtractFilename("save as " + spaces) == Err(IndexErrorText)
  {
    var q := "save as " + spaces;
    SaveAsLeads(spaces);
    assert q[8..] == spaces;
    assert TokenFrom(q, 8) == Err(IndexErrorText);
    assert Candidate(q, FilenameMarkers[0]) == Err(IndexErrorText);
  }

  // ---------------------------------------------------------------------------
  // The graph: generate, route, save
  // ---------------------------------------------------------------------------

  /** What `_generate_content` adds to the graph state. */
  datatype Generated = Generated(finalContent: string, shouldSave: bool, saveFilename: string)

  /** `_generate_content` after the model answered with `content`. */
  function GenerateContent(query: string, content: string): (r: Result<Generated>)
    ensures r.Ok? ==> r.value.finalContent == content && r.value.shouldSave == ShouldSave(query)
    ensures r.Ok? && !r.value.shouldSave ==> r.value.saveFilename == ""
    ensures r.Ok? && r.value.shouldSave ==> ExtractFilename(query) == Ok(r.value.saveFilename)
    ensures r.Err? <==> ShouldSave(query) && ExtractFilename(query).Err?
  {
    if ShouldSave(query) then
      match ExtractFilename(query)
      case Ok(name) => Ok(Generated(content, true, name))
      case Err(e) => Err(e)
    else Ok(Generated(content, false, ""))
  }

  datatype Route = Save | End

  /** `_should_save_content` */
  function NextStep(shouldSave: bool, hasSession: bool): (r: Route)
    ensures r == Save <==> shouldSave && hasSession
  {
    if shouldSave && hasSession then Save else End
  }

  const NoServerText := "Filesystem MCP server not available."
  const SavedText := "File saved successfully."

  function SaveErrorText(message: string): string
  {
    "Error saving file: " + message
  }

  /** The text of the first text-bearing item. */
  function FirstText(content: seq<ToolBridge.ContentItem>): (r: Option<string>)
    ensures r.None? <==> ToolBridge.Texts(content) == []
    ensures r.Some? ==> r.value == ToolBridge.Texts(content)[0]
  {
    if |content| == 0 then None
    else
      ToolBridge.TextsConcat([content[0]], content[1..]);
      assert [content[0]] + content[1..] == content;
      assert [content[0]][..0] == [];
      match content[0]
      case TextContent(t) => Some(t)
      case OtherContent => FirstText(content[1..])
  }

  /** `_save_content`: the save node's result text. */
  function SaveContent(hasSession: bool, outcome: ToolBridge.CallOutcome): (r: string)
    ensures r != ""
    ensures !hasSession ==> r == NoServerText
    ensures hasSession && outcome.Raised? ==> r == SaveErrorText(outcome.message)
    ensures hasSession && outcome.Returned? ==>
      var texts := ToolBridge.Texts(outcome.content);
      r == if texts != [] && texts[0] != "" then texts[0] else SavedText
  {
    if !hasSession then NoServerText
    else match outcome
      case Raised(e) => SaveErrorText(e)
      case Returned(content) =>
        match FirstText(content)
        case Some(t) => if t != "" then t else SavedText
        case None => SavedText
  }

  /** The graph's final state, as far as `invoke` reads it. */
  datatype GraphResult = GraphResult(finalContent: string, saveResult: string)

  /** One run of the compiled graph. `generate` is the model's answer to the
      query (or its exception); `write(filename, content)` the filesystem
      server's `write_file`. */
  function RunGraph(query: string, generate: string -> Result<string>, hasSession: bool,
                    write: (string, string) -> ToolBridge.CallOutcome): (r: Result<GraphResult>)
    ensures generate(query).Err? ==> r == Err(generate(query).error)
    ensures r.Ok? ==> r.value.finalContent == generate(query).value
    ensures r.Ok? ==> (r.value.saveResult != "" <==> NextStep(ShouldSave(query), hasSession) == Save)
    ensures r.Ok? && NextStep(ShouldSave(query), hasSession) == Save ==>
      && ExtractFilename(query).Ok?
      && r.value.saveResult == SaveContent(hasSession, write(ExtractFilename(query).value, generate(query).value))
    ensures generate(query).Ok? && ShouldSave(query) && ExtractFilename(query).Err? ==>
      r == Err(ExtractFilename(query).error)
    ensures r.Ok? <==> generate(query).Ok? && (!ShouldSave(query) || ExtractFilename(query).Ok?)
  {
    match generate(query)
    case Err(e) => Err(e)
    case Ok(content) =>
      match GenerateContent(query, content)
      case Err(e) => Err(e)
      case Ok(g) =>
        if NextStep(g.shouldSave, hasSession) == Save then
          Ok(GraphResult(content, SaveContent(hasSession, write(g.saveFilename, content))))
        else
          Ok(GraphResult(content, ""))
  }

  const SaveSeparator := "\n\n---\n"

  /** The answer: the content, followed by the separator and the save
      result when there is one. */
  function Compose(finalContent: string, saveResult: string): (r: string)
    ensures |r| >= |finalContent| && r[..|finalContent|] == finalContent
    ensures saveResult == "" ==> r == finalContent
    ensures saveResult != "" ==> r[|finalContent|..] == SaveSeparator + saveResult
  {
    if saveResult != "" then finalContent + SaveSeparator + saveResult else finalContent
  }

  const GeneratingText := "Generating content..."

  function WriterErrorText(message: string): string
  {
    "Error in content writer: " + message
  }

  /** `invoke`: one progress item, then exactly one final item, on every
      path. */
  function Invoke(query: string, generate: string -> Result<string>, hasSession: bool,
                  write: (string, string) -> ToolBridge.CallOutcome): (r: seq<Update>)
    ensures |r| == 2
    ensures r[0] == Update(false, GeneratingText)
    ensures r[1].isTaskComplete
    ensures RunGraph(query, generate, hasSession, write).Ok? ==>
      var res := RunGraph(query, generate, hasSession, write).value;
      r[1].text == Compose(res.finalContent, res.saveResult)
    ensures RunGraph(query, generate, hasSession, write).Err? ==>
      r[1].text == WriterErrorText(RunGraph(query, generate, hasSession, write).error)
  {
    match RunGraph(query, generate, hasSession, write)
    case Ok(res) => [Update(false, GeneratingText), Update(true, Compose(res.finalContent, res.saveResult))]
    case Err(e) => [Update(false, GeneratingText), Update(true, WriterErrorText(e))]
  }

  /** When the graph runs through, the final item is the generated content,
      extended by the separator exactly when the save node ran. */
  lemma FinalItemShowsSave(query: string, generate: string -> Result<string>, hasSession: bool,
                                              write: (string, string) -> ToolBridge.CallOutcome)
    requires RunGraph(query, generate, hasSession, write).Ok?
    ensures
      var content := generate(query).value;
      var text := Invoke(query, generate, hasSession, write)[1].text;
      && text[..|content|] == content
      && (|text| > |content| <==> ShouldSave(query) && hasSession)
  {
  }

  /** A query without save keywords is answered with the content alone and
      nothing is written. */
  lemma {:induction false} NoSaveKeywordNoSave(query: string, generate: string -> Result<string>, hasSession: bool,
                                              write: (string, string) -> ToolBridge.CallOutcome)
    requires generate(query).Ok?
    requires !ShouldSave(query)
    ensures RunGraph(query, generate, hasSession, write) == Ok(GraphResult(generate(query).value, ""))
  {
  }
}
