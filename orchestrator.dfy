/**
 * `post_to_linkedin_with_image` and the topic cursor it advances: one run
 * generates the content, then the diagram, uploads the diagram and creates
 * the post, stopping at the first of the first three stages that yields
 * nothing. The cursor moves to the next topic only when the run reaches its
 * last line; a failed post does not stop it, since `post_to_linkedin`
 * swallows its own errors.
 */
module Orchestrator {
  import opened Wrappers
  import Json
  import opened Text
  import opened Catalog
  import opened Calls
  import opened Content
  import opened Diagrams
  import opened Publisher
  import Startup

  /** What the outside world answers during one run. */
  datatype Outcomes = Outcomes(
    generated: Option<string>,          // the generator's text; None when it raised
    rendered: bool,                     // the renderer finished without raising
    registerReply: Option<Json.Value>,  // the decoded registration reply; None when that request failed
    uploaded: bool,                     // the binary upload succeeded
    postAccepted: bool)                 // the post request succeeded

  /** How a run ends, as its last log line says. */
  datatype RunStatus = NoContent | NoDiagram | NoUpload | PostFailed | Posted

  datatype RunResult = RunResult(status: RunStatus, calls: seq<Call>, next: nat)

  /** The stripped text is worth posting. */
  predicate ContentOk(o: Outcomes) {
    o.generated.Some? && !AllSpace(o.generated.value)
  }

  /** The registration reply is readable, its asset truthy, and the image upload succeeded. */
  predicate UploadOk(o: Outcomes) {
    ReplyReadable(o.registerReply) && Json.Truthy(Json.Lookup(o.registerReply.value, AssetPath).value) && o.uploaded
  }

  /** The asset the registration reply names. */
  function Asset(o: Outcomes): Json.Value
    requires ReplyReadable(o.registerReply)
  {
    Json.Lookup(o.registerReply.value, AssetPath).value
  }

  /**
   * The outside world lets a run reach its last line: the generated text is
   * not all whitespace, the diagram renders, the registration reply holds an
   * upload URL and a truthy asset, and the image upload succeeds. Neither the
   * topic nor the post's fate plays a part.
   */
  predicate Completes(o: Outcomes) {
    ContentOk(o) && o.rendered && UploadOk(o)
  }

  /**
   * Where the cursor goes after a run with outcomes `o`: one topic on,
   * wrapping after the last, when the run completes; nowhere otherwise.
   */
  function Advance(cursor: nat, o: Outcomes): (c: nat)
    requires cursor < |Topics|
    ensures c < |Topics|
  {
    if Completes(o) then (cursor + 1) % |Topics| else cursor
  }

  /** The end of a run, from the upload of the image at `image` on. */
  function FromUpload(token: Option<string>, cursor: nat, text: string, image: string, o: Outcomes): (r: RunResult)
    requires cursor < |Topics|
    ensures r.status == NoUpload || r.status == Posted || r.status == PostFailed
    ensures r.status != NoUpload <==> UploadOk(o)
    ensures r.status == PostFailed <==> UploadOk(o) && !o.postAccepted
    ensures r.next == if UploadOk(o) then (cursor + 1) % |Topics| else cursor
    ensures |r.calls| >= 1 && r.calls[0] == RegisterUpload(UploadHeaders(token), RegisterRequest)
    ensures |r.calls| > 1 ==> r.calls[1].UploadBinary? && r.calls[1].imagePath == image
    ensures r.status == NoUpload ==> |r.calls| <= 2
    ensures UploadOk(o) ==> |r.calls| == 3 && r.calls[2] == PostToLinkedIn(token, text, Asset(o))
  {
    var upload := UploadImage(token, image, o.registerReply, o.uploaded);
    if upload.result.None? || !Json.Truthy(upload.result.value) then
      RunResult(NoUpload, upload.calls, cursor)
    else
      var post := PostToLinkedIn(token, text, upload.result.value);
      RunResult(if o.postAccepted then Posted else PostFailed, upload.calls + [post], (cursor + 1) % |Topics|)
  }

  /** `r` preceded by the calls `calls`. */
  function After(calls: seq<Call>, r: RunResult): RunResult {
    r.(calls := calls + r.calls)
  }

  /** The rest of a run once the content is there: the diagram, then the upload and the post. */
  function FromDiagram(script: Script, token: Option<string>, cursor: nat, text: string, o: Outcomes): (r: RunResult)
    requires cursor < |Topics|
    ensures r.status != NoContent
    ensures r.status == NoDiagram <==> !o.rendered
    ensures r.status == Posted || r.status == PostFailed <==> o.rendered && UploadOk(o)
    ensures r.status == PostFailed <==> o.rendered && UploadOk(o) && !o.postAccepted
    ensures r.next == if o.rendered && UploadOk(o) then (cursor + 1) % |Topics| else cursor
    ensures |r.calls| >= 1 && r.calls[0].RenderDiagram?
    ensures r.calls[0].title == Topics[cursor] && r.calls[0].diagram == Template(Topics[cursor])
    ensures r.status == NoDiagram ==> |r.calls| == 1
    ensures r.status == NoUpload ==> 2 <= |r.calls| <= 3
    ensures |r.calls| > 1 ==> r.calls[1] == RegisterUpload(UploadHeaders(token), RegisterRequest)
    ensures |r.calls| > 2 ==> r.calls[2].UploadBinary? && r.calls[2].imagePath == RenderedImage(r.calls[0].filename)
    ensures o.rendered && UploadOk(o) ==> |r.calls| == 4 && r.calls[3] == PostToLinkedIn(token, text, Asset(o))
  {
    var diagram := GenerateDiagram(script, Topics[cursor], o.rendered);
    if !Truthy(diagram.result) then
      RunResult(NoDiagram, diagram.calls, cursor)
    else
      After(diagram.calls, FromUpload(token, cursor, text, diagram.result.value, o))
  }

  /**
   * One run from cursor position `cursor`: the content, then the rest,
   * stopping at the first of the first three stages that yields nothing.
   * The cursor advances by one, wrapping after the last topic, exactly when
   * the run completes, whether or not the post was accepted; otherwise it
   * stays. Every run first asks for a post on the cursor's topic with that
   * topic's keywords; a run that gets past the content renders the topic's
   * template, then registers an upload; a completed run makes five calls,
   * the last of which posts the stripped text with the registered asset.
   */
  function Run(script: Script, token: Option<string>, cursor: nat, o: Outcomes): (r: RunResult)
    requires cursor < |Topics|
    ensures r.next == Advance(cursor, o)
    ensures r.status == NoContent <==> !ContentOk(o)
    ensures r.status == NoDiagram <==> ContentOk(o) && !o.rendered
    ensures r.status == Posted || r.status == PostFailed <==> Completes(o)
    ensures r.status == PostFailed <==> Completes(o) && !o.postAccepted
  {
    var content := GenerateContent(Topics[cursor], o.generated);
    if !Truthy(content.result) then
      RunResult(NoContent, content.calls, cursor)
    else
      After(content.calls, FromDiagram(script, token, cursor, content.result.value, o))
  }

  /** Every run first asks the generator for a post on the cursor's topic, with that topic's keywords. */
  lemma RunAsksForContent(script: Script, token: Option<string>, cursor: nat, o: Outcomes)
    requires cursor < |Topics|
    ensures |Run(script, token, cursor, o).calls| >= 1
    ensures Run(script, token, cursor, o).calls[0]
         == GenerateText(Prompt(Topics[cursor], SeoKeywords[Topics[cursor]]), MaxLength)
  {
  }

  /**
   * How far a run gets decides how many calls it makes: nothing after the
   * generator when there is no content, nothing after the renderer when
   * there is no diagram, nothing after the upload when there is no asset.
   */
  lemma RunStopsEarly(script: Script, token: Option<string>, cursor: nat, o: Outcomes)
    requires cursor < |Topics|
    ensures Run(script, token, cursor, o).status == NoContent ==> |Run(script, token, cursor, o).calls| == 1
    ensures Run(script, token, cursor, o).status == NoDiagram ==> |Run(script, token, cursor, o).calls| == 2
    ensures Run(script, token, cursor, o).status == NoUpload ==> 3 <= |Run(script, token, cursor, o).calls| <= 4
  {
  }

  /** The image the rest of a run uploads is the diagram's `diagram_path`. */
  lemma UploadsTheDiagram(script: Script, token: Option<string>, cursor: nat, text: string, o: Outcomes)
    requires cursor < |Topics|
    ensures var r := FromDiagram(script, token, cursor, text, o);
      |r.calls| > 2 ==> r.calls[2].imagePath == DiagramPath(script, Topics[cursor])
  {
    if o.rendered {
      GenerateDiagramPath(script, Topics[cursor]);
    }
  }

  /**
   * A run that gets past the content renders the topic's template, then
   * registers an upload, then sends the image's bytes.
   */
  lemma RunRendersThenRegisters(script: Script, token: Option<string>, cursor: nat, o: Outcomes)
    requires cursor < |Topics|
    ensures var r := Run(script, token, cursor, o);
      |r.calls| > 1 ==> r.calls[1].RenderDiagram? && r.calls[1].title == Topics[cursor]
                        && r.calls[1].diagram == Template(Topics[cursor])
    ensures var r := Run(script, token, cursor, o);
      |r.calls| > 2 ==> r.calls[2] == RegisterUpload(UploadHeaders(token), RegisterRequest)
    ensures var r := Run(script, token, cursor, o);
      |r.calls| > 3 ==> r.calls[3].UploadBinary? && r.calls[3].imagePath == DiagramPath(script, Topics[cursor])
  {
    var content := GenerateContent(Topics[cursor], o.generated);
    assert |content.calls| == 1;
    if ContentOk(o) {
      UploadsTheDiagram(script, token, cursor, content.result.value, o);
    }
  }

  /** A completed run makes five calls, the last of which posts the stripped text with the registered asset. */
  lemma RunPostsLast(script: Script, token: Option<string>, cursor: nat, o: Outcomes)
    requires cursor < |Topics|
    ensures var r := Run(script, token, cursor, o);
      Completes(o) ==> |r.calls| == 5 && r.calls[4] == PostToLinkedIn(token, Strip(o.generated.value), Asset(o))
  {
    var content := GenerateContent(Topics[cursor], o.generated);
    assert |content.calls| == 1;
  }

  /** The cursor after a series of runs. */
  function CursorAfter(cursor: nat, runs: seq<Outcomes>): (c: nat)
    requires cursor < |Topics|
    ensures c < |Topics|
    decreases |runs|
  {
    if runs == [] then cursor
    else CursorAfter(Advance(cursor, runs[0]), runs[1..])
  }

  /** How many of the runs complete. */
  function CountCompleted(runs: seq<Outcomes>): nat
    decreases |runs|
  {
    if runs == [] then 0 else (if Completes(runs[0]) then 1 else 0) + CountCompleted(runs[1..])
  }

  /** Reducing modulo the topic count before adding does not change the sum's remainder. */
  lemma ModShift(a: nat, n: nat)
    ensures (a % |Topics| + n) % |Topics| == (a + n) % |Topics|
  {
  }

  /** After any series of runs the cursor has moved once per completed run, modulo the topic count. */
  lemma {:induction false} CursorAfterCounts(cursor: nat, runs: seq<Outcomes>)
    requires cursor < |Topics|
    ensures CursorAfter(cursor, runs) == (cursor + CountCompleted(runs)) % |Topics|
    decreases |runs|
  {
    if runs == [] {
    } else {
      CursorAfterCounts(Advance(cursor, runs[0]), runs[1..]);
      if Completes(runs[0]) {
        ModShift(cursor + 1, CountCompleted(runs[1..]));
      }
    }
  }

  lemma {:induction false} AllCompletedCount(runs: seq<Outcomes>)
    requires forall i :: 0 <= i < |runs| ==> Completes(runs[i])
    ensures CountCompleted(runs) == |runs|
    decreases |runs|
  {
    if runs != [] {
      AllCompletedCount(runs[1..]);
    }
  }

  /** Eight completed runs bring the cursor back to where it started. */
  lemma EightCompletedRunsReturn(cursor: nat, runs: seq<Outcomes>)
    requires cursor < |Topics|
    requires |runs| == |Topics|
    requires forall i :: 0 <= i < |runs| ==> Completes(runs[i])
    ensures CursorAfter(cursor, runs) == cursor
  {
    CursorAfterCounts(cursor, runs);
    AllCompletedCount(runs);
  }

  /** The bot: the running script, its access token, and the topic cursor. */
  class Poster {
    const script: Script
    const accessToken: Option<string>
    /** `current_topic_index` */
    var cursor: nat
    /** Every call made to the outside world so far, oldest first. */
    var calls: seq<Call>

    predicate Valid()
      reads this
    {
      cursor < |Topics|
    }

    /** A freshly started script: the cursor is on the first topic and nothing has been called. */
    constructor (script: Script, credentials: Startup.Credentials)
      ensures Valid()
      ensures this.script == script && accessToken == credentials.accessToken
      ensures cursor == 0 && calls == []
    {
      this.script := script;
      accessToken := credentials.accessToken;
      cursor := 0;
      calls := [];
    }

    /** `TOPICS[current_topic_index]`: always a topic with SEO keywords. */
    function CurrentTopic(): (t: string)
      reads this
      requires Valid()
      ensures t in Topics && t in SeoKeywords
    {
      Topics[cursor]
    }

    /**
     * `post_to_linkedin_with_image()`: one run on the current topic. The
     * status, the calls made and the new cursor are those of `Run`.
     */
    method PostWithImage(o: Outcomes) returns (status: RunStatus)
      requires Valid()
      modifies this
      ensures Valid()
      ensures status == Run(script, accessToken, old(cursor), o).status
      ensures cursor == Run(script, accessToken, old(cursor), o).next
      ensures calls == old(calls) + Run(script, accessToken, old(cursor), o).calls
    {
      ghost var log, start, expected := calls, cursor, Run(script, accessToken, cursor, o);
      var content := GenerateContent(CurrentTopic(), o.generated);
      calls := calls + content.calls;
      if !Truthy(content.result) {
        return NoContent;
      }
      status := PostDiagram(content.result.value, o);
      AppendAssoc(log, content.calls, FromDiagram(script, accessToken, start, content.result.value, o).calls);
    }

    /** The run from the diagram on, posting `text`: `FromDiagram`. */
    method PostDiagram(text: string, o: Outcomes) returns (status: RunStatus)
      requires Valid()
      modifies this
      ensures Valid()
      ensures status == FromDiagram(script, accessToken, old(cursor), text, o).status
      ensures cursor == FromDiagram(script, accessToken, old(cursor), text, o).next
      ensures calls == old(calls) + FromDiagram(script, accessToken, old(cursor), text, o).calls
    {
      ghost var log, start, expected := calls, cursor, FromDiagram(script, accessToken, cursor, text, o);
      var diagram := GenerateDiagram(script, CurrentTopic(), o.rendered);
      calls := calls + diagram.calls;
      if !Truthy(diagram.result) {
        return NoDiagram;
      }
      status := PostImage(text, diagram.result.value, o);
      AppendAssoc(log, diagram.calls, FromUpload(accessToken, start, text, diagram.result.value, o).calls);
    }

    /** The run from the upload of the image at `image` on: `FromUpload`. */
    method PostImage(text: string, image: string, o: Outcomes) returns (status: RunStatus)
      requires Valid()
      modifies this
      ensures Valid()
      ensures status == FromUpload(accessToken, old(cursor), text, image, o).status
      ensures cursor == FromUpload(accessToken, old(cursor), text, image, o).next
      ensures calls == old(calls) + FromUpload(accessToken, old(cursor), text, image, o).calls
    {
      ghost var log, expected := calls, FromUpload(accessToken, cursor, text, image, o);
      var upload := UploadImage(accessToken, image, o.registerReply, o.uploaded);
      calls := calls + upload.calls;
      if upload.result.None? || !Json.Truthy(upload.result.value) {
        return NoUpload;
      }
      var post := PostToLinkedIn(accessToken, text, upload.result.value);
      calls := calls + [post];
      AppendAssoc(log, upload.calls, [post]);
      status := if o.postAccepted then Posted else PostFailed;
      cursor := (cursor + 1) % |Topics|;
    }
  }
}
