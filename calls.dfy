/**
 * The calls a run makes to the outside world, recorded in the order they
 * are made: the text generator, the diagram renderer, and LinkedIn's three
 * HTTP endpoints (asset registration, binary upload to the URL the
 * registration returns, and post creation).
 */
module Calls {
  import opened Wrappers
  import Json
  import Graph

  /** HTTP request headers. */
  type Headers = map<string, string>

  datatype Call =
    | GenerateText(prompt: string, maxLength: nat)
    | RenderDiagram(title: string, filename: string, diagram: Graph.Diagram)
      /** POST to https://api.linkedin.com/v2/assets?action=registerUpload */
    | RegisterUpload(headers: Headers, body: Json.Value)
      /** POST of the image file to the upload URL the registration returned */
    | UploadBinary(url: Json.Value, headers: Headers, imagePath: string)
      /** POST to https://api.linkedin.com/v2/ugcPosts */
    | CreatePost(headers: Headers, body: Json.Value)

  /** What one helper of the scripts returns (`None` on failure) and the calls it made. */
  datatype Stage<T> = Stage(result: Option<T>, calls: seq<Call>)

  /** Appending calls in two steps or in one gives the same log. */
  lemma AppendAssoc(a: seq<Call>, b: seq<Call>, c: seq<Call>)
    ensures (a + b) + c == a + (b + c)
  {
  }
}
