/**
 * `upload_image_to_linkedin` and `post_to_linkedin`: the request bodies and
 * headers they send, and how the registration reply decides whether the
 * image is sent and which asset URN comes back. The HTTP exchanges are
 * outside the model: the registration reply is an input (`None` when the
 * request failed, returned a non-2xx status or a body that is not JSON), and
 * so is whether the binary upload succeeded.
 */
module Publisher {
  import opened Wrappers
  import opened Json
  import opened Calls

  /** `f"Bearer {ACCESS_TOKEN}"`: Python formats a missing token as `None`. */
  function Bearer(token: Option<string>): (b: string)
    ensures |b| >= 7 && b[..7] == "Bearer "
    ensures token.Some? ==> b == "Bearer " + token.value
    ensures token.None? ==> b == "Bearer None"
  {
    "Bearer " + match token case None => "None" case Some(t) => t
  }

  function UploadHeaders(token: Option<string>): Headers {
    map["Authorization" := Bearer(token)]
  }

  function PostHeaders(token: Option<string>): Headers {
    map["Authorization" := Bearer(token), "Content-Type" := "application/json"]
  }

  /** The owner and author URN, a placeholder the scripts leave unfilled. */
  const PersonUrn := "urn:li:person:" + "{YOUR_PERSON_URN}"

  /** The keys under which a post carries its share and its visibility. */
  const ShareContentKey := "com.linkedin." + "ugc.ShareContent"
  const VisibilityKey := "com.linkedin.ugc." + "MemberNetworkVisibility"

  const MechanismKey := "com.linkedin.digitalmedia." + "uploading.MediaUploadHttpRequest"

  /** `register_data`. */
  const RegisterRequest: Value :=
    JObject(map["registerUploadRequest" := JObject(map[
      "recipes" := JArray([JString("urn:li:digitalmediaRecipe:" + "feedshare-image")]),
      "owner" := JString(PersonUrn),
      "serviceRelationships" := JArray([JObject(map[
        "relationshipType" := JString("OWNER"),
        "identifier" := JString("urn:li:" + "userGeneratedContent")])])])])

  /** `response.json()["value"]["uploadMechanism"][MechanismKey]["uploadUrl"]` */
  const UploadUrlPath: seq<Step> := [Key("value"), Key("uploadMechanism"), Key(MechanismKey), Key("uploadUrl")]

  /** `response.json()["value"]["asset"]` */
  const AssetPath: seq<Step> := [Key("value"), Key("asset")]

  /** The registration reply holds both fields the upload reads. */
  predicate ReplyReadable(reply: Option<Value>) {
    reply.Some? && Lookup(reply.value, UploadUrlPath).Some? && Lookup(reply.value, AssetPath).Some?
  }

  /**
   * `upload_image_to_linkedin(image_path)`. The registration is always
   * requested. The image is sent to the reply's upload URL only when both
   * the upload URL and the asset could be read from the reply, and the asset
   * is returned only when, in addition, that upload succeeded.
   */
  function UploadImage(token: Option<string>, imagePath: string, reply: Option<Value>, uploaded: bool)
    : (r: Stage<Value>)
    ensures 1 <= |r.calls| <= 2 && r.calls[0] == RegisterUpload(UploadHeaders(token), RegisterRequest)
    ensures |r.calls| == 2 <==> ReplyReadable(reply)
    ensures |r.calls| == 2 ==>
              r.calls[1] == UploadBinary(Lookup(reply.value, UploadUrlPath).value, UploadHeaders(token), imagePath)
    ensures r.result.Some? <==> ReplyReadable(reply) && uploaded
    ensures r.result.Some? ==> r.result == Lookup(reply.value, AssetPath)
  {
    var register := RegisterUpload(UploadHeaders(token), RegisterRequest);
    match reply
    case None => Stage(None, [register])
    case Some(json) =>
      match (Lookup(json, UploadUrlPath), Lookup(json, AssetPath))
      case (Some(url), Some(asset)) =>
        Stage(if uploaded then Some(asset) else None, [register, UploadBinary(url, UploadHeaders(token), imagePath)])
      case _ => Stage(None, [register])
  }

  /** A registration reply of the shape LinkedIn documents. */
  function LinkedInReply(uploadUrl: Value, asset: Value): Value {
    JObject(map["value" := JObject(map[
      "uploadMechanism" := JObject(map[MechanismKey := JObject(map["uploadUrl" := uploadUrl])]),
      "asset" := asset])])
  }

  /** A reply of the documented shape holds its upload URL and its asset where the scripts look for them. */
  lemma LinkedInReplyLookups(uploadUrl: Value, asset: Value)
    ensures Lookup(LinkedInReply(uploadUrl, asset), UploadUrlPath) == Some(uploadUrl)
    ensures Lookup(LinkedInReply(uploadUrl, asset), AssetPath) == Some(asset)
  {
    var reply := LinkedInReply(uploadUrl, asset);
    var value := reply.fields["value"];
    var mechanisms := value.fields["uploadMechanism"];
    LookupKey(map["uploadUrl" := uploadUrl], "uploadUrl", []);
    LookupKey(mechanisms.fields, MechanismKey, [Key("uploadUrl")]);
    LookupKey(value.fields, "uploadMechanism", [Key(MechanismKey), Key("uploadUrl")]);
    LookupKey(reply.fields, "value", [Key("uploadMechanism"), Key(MechanismKey), Key("uploadUrl")]);
    LookupKey(value.fields, "asset", []);
    LookupKey(reply.fields, "value", [Key("asset")]);
  }

  /** From a well-formed reply the image goes to its upload URL and its asset comes back. */
  lemma UploadFromLinkedInReply(token: Option<string>, imagePath: string, uploadUrl: Value, asset: Value)
    ensures UploadImage(token, imagePath, Some(LinkedInReply(uploadUrl, asset)), true)
         == Stage(Some(asset), [RegisterUpload(UploadHeaders(token), RegisterRequest),
                                UploadBinary(uploadUrl, UploadHeaders(token), imagePath)])
  {
    LinkedInReplyLookups(uploadUrl, asset);
  }

  /** A reply without an upload URL stops the upload before the image is sent. */
  lemma UploadWithoutUploadUrl(token: Option<string>, imagePath: string, asset: Value, uploaded: bool)
    ensures UploadImage(token, imagePath, Some(JObject(map["value" := JObject(map["asset" := asset])])), uploaded)
         == Stage(None, [RegisterUpload(UploadHeaders(token), RegisterRequest)])
  {
    var reply := JObject(map["value" := JObject(map["asset" := asset])]);
    LookupKey(reply.fields, "value", [Key("uploadMechanism"), Key(MechanismKey), Key("uploadUrl")]);
  }

  /** `post_data`. */
  function PostPayload(content: string, urn: Value): (p: Value)
    ensures p.JObject? && p.fields.Keys == {"author", "lifecycleState", "specificContent", "visibility"}
    ensures p.fields["author"] == JString(PersonUrn)
  {
    JObject(map[
      "author" := JString(PersonUrn),
      "lifecycleState" := JString("PUBLISHED"),
      "specificContent" := JObject(map[ShareContentKey := JObject(map[
        "shareCommentary" := JObject(map["text" := JString(content)]),
        "shareMediaCategory" := JString("IMAGE"),
        "media" := JArray([JObject(map["status" := JString("READY"), "media" := urn])])])]),
      "visibility" := JObject(map[VisibilityKey := JString("PUBLIC")])])
  }

  const SharePath: seq<Step> := [Key("specificContent"), Key(ShareContentKey)]

  /**
   * What a post payload publishes: its share text and the asset of its one
   * media item, provided it is a published public image share.
   */
  function SharedPost(payload: Value): Option<(string, Value)> {
    match (Lookup(payload, SharePath + [Key("shareCommentary"), Key("text")]),
           Lookup(payload, SharePath + [Key("media")]))
    case (Some(JString(text)), Some(JArray(items))) =>
      if && |items| == 1 && items[0].JObject? && "media" in items[0].fields
         && Lookup(payload, [Key("lifecycleState")]) == Some(JString("PUBLISHED"))
         && Lookup(payload, SharePath + [Key("shareMediaCategory")]) == Some(JString("IMAGE"))
         && Lookup(payload, [Key("visibility"), Key(VisibilityKey)]) == Some(JString("PUBLIC"))
      then Some((text, items[0].fields["media"]))
      else None
    case _ => None
  }

  /**
   * `post_to_linkedin(content, image_urn)`: one request to the posts
   * endpoint with the JSON headers and `post_data`.
   */
  function PostToLinkedIn(token: Option<string>, content: string, urn: Value): (c: Call)
    ensures c.CreatePost? && c.headers == PostHeaders(token)
  {
    CreatePost(PostHeaders(token), PostPayload(content, urn))
  }

  /**
   * The post's payload publishes the content as a public image share whose
   * one media item is the uploaded asset.
   */
  lemma PostPublishes(token: Option<string>, content: string, urn: Value)
    ensures SharedPost(PostToLinkedIn(token, content, urn).body) == Some((content, urn))
  {
    var payload := PostPayload(content, urn);
    var root := payload.fields;
    var share := root["specificContent"].fields[ShareContentKey].fields;
    var rest := [Key(ShareContentKey)];
    LookupKey(root["specificContent"].fields, ShareContentKey, [Key("shareCommentary"), Key("text")]);
    LookupKey(share, "shareCommentary", [Key("text")]);
    LookupKey(share["shareCommentary"].fields, "text", []);
    LookupKey(root, "specificContent", rest + [Key("shareCommentary"), Key("text")]);
    LookupKey(root["specificContent"].fields, ShareContentKey, [Key("media")]);
    LookupKey(share, "media", []);
    LookupKey(root, "specificContent", rest + [Key("media")]);
    LookupKey(root["specificContent"].fields, ShareContentKey, [Key("shareMediaCategory")]);
    LookupKey(share, "shareMediaCategory", []);
    LookupKey(root, "specificContent", rest + [Key("shareMediaCategory")]);
    LookupKey(root, "lifecycleState", []);
    LookupKey(root["visibility"].fields, VisibilityKey, []);
    LookupKey(root, "visibility", [Key(VisibilityKey)]);
    assert SharePath + [Key("shareCommentary"), Key("text")] == [Key("specificContent")] + (rest + [Key("shareCommentary"), Key("text")]);
    assert SharePath + [Key("media")] == [Key("specificContent")] + (rest + [Key("media")]);
    assert SharePath + [Key("shareMediaCategory")] == [Key("specificContent")] + (rest + [Key("shareMediaCategory")]);
    assert Lookup(payload, SharePath + [Key("shareCommentary"), Key("text")]) == Some(JString(content));
    assert Lookup(payload, SharePath + [Key("media")]) == Some(JArray([JObject(map["status" := JString("READY"), "media" := urn])]));
  }
}
