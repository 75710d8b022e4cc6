# LinkedIn DevOps poster, modelled in Dafny

This project models the deterministic skeleton of the two LinkedIn bot scripts:

- `DevOpsLinkedinAutomation.py`, the OpenAI variant;
- `DevOpsLinkedinAutomation3.py`, the Hugging Face GPT-2 variant.

Both scripts keep a cursor over eight DevOps topics. One run on the current topic does four things in order:

1. It asks a text generator for a short post built from the topic and its SEO keywords, and strips the answer.
2. It renders an architecture diagram from a fixed per-topic template.
3. It registers an image upload with LinkedIn and uploads the diagram.
4. It creates a post with the text and the uploaded asset.

A run stops at the first of the first three stages that yields nothing. Otherwise it moves the cursor one topic on, wrapping after the last.

Everything the scripts ask of the outside world is an input of the model:

- the generator's text;
- whether rendering succeeded;
- the decoded registration reply;
- whether the binary upload succeeded;
- whether the post was accepted.

Each call the scripts make is recorded as a `Calls.Call` value, in order. So the model states which stages a run reached, with which arguments, and where the cursor ends up. One call differs from the code's: a run renders the diagram through the corrected `Diagrams.GenerateDiagram`, which passes the file name without `.png` and draws each hub node once (see "## Findings"). The code's own stage is `Diagrams.GenerateDiagramAsWritten`, and `Diagrams.GenerateDiagramMatchesCode` states exactly where the two render calls differ.

Modules:

- `Wrappers`: `Option`.
- `Text`: Python's `str.strip()` and `str.isspace`.
- `Json`: JSON values, the chained subscripts `v["a"]["b"]`, and Python truthiness.
- `Catalog`: `TOPICS`, `SEO_KEYWORDS`, and which of the two scripts runs.
- `Graph`: the node/edge description handed to the `diagrams` renderer.
- `Calls`: the record of outside calls.
- `Content`: `generate_content`.
- `Diagrams`: `generate_diagram`, meaning the template dispatch, the output path and the render call.
- `Publisher`: `upload_image_to_linkedin` and `post_to_linkedin`, meaning the request bodies and headers and how the registration reply decides the result.
- `Startup`: the checks each script makes before its first run.
- `Orchestrator`: `post_to_linkedin_with_image`.

The `Orchestrator` module has two layers:

- The function `Run` specifies one run. It is split into the continuations `FromDiagram` and `FromUpload`.
- The class `Poster` holds the mutable `current_topic_index` as its field `cursor`. It also holds the log of calls. Its method `PostWithImage` is proved to produce `Run`'s status, cursor and calls. The method hands the diagram stage and the upload stage to two further methods, `PostDiagram` and `PostImage`. Each of those is proved against the matching continuation.

The cursor moves only when a run reaches the last line of `post_to_linkedin_with_image`. The code returns early when there is no content, no diagram or no asset, and in those cases it leaves the cursor where it was; the model's cursor does the same. A failed post creation still advances the cursor, because `post_to_linkedin` catches its own errors.

Long string constants are written as concatenations of short literals, for example the SEO keyword texts and the prompt. They denote the same strings.

## Model

| member | source | states |
|---|---|---|
| Text.Strip | DevOpsLinkedinAutomation3.py:78 | The stripped text is the slice of the generator's text that follows its leading whitespace, with only whitespace after it. It is empty exactly when the text is all whitespace. Otherwise it begins and ends with a character that is not whitespace. |
| Text.StripIdempotent | DevOpsLinkedinAutomation3.py:78 | Stripping a stripped text changes nothing. |
| Text.StripPadding | DevOpsLinkedinAutomation3.py:78 | Whitespace added on either side of a text that neither begins nor ends with whitespace is exactly what stripping removes. |
| Json.Lookup | DevOpsLinkedinAutomation3.py:144-147 | The empty chain of subscripts yields the value itself. A chain that succeeds started at an object holding its first key. |
| Json.LookupConcat | DevOpsLinkedinAutomation3.py:144-147 | A chain of subscripts applied in two parts reaches what the whole chain reaches, and fails when either part fails. |
| Json.LookupKey | DevOpsLinkedinAutomation3.py:147 | Subscripting an object by a key it holds and walking on reaches what walking on from that key's value reaches. |
| Catalog.KeywordsFor | DevOpsLinkedinAutomation3.py:54-63 | `SEO_KEYWORDS` has keywords for exactly the eight topics of `TOPICS`. Looking up any other topic fails, as Python's `KeyError` does. |
| Catalog.TopicsDistinct | DevOpsLinkedinAutomation3.py:42-51 | The rotation holds eight topics, no two the same. |
| Content.PromptCarries | DevOpsLinkedinAutomation3.py:71-75 | The prompt contains the topic and the topic's keywords, each at a fixed offset. |
| Content.Prompt | DevOpsLinkedinAutomation3.py:71-75 | The prompt is the fixed opening, the topic, the fixed middle, the keywords and the fixed closing: its length is the sum of theirs, it starts with the opening and ends with the closing. |
| Content.GenerateContent | DevOpsLinkedinAutomation3.py:68-81 | A topic without keywords makes no call and yields `None`. Any other topic makes exactly one generator call, with the prompt for that topic and its keywords and the length bound 200. The result is present exactly when the generator returned text, and it is then that text stripped. It is empty exactly when that text was all whitespace, and otherwise neither end of it is whitespace. |
| Diagrams.ChainAsWritten | DevOpsLinkedinAutomation3.py:105-107 | The two-line chain as written draws edges only between nodes it has drawn. |
| Diagrams.Chain | DevOpsLinkedinAutomation3.py:105-107 | The chain with one hub node draws edges only between nodes it has drawn. |
| Diagrams.Templates | DevOpsLinkedinAutomation3.py:88-116 | Every template of the if/elif chain draws edges only between nodes it has drawn. |
| Diagrams.TemplateAsWritten | DevOpsLinkedinAutomation3.py:89-116 | The templates as the code draws them are well formed. |
| Diagrams.Template | DevOpsLinkedinAutomation3.py:89-116 | The templates with each hub drawn once are well formed. |
| Diagrams.LinkColour | DevOpsLinkedinAutomation3.py:105-116 | A chain is drawn in a single colour, whether its hub is drawn once or twice. |
| Diagrams.TemplateColours | DevOpsLinkedinAutomation3.py:89-116 | All edges of a topic's template share that topic's colour. |
| Diagrams.TemplateDraws | DevOpsLinkedinAutomation3.py:89-116 | A template has edges exactly when the topic is in the rotation. Any other topic matches no branch and draws the empty diagram. |
| Diagrams.KubernetesTemplate | DevOpsLinkedinAutomation3.py:89-95 | Kubernetes draws the cluster "Kubernetes Cluster", with Master Node → Worker Node 1 and Master Node → Worker Node 2, both blue. |
| Diagrams.DockerTemplate | DevOpsLinkedinAutomation.py:95-99 | Docker draws the cluster "Docker Containers", with Container 1 → Container 2 in green. |
| Diagrams.EksTemplate | DevOpsLinkedinAutomation3.py:101-102 | EKS draws an EKS node "Amazon EKS" → Server "Worker Nodes" in orange. |
| Diagrams.AksTemplate | DevOpsLinkedinAutomation3.py:103-104 | AKS draws an AKS node "Azure AKS" → Server "Worker Nodes" in purple. |
| Diagrams.TerraformTemplate | DevOpsLinkedinAutomation3.py:105-107 | Terraform draws Developer → Terraform, then Terraform → AWS, Azure and GCP, all red. |
| Diagrams.HelmTemplate | DevOpsLinkedinAutomation3.py:108-110 | Helm draws Developer → Helm → Kubernetes in yellow. |
| Diagrams.AzureTemplate | DevOpsLinkedinAutomation3.py:111-113 | Azure draws Developer → Azure Services, then Azure Services → AKS, Functions and Storage, all blue. |
| Diagrams.DevOpsTemplate | DevOpsLinkedinAutomation.py:113-115 | DevOps draws Developer → CI/CD Pipeline, then CI/CD Pipeline → Kubernetes, Docker and Terraform, all black. |
| Diagrams.ChainArrowsAgree | DevOpsLinkedinAutomation3.py:105-107 | Drawing a chain's hub once or twice gives the same labelled, coloured arrows in the same order. |
| Diagrams.TemplatesAgree | DevOpsLinkedinAutomation3.py:89-116 | The corrected templates have the same cluster and the same labelled arrows as the code's. |
| Diagrams.ChainAsWrittenDisconnected | DevOpsLinkedinAutomation3.py:106-107 | As written, every walk from the Developer node stays on Developer and the first hub, and never reaches a leaf. |
| Diagrams.ChainConnected | DevOpsLinkedinAutomation3.py:106-107 | With one hub, the head reaches every leaf in two steps. |
| Diagrams.DiagramPath | DevOpsLinkedinAutomation3.py:86 | `diagram_path` is the script's diagram directory, then the topic, then `_diagram.png`, each part where it belongs. |
| Diagrams.PathRoundTrip | DevOpsLinkedinAutomation3.py:86 | The topic can be read back from its diagram path, under either script's directory. |
| Diagrams.DiagramPathInjective | DevOpsLinkedinAutomation.py:86 | The diagram path depends on the topic alone, and two topics never share one. |
| Diagrams.AsWrittenPathIsNotTheImage | DevOpsLinkedinAutomation3.py:86-88 | As written, `generate_diagram` gives the renderer `diagram_path` as its file name and returns that same path. That path is not the file the renderer writes. |
| Diagrams.GenerateDiagramAsWritten | DevOpsLinkedinAutomation3.py:83-120 | The code's stage makes exactly one render call, titled with the topic, drawing the code's template and given `diagram_path` as its file name. It yields `diagram_path` exactly when rendering succeeds. |
| Diagrams.GenerateDiagramMatchesCode | DevOpsLinkedinAutomation3.py:86-116 | The corrected stage and the code's succeed together and make one render call with the same title, cluster and labelled arrows. The corrected call's file name with `.png` appended is the code's file name. |
| Diagrams.GenerateDiagram | DevOpsLinkedinAutomation3.py:83-120 | The stage makes exactly one render call, titled with the topic and drawing the topic's template. It yields a path exactly when rendering succeeds, whatever the topic, and that path is the image the renderer wrote. |
| Diagrams.GenerateDiagramPath | DevOpsLinkedinAutomation3.py:117 | On success the corrected stage returns the same `diagram_path` as the code, and the topic can be read back from it. |
| Publisher.UploadImage | DevOpsLinkedinAutomation3.py:122-158 | The registration request is always sent, with the bearer header and `register_data`. The image goes to the reply's upload URL exactly when the reply holds both the upload URL and the asset. The asset comes back exactly when, in addition, the upload succeeded; otherwise the result is `None`. |
| Publisher.LinkedInReplyLookups | DevOpsLinkedinAutomation3.py:144-147 | In a reply of the documented shape, the upload URL and the asset subscripts reach exactly the URL and the asset it holds. |
| Publisher.UploadFromLinkedInReply | DevOpsLinkedinAutomation3.py:142-155 | For a reply of the documented shape, the image is sent to its upload URL and its asset is returned. |
| Publisher.UploadWithoutUploadUrl | DevOpsLinkedinAutomation.py:140-155 | A reply without an upload URL stops after the registration: no image is sent and the result is `None`. |
| Publisher.Bearer | DevOpsLinkedinAutomation3.py:126 | The authorization header is `Bearer ` followed by the token, or by `None` when the token is unset, as Python's f-string writes it. |
| Publisher.PostPayload | DevOpsLinkedinAutomation3.py:168-179 | `post_data` is an object with exactly the keys author, lifecycleState, specificContent and visibility, and its author is the person URN. |
| Publisher.PostToLinkedIn | DevOpsLinkedinAutomation3.py:160-181 | Posting is one create-post request with the bearer and JSON content-type headers. |
| Publisher.PostPublishes | DevOpsLinkedinAutomation3.py:168-179 | The post payload publishes exactly the given text as a PUBLISHED, PUBLIC, IMAGE share whose single media item is the given asset. |
| Startup.Start | DevOpsLinkedinAutomation3.py:25-39 | The Hugging Face script starts exactly when its pipeline loaded and all three LinkedIn credentials are set and non-empty. The OpenAI script starts exactly when its OpenAI key is set and non-empty. A started script keeps the credentials it read. |
| Startup.OpenAiIgnoresLinkedInCredentials | DevOpsLinkedinAutomation.py:25-33 | Whether the OpenAI script starts does not depend on the LinkedIn credentials. |
| Startup.HuggingFaceStartHasToken | DevOpsLinkedinAutomation3.py:35-39 | A started Hugging Face script has a non-empty access token. |
| Orchestrator.Advance | DevOpsLinkedinAutomation3.py:212-215 | The cursor after a run is still an index into `TOPICS`. |
| Orchestrator.FromUpload | DevOpsLinkedinAutomation3.py:207-215 | From the upload on, the registration comes first; a second call sends the file `image` it was given. Without an asset the run ends with at most two calls and the cursor unchanged. With an asset, the third call posts the text with that asset and the cursor moves on, whether or not the post is accepted. |
| Orchestrator.FromDiagram | DevOpsLinkedinAutomation3.py:199-215 | From the diagram on, the render call comes first. A failed render ends the run with that call alone and the cursor unchanged. Otherwise the registration follows, and a third call uploads the file the renderer wrote for the first. The run posts, as its fourth call, exactly when rendering and upload both succeed, and only then does the cursor move. |
| Orchestrator.Run | DevOpsLinkedinAutomation3.py:187-216 | The run ends without content exactly when the generated text is missing or all whitespace, and without a diagram exactly when there was content and rendering failed. It posts, successfully or not, exactly when content, rendering, registration and upload all succeed. The post fails exactly when it was reached and not accepted. The cursor moves one on, modulo eight, exactly when the run posts, and stays otherwise. |
| Orchestrator.RunAsksForContent | DevOpsLinkedinAutomation3.py:191-194 | Every run first calls the generator with the prompt for the current topic and that topic's keywords. |
| Orchestrator.RunStopsEarly | DevOpsLinkedinAutomation3.py:194-210 | A run with no content makes one call. A run with no diagram makes two. A run with no asset makes three or four. Nothing runs after the stage that failed. |
| Orchestrator.UploadsTheDiagram | DevOpsLinkedinAutomation3.py:199-207 | The file the rest of a run uploads is the topic's `diagram_path`, the path the diagram stage returned. |
| Orchestrator.RunRendersThenRegisters | DevOpsLinkedinAutomation3.py:199-207 | Once past the content, the run renders the current topic's template, then registers an upload, then sends the file at the topic's `diagram_path`; with the generator call first and the post last, the calls follow the stage order. |
| Orchestrator.RunPostsLast | DevOpsLinkedinAutomation3.py:207-212 | A completed run makes five calls. The last posts the stripped generated text with the asset from the registration reply. |
| Orchestrator.CursorAfter | DevOpsLinkedinAutomation3.py:215 | After any series of runs the cursor is an index into `TOPICS`. |
| Orchestrator.CursorAfterCounts | DevOpsLinkedinAutomation3.py:215 | After any series of runs, the cursor equals the start plus the number of completed runs, modulo eight. |
| Orchestrator.EightCompletedRunsReturn | DevOpsLinkedinAutomation3.py:215 | Eight completed runs bring the cursor back to where it started. |
| Orchestrator.Poster.constructor | DevOpsLinkedinAutomation3.py:66 | A started script has its cursor on the first topic and has made no calls. |
| Orchestrator.Poster.CurrentTopic | DevOpsLinkedinAutomation3.py:191 | The current topic is in the rotation and has SEO keywords. |
| Orchestrator.Poster.PostWithImage | DevOpsLinkedinAutomation3.py:187-216 | A run on the object returns `Run`'s status and sets the cursor to `Run`'s next position. It appends exactly `Run`'s calls to the log. The cursor stays a valid index. |
| Orchestrator.Poster.PostDiagram | DevOpsLinkedinAutomation3.py:199-215 | The diagram-onwards part of the run does what `FromDiagram` specifies to the status, the cursor and the log. |
| Orchestrator.Poster.PostImage | DevOpsLinkedinAutomation3.py:207-215 | The upload-onwards part of the run does what `FromUpload` specifies to the status, the cursor and the log. |

## Left out

- HTTP is not modelled: the requests to LinkedIn, status codes, `raise_for_status`, and JSON decoding. The decoded registration reply is an input, `None` when the request failed, and so are the success of the binary upload and of the post.
- The text generators are not modelled: OpenAI's completion call and the Hugging Face pipeline, including its loading. Their text is an input, `None` when the call raised or the reply had no text. The model records the prompt and the length bound 200. It does not record the engine, the temperature, `n`, `stop` or `num_return_sequences`.
- The `diagrams` renderer is not modelled: its icons, layout and files. The model keeps the node/edge description, the cluster and the file name. It models one fact about the renderer: the file it leaves is the file name with `.png` appended.
- Publisher.UploadImage: reading the image file is not modelled. The model records the `UploadBinary` call whenever the reply is readable, and a failure to open the file only makes the upload-success input false. The code sends no binary request when `open(image_path)` raises (DevOpsLinkedinAutomation3.py:151), which, as written, is every run (see the path row of "## Findings").
- `logging`, `load_dotenv` and `exit(1)` are not modelled. A `None` from `Startup.Start` stands for `exit(1)`. Reading the environment is an input map.
- The `schedule`/`time.sleep` polling loop of `DevOpsLinkedinAutomation.py` is not modelled. Its job registration is commented out, so the loop never starts a run. The single run under `__main__` in `DevOpsLinkedinAutomation3.py` is `Poster` construction followed by one `PostWithImage`.
- JSON numbers are integers only. No value the scripts build or read is fractional.
- `Diagrams.Templates`: its own contract states only that every edge joins drawn nodes. What each topic draws is stated by the per-topic template lemmas, `TemplateColours` and `TemplateDraws`.
- Orchestrator.Poster.PostWithImage: the source's single function is written as three methods, one per stage group. Logging between the stages is not modelled. The diagram stage it runs is the corrected `Diagrams.GenerateDiagram`, not the code's `generate_diagram`; `Diagrams.GenerateDiagramMatchesCode` states how their render calls differ.
- Orchestrator.Poster.PostDiagram: renders through the corrected `Diagrams.GenerateDiagram`, whose render call has the file name without `.png` and each hub node drawn once; the code's call is `Diagrams.GenerateDiagramAsWritten`'s.
- Orchestrator.FromDiagram: its render call is the corrected stage's, not the code's; `Diagrams.GenerateDiagramMatchesCode` gives the same title, cluster and arrows and the file name less `.png`.
- Orchestrator.RunRendersThenRegisters: the render call it names is the corrected stage's, drawing `Template` rather than `TemplateAsWritten`; the two have the same cluster and labelled arrows by `Diagrams.TemplatesAgree`.

## Findings

| source | as written | input that shows it | evidently intended | confidence | as-written member | corrected member |
|---|---|---|---|---|---|---|
| DevOpsLinkedinAutomation3.py:105-116 | The Terraform, Helm, Azure and DevOps templates call `Server(hub)` twice. Each call creates a separate node, so Developer points at one hub node and a second hub node points at the leaves. The drawing falls into two unconnected pieces. | topic "Terraform": Developer → Terraform(1), and Terraform(2) → AWS, Azure, GCP | One hub node, through which Developer reaches every leaf | not executed; relies on the renderer making a new node for each constructor call | Diagrams.ChainAsWrittenDisconnected | Diagrams.ChainConnected |
| DevOpsLinkedinAutomation3.py:86-88 | `diagram_path` already ends in `.png` and is passed as the renderer's file name. The renderer appends the format's extension and writes `…_diagram.png.png`. The function then returns `diagram_path`, which names no image, so the upload's `open` cannot read the diagram. | topic "Docker": the image is `…/Docker_diagram.png.png`, and `…/Docker_diagram.png` is returned | Pass the file name without its extension, so the returned path is the rendered image | not executed; relies on the renderer appending the extension to the file name | Diagrams.AsWrittenPathIsNotTheImage | Diagrams.GenerateDiagram |
