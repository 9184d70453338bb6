# ImageChatbot client core in Dafny

A model of the logic inside a small macOS chat client for a multimodal
chat-completion API. The user types a question, stages up to four images from a
file panel, and sends both. The client encodes every image as base64. It builds
a JSON request body whose single user message holds the question as a text part
and at most four inline-data-URI image parts. It posts the body, checks the HTTP
status, decodes the response, and answers with the first choice's content. The
chat view appends the user's turn, and later the answer or an "Error: …" turn,
to an append-only transcript.

Files:

- `wrappers.dfy`: `Option` and `Result`, which stand in for Swift optionals and throwing calls.
- `json.dfy`: a tree of JSON-like values (string, array, string-keyed object). The request body is built from these.
- `network_manager.dfy`: the request body and its strict reader, which is the body's inverse. Also the decoded response shapes, the error kinds and their domain/code/description, and the decision logic of one query. The network is a function parameter `send`, and image encoding is a partial function parameter `encode`.
- `chat_view.dfy`: the view state and the `SelectImage`, `EditMessage`, `SendMessage` and `Complete` transitions. Also runs of events, and the invariant those transitions keep.

The data URI prefix is `data:image/jpeg;base64,`, as the source writes it. The encoded bytes are PNG, so the MIME tag does not match the payload. The model keeps the tag as written.

## Model

| member | source | states |
|---|---|---|
| NetworkManager.ImageParts | ImageChatbot/ImageChatbot/NetworkManager.swift:51-61 | one image part per base64 string, same count, element i wraps string i |
| NetworkManager.CreateRequestBody | ImageChatbot/ImageChatbot/NetworkManager.swift:50-76 | model is "gpt-4.1"; exactly one message, with role "user"; content has 1 + min(n, 4) parts; part 0 is the text part carrying the question; part i+1 is the image part of input i |
| NetworkManager.TextPartRoundTrip | ImageChatbot/ImageChatbot/NetworkManager.swift:69 | the text part reads back as the question unchanged |
| NetworkManager.ReadTextPartExact | ImageChatbot/ImageChatbot/NetworkManager.swift:69 | only the text part of a question reads back as that question |
| NetworkManager.ImagePartRoundTrip | ImageChatbot/ImageChatbot/NetworkManager.swift:54-58 | an image part's url is "data:image/jpeg;base64," followed by the input; stripping the prefix gives the input back |
| NetworkManager.ReadImagePartExact | ImageChatbot/ImageChatbot/NetworkManager.swift:54-58 | only the image part of a string reads back as that string |
| NetworkManager.ImagePartsRoundTrip | ImageChatbot/ImageChatbot/NetworkManager.swift:53-61 | the image parts read back as the inputs, in order |
| NetworkManager.ReadImagePartsExact | ImageChatbot/ImageChatbot/NetworkManager.swift:53-61 | parts that read back as a list of strings are exactly the image parts of that list |
| NetworkManager.RequestBodyRoundTrip | ImageChatbot/ImageChatbot/NetworkManager.swift:50-76 | a composed body reads back as the question and exactly the first min(n, 4) base64 strings, in input order |
| NetworkManager.ReadRequestBodyExact | ImageChatbot/ImageChatbot/NetworkManager.swift:63-73 | a body that reads back as a request is exactly the body composed from it, with at most four images |
| NetworkManager.CreateRequestBodyInjective | ImageChatbot/ImageChatbot/NetworkManager.swift:50-76 | two bodies are equal iff they carry the same question and the same first four images |
| NetworkManager.FirstChoiceContent | ImageChatbot/ImageChatbot/NetworkManager.swift:124 | the answer is choices[0].message.content, or "No response from assistant" when there are no choices |
| NetworkManager.Domain | ImageChatbot/ImageChatbot/NetworkManager.swift:85-121 | the thrown error's domain: "ImageEncodingError", "OpenAIError" or "DecodingError" for the client's own errors; a network-layer error keeps its own domain unchanged |
| NetworkManager.Code | ImageChatbot/ImageChatbot/NetworkManager.swift:85-121 | the thrown error's code: 1001 for encoding, the HTTP status for a provider error, 1003 for decoding; a network-layer error keeps its own code |
| NetworkManager.Description | ImageChatbot/ImageChatbot/NetworkManager.swift:85-121 | the localized description: "Failed to convert image to Base64"; the provider's body text; "Failed to decode response data: " plus the decoder's message; a network-layer error keeps its own description. This text follows "Error: " in a failure turn |
| NetworkManager.EncodeAll | ImageChatbot/ImageChatbot/NetworkManager.swift:81-88 | succeeds iff every image encodes, including those past the fourth; then yields every encoding in order |
| NetworkManager.InterpretReply | ImageChatbot/ImageChatbot/NetworkManager.swift:112-124 | a status other than 200 gives an error with that status and the body text, or "Unknown error" if the body is not UTF-8, whatever the body decodes to; otherwise a decode failure gives a decoding error, and a decoded response gives the first choice or the fallback; each outcome holds iff its condition does |
| NetworkManager.RequestFor | ImageChatbot/ImageChatbot/NetworkManager.swift:81-90 | fails with the encoding error iff some image fails to encode; otherwise the body reads back as the question and the first four encodings |
| NetworkManager.QueryImageQuestion | ImageChatbot/ImageChatbot/NetworkManager.swift:79-125 | the encoding error occurs iff some image fails to encode; otherwise a transport failure surfaces as is, and a reply is interpreted by InterpretReply |
| NetworkManager.EncodingFailureSendsNothing | ImageChatbot/ImageChatbot/NetworkManager.swift:81-90 | when any image fails to encode, the outcome is the encoding error and does not depend on the network at all |
| NetworkManager.ProviderErrorSkipsDecoding | ImageChatbot/ImageChatbot/NetworkManager.swift:112-115 | with a rejected status, the decoded body has no effect on the outcome; the error's code is the status |
| NetworkManager.QueryStages | ImageChatbot/ImageChatbot/NetworkManager.swift:110-124 | once the images have encoded, each outcome kind holds iff its stage decided it and every earlier stage passed (transport, then status, then decoding); success yields the first choice |
| ChatView.SelectImage | ImageChatbot/ImageChatbot/ChatView.swift:139-161 | with four or more staged, it raises the alert and leaves the images unchanged; if picked + staged > 4, it raises the alert and stages nothing; otherwise it appends the picked images in order; staged stays at most 4 |
| ChatView.EditMessage | ImageChatbot/ImageChatbot/ChatView.swift:92 | typing changes the input and nothing else |
| ChatView.SendMessage | ImageChatbot/ImageChatbot/ChatView.swift:163-186 | empty input changes nothing and starts no query; otherwise it appends exactly one turn (text, user, staged images), sets typing, clears the input and the staged images, and starts a query for that text and those images |
| ChatView.ReplyText | ImageChatbot/ImageChatbot/ChatView.swift:173-178 | the reply text is the answer, or "Error: " followed by the error's description |
| ChatView.Complete | ImageChatbot/ImageChatbot/ChatView.swift:172-181 | appends exactly one non-user turn with no images and the reply text; earlier turns unchanged; typing false |
| ChatView.InitialValid | ImageChatbot/ImageChatbot/ChatView.swift:11-15 | the initial state satisfies the invariant |
| ChatView.StepPreserves | ImageChatbot/ImageChatbot/ChatView.swift:139-185 | every transition keeps at most four staged images and well-formed turns, and appends at most one turn without changing earlier ones |
| ChatView.RunPreserves | ImageChatbot/ImageChatbot/ChatView.swift:139-185 | any run of events keeps the invariant and only appends to the transcript |
| ChatView.SendThenComplete | ImageChatbot/ImageChatbot/ChatView.swift:163-185 | send followed by the query's completion appends exactly the user turn and the reply turn, clears the input and the staged images, and lowers the typing flag |
| ChatView.OverlappingSendsLowerTypingEarly | ImageChatbot/ImageChatbot/ChatView.swift:163-184 | a second send before the first completion is allowed; the first completion appends one reply turn after both user turns and lowers the typing flag although the second query is pending |
| ChatView.SentQueryCarriesAllStaged | ImageChatbot/ImageChatbot/ChatView.swift:150-166 | since at most four images are staged, the request body carries every staged image; the four-image cap in the body never drops one |

## Left out

- Image loading, TIFF-to-PNG conversion and base64 encoding (NetworkManager.swift:40-48) are AppKit/Foundation calls. They are the opaque parameter `encode`, which may fail.
- NetworkManager.EncodeAll: when an image has no TIFF representation, the source's force-unwrap `image.tiffRepresentation!` (NetworkManager.swift:46) traps and ends the app. The model has no crash outcome: that image is an ordinary `encode` failure, and the query ends with `ImageEncodingError` and an "Error: Failed to convert image to Base64" turn. An unloadable file becomes an empty `NSImage()` (ChatView.swift:157), which may be such an image.
- `NSImage(contentsOf:) ?? NSImage()` in selectImage: the panel result is already a list of loaded images, because loading falls back to an empty image and never fails.
- Transport: `URLSession`, the constant endpoint URL (whose construction cannot fail), the POST method and the headers. Also `APIHelper`'s API key, which is not part of this model. The network is the parameter `send`; a transport failure carries the thrown error's domain, code and description unchanged.
- JSON serialization failure: the body holds only strings, arrays and string-keyed dictionaries, so serialization cannot fail and the model has no such outcome.
- Byte-level JSON decoding and UTF-8 decoding: a reply carries their outcomes (`text`, `decoded`) as inputs.
- The `Task` in sendMessage: the send and the completion are separate sequential events, with no interleaving inside either. Event runs allow a second Send before the first Finish. The first completion then lowers the typing flag while the second query is pending, as the source does. No lemma pairs a completion with the query it answers.
- SwiftUI layout, image previews, the alert dialog and its dismissal (ChatView.swift:19-136). They are presentation; the alert flag is only ever raised here.
- ImageChatbotApp.swift is the app entry point and window scene.
