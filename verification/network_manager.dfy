/** The inference client: composition of the chat-completion request body,
    the decoded response shapes, the error kinds it throws, and the decision
    logic of one query (encode every image, send, check the status, decode,
    extract the first choice). Transport, image bitmaps and byte-level JSON
    are parameters of the model. */
module NetworkManager {
  import opened Wrappers
  import opened Json

  // ---------------------------------------------------------------------------
  // Constants of the request body and of the answer pipeline

  const ModelName := "gpt-4.1"
  const UserRole := "user"
  /** The request body carries at most this many images. */
  const MaxImages := 4
  /** Every base64 image is wrapped in a data URI with this prefix (the bytes are PNG, the tag says jpeg). */
  const DataUriPrefix := "data:image/jpeg;base64,"
  const NoResponseFallback := "No response from assistant"
  const UnknownError := "Unknown error"
  const StatusOk := 200

  function Min(a: int, b: int): int
  {
    if a <= b then a else b
  }

  // ---------------------------------------------------------------------------
  // Request body

  /** The question and the base64 images as they travel in one request. */
  datatype Request = Request(question: string, base64Images: seq<string>)

  /** The leading content part: the question, unchanged. */
  function TextPart(question: string): Value
  {
    Obj(map["type" := Str("text"), "text" := Str(question)])
  }

  /** One image content part, referencing the image through an inline data URI. */
  function ImagePart(base64Image: string): Value
  {
    Obj(map["type" := Str("image_url"),
             "image_url" := Obj(map["url" := Str(DataUriPrefix + base64Image)])])
  }

  /** The image content parts, one per base64 string, in input order. */
  function ImageParts(base64Images: seq<string>): (parts: seq<Value>)
    ensures |parts| == |base64Images|
    ensures forall i :: 0 <= i < |parts| ==> parts[i] == ImagePart(base64Images[i])
  {
    if base64Images == [] then []
    else [ImagePart(base64Images[0])] + ImageParts(base64Images[1..])
  }

  /** The payload: one user message whose content is the text part followed by
      the image parts of the first `MaxImages` base64 strings. */
  function CreateRequestBody(question: string, base64Images: seq<string>): (body: Value)
    ensures Member(body, "model") == Some(Str(ModelName))
    ensures |Messages(body)| == 1
    ensures Member(Messages(body)[0], "role") == Some(Str(UserRole))
    ensures |ContentParts(body)| == 1 + Min(|base64Images|, MaxImages)
    ensures ContentParts(body)[0] == TextPart(question)
    ensures forall i :: 0 <= i < Min(|base64Images|, MaxImages) ==>
              ContentParts(body)[i + 1] == ImagePart(base64Images[i])
  {
    var sent := base64Images[..Min(|base64Images|, MaxImages)];
    var message := Obj(map["role" := Str(UserRole),
                            "content" := Arr([TextPart(question)] + ImageParts(sent))]);
    Obj(map["model" := Str(ModelName), "messages" := Arr([message])])
  }

  /** The items of the body's "messages" array (empty when it has none). */
  function Messages(body: Value): seq<Value>
  {
    match Member(body, "messages")
    case Some(Arr(items)) => items
    case _ => []
  }

  /** The content parts of the body's single message (empty when the shape differs). */
  function ContentParts(body: Value): seq<Value>
  {
    var messages := Messages(body);
    if |messages| != 1 then []
    else match Member(messages[0], "content")
      case Some(Arr(parts)) => parts
      case _ => []
  }

  // ---------------------------------------------------------------------------
  // Reading a request body back: the inverse of CreateRequestBody

  /** The question of a text part, if `part` is exactly one. */
  function ReadTextPart(part: Value): Option<string>
  {
    if part.Obj? && part.fields.Keys == {"type", "text"}
       && part.fields["type"] == Str("text") && part.fields["text"].Str?
    then Some(part.fields["text"].text)
    else None
  }

  /** The base64 string of an image part, if `part` is exactly one. */
  function ReadImagePart(part: Value): Option<string>
  {
    if part.Obj? && part.fields.Keys == {"type", "image_url"}
       && part.fields["type"] == Str("image_url")
    then
      var ref := part.fields["image_url"];
      if ref.Obj? && ref.fields.Keys == {"url"} && ref.fields["url"].Str?
         && DataUriPrefix <= ref.fields["url"].text
      then Some(ref.fields["url"].text[|DataUriPrefix|..])
      else None
    else None
  }

  /** The base64 strings of a sequence of image parts, if every one is an image part. */
  function ReadImageParts(parts: seq<Value>): Option<seq<string>>
  {
    if parts == [] then Some([])
    else match (ReadImagePart(parts[0]), ReadImageParts(parts[1..]))
      case (Some(b), Some(bs)) => Some([b] + bs)
      case _ => None
  }

  /** The request a body carries, if it has exactly the shape CreateRequestBody produces. */
  function ReadRequestBody(body: Value): Option<Request>
  {
    if body.Obj? && body.fields.Keys == {"model", "messages"}
       && body.fields["model"] == Str(ModelName)
       && body.fields["messages"].Arr? && |body.fields["messages"].items| == 1
    then
      var message := body.fields["messages"].items[0];
      if message.Obj? && message.fields.Keys == {"role", "content"}
         && message.fields["role"] == Str(UserRole)
         && message.fields["content"].Arr? && |message.fields["content"].items| >= 1
      then
        var parts := message.fields["content"].items;
        match (ReadTextPart(parts[0]), ReadImageParts(parts[1..]))
        case (Some(q), Some(images)) =>
          if |images| <= MaxImages then Some(Request(q, images)) else None
        case _ => None
      else None
    else None
  }

  lemma TextPartRoundTrip(question: string)
    ensures ReadTextPart(TextPart(question)) == Some(question)
  {
  }

  /** The only value read as the text part of `question` is that text part. */
  lemma ReadTextPartExact(part: Value, question: string)
    requires ReadTextPart(part) == Some(question)
    ensures part == TextPart(question)
  {
  }

  lemma ImagePartRoundTrip(base64Image: string)
    ensures ReadImagePart(ImagePart(base64Image)) == Some(base64Image)
  {
  }

  /** The only value read as the image part of `base64Image` is that image part. */
  lemma ReadImagePartExact(part: Value, base64Image: string)
    requires ReadImagePart(part) == Some(base64Image)
    ensures part == ImagePart(base64Image)
  {
    var ref := part.fields["image_url"];
    var url := ref.fields["url"].text;
    assert url == DataUriPrefix + base64Image by {
      assert url == url[..|DataUriPrefix|] + url[|DataUriPrefix|..];
    }
    assert ref.fields == ImagePart(base64Image).fields["image_url"].fields;
    assert part.fields == ImagePart(base64Image).fields;
  }

  lemma {:induction false} ImagePartsRoundTrip(base64Images: seq<string>)
    ensures ReadImageParts(ImageParts(base64Images)) == Some(base64Images)
  {
    if base64Images != [] {
      var parts := ImageParts(base64Images);
      assert parts[1..] == ImageParts(base64Images[1..]);
      ImagePartRoundTrip(base64Images[0]);
      ImagePartsRoundTrip(base64Images[1..]);
      assert [base64Images[0]] + base64Images[1..] == base64Images;
    }
  }

  lemma {:induction false} ReadImagePartsExact(parts: seq<Value>, base64Images: seq<string>)
    requires ReadImageParts(parts) == Some(base64Images)
    ensures parts == ImageParts(base64Images)
  {
    if parts != [] {
      var b := ReadImagePart(parts[0]).value;
      var bs := ReadImageParts(parts[1..]).value;
      ReadImagePartExact(parts[0], b);
      ReadImagePartsExact(parts[1..], bs);
      assert base64Images[1..] == bs;
      assert parts == [parts[0]] + parts[1..];
    }
  }

  /** Reading back a composed body yields the question unchanged and exactly
      the first `MaxImages` base64 strings, in input order. */
  lemma RequestBodyRoundTrip(question: string, base64Images: seq<string>)
    ensures ReadRequestBody(CreateRequestBody(question, base64Images))
            == Some(Request(question, base64Images[..Min(|base64Images|, MaxImages)]))
  {
    var sent := base64Images[..Min(|base64Images|, MaxImages)];
    var parts := [TextPart(question)] + ImageParts(sent);
    assert parts[1..] == ImageParts(sent);
    TextPartRoundTrip(question);
    ImagePartsRoundTrip(sent);
  }

  /** A body that reads back as a request is exactly the body composed from it:
      the reader accepts nothing but composed bodies. */
  lemma ReadRequestBodyExact(body: Value, request: Request)
    requires ReadRequestBody(body) == Some(request)
    ensures |request.base64Images| <= MaxImages
    ensures body == CreateRequestBody(request.question, request.base64Images)
  {
    var q := request.question;
    var images := request.base64Images;
    var message := body.fields["messages"].items[0];
    var parts := message.fields["content"].items;
    var expectedParts := [TextPart(q)] + ImageParts(images);
    assert parts == expectedParts by {
      ReadTextPartExact(parts[0], q);
      ReadImagePartsExact(parts[1..], images);
      assert parts == [parts[0]] + parts[1..];
    }
    var expectedMessage := Obj(map["role" := Str(UserRole), "content" := Arr(expectedParts)]);
    assert message == expectedMessage by {
      assert message.fields == expectedMessage.fields;
    }
    assert images[..Min(|images|, MaxImages)] == images;
    var expectedBody := Obj(map["model" := Str(ModelName), "messages" := Arr([expectedMessage])]);
    assert CreateRequestBody(q, images) == expectedBody;
    assert body.fields["messages"] == Arr([expectedMessage]) by {
      assert body.fields["messages"].items == [expectedMessage];
    }
    assert body.fields == expectedBody.fields;
  }

  /** Two composed bodies are equal exactly when they carry the same question
      and the same first `MaxImages` images. */
  lemma CreateRequestBodyInjective(q1: string, images1: seq<string>, q2: string, images2: seq<string>)
    ensures CreateRequestBody(q1, images1) == CreateRequestBody(q2, images2)
            <==> q1 == q2 && images1[..Min(|images1|, MaxImages)] == images2[..Min(|images2|, MaxImages)]
  {
    RequestBodyRoundTrip(q1, images1);
    RequestBodyRoundTrip(q2, images2);
  }

  // ---------------------------------------------------------------------------
  // Decoded response shapes

  datatype Message = Message(role: string, content: string)
  datatype Choice = Choice(index: int, message: Message, finishReason: string)
  datatype Usage = Usage(promptTokens: int, completionTokens: int, totalTokens: int)
  /** The decoded chat-completion response; `kind` is the JSON "object" member. */
  datatype ChatCompletion = ChatCompletion(id: string, kind: string, model: string,
                                           choices: seq<Choice>, usage: Usage)

  /** The answer of a decoded response: the first choice's content, or the fixed
      fallback when there are no choices. */
  function FirstChoiceContent(response: ChatCompletion): (answer: string)
    ensures |response.choices| > 0 ==> answer == response.choices[0].message.content
    ensures |response.choices| == 0 ==> answer == NoResponseFallback
  {
    if |response.choices| > 0 then response.choices[0].message.content else NoResponseFallback
  }

  // ---------------------------------------------------------------------------
  // Errors thrown by a query

  /** The error kinds a query throws. The first, third and fourth are the
      errors the client builds itself; a transport failure is whatever the
      network layer threw, passed on unchanged. */
  datatype ChatError =
    | ImageEncodingError
    | TransportError(domain: string, code: int, cause: string)
    | ProviderError(status: int, body: string)
    | DecodingError(cause: string)

  /** The error's domain string. */
  function Domain(e: ChatError): (d: string)
    ensures e.ImageEncodingError? ==> d == "ImageEncodingError"
    ensures e.TransportError? ==> d == e.domain
    ensures e.ProviderError? ==> d == "OpenAIError"
    ensures e.DecodingError? ==> d == "DecodingError"
  {
    match e
    case ImageEncodingError => "ImageEncodingError"
    case TransportError(domain, _, _) => domain
    case ProviderError(_, _) => "OpenAIError"
    case DecodingError(_) => "DecodingError"
  }

  /** The error's numeric code: the HTTP status for a provider error. */
  function Code(e: ChatError): (c: int)
    ensures e.ImageEncodingError? ==> c == 1001
    ensures e.TransportError? ==> c == e.code
    ensures e.ProviderError? ==> c == e.status
    ensures e.DecodingError? ==> c == 1003
  {
    match e
    case ImageEncodingError => 1001
    case TransportError(_, code, _) => code
    case ProviderError(status, _) => status
    case DecodingError(_) => 1003
  }

  /** The error's localized description, as the chat view shows it. */
  function Description(e: ChatError): (text: string)
    ensures e.ImageEncodingError? ==> text == "Failed to convert image to Base64"
    ensures e.TransportError? ==> text == e.cause
    ensures e.ProviderError? ==> text == e.body
    ensures e.DecodingError? ==> text == "Failed to decode response data: " + e.cause
  {
    match e
    case ImageEncodingError => "Failed to convert image to Base64"
    case TransportError(_, _, cause) => cause
    case ProviderError(_, body) => body
    case DecodingError(cause) => "Failed to decode response data: " + cause
  }

  // ---------------------------------------------------------------------------
  // One query

  /** An image the user picked; the bitmap itself stays opaque. */
  datatype ImageBlob = ImageBlob(handle: nat)

  /** What came back over the wire. `status` is None when the response is not an
      HTTP response; `text` is the body read as UTF-8 (None when it is not
      UTF-8); `decoded` is the JSON decoder's outcome, with its error text. */
  datatype Reply = Reply(status: Option<int>, text: Option<string>,
                         decoded: Result<ChatCompletion, string>)

  /** The outcome of sending one request: the error the network layer threw
      (its domain, code and description), or a reply. */
  datatype Transport = Failed(domain: string, code: int, cause: string) | Received(reply: Reply)

  /** True when the reply passes the status check. */
  predicate StatusAccepted(reply: Reply)
  {
    reply.status.None? || reply.status.value == StatusOk
  }

  /** The base64 strings of every image, in order, or None when any one fails
      to encode; every image is encoded, whether or not it will be sent. */
  function EncodeAll(images: seq<ImageBlob>, encode: ImageBlob -> Option<string>): (r: Option<seq<string>>)
    ensures r.Some? <==> forall i :: 0 <= i < |images| ==> encode(images[i]).Some?
    ensures r.Some? ==> |r.value| == |images|
    ensures r.Some? ==> forall i :: 0 <= i < |images| ==> r.value[i] == encode(images[i]).value
  {
    if images == [] then Some([])
    else match (encode(images[0]), EncodeAll(images[1..], encode))
      case (Some(b), Some(bs)) => Some([b] + bs)
      case _ => None
  }

  /** The answer or error a reply turns into: a status other than 200 is an
      error carrying the status and the body text, without decoding; otherwise
      a decoding failure is an error, and a decoded response yields its first
      choice's content or the fallback. */
  function InterpretReply(reply: Reply): (r: Result<string, ChatError>)
    ensures r.Failure? && r.error.ProviderError? <==> !StatusAccepted(reply)
    ensures !StatusAccepted(reply) ==>
              r == Failure(ProviderError(reply.status.value, reply.text.GetOr(UnknownError)))
    ensures r.Failure? && r.error.DecodingError? <==> StatusAccepted(reply) && reply.decoded.Failure?
    ensures StatusAccepted(reply) && reply.decoded.Failure? ==> r == Failure(DecodingError(reply.decoded.error))
    ensures r.Success? <==> StatusAccepted(reply) && reply.decoded.Success?
    ensures r.Success? ==> r.value == FirstChoiceContent(reply.decoded.value)
    ensures r.Failure? ==> r.error.ProviderError? || r.error.DecodingError?
  {
    if reply.status.Some? && reply.status.value != StatusOk then
      Failure(ProviderError(reply.status.value, reply.text.GetOr(UnknownError)))
    else match reply.decoded
      case Failure(cause) => Failure(DecodingError(cause))
      case Success(response) => Success(FirstChoiceContent(response))
  }

  /** The body a query sends, or the encoding error raised before anything is built. */
  function RequestFor(question: string, images: seq<ImageBlob>,
                      encode: ImageBlob -> Option<string>): (r: Result<Value, ChatError>)
    ensures r.Failure? <==> exists i :: 0 <= i < |images| && encode(images[i]).None?
    ensures r.Failure? ==> r.error == ImageEncodingError
    ensures r.Success? ==>
              ReadRequestBody(r.value)
              == Some(Request(question, EncodeAll(images, encode).value[..Min(|images|, MaxImages)]))
  {
    match EncodeAll(images, encode)
    case None => Failure(ImageEncodingError)
    case Some(base64Images) =>
      RequestBodyRoundTrip(question, base64Images);
      Success(CreateRequestBody(question, base64Images))
  }

  /** One query: encode every image (failing before anything is sent), send the
      composed body through `send`, then interpret the reply. */
  function QueryImageQuestion(question: string, images: seq<ImageBlob>,
                              encode: ImageBlob -> Option<string>,
                              send: Value -> Transport): (r: Result<string, ChatError>)
    ensures r == Failure(ImageEncodingError)
            <==> exists i :: 0 <= i < |images| && encode(images[i]).None?
    ensures RequestFor(question, images, encode).Success? ==>
              var sent := send(RequestFor(question, images, encode).value);
              && (sent.Failed? ==> r == Failure(TransportError(sent.domain, sent.code, sent.cause)))
              && (sent.Received? ==> r == InterpretReply(sent.reply))
  {
    match RequestFor(question, images, encode)
    case Failure(e) => Failure(e)
    case Success(body) =>
      match send(body)
      case Failed(domain, code, cause) => Failure(TransportError(domain, code, cause))
      case Received(reply) => InterpretReply(reply)
  }

  /** An image that fails to encode, at any position (also past the fourth,
      which would not be sent), fails the query with the encoding error
      whatever the network would have done: nothing is sent. */
  lemma EncodingFailureSendsNothing(question: string, images: seq<ImageBlob>,
                                    encode: ImageBlob -> Option<string>,
                                    send1: Value -> Transport, send2: Value -> Transport, i: int)
    requires 0 <= i < |images| && encode(images[i]).None?
    ensures QueryImageQuestion(question, images, encode, send1) == Failure(ImageEncodingError)
    ensures QueryImageQuestion(question, images, encode, send1)
            == QueryImageQuestion(question, images, encode, send2)
  {
  }

  /** A rejected status decides the outcome whatever the body would decode to. */
  lemma ProviderErrorSkipsDecoding(status: int, text: Option<string>,
                                   d1: Result<ChatCompletion, string>, d2: Result<ChatCompletion, string>)
    requires status != StatusOk
    ensures InterpretReply(Reply(Some(status), text, d1)) == InterpretReply(Reply(Some(status), text, d2))
    ensures Code(InterpretReply(Reply(Some(status), text, d1)).error) == status
  {
  }

  /** The order of the checks once every image has encoded (the encoding
      failure itself is characterised by QueryImageQuestion): each kind of
      result pins down the stage that decided it and implies every earlier
      stage passed. */
  lemma QueryStages(question: string, images: seq<ImageBlob>,
                    encode: ImageBlob -> Option<string>, send: Value -> Transport)
    requires forall i :: 0 <= i < |images| ==> encode(images[i]).Some?
    ensures var r := QueryImageQuestion(question, images, encode, send);
            var sent := send(CreateRequestBody(question, EncodeAll(images, encode).value));
            && (r.Failure? && r.error.TransportError? <==> sent.Failed?)
            && (r.Failure? && r.error.ProviderError? <==> sent.Received? && !StatusAccepted(sent.reply))
            && (r.Failure? && r.error.DecodingError? <==>
                  sent.Received? && StatusAccepted(sent.reply) && sent.reply.decoded.Failure?)
            && (r.Success? <==>
                  sent.Received? && StatusAccepted(sent.reply) && sent.reply.decoded.Success?)
            && (r.Success? ==> r.value == FirstChoiceContent(sent.reply.decoded.value))
  {
    var encoded := EncodeAll(images, encode).value;
    var body := CreateRequestBody(question, encoded);
    assert RequestFor(question, images, encode) == Success(body);
    assert QueryImageQuestion(question, images, encode, send)
           == match send(body)
              case Failed(domain, code, cause) => Failure(TransportError(domain, code, cause))
              case Received(reply) => InterpretReply(reply);
  }
}
