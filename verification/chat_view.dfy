/** The chat window's state and the transitions behind its two buttons: staging
    images from the file panel and sending the typed message, plus the
    completion that appends the assistant's reply. Layout, alerts and the
    panel's I/O are outside the model; the panel's result is an input. */
module ChatView {
  import opened Wrappers
  import Json
  import NetworkManager

  type ImageBlob = NetworkManager.ImageBlob

  /** At most this many images may be staged for one outgoing message. */
  const MaxStaged := 4
  /** Prefix of a reply turn that reports a failed query. */
  const ErrorPrefix := "Error: "

  /** One transcript entry: its text, whether the user sent it, and its images. */
  datatype Turn = Turn(text: string, isFromUser: bool, images: seq<ImageBlob>)

  /** The view's state: the input field, the staged images, the transcript and two flags. */
  datatype State = State(userMessage: string, images: seq<ImageBlob>, messages: seq<Turn>,
                         isTyping: bool, showingAlert: bool)

  const Initial := State("", [], [], false, false)

  /** What the file panel returned, each chosen file already loaded as an image. */
  datatype PanelResult = Cancelled | Chosen(picked: seq<ImageBlob>)

  /** The question and the images handed to the client by one send. */
  datatype Query = Query(question: string, images: seq<ImageBlob>)

  predicate TurnWellFormed(t: Turn)
  {
    if t.isFromUser then |t.images| <= MaxStaged else t.images == []
  }

  /** The invariant every transition keeps: at most four staged images, user
      turns with at most four images, assistant turns with none. */
  predicate Valid(s: State)
  {
    && |s.images| <= MaxStaged
    && forall i :: 0 <= i < |s.messages| ==> TurnWellFormed(s.messages[i])
  }

  /** The "+" button. With four images staged it raises the alert without
      opening the panel; a choice that would exceed four raises the alert and
      stages nothing; otherwise the chosen images follow the staged ones. */
  function SelectImage(s: State, panel: PanelResult): (s': State)
    ensures |s.images| >= MaxStaged ==> s' == s.(showingAlert := true)
    ensures |s.images| < MaxStaged && panel.Cancelled? ==> s' == s
    ensures (|s.images| < MaxStaged && panel.Chosen? && |panel.picked| + |s.images| > MaxStaged)
            ==> s' == s.(showingAlert := true)
    ensures (|s.images| < MaxStaged && panel.Chosen? && |panel.picked| + |s.images| <= MaxStaged)
            ==> s' == s.(images := s.images + panel.picked)
    ensures s'.userMessage == s.userMessage && s'.messages == s.messages && s'.isTyping == s.isTyping
    ensures |s.images| <= MaxStaged ==> |s'.images| <= MaxStaged
  {
    if |s.images| >= MaxStaged then s.(showingAlert := true)
    else match panel
      case Cancelled => s
      case Chosen(picked) =>
        if |picked| + |s.images| > MaxStaged then s.(showingAlert := true)
        else
          var remainingSlots := MaxStaged - |s.images|;
          var selected := picked[..NetworkManager.Min(|picked|, remainingSlots)];
          assert selected == picked;
          s.(images := s.images + selected)
  }

  /** Typing in the text field replaces the input and nothing else. */
  function EditMessage(s: State, text: string): (s': State)
    ensures s'.userMessage == text
    ensures s'.(userMessage := s.userMessage) == s
  {
    s.(userMessage := text)
  }

  /** The send button. Empty input changes nothing and starts no query.
      Otherwise the message and the staged images become one user turn, the
      typing flag rises, the input and staged images are cleared, and a query
      for that message and those images is started. */
  function SendMessage(s: State): (out: (State, Option<Query>))
    ensures s.userMessage == [] ==> out == (s, None)
    ensures s.userMessage != [] ==>
              && out.0.messages == s.messages + [Turn(s.userMessage, true, s.images)]
              && out.0.isTyping
              && out.0.userMessage == []
              && out.0.images == []
              && out.0.showingAlert == s.showingAlert
              && out.1 == Some(Query(s.userMessage, s.images))
  {
    if s.userMessage == [] then (s, None)
    else
      var message := s.userMessage;
      var images := s.images;
      var s1 := s.(messages := s.messages + [Turn(message, true, images)], isTyping := true);
      (s1.(userMessage := "", images := []), Some(Query(message, images)))
  }

  /** The transcript text for a finished query: the answer, or the error's
      description behind "Error: ". */
  function ReplyText(outcome: Result<string, NetworkManager.ChatError>): (text: string)
    ensures outcome.Success? ==> text == outcome.value
    ensures outcome.Failure? ==> text == ErrorPrefix + NetworkManager.Description(outcome.error)
  {
    match outcome
    case Success(answer) => answer
    case Failure(e) => ErrorPrefix + NetworkManager.Description(e)
  }

  /** The end of a query: one assistant turn without images is appended and the
      typing flag drops; everything else is kept. */
  function Complete(s: State, outcome: Result<string, NetworkManager.ChatError>): (s': State)
    ensures |s'.messages| == |s.messages| + 1
    ensures s'.messages[..|s.messages|] == s.messages
    ensures s'.messages[|s.messages|] == Turn(ReplyText(outcome), false, [])
    ensures !s'.isTyping
    ensures s'.userMessage == s.userMessage && s'.images == s.images
            && s'.showingAlert == s.showingAlert
  {
    s.(messages := s.messages + [Turn(ReplyText(outcome), false, [])], isTyping := false)
  }

  // ---------------------------------------------------------------------------
  // Runs of events

  /** Everything that can happen to the view, with the completion's outcome as input. */
  datatype Event =
    | Pick(panel: PanelResult)
    | Edit(text: string)
    | Send
    | Finish(outcome: Result<string, NetworkManager.ChatError>)

  function Step(s: State, e: Event): State
  {
    match e
    case Pick(panel) => SelectImage(s, panel)
    case Edit(text) => EditMessage(s, text)
    case Send => SendMessage(s).0
    case Finish(outcome) => Complete(s, outcome)
  }

  function Run(s: State, events: seq<Event>): State
    decreases |events|
  {
    if events == [] then s else Run(Step(s, events[0]), events[1..])
  }

  lemma InitialValid()
    ensures Valid(Initial)
  {
  }

  /** Every single transition keeps the invariant and appends at most one
      turn without touching the earlier ones. */
  lemma StepPreserves(s: State, e: Event)
    requires Valid(s)
    ensures Valid(Step(s, e))
    ensures |s.messages| <= |Step(s, e).messages| <= |s.messages| + 1
    ensures Step(s, e).messages[..|s.messages|] == s.messages
  {
  }

  /** Any run from a valid state ends valid, and the transcript it ends with
      starts with the transcript it began with: turns are only appended. */
  lemma {:induction false} RunPreserves(s: State, events: seq<Event>)
    requires Valid(s)
    ensures Valid(Run(s, events))
    ensures |s.messages| <= |Run(s, events).messages| <= |s.messages| + |events|
    ensures Run(s, events).messages[..|s.messages|] == s.messages
    decreases |events|
  {
    if events != [] {
      var s1 := Step(s, events[0]);
      StepPreserves(s, events[0]);
      RunPreserves(s1, events[1..]);
      var final := Run(s1, events[1..]);
      assert final.messages[..|s.messages|] == final.messages[..|s1.messages|][..|s.messages|];
    }
  }

  /** From any valid state with typed input, sending and then completing with
      the client's outcome for the sent query appends exactly the user turn and
      the reply turn, and leaves the input cleared, nothing staged and the
      typing flag down. */
  lemma SendThenComplete(s: State, encode: ImageBlob -> Option<string>,
                         send: Json.Value -> NetworkManager.Transport)
    requires Valid(s) && s.userMessage != []
    ensures
      var (sent, query) := SendMessage(s);
      var outcome := NetworkManager.QueryImageQuestion(query.value.question, query.value.images, encode, send);
      var done := Complete(sent, outcome);
      && done.messages == s.messages + [Turn(s.userMessage, true, s.images), Turn(ReplyText(outcome), false, [])]
      && done.userMessage == [] && done.images == [] && !done.isTyping
      && Valid(done)
  {
  }

  /** Because at most four images are ever staged, a query started by the view
      sends every staged image: the request body's cap never drops one. */
  lemma SentQueryCarriesAllStaged(s: State, encode: ImageBlob -> Option<string>)
    requires Valid(s) && s.userMessage != []
    requires forall i :: 0 <= i < |s.images| ==> encode(s.images[i]).Some?
    ensures
      var query := SendMessage(s).1.value;
      var body := NetworkManager.RequestFor(query.question, query.images, encode);
      && body.Success?
      && NetworkManager.ReadRequestBody(body.value)
         == Some(NetworkManager.Request(s.userMessage, NetworkManager.EncodeAll(s.images, encode).value))
  {
    var encoded := NetworkManager.EncodeAll(s.images, encode).value;
    assert encoded[..NetworkManager.Min(|s.images|, NetworkManager.MaxImages)] == encoded;
  }

  /** Nothing stops a second send while a query is pending: when the first
      query completes, the typing flag drops although the second is still
      outstanding, and the transcript holds both user turns and one reply. */
  lemma OverlappingSendsLowerTypingEarly(s: State, first: string, second: string,
                                         outcome: Result<string, NetworkManager.ChatError>)
    requires Valid(s) && first != [] && second != []
    ensures var final := Run(s, [Edit(first), Send, Edit(second), Send, Finish(outcome)]);
            && !final.isTyping
            && final.messages == s.messages + [Turn(first, true, s.images), Turn(second, true, []),
                                               Turn(ReplyText(outcome), false, [])]
  {
    var events := [Edit(first), Send, Edit(second), Send, Finish(outcome)];
    var s1 := Step(s, Edit(first));
    var s2 := Step(s1, Send);
    var s3 := Step(s2, Edit(second));
    var s4 := Step(s3, Send);
    var s5 := Step(s4, Finish(outcome));
    assert events[1..][1..] == events[2..] && events[2..][1..] == events[3..]
           && events[3..][1..] == events[4..] && events[4..][1..] == [];
    assert Run(s, events) == Run(s1, events[1..]) == Run(s2, events[2..])
           == Run(s3, events[3..]) == Run(s4, events[4..]) == s5;
  }
}
