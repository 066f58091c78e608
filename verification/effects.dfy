/** The calls the routers make to the outside world, and the world's answers.
    Nothing here performs I/O: a router records each call it makes in a
    trace of effects, and the answers come from a `World` given with the
    inbound event. */
module Effects {
  import opened Wrappers

  /** What the chat-completion API is asked: the system message, the user
      message and the token cap. */
  datatype CompletionRequest = CompletionRequest(systemPrompt: string, userInput: string, maxTokens: nat)

  /** One outgoing call, in the order the router makes it. */
  datatype Effect =
    | Send(to: string, body: string)
    | Complete(request: CompletionRequest)
    | Download(mediaId: string)
    | Transcribe(file: string)

  /** Why the Graph API refused a message: the `error.message` of its
      response body, when there is one, and the HTTP client's own error
      message. */
  datatype SendFailure = SendFailure(apiMessage: Option<string>, errorMessage: string)

  /** The answers of the outside world for one inbound event:
      - `deliver(to, body)`: whether the Graph API accepted the text message;
      - `failure(to, body)`: the error the API gave when it did not;
      - `complete(request)`: the completion's content, or `None` when the call
        failed or returned no content;
      - `download(id)`: the local path of the downloaded media, or `None` when
        the download failed;
      - `transcribe(file)`: the transcript, or `None` when Whisper failed;
      - `dbReachable`: whether the database answered;
      - `now`: the clock, in milliseconds. */
  datatype World = World(
    deliver: (string, string) -> bool,
    failure: (string, string) -> SendFailure,
    complete: CompletionRequest -> Option<string>,
    download: string -> Option<string>,
    transcribe: string -> Option<string>,
    dbReachable: bool,
    now: int)

  /** The number of messages sent in a trace. */
  function SendCount(effects: seq<Effect>): (n: nat)
    ensures n <= |effects|
    ensures n == 0 <==> forall i :: 0 <= i < |effects| ==> !effects[i].Send?
  {
    if effects == [] then 0
    else (if effects[0].Send? then 1 else 0) + SendCount(effects[1..])
  }

  /** The trace asks for no completion. */
  predicate NoCompletion(effects: seq<Effect>) {
    forall i :: 0 <= i < |effects| ==> !effects[i].Complete?
  }

  lemma {:induction false} SendCountAppend(a: seq<Effect>, b: seq<Effect>)
    ensures SendCount(a + b) == SendCount(a) + SendCount(b)
  {
    if a == [] {
      assert a + b == b;
    } else {
      assert (a + b)[0] == a[0];
      assert (a + b)[1..] == a[1..] + b;
      SendCountAppend(a[1..], b);
    }
  }
}
