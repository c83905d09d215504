/** The remote chat-completion service, seen only through the requests the
    program sends it. Every call is recorded together with the reply the
    service gave; the reply is arbitrary, so nothing proved about the
    program depends on what the model answers. */
module Oracle {
  import opened Optional

  /** The model both front ends ask. */
  const ModelName: string := "gpt-4.1-mini"

  /** One `chat.completions.create` call: an optional system message, the
      user message text, an optional image sent as a URL, and the output
      bound `max_tokens`. */
  datatype Request = Request(
    model: string,
    system: Option<string>,
    text: string,
    imageUrl: Option<string>,
    maxTokens: nat)

  datatype Exchange = Exchange(request: Request, reply: string)

  /** The requests of a log, in the order they were sent. */
  function Requests(log: seq<Exchange>): seq<Request> {
    seq(|log|, i requires 0 <= i < |log| => log[i].request)
  }

  /** The replies of a log, in the order they were received. */
  function Replies(log: seq<Exchange>): seq<string> {
    seq(|log|, i requires 0 <= i < |log| => log[i].reply)
  }

  /** Logs concatenate request by request and reply by reply. */
  lemma LogAppend(a: seq<Exchange>, b: seq<Exchange>)
    ensures Requests(a + b) == Requests(a) + Requests(b)
    ensures Replies(a + b) == Replies(a) + Replies(b)
  {
  }

  /** The shared client object; `log` holds every call made through it. */
  class Client {
    var log: seq<Exchange>

    constructor ()
      ensures log == []
    {
      log := [];
    }

    /** Sends one request and returns whatever text the model replies with
        (`response.choices[0].message.content`). */
    method Complete(request: Request) returns (reply: string)
      modifies this
      ensures log == old(log) + [Exchange(request, reply)]
    {
      reply := *;
      log := log + [Exchange(request, reply)];
    }
  }
}
