/** The remote service as the client sees it: a script of the replies each
    endpoint will give, a log of the calls the client issued, and a clock
    that advances only while the client sleeps. Real HTTP and JSON are
    replaced by the scripted replies. */
module Network {
  import opened Types
  import opened Errors
  import opened Transport

  const ServerUri := "https://api-proxy-prod.prod.gcp.minisme.ai"
  const GetAssistantUrl := ServerUri + "/ai.assistants.v0.Assistants/GetAssistant"
  const UploadFileUrl := ServerUri + "/ai.Stores/UploadFileUnary"
  const CreateThreadAndRunUrl := ServerUri + "/ai.assistants.v0.Assistants/CreateThreadAndRun"
  const GetRunUrl := ServerUri + "/ai.assistants.v0.Assistants/GetRun"
  const ListMessagesUrl := ServerUri + "/ai.assistants.v0.Assistants/ListMessages"

  /** The JSON payload of a POST to the API. */
  datatype ApiRequest =
    | GetAssistantBody(getAssistant: GetAssistantRequest)
    | UploadFileBody(uploadFile: UploadFileRequest)
    | CreateThreadAndRunBody(createThreadAndRun: CreateThreadAndRunRequest)
    | GetRunBody(getRun: GetRunRequest)
    | ListMessagesBody(listMessages: ListMessagesRequest)

  /** One request that reached the network. */
  datatype Call =
    | Post(url: string, request: ApiRequest)
    | Put(url: string, headers: map<string, string>, body: seq<bv8>)

  /** How the storage backend answers an upload PUT. */
  datatype PutReply =
    | PutTransportFailure(cause: string)
    | PutAnswered(status: int)

  /** The replies still to come, one queue per endpoint, in the order the
      endpoint will give them. */
  datatype Script = Script(
    assistants: seq<Exchange<Assistant>>,
    tickets: seq<Exchange<UploadFileResponse>>,
    puts: seq<PutReply>,
    creations: seq<Exchange<Run>>,
    polls: seq<Exchange<Run>>,
    listings: seq<Exchange<ListMessagesResponse>>)

  /** What one POST against `queue` yields once `callAPI` has checked the
      status: the decoded reply, or an error; and the queue left afterwards.
      An empty queue answers nothing. */
  function Answer<T>(queue: seq<Exchange<T>>): Result<T> {
    if queue == [] then Failure(ScriptExhausted) else CallAPI(queue[0], StatusOK)
  }

  /** The calls a POST against `queue` adds to the log: none if the queue
      is empty, otherwise `call` itself. */
  function Logged<T>(queue: seq<Exchange<T>>, call: Call): (calls: seq<Call>)
    ensures |calls| <= 1
    ensures calls == [] <==> queue == []
    ensures forall c :: c in calls ==> c == call
  {
    if queue == [] then [] else [call]
  }

  function Rest<T>(queue: seq<T>): seq<T> {
    if queue == [] then [] else queue[1..]
  }

  /** The scripted service. Every method takes the next reply of its own
      endpoint's queue and logs the call; nothing else changes. */
  class Network {
    var script: Script
    var log: seq<Call>
    /** Milliseconds slept so far. */
    var clock: nat

    constructor (script: Script)
      ensures this.script == script && log == [] && clock == 0
    {
      this.script := script;
      log := [];
      clock := 0;
    }

    method PostGetAssistant(request: GetAssistantRequest) returns (r: Result<Assistant>)
      modifies this
      ensures r == Answer(old(script.assistants))
      ensures script == old(script).(assistants := Rest(old(script.assistants)))
      ensures log == old(log) + Logged(old(script.assistants), Post(GetAssistantUrl, GetAssistantBody(request)))
      ensures clock == old(clock)
    {
      r := Answer(script.assistants);
      log := log + Logged(script.assistants, Post(GetAssistantUrl, GetAssistantBody(request)));
      script := script.(assistants := Rest(script.assistants));
    }

    method PostUploadFile(request: UploadFileRequest) returns (r: Result<UploadFileResponse>)
      modifies this
      ensures r == Answer(old(script.tickets))
      ensures script == old(script).(tickets := Rest(old(script.tickets)))
      ensures log == old(log) + Logged(old(script.tickets), Post(UploadFileUrl, UploadFileBody(request)))
      ensures clock == old(clock)
    {
      r := Answer(script.tickets);
      log := log + Logged(script.tickets, Post(UploadFileUrl, UploadFileBody(request)));
      script := script.(tickets := Rest(script.tickets));
    }

    /** The direct upload: `body` is sent to `url` with `headers`. An empty
        queue answers nothing and logs nothing. */
    method PutFile(url: string, headers: map<string, string>, body: seq<bv8>) returns (reply: Option<PutReply>)
      modifies this
      ensures reply == if old(script.puts) == [] then None else Some(old(script.puts)[0])
      ensures script == old(script).(puts := Rest(old(script.puts)))
      ensures log == old(log) + if old(script.puts) == [] then [] else [Put(url, headers, body)]
      ensures clock == old(clock)
    {
      if script.puts == [] {
        reply := None;
      } else {
        reply := Some(script.puts[0]);
        log := log + [Put(url, headers, body)];
        script := script.(puts := script.puts[1..]);
      }
    }

    method PostCreateThreadAndRun(request: CreateThreadAndRunRequest) returns (r: Result<Run>)
      modifies this
      ensures r == Answer(old(script.creations))
      ensures script == old(script).(creations := Rest(old(script.creations)))
      ensures log == old(log) + Logged(old(script.creations), Post(CreateThreadAndRunUrl, CreateThreadAndRunBody(request)))
      ensures clock == old(clock)
    {
      r := Answer(script.creations);
      log := log + Logged(script.creations, Post(CreateThreadAndRunUrl, CreateThreadAndRunBody(request)));
      script := script.(creations := Rest(script.creations));
    }

    method PostGetRun(request: GetRunRequest) returns (r: Result<Run>)
      modifies this
      ensures r == Answer(old(script.polls))
      ensures script == old(script).(polls := Rest(old(script.polls)))
      ensures log == old(log) + Logged(old(script.polls), Post(GetRunUrl, GetRunBody(request)))
      ensures clock == old(clock)
    {
      r := Answer(script.polls);
      log := log + Logged(script.polls, Post(GetRunUrl, GetRunBody(request)));
      script := script.(polls := Rest(script.polls));
    }

    method PostListMessages(request: ListMessagesRequest) returns (r: Result<ListMessagesResponse>)
      modifies this
      ensures r == Answer(old(script.listings))
      ensures script == old(script).(listings := Rest(old(script.listings)))
      ensures log == old(log) + Logged(old(script.listings), Post(ListMessagesUrl, ListMessagesBody(request)))
      ensures clock == old(clock)
    {
      r := Answer(script.listings);
      log := log + Logged(script.listings, Post(ListMessagesUrl, ListMessagesBody(request)));
      script := script.(listings := Rest(script.listings));
    }

    /** A fixed, uninterruptible wait. */
    method Sleep(ms: nat)
      modifies this
      ensures clock == old(clock) + ms
      ensures script == old(script) && log == old(log)
    {
      clock := clock + ms;
    }
  }
}
