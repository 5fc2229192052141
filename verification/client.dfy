/** The client's single-call operations against the scripted service, each
    specified by a step function over the script. */
module Client {
  import opened Types
  import opened Errors
  import opened Transport
  import opened Network

  /** Milliseconds the poll loop waits between two GetRun calls. */
  const PollInterval := 100

  /** The role of the one message a run is started with. */
  const UserRole := "USER"

  /** The effect of an operation on the scripted service: what it returns,
      the replies left, the calls it issued (in order) and how many times it
      slept for `PollInterval`. */
  datatype Step<T> = Step(result: Result<T>, rest: Script, calls: seq<Call>, waits: nat)

  /** The operation returned `r` and took the service from (`log0`, `clock0`)
      to (`script`, `log`, `clock`) as `st` says. */
  predicate Follows<T(==)>(st: Step<T>, r: Result<T>, script: Script,
                       log0: seq<Call>, log: seq<Call>, clock0: nat, clock: nat)
  {
    r == st.result && script == st.rest && log == log0 + st.calls &&
    clock == clock0 + PollInterval * st.waits
  }

  /** `st` after `calls` that were issued before it. */
  function Prepend<T>(calls: seq<Call>, st: Step<T>): Step<T> {
    Step(st.result, st.rest, calls + st.calls, st.waits)
  }

  /** Calls put before calls put before a step are their concatenation put
      before it. */
  lemma PrependTwice<T>(a: seq<Call>, b: seq<Call>, st: Step<T>)
    ensures Prepend(a, Prepend(b, st)) == Prepend(a + b, st)
  {
    assert a + (b + st.calls) == (a + b) + st.calls;
  }

  /** Concatenation is associative; stated once for the logs and texts the
      operations build up. */
  lemma AppendAssoc<T>(a: seq<T>, b: seq<T>, c: seq<T>)
    ensures (a + b) + c == a + (b + c)
  {
  }

  function GetAssistantCall(id: string): Call {
    Post(GetAssistantUrl, GetAssistantBody(GetAssistantRequest(id)))
  }

  /** Looking up an assistant: one GetAssistant POST, checked for status 200. */
  function GetAssistantStep(id: string, s: Script): Step<Assistant> {
    Step(Answer(s.assistants), s.(assistants := Rest(s.assistants)),
         Logged(s.assistants, GetAssistantCall(id)), 0)
  }

  method GetAssistant(net: Network, id: string) returns (r: Result<Assistant>)
    modifies net
    ensures Follows(GetAssistantStep(id, old(net.script)), r, net.script,
                    old(net.log), net.log, old(net.clock), net.clock)
  {
    r := net.PostGetAssistant(GetAssistantRequest(id));
  }

  /** The request that starts a run: a new thread holding the query as its
      only message, sent by the user. */
  function NewRunRequest(assistantId: string, query: string): (r: CreateThreadAndRunRequest)
    ensures r.assistantId == assistantId
    ensures |r.thread.messages| == 1 && r.thread.messages[0] == MessageRequest("USER", query)
  {
    CreateThreadAndRunRequest(assistantId, ThreadRequest([MessageRequest(UserRole, query)]))
  }

  function RunAssistantCall(assistantId: string, query: string): Call {
    Post(CreateThreadAndRunUrl, CreateThreadAndRunBody(NewRunRequest(assistantId, query)))
  }

  /** Starting a run: one CreateThreadAndRun POST, checked for status 200. */
  function RunAssistantStep(assistantId: string, query: string, s: Script): Step<Run> {
    Step(Answer(s.creations), s.(creations := Rest(s.creations)),
         Logged(s.creations, RunAssistantCall(assistantId, query)), 0)
  }

  method RunAssistant(net: Network, assistantId: string, query: string) returns (r: Result<Run>)
    modifies net
    ensures Follows(RunAssistantStep(assistantId, query, old(net.script)), r, net.script,
                    old(net.log), net.log, old(net.clock), net.clock)
  {
    r := net.PostCreateThreadAndRun(NewRunRequest(assistantId, query));
  }

  /** Starting a run issues at most one call, and when the service answers it
      carries exactly one message: the query, with role "USER", addressed to
      the given assistant. Only the creation queue is consumed. */
  lemma RunAssistantSendsOneUserMessage(assistantId: string, query: string, s: Script)
    requires s.creations != []
    ensures var st := RunAssistantStep(assistantId, query, s);
      |st.calls| == 1 &&
      st.calls[0].Post? && st.calls[0].url == CreateThreadAndRunUrl &&
      st.calls[0].request.CreateThreadAndRunBody? &&
      st.calls[0].request.createThreadAndRun.assistantId == assistantId &&
      st.calls[0].request.createThreadAndRun.thread.messages == [MessageRequest("USER", query)] &&
      st.rest == s.(creations := s.creations[1..]) &&
      st.result == CallAPI(s.creations[0], 200)
  {
  }
}
