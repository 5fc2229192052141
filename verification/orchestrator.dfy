/** The program's main sequence: look the assistant up, upload the files to
    its store, start a run with a fixed query, wait for the run to finish and
    read the answer; the first failure ends the program. */
module Orchestrator {
  import opened Types
  import opened Errors
  import opened Transport
  import opened RunState
  import opened Network
  import opened Client
  import opened Polling
  import opened Upload
  import opened Messages
  import opened Paths

  /** The query every run is started with. */
  const Query := "Write me a story."

  /** The directory the files are read from, relative to the working
      directory. */
  const DataDirectory := "testdata"

  /** The path a directory entry is opened at: the working directory, the
      data directory and the entry's name, joined by separators. */
  function DataFilePath(workingDirectory: string, entry: string): string {
    workingDirectory + [Separator] + DataDirectory + [Separator] + entry
  }

  /** A file opened from the data directory is announced to the store under
      its entry name alone, without any directory. */
  lemma DataFileAnnouncedByEntryName(storeId: string, workingDirectory: string, entry: string, content: seq<bv8>)
    requires entry != [] && Separator !in entry
    ensures NegotiationCall(storeId, File(DataFilePath(workingDirectory, entry), content)) ==
      Post(UploadFileUrl, UploadFileBody(UploadFileRequest(storeId, entry)))
  {
    BaseOfJoin(workingDirectory + [Separator] + DataDirectory, entry);
  }

  /** `first` and then `second`: the second's outcome and replies left, the
      calls and sleeps of both. */
  function Then<A, B>(first: Step<A>, second: Step<B>): Step<B> {
    Step(second.result, second.rest, first.calls + second.calls, first.waits + second.waits)
  }

  /** A failed step, ending the sequence with its error. */
  function Abort<A, B>(st: Step<A>): Step<B>
    requires st.result.Failure?
  {
    Step(Failure(st.result.error), st.rest, st.calls, st.waits)
  }

  /** The whole program against a script; `files` are the files found in
      the data directory, in listing order. */
  function MainStep(assistantId: string, files: seq<File>, s: Script): (st: Step<string>)
    ensures assistantId == "" ==> st.calls == [] && st.rest == s && st.waits == 0
  {
    if assistantId == "" then Step(Failure(AssistantIdRequired), s, [], 0)
    else
      var lookup := GetAssistantStep(assistantId, s);
      if lookup.result.Failure? then Abort(lookup)
      else Then(lookup, AfterLookup(lookup.result.value, files, lookup.rest))
  }

  /** Once the assistant is known: upload the files to its store, then run. */
  function AfterLookup(assistant: Assistant, files: seq<File>, s: Script): Step<string> {
    var upload := UploadStep(assistant.storeId, files, s);
    if upload.result.Failure? then Abort(upload)
    else Then(upload, AfterUpload(assistant, upload.rest))
  }

  /** Once the files are uploaded: start a run of the assistant on the query. */
  function AfterUpload(assistant: Assistant, s: Script): Step<string> {
    var start := RunAssistantStep(assistant.id, Query, s);
    if start.result.Failure? then Abort(start)
    else Then(start, AfterStart(start.result.value, start.rest))
  }

  /** Once the run is started: wait for it, then read its thread's answer. */
  function AfterStart(run: Run, s: Script): Step<string> {
    var wait := PollStep(run.id, s);
    if wait.result.Failure? then Abort(wait)
    else Then(wait, ResponseStep(run.threadId, run.id, wait.rest))
  }

  /** The program reports a missing assistant id exactly when none was
      given: no later stage fails with that error. */
  lemma IdRequiredExactlyWithoutId(assistantId: string, files: seq<File>, s: Script)
    ensures MainStep(assistantId, files, s).result == Failure(AssistantIdRequired) <==> assistantId == ""
  {
    if assistantId != "" {
      var lookup := GetAssistantStep(assistantId, s);
      if lookup.result.Success? {
        var a := lookup.result.value;
        UploadNeverAsksForId(a.storeId, files, lookup.rest);
        var upload := UploadStep(a.storeId, files, lookup.rest);
        if upload.result.Success? {
          var start := RunAssistantStep(a.id, Query, upload.rest);
          if start.result.Success? {
            PollNeverAsksForId(start.result.value.id, start.rest);
          }
        }
      }
    }
  }

  /** Two operations run one after the other follow their composition. */
  lemma FollowsThen<A, B>(first: Step<A>, second: Step<B>, r1: Result<A>, r2: Result<B>,
                          s1: Script, s2: Script, log0: seq<Call>, log1: seq<Call>,
                          log2: seq<Call>, clock0: nat, clock1: nat, clock2: nat)
    requires Follows(first, r1, s1, log0, log1, clock0, clock1)
    requires Follows(second, r2, s2, log1, log2, clock1, clock2)
    ensures Follows(Then(first, second), r2, s2, log0, log2, clock0, clock2)
  {
    assert log0 + first.calls + second.calls == log0 + (first.calls + second.calls);
  }

  /** An operation that failed ends the sequence with its error. */
  lemma FollowsAbort<A, B>(st: Step<A>, r: Result<A>, s: Script, log0: seq<Call>,
                           log: seq<Call>, clock0: nat, clock: nat)
    requires st.result.Failure?
    requires Follows(st, r, s, log0, log, clock0, clock)
    ensures Follows<B>(Abort(st), Failure(r.error), s, log0, log, clock0, clock)
  {
  }

  /** The program: every stage is run on what the previous one returned,
      and the first failure is what the program reports. */
  method Orchestrate(net: Network, assistantId: string, files: seq<File>) returns (r: Result<string>)
    modifies net
    ensures Follows(MainStep(assistantId, files, old(net.script)), r, net.script,
                    old(net.log), net.log, old(net.clock), net.clock)
  {
    if assistantId == "" {
      return Failure(AssistantIdRequired);
    }
    ghost var s0, log0, clock0 := net.script, net.log, net.clock;
    var assistant := GetAssistant(net, assistantId);
    ghost var lookup := GetAssistantStep(assistantId, s0);
    if assistant.Failure? {
      FollowsAbort<Assistant, string>(lookup, assistant, net.script, log0, net.log, clock0, net.clock);
      return Failure(assistant.error);
    }
    ghost var s1, log1, clock1 := net.script, net.log, net.clock;

    var uploaded := UploadFiles(net, assistant.value.storeId, files);
    ghost var upload := UploadStep(assistant.value.storeId, files, s1);
    if uploaded.Failure? {
      FollowsAbort<(), string>(upload, uploaded, net.script, log1, net.log, clock1, net.clock);
      FollowsThen(lookup, Abort<(), string>(upload), assistant, Failure(uploaded.error), s1, net.script,
                  log0, log1, net.log, clock0, clock1, net.clock);
      return Failure(uploaded.error);
    }
    ghost var s2, log2, clock2 := net.script, net.log, net.clock;

    var run := RunAssistant(net, assistant.value.id, Query);
    ghost var start := RunAssistantStep(assistant.value.id, Query, s2);
    if run.Failure? {
      FollowsAbort<Run, string>(start, run, net.script, log2, net.log, clock2, net.clock);
      FollowsThen(upload, Abort<Run, string>(start), uploaded, Failure(run.error), s2, net.script,
                  log1, log2, net.log, clock1, clock2, net.clock);
      FollowsThen(lookup, Then(upload, Abort<Run, string>(start)), assistant, Failure(run.error), s1,
                  net.script, log0, log1, net.log, clock0, clock1, net.clock);
      return Failure(run.error);
    }
    ghost var s3, log3, clock3 := net.script, net.log, net.clock;

    var waited := WaitForRunCompletion(net, run.value.id);
    ghost var wait := PollStep(run.value.id, s3);
    if waited.Failure? {
      FollowsAbort<(), string>(wait, waited, net.script, log3, net.log, clock3, net.clock);
      FollowsThen(start, Abort<(), string>(wait), run, Failure(waited.error), s3, net.script,
                  log2, log3, net.log, clock2, clock3, net.clock);
      FollowsThen(upload, Then(start, Abort<(), string>(wait)), uploaded, Failure(waited.error), s2,
                  net.script, log1, log2, net.log, clock1, clock2, net.clock);
      FollowsThen(lookup, Then(upload, Then(start, Abort<(), string>(wait))), assistant,
                  Failure(waited.error), s1, net.script, log0, log1, net.log, clock0, clock1, net.clock);
      return Failure(waited.error);
    }
    ghost var s4, log4, clock4 := net.script, net.log, net.clock;

    r := GetResponseMessages(net, run.value.threadId, run.value.id);
    ghost var read := ResponseStep(run.value.threadId, run.value.id, s4);
    FollowsThen(wait, read, waited, r, s4, net.script, log3, log4, net.log, clock3, clock4, net.clock);
    FollowsThen(start, Then(wait, read), run, r, s3, net.script, log2, log3, net.log, clock2, clock3, net.clock);
    FollowsThen(upload, Then(start, Then(wait, read)), uploaded, r, s2, net.script,
                log1, log2, net.log, clock1, clock2, net.clock);
    FollowsThen(lookup, Then(upload, Then(start, Then(wait, read))), assistant, r, s1, net.script,
                log0, log1, net.log, clock0, clock1, net.clock);
  }

  /** The stage a call belongs to, in the order the program runs them. */
  function Phase(c: Call): nat {
    match c
    case Put(_, _, _) => 1
    case Post(_, request) =>
      match request
      case GetAssistantBody(_) => 0
      case UploadFileBody(_) => 1
      case CreateThreadAndRunBody(_) => 2
      case GetRunBody(_) => 3
      case ListMessagesBody(_) => 4
  }

  predicate InPhase(calls: seq<Call>, p: nat) {
    forall i :: 0 <= i < |calls| ==> Phase(calls[i]) == p
  }

  predicate FromPhase(calls: seq<Call>, p: nat) {
    forall i :: 0 <= i < |calls| ==> Phase(calls[i]) >= p
  }

  /** No call of a later stage comes before a call of an earlier one. */
  predicate InStageOrder(calls: seq<Call>) {
    forall i, j :: 0 <= i < j < |calls| ==> Phase(calls[i]) <= Phase(calls[j])
  }

  lemma PrependPhase(a: seq<Call>, b: seq<Call>, p: nat, q: nat)
    requires InPhase(a, p) && p <= q && FromPhase(b, q) && InStageOrder(b)
    ensures FromPhase(a + b, p) && InStageOrder(a + b)
  {
    forall i, j | 0 <= i < j < |a + b|
      ensures Phase((a + b)[i]) <= Phase((a + b)[j])
    {
      if j < |a| {
        assert Phase(a[i]) == p == Phase(a[j]);
      } else if i < |a| {
        assert Phase(b[j - |a|]) >= q;
      }
    }
  }

  /** Every call of an upload batch belongs to the upload stage. */
  lemma {:induction false} UploadInPhase(storeId: string, files: seq<File>, s: Script)
    ensures InPhase(UploadStep(storeId, files, s).calls, 1)
    decreases |files|
  {
    if files != [] {
      var one := UploadOneStep(storeId, files[0], s);
      if one.result.Success? {
        UploadInPhase(storeId, files[1..], one.rest);
      }
    }
  }

  lemma LookupInPhase(assistantId: string, s: Script)
    ensures InPhase(GetAssistantStep(assistantId, s).calls, 0)
  {
  }

  lemma StartInPhase(assistantId: string, query: string, s: Script)
    ensures InPhase(RunAssistantStep(assistantId, query, s).calls, 2)
  {
  }

  lemma PollInPhase(runId: string, s: Script)
    ensures InPhase(PollStep(runId, s).calls, 3)
  {
    PollShape(runId, s);
  }

  lemma ReadInPhase(threadId: string, runId: string, s: Script)
    ensures InPhase(ResponseStep(threadId, runId, s).calls, 4)
  {
  }

  lemma AfterStartOrder(run: Run, s: Script)
    ensures FromPhase(AfterStart(run, s).calls, 3) && InStageOrder(AfterStart(run, s).calls)
  {
    var wait := PollStep(run.id, s);
    PollInPhase(run.id, s);
    var tail := if wait.result.Failure? then [] else ResponseStep(run.threadId, run.id, wait.rest).calls;
    ReadInPhase(run.threadId, run.id, wait.rest);
    PrependPhase(wait.calls, tail, 3, 4);
    assert AfterStart(run, s).calls == wait.calls + tail;
  }

  lemma AfterUploadOrder(assistant: Assistant, s: Script)
    ensures FromPhase(AfterUpload(assistant, s).calls, 2) && InStageOrder(AfterUpload(assistant, s).calls)
  {
    var start := RunAssistantStep(assistant.id, Query, s);
    StartInPhase(assistant.id, Query, s);
    if start.result.Failure? {
      PrependPhase(start.calls, [], 2, 3);
      assert AfterUpload(assistant, s).calls == start.calls + [];
    } else {
      AfterStartOrder(start.result.value, start.rest);
      PrependPhase(start.calls, AfterStart(start.result.value, start.rest).calls, 2, 3);
    }
  }

  lemma AfterLookupOrder(assistant: Assistant, files: seq<File>, s: Script)
    ensures FromPhase(AfterLookup(assistant, files, s).calls, 1) && InStageOrder(AfterLookup(assistant, files, s).calls)
  {
    var upload := UploadStep(assistant.storeId, files, s);
    UploadInPhase(assistant.storeId, files, s);
    if upload.result.Failure? {
      PrependPhase(upload.calls, [], 1, 2);
      assert AfterLookup(assistant, files, s).calls == upload.calls + [];
    } else {
      AfterUploadOrder(assistant, upload.rest);
      PrependPhase(upload.calls, AfterUpload(assistant, upload.rest).calls, 1, 2);
    }
  }

  /** The program's calls come stage by stage: the assistant lookup, then
      the uploads, then the run's creation, then the polls, then the
      reading of the answer. */
  lemma MainCallOrder(assistantId: string, files: seq<File>, s: Script)
    ensures InStageOrder(MainStep(assistantId, files, s).calls)
  {
    if assistantId != "" {
      var lookup := GetAssistantStep(assistantId, s);
      LookupInPhase(assistantId, s);
      if lookup.result.Failure? {
        PrependPhase(lookup.calls, [], 0, 1);
        assert MainStep(assistantId, files, s).calls == lookup.calls + [];
      } else {
        AfterLookupOrder(lookup.result.value, files, lookup.rest);
        PrependPhase(lookup.calls, AfterLookup(lookup.result.value, files, lookup.rest).calls, 0, 1);
      }
    }
  }

  /** The replies that let the assistant lookup and every upload through. */
  predicate LookupAndUploadsGoThrough(s: Script, a: Assistant, n: nat) {
    && s.assistants != [] && s.assistants[0] == Answered(StatusOK, Decoded(a))
    && AllGoThrough(s.(assistants := s.assistants[1..]), n)
  }

  /** After the uploads: a run created and polled to success after k
      non-terminal replies, then its messages listed. */
  lemma AfterUploadSucceeds(a: Assistant, s: Script, run: Run, k: nat, finished: Run,
                            listing: ListMessagesResponse)
    requires s.creations != [] && s.creations[0] == Answered(StatusOK, Decoded(run))
    requires k < |s.polls| && forall j :: 0 <= j < k ==> Judge(s.polls[j]) == KeepPolling
    requires s.polls[k] == Answered(StatusOK, Decoded(finished)) && IsCasingOf(finished.state, SucceededState)
    requires s.listings != [] && s.listings[0] == Answered(StatusOK, Decoded(listing))
    ensures var st := AfterUpload(a, s);
      && st.result == Success(Aggregated(listing.messages))
      && st.waits == k
      && |st.calls| == k + 3
      && st.calls[0] == RunAssistantCall(a.id, Query)
      && (forall j :: 1 <= j < k + 2 ==> st.calls[j] == GetRunCall(run.id))
      && st.calls[k + 2] == ListMessagesCall(run.threadId, run.id)
  {
    var s1 := s.(creations := s.creations[1..]);
    PollSucceedsInAnyCasing(run.id, s1, k, finished);
    PollFirstStop(run.id, s1, k);
    PollShape(run.id, s1);
    var wait := PollStep(run.id, s1);
    var read := ResponseStep(run.threadId, run.id, wait.rest);
    assert AfterUpload(a, s).calls == [RunAssistantCall(a.id, Query)] + (wait.calls + read.calls);
  }

  /** A complete run: with the assistant found, every file uploaded, the run
      created, k GetRun replies in a non-terminal state followed by one that
      says "succeeded" in any casing, and the messages listed, the program
      returns the aggregated text. Its calls are the lookup, one negotiation
      and one PUT per file in order, the run's creation with the assistant's
      own id and the fixed query, k + 1 GetRun calls for the created run, and
      the ListMessages call for the created run's thread; it slept k times. */
  lemma MainSucceeds(assistantId: string, files: seq<File>, s: Script, a: Assistant, run: Run,
                     k: nat, finished: Run, listing: ListMessagesResponse)
    requires assistantId != ""
    requires LookupAndUploadsGoThrough(s, a, |files|)
    requires s.creations != [] && s.creations[0] == Answered(StatusOK, Decoded(run))
    requires k < |s.polls| && forall j :: 0 <= j < k ==> Judge(s.polls[j]) == KeepPolling
    requires s.polls[k] == Answered(StatusOK, Decoded(finished)) && IsCasingOf(finished.state, SucceededState)
    requires s.listings != [] && s.listings[0] == Answered(StatusOK, Decoded(listing))
    ensures var st := MainStep(assistantId, files, s); var n := |files|;
      && st.result == Success(Aggregated(listing.messages))
      && st.waits == k
      && |st.calls| == 2 * n + k + 4
      && st.calls[0] == GetAssistantCall(assistantId)
      && (forall j :: 0 <= j < n ==>
            st.calls[1 + 2 * j] == NegotiationCall(a.storeId, files[j]) &&
            st.calls[2 + 2 * j] == TransferCall(CallAPI(s.tickets[j], StatusOK).value, files[j]))
      && st.calls[1 + 2 * n] == RunAssistantCall(a.id, Query)
      && (forall j :: 2 + 2 * n <= j < 3 + 2 * n + k ==> st.calls[j] == GetRunCall(run.id))
      && st.calls[3 + 2 * n + k] == ListMessagesCall(run.threadId, run.id)
  {
    var n := |files|;
    var s1 := s.(assistants := s.assistants[1..]);
    UploadAllSucceed(a.storeId, files, s1);
    var upload := UploadStep(a.storeId, files, s1);
    var s2 := upload.rest;
    assert s2.creations == s.creations && s2.polls == s.polls && s2.listings == s.listings;
    AfterUploadSucceeds(a, s2, run, k, finished, listing);
    var tail := AfterUpload(a, s2);
    MainAfterLookup(assistantId, files, s, a);
    assert AfterLookup(a, files, s1) == Then(upload, tail);
    var st := MainStep(assistantId, files, s);
    assert st.calls == [GetAssistantCall(assistantId)] + (upload.calls + tail.calls);
    assert st.result == tail.result && st.waits == tail.waits;
    ConcatAt(GetAssistantCall(assistantId), upload.calls, tail.calls);
  }

  /** A lookup answered with assistant `a` hands over to the rest of the
      program with the lookup's reply consumed and its call logged. */
  lemma MainAfterLookup(assistantId: string, files: seq<File>, s: Script, a: Assistant)
    requires assistantId != ""
    requires s.assistants != [] && s.assistants[0] == Answered(StatusOK, Decoded(a))
    ensures MainStep(assistantId, files, s) ==
      Then(Step(Success(a), s.(assistants := s.assistants[1..]), [GetAssistantCall(assistantId)], 0),
           AfterLookup(a, files, s.(assistants := s.assistants[1..])))
  {
  }

  /** Positions in a log made of one call followed by two runs of calls. */
  lemma ConcatAt(x: Call, u: seq<Call>, t: seq<Call>)
    ensures |[x] + (u + t)| == 1 + |u| + |t| && ([x] + (u + t))[0] == x
    ensures forall j :: 0 <= j < |u| ==> ([x] + (u + t))[1 + j] == u[j]
    ensures forall j :: 0 <= j < |t| ==> ([x] + (u + t))[1 + |u| + j] == t[j]
  {
  }

  /** A failed lookup ends the program with its error, before any file is
      touched: only the lookup's reply is consumed. */
  lemma MainStopsAtLookup(assistantId: string, files: seq<File>, s: Script)
    requires assistantId != ""
    requires s.assistants == [] || CallAPI(s.assistants[0], StatusOK).Failure?
    ensures var st := MainStep(assistantId, files, s);
      && st.result == Failure(if s.assistants == [] then ScriptExhausted else CallAPI(s.assistants[0], StatusOK).error)
      && st.calls == (if s.assistants == [] then [] else [GetAssistantCall(assistantId)])
      && st.rest == s.(assistants := Rest(s.assistants))
      && st.waits == 0
  {
  }

  /** Fail-fast across the program: when file k is the first whose upload
      does not go through, the program ends with that file's error; no run is
      created, polled or read, and those replies are left untouched. */
  lemma MainStopsAtUpload(assistantId: string, files: seq<File>, s: Script, a: Assistant, k: nat)
    requires assistantId != "" && k < |files|
    requires LookupAndUploadsGoThrough(s, a, k)
    requires !(k < |s.tickets| && k < |s.puts| && GoesThrough(s.tickets[k], s.puts[k]))
    ensures var st := MainStep(assistantId, files, s);
      var failed := UploadOneStep(a.storeId, files[k], s.(assistants := s.assistants[1..], tickets := s.tickets[k..], puts := s.puts[k..])).result;
      && failed.Failure? && st.result == Failure(failed.error)
      && st.calls[0] == GetAssistantCall(assistantId)
      && 2 * k + 1 <= |st.calls| <= 2 * k + 3
      && (forall i :: 0 <= i < |st.calls| ==> Phase(st.calls[i]) <= 1)
      && st.rest.creations == s.creations && st.rest.polls == s.polls && st.rest.listings == s.listings
  {
    var s1 := s.(assistants := s.assistants[1..]);
    UploadFailFast(a.storeId, files, s1, k);
    UploadInPhase(a.storeId, files, s1);
    UploadKeepsOtherReplies(a.storeId, files, s1);
    var upload := UploadStep(a.storeId, files, s1);
    MainAfterLookup(assistantId, files, s, a);
    assert AfterLookup(a, files, s1) == Abort(upload);
    assert s1.(tickets := s1.tickets[k..], puts := s1.puts[k..]) ==
      s.(assistants := s.assistants[1..], tickets := s.tickets[k..], puts := s.puts[k..]);
    ConcatAt(GetAssistantCall(assistantId), upload.calls, []);
    assert upload.calls + [] == upload.calls;
  }

  /** A run that cannot be created ends the program with that error, after
      all files were uploaded; nothing is polled or read. */
  lemma MainStopsAtStart(assistantId: string, files: seq<File>, s: Script, a: Assistant)
    requires assistantId != ""
    requires LookupAndUploadsGoThrough(s, a, |files|)
    requires s.creations == [] || CallAPI(s.creations[0], StatusOK).Failure?
    ensures var st := MainStep(assistantId, files, s);
      && st.result == Failure(if s.creations == [] then ScriptExhausted else CallAPI(s.creations[0], StatusOK).error)
      && |st.calls| == 2 * |files| + (if s.creations == [] then 1 else 2)
      && (forall i :: 0 <= i < |st.calls| ==> Phase(st.calls[i]) <= 2)
      && st.rest.polls == s.polls && st.rest.listings == s.listings
      && st.waits == 0
  {
    var s1 := s.(assistants := s.assistants[1..]);
    UploadAllSucceed(a.storeId, files, s1);
    UploadInPhase(a.storeId, files, s1);
    var upload := UploadStep(a.storeId, files, s1);
    var start := RunAssistantStep(a.id, Query, upload.rest);
    MainAfterLookup(assistantId, files, s, a);
    assert AfterLookup(a, files, s1) == Then(upload, Abort<Run, string>(start));
  }

  /** A poll that stops with an error (a failed call, a failed run, a run
      waiting for a tool response) after k non-terminal replies ends the
      program with that error: k + 1 GetRun calls, k sleeps, and the
      messages are never read. */
  lemma MainStopsWhilePolling(assistantId: string, files: seq<File>, s: Script, a: Assistant,
                              run: Run, k: nat, e: Error)
    requires assistantId != ""
    requires LookupAndUploadsGoThrough(s, a, |files|)
    requires s.creations != [] && s.creations[0] == Answered(StatusOK, Decoded(run))
    requires k < |s.polls| && forall j :: 0 <= j < k ==> Judge(s.polls[j]) == KeepPolling
    requires Judge(s.polls[k]) == Stop(Failure(e))
    ensures var st := MainStep(assistantId, files, s);
      && st.result == Failure(e)
      && |st.calls| == 2 * |files| + k + 3
      && (forall i :: 0 <= i < |st.calls| ==> Phase(st.calls[i]) <= 3)
      && st.rest.listings == s.listings
      && st.waits == k
  {
    var s1 := s.(assistants := s.assistants[1..]);
    UploadAllSucceed(a.storeId, files, s1);
    UploadInPhase(a.storeId, files, s1);
    var upload := UploadStep(a.storeId, files, s1);
    var s2 := upload.rest;
    AfterUploadStopsWhilePolling(a, s2, run, k, e);
    MainAfterLookup(assistantId, files, s, a);
    assert AfterLookup(a, files, s1) == Then(upload, AfterUpload(a, s2));
  }

  /** Once the files are uploaded, a poll that stops with an error ends the
      rest of the program with it, after the creation and k + 1 GetRun calls;
      nothing is read. */
  lemma AfterUploadStopsWhilePolling(a: Assistant, s: Script, run: Run, k: nat, e: Error)
    requires s.creations != [] && s.creations[0] == Answered(StatusOK, Decoded(run))
    requires k < |s.polls| && forall j :: 0 <= j < k ==> Judge(s.polls[j]) == KeepPolling
    requires Judge(s.polls[k]) == Stop(Failure(e))
    ensures var st := AfterUpload(a, s);
      && st.result == Failure(e)
      && |st.calls| == k + 2
      && (forall i :: 0 <= i < |st.calls| ==> Phase(st.calls[i]) <= 3)
      && st.rest.listings == s.listings
      && st.waits == k
  {
    var s3 := s.(creations := s.creations[1..]);
    PollFirstStop(run.id, s3, k);
    PollInPhase(run.id, s3);
  }
}
