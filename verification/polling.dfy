/** The run lifecycle controller: GetRun is issued again and again until the
    run's state is terminal, a call fails, or (in this model) the script of
    GetRun replies runs out. */
module Polling {
  import opened Types
  import opened Errors
  import opened Transport
  import opened RunState
  import opened Network
  import opened Client

  function GetRunCall(runId: string): Call {
    Post(GetRunUrl, GetRunBody(GetRunRequest(runId)))
  }

  /** What one GetRun reply tells the poll loop. */
  datatype Verdict = KeepPolling | Stop(result: Result<()>)

  /** The loop body's decision on one reply: a failed call stops with its
      error, a succeeded run stops without error, a failed run stops with its
      reason, a run waiting for a tool response stops with an unsupported-
      workflow error; any other state keeps the loop going. */
  function Judge(ex: Exchange<Run>): (v: Verdict)
    ensures v == KeepPolling <==>
      CallAPI(ex, StatusOK).Success? && Classify(CallAPI(ex, StatusOK).value.state) == Pending
    ensures CallAPI(ex, StatusOK).Failure? ==> v == Stop(Failure(CallAPI(ex, StatusOK).error))
  {
    match CallAPI(ex, StatusOK)
    case Failure(e) => Stop(Failure(e))
    case Success(run) =>
      match Classify(run.state)
      case Succeeded => Stop(Success(()))
      case Failed => Stop(Failure(RunFailed(run.failureReason)))
      case NeedsToolResponse => Stop(Failure(ToolResponseRequired))
      case Pending => KeepPolling
  }

  /** The whole poll loop over the scripted GetRun replies. */
  function PollStep(runId: string, s: Script): Step<()>
    decreases |s.polls|
  {
    if s.polls == [] then Step(Failure(ScriptExhausted), s, [], 0)
    else
      var after := s.(polls := s.polls[1..]);
      match Judge(s.polls[0])
      case Stop(r) => Step(r, after, [GetRunCall(runId)], 0)
      case KeepPolling =>
        var next := PollStep(runId, after);
        Step(next.result, next.rest, [GetRunCall(runId)] + next.calls, next.waits + 1)
  }

  method WaitForRunCompletion(net: Network, runId: string) returns (r: Result<()>)
    modifies net
    ensures Follows(PollStep(runId, old(net.script)), r, net.script,
                    old(net.log), net.log, old(net.clock), net.clock)
  {
    var request := GetRunRequest(runId);
    ghost var done: seq<Call> := [];
    ghost var waited: nat := 0;
    while true
      invariant net.log == old(net.log) + done
      invariant net.clock == old(net.clock) + PollInterval * waited
      invariant var whole, now := PollStep(runId, old(net.script)), PollStep(runId, net.script);
        whole == Step(now.result, now.rest, done + now.calls, waited + now.waits)
      decreases |net.script.polls|
    {
      ghost var before := net.script;
      var reply := net.PostGetRun(request);
      if reply.Failure? {
        if before.polls != [] {
          assert Judge(before.polls[0]) == Stop(Failure(reply.error));
          PollStops(runId, old(net.script), before, done, waited, old(net.log), net.log, old(net.clock), net.clock);
        }
        return Failure(reply.error);
      }
      var run := reply.value;
      assert before.polls != [] && reply == CallAPI(before.polls[0], StatusOK);
      match Classify(run.state)
      case Succeeded =>
        assert Judge(before.polls[0]) == Stop(Success(()));
        PollStops(runId, old(net.script), before, done, waited, old(net.log), net.log, old(net.clock), net.clock);
        return Success(());
      case Failed =>
        assert Judge(before.polls[0]) == Stop(Failure(RunFailed(run.failureReason)));
        PollStops(runId, old(net.script), before, done, waited, old(net.log), net.log, old(net.clock), net.clock);
        return Failure(RunFailed(run.failureReason));
      case NeedsToolResponse =>
        assert Judge(before.polls[0]) == Stop(Failure(ToolResponseRequired));
        PollStops(runId, old(net.script), before, done, waited, old(net.log), net.log, old(net.clock), net.clock);
        return Failure(ToolResponseRequired);
      case Pending =>
        assert Judge(before.polls[0]) == KeepPolling;
        net.Sleep(PollInterval);
        PollContinues(runId, old(net.script), before, done, waited);
        done := done + [GetRunCall(runId)];
        waited := waited + 1;
    }
  }

  /** A reply that stops the loop ends it with its verdict after one more
      call and no more sleep. */
  lemma PollStops(runId: string, s0: Script, before: Script, done: seq<Call>, waited: nat,
                  log0: seq<Call>, log: seq<Call>, clock0: nat, clock: nat)
    requires before.polls != [] && Judge(before.polls[0]).Stop?
    requires var now := PollStep(runId, before);
      PollStep(runId, s0) == Step(now.result, now.rest, done + now.calls, waited + now.waits)
    requires log == (log0 + done) + [GetRunCall(runId)]
    requires clock == clock0 + PollInterval * waited
    ensures Follows(PollStep(runId, s0), Judge(before.polls[0]).result, before.(polls := before.polls[1..]),
                    log0, log, clock0, clock)
  {
    AppendAssoc(log0, done, [GetRunCall(runId)]);
  }

  /** A reply that keeps the loop going adds one call and one sleep to what
      was done, and the loop goes on with the next reply. */
  lemma PollContinues(runId: string, s0: Script, before: Script, done: seq<Call>, waited: nat)
    requires before.polls != [] && Judge(before.polls[0]) == KeepPolling
    requires var now := PollStep(runId, before);
      PollStep(runId, s0) == Step(now.result, now.rest, done + now.calls, waited + now.waits)
    ensures var next := PollStep(runId, before.(polls := before.polls[1..]));
      PollStep(runId, s0) ==
        Step(next.result, next.rest, (done + [GetRunCall(runId)]) + next.calls, (waited + 1) + next.waits)
  {
    var next := PollStep(runId, before.(polls := before.polls[1..]));
    PollUnfold(runId, before);
    AppendAssoc(done, [GetRunCall(runId)], next.calls);
  }

  /** The loop after a reply that keeps it going. */
  lemma PollUnfold(runId: string, s: Script)
    requires s.polls != [] && Judge(s.polls[0]) == KeepPolling
    ensures var next := PollStep(runId, s.(polls := s.polls[1..]));
      PollStep(runId, s) == Step(next.result, next.rest, [GetRunCall(runId)] + next.calls, next.waits + 1)
  {
  }

  /** The shape of every poll: n GetRun calls for the same run, consuming the
      first n replies; every reply but the last said "keep polling"; if the
      last one stopped the loop, its verdict is the result and the loop slept
      between consecutive calls only; otherwise the replies ran out. */
  lemma {:induction false} PollShape(runId: string, s: Script)
    ensures var st := PollStep(runId, s); var n := |st.calls|;
      && n <= |s.polls|
      && (forall j :: 0 <= j < n ==> st.calls[j] == GetRunCall(runId))
      && st.rest == s.(polls := s.polls[n..])
      && (forall j :: 0 <= j < n - 1 ==> Judge(s.polls[j]) == KeepPolling)
      && (0 < n && Judge(s.polls[n - 1]).Stop? ==>
            st.result == Judge(s.polls[n - 1]).result && st.waits == n - 1)
      && (n == 0 || Judge(s.polls[n - 1]) == KeepPolling ==>
            n == |s.polls| && st.result == Failure(ScriptExhausted) && st.waits == n)
    decreases |s.polls|
  {
    if s.polls != [] && Judge(s.polls[0]) == KeepPolling {
      var after := s.(polls := s.polls[1..]);
      PollShape(runId, after);
      var next := PollStep(runId, after);
      var n := |next.calls|;
      PollUnfold(runId, s);
      assert after.polls[n..] == s.polls[n + 1..];
      forall j | 0 <= j < n
        ensures Judge(s.polls[j + 1]) == Judge(after.polls[j])
      {
      }
      if n > 0 {
        assert s.polls[n] == after.polls[n - 1];
      }
    }
  }

  /** Polling returns the verdict of the first reply that stops the loop:
      with k replies saying "keep polling" before it, exactly k + 1 GetRun
      calls are made and the loop sleeps k times. */
  lemma {:induction false} PollFirstStop(runId: string, s: Script, k: nat)
    requires k < |s.polls|
    requires forall j :: 0 <= j < k ==> Judge(s.polls[j]) == KeepPolling
    requires Judge(s.polls[k]).Stop?
    ensures var st := PollStep(runId, s);
      && st.result == Judge(s.polls[k]).result
      && |st.calls| == k + 1
      && st.waits == k
      && st.rest == s.(polls := s.polls[k + 1..])
    decreases k
  {
    if k > 0 {
      var after := s.(polls := s.polls[1..]);
      assert Judge(s.polls[0]) == KeepPolling;
      PollFirstStop(runId, after, k - 1);
      assert after.polls[k..] == s.polls[k + 1..];
    }
  }

  /** When no reply stops the loop, polling consumes the whole script,
      sleeping after every reply, and reports that the script ran out. */
  lemma {:induction false} PollExhausts(runId: string, s: Script)
    requires forall j :: 0 <= j < |s.polls| ==> Judge(s.polls[j]) == KeepPolling
    ensures var st := PollStep(runId, s);
      && st.result == Failure(ScriptExhausted)
      && |st.calls| == |s.polls|
      && st.waits == |s.polls|
    decreases |s.polls|
  {
    if s.polls != [] {
      var after := s.(polls := s.polls[1..]);
      assert Judge(s.polls[0]) == KeepPolling;
      PollExhausts(runId, after);
    }
  }

  /** "succeeded" in any ASCII casing, seen after k pending replies, ends the
      loop without error after exactly k + 1 GetRun calls. */
  lemma PollSucceedsInAnyCasing(runId: string, s: Script, k: nat, run: Run)
    requires k < |s.polls|
    requires forall j :: 0 <= j < k ==> Judge(s.polls[j]) == KeepPolling
    requires s.polls[k] == Answered(StatusOK, Decoded(run))
    requires IsCasingOf(run.state, "succeeded")
    ensures PollStep(runId, s).result == Success(())
    ensures |PollStep(runId, s).calls| == k + 1
  {
    PollFirstStop(runId, s, k);
  }

  /** "failed" in any ASCII casing ends the loop with an error whose text
      ends with the run's failure reason. */
  lemma PollFailsWithReason(runId: string, s: Script, k: nat, run: Run)
    requires k < |s.polls|
    requires forall j :: 0 <= j < k ==> Judge(s.polls[j]) == KeepPolling
    requires s.polls[k] == Answered(StatusOK, Decoded(run))
    requires IsCasingOf(run.state, "failed")
    ensures PollStep(runId, s).result == Failure(RunFailed(run.failureReason))
    ensures var text := PollStep(runId, s).result.error.Message();
      |run.failureReason| <= |text| && text[|text| - |run.failureReason|..] == run.failureReason
    ensures |PollStep(runId, s).calls| == k + 1
  {
    PollFirstStop(runId, s, k);
  }

  /** "tool_response_required" in any ASCII casing ends the loop with the
      unsupported-workflow error; no further GetRun is issued. */
  lemma PollStopsOnToolResponse(runId: string, s: Script, k: nat, run: Run)
    requires k < |s.polls|
    requires forall j :: 0 <= j < k ==> Judge(s.polls[j]) == KeepPolling
    requires s.polls[k] == Answered(StatusOK, Decoded(run))
    requires IsCasingOf(run.state, "tool_response_required")
    ensures PollStep(runId, s).result == Failure(ToolResponseRequired)
    ensures |PollStep(runId, s).calls| == k + 1
    ensures PollStep(runId, s).rest.polls == s.polls[k + 1..]
  {
    PollFirstStop(runId, s, k);
  }

  /** A GetRun call that fails (transport, status, read or decode) ends the
      loop at once with that error: it is not retried. */
  lemma PollErrorIsNotRetried(runId: string, s: Script, k: nat)
    requires k < |s.polls|
    requires forall j :: 0 <= j < k ==> Judge(s.polls[j]) == KeepPolling
    requires CallAPI(s.polls[k], StatusOK).Failure?
    ensures PollStep(runId, s).result == Failure(CallAPI(s.polls[k], StatusOK).error)
    ensures |PollStep(runId, s).calls| == k + 1
    ensures PollStep(runId, s).rest.polls == s.polls[k + 1..]
  {
    PollFirstStop(runId, s, k);
  }

  /** The poll loop never reports a missing assistant id: its errors come
      from the GetRun calls and the run's state. */
  lemma {:induction false} PollNeverAsksForId(runId: string, s: Script)
    ensures PollStep(runId, s).result != Failure(AssistantIdRequired)
    decreases |s.polls|
  {
    if s.polls != [] && Judge(s.polls[0]) == KeepPolling {
      PollNeverAsksForId(runId, s.(polls := s.polls[1..]));
    }
  }
}
