/** The content uploader: for each file in turn, negotiate an upload ticket
    with the API, then PUT the file's bytes to the ticket's URL with the
    ticket's headers. The first failure ends the batch. */
module Upload {
  import opened Types
  import opened Errors
  import opened Transport
  import opened Paths
  import opened Network
  import opened Client

  /** An opened local file: the name it was opened under and its bytes. */
  datatype File = File(name: string, content: seq<bv8>)

  /** The ticket request for `f`: the store and the last element of its name. */
  function NegotiationCall(storeId: string, f: File): Call {
    Post(UploadFileUrl, UploadFileBody(UploadFileRequest(storeId, Base(f.name))))
  }

  /** The upload of `f` under `ticket`: its bytes, to the ticket's URL, with
      exactly the ticket's headers. */
  function TransferCall(ticket: UploadFileResponse, f: File): Call {
    Put(ticket.url, ticket.headers, f.content)
  }

  /** Uploading one file. */
  function UploadOneStep(storeId: string, f: File, s: Script): Step<()> {
    var negotiated := Answer(s.tickets);
    var s1 := s.(tickets := Rest(s.tickets));
    var negotiation := Logged(s.tickets, NegotiationCall(storeId, f));
    match negotiated
    case Failure(e) => Step(Failure(e), s1, negotiation, 0)
    case Success(ticket) =>
      var s2 := s1.(puts := Rest(s1.puts));
      if s1.puts == [] then Step(Failure(ScriptExhausted), s2, negotiation, 0)
      else
        var calls := negotiation + [TransferCall(ticket, f)];
        match s1.puts[0]
        case PutTransportFailure(cause) => Step(Failure(PutFailed(ticket.url, cause)), s2, calls, 0)
        case PutAnswered(status) =>
          if status == StatusOK then Step(Success(()), s2, calls, 0)
          else Step(Failure(PutUnexpectedStatus(status)), s2, calls, 0)
  }

  /** Uploading a batch: one file after the other, stopping at the first
      failure. */
  function UploadStep(storeId: string, files: seq<File>, s: Script): Step<()>
    decreases |files|
  {
    if files == [] then Step(Success(()), s, [], 0)
    else
      var one := UploadOneStep(storeId, files[0], s);
      if one.result.Failure? then one
      else
        var rest := UploadStep(storeId, files[1..], one.rest);
        Step(rest.result, rest.rest, one.calls + rest.calls, 0)
  }

  /** The body of the upload loop for one file: negotiate, then PUT with
      the negotiated headers; only a 200 answer to the PUT is a success. */
  method UploadFile(net: Network, storeId: string, file: File) returns (r: Result<()>)
    modifies net
    ensures Follows(UploadOneStep(storeId, file, old(net.script)), r, net.script,
                    old(net.log), net.log, old(net.clock), net.clock)
  {
    var ticket := net.PostUploadFile(UploadFileRequest(storeId, Base(file.name)));
    if ticket.Failure? {
      return Failure(ticket.error);
    }
    var reply := net.PutFile(ticket.value.url, ticket.value.headers, file.content);
    if reply.None? {
      return Failure(ScriptExhausted);
    }
    match reply.value
    case PutTransportFailure(cause) =>
      return Failure(PutFailed(ticket.value.url, cause));
    case PutAnswered(status) =>
      if status != StatusOK {
        return Failure(PutUnexpectedStatus(status));
      }
      return Success(());
  }

  /** The upload loop: files in order, returning at the first failure. */
  method UploadFiles(net: Network, storeId: string, files: seq<File>) returns (r: Result<()>)
    modifies net
    ensures Follows(UploadStep(storeId, files, old(net.script)), r, net.script,
                    old(net.log), net.log, old(net.clock), net.clock)
  {
    ghost var done: seq<Call> := [];
    for i := 0 to |files|
      invariant net.log == old(net.log) + done
      invariant net.clock == old(net.clock)
      invariant UploadStep(storeId, files, old(net.script)) ==
                Prepend(done, UploadStep(storeId, files[i..], net.script))
    {
      ghost var before := net.script;
      ghost var logBefore := net.log;
      var one := UploadFile(net, storeId, files[i]);
      UploadTurn(storeId, files, i, old(net.script), before, net.script, done, one,
                 old(net.log), logBefore, net.log, old(net.clock), net.clock);
      if one.Failure? {
        return one;
      }
      done := done + UploadOneStep(storeId, files[i], before).calls;
    }
    UploadDone(storeId, files, old(net.script), net.script, done);
    return Success(());
  }

  /** One turn of the upload loop: a failed file ends the batch with that
      failure, a file that went through extends the calls done so far by
      its own two calls. */
  lemma UploadTurn(storeId: string, files: seq<File>, i: nat, s0: Script, before: Script,
                   after: Script, done: seq<Call>, one: Result<()>, log0: seq<Call>,
                   logBefore: seq<Call>, logAfter: seq<Call>, clock0: nat, clockAfter: nat)
    requires i < |files|
    requires logBefore == log0 + done
    requires UploadStep(storeId, files, s0) == Prepend(done, UploadStep(storeId, files[i..], before))
    requires Follows(UploadOneStep(storeId, files[i], before), one, after,
                     logBefore, logAfter, clock0, clockAfter)
    ensures one.Failure? ==>
      Follows(UploadStep(storeId, files, s0), one, after, log0, logAfter, clock0, clockAfter)
    ensures one.Success? ==>
      var calls := UploadOneStep(storeId, files[i], before).calls;
      logAfter == log0 + (done + calls) && clockAfter == clock0 &&
      UploadStep(storeId, files, s0) == Prepend(done + calls, UploadStep(storeId, files[i + 1..], after))
  {
    var step := UploadOneStep(storeId, files[i], before);
    UploadAdvance(storeId, files, i, before);
    if one.Failure? {
      PrependTwice(done, step.calls, UploadStep(storeId, files[i..], before));
    } else {
      PrependTwice(done, step.calls, UploadStep(storeId, files[i + 1..], after));
      AppendAssoc(log0, done, step.calls);
    }
  }

  /** Past the last file, the calls done so far are the whole batch. */
  lemma UploadDone(storeId: string, files: seq<File>, s0: Script, s: Script, done: seq<Call>)
    requires UploadStep(storeId, files, s0) == Prepend(done, UploadStep(storeId, files[|files|..], s))
    ensures UploadStep(storeId, files, s0) == Step(Success(()), s, done, 0)
  {
    assert files[|files|..] == [];
    assert UploadStep(storeId, files[|files|..], s) == Step(Success(()), s, [], 0);
    assert done + [] == done;
  }

  /** The batch is its first file's upload, followed, if that succeeded, by
      the batch of the other files. */
  lemma UploadStepCons(storeId: string, files: seq<File>, s: Script)
    requires files != []
    ensures var one := UploadOneStep(storeId, files[0], s);
      UploadStep(storeId, files, s) ==
        if one.result.Failure? then one else Prepend(one.calls, UploadStep(storeId, files[1..], one.rest))
  {
  }

  /** One turn of the upload loop, seen on the batch of the files from
      position i on. */
  lemma UploadAdvance(storeId: string, files: seq<File>, i: nat, s: Script)
    requires i < |files|
    ensures var one := UploadOneStep(storeId, files[i], s);
      UploadStep(storeId, files[i..], s) ==
        if one.result.Failure? then one else Prepend(one.calls, UploadStep(storeId, files[i + 1..], one.rest))
  {
    assert files[i..][0] == files[i] && files[i..][1..] == files[i + 1..];
    UploadStepCons(storeId, files[i..], s);
  }

  /** A file goes through when its ticket request is answered 200 with a
      decodable ticket and its PUT is answered 200. */
  predicate GoesThrough(ticketReply: Exchange<UploadFileResponse>, putReply: PutReply) {
    CallAPI(ticketReply, StatusOK).Success? && putReply == PutAnswered(StatusOK)
  }

  /** A file that goes through costs one ticket and one PUT reply and logs
      its negotiation and its transfer. */
  lemma UploadOneGoesThrough(storeId: string, f: File, s: Script)
    requires s.tickets != [] && s.puts != []
    requires GoesThrough(s.tickets[0], s.puts[0])
    ensures UploadOneStep(storeId, f, s) ==
      Step(Success(()), s.(tickets := s.tickets[1..], puts := s.puts[1..]),
           [NegotiationCall(storeId, f), TransferCall(CallAPI(s.tickets[0], StatusOK).value, f)], 0)
  {
  }

  /** A file that does not go through fails with at most its negotiation and
      its transfer logged, the transfer only after a good ticket and with a
      reply other than 200. The error is the ticket call's own error when
      the negotiation fails; after a good ticket it is the PUT's transport
      error naming the ticket's URL, or the PUT's status. */
  lemma UploadOneFails(storeId: string, f: File, s: Script)
    requires !(s.tickets != [] && s.puts != [] && GoesThrough(s.tickets[0], s.puts[0]))
    ensures s.tickets == [] ==> UploadOneStep(storeId, f, s).result == Failure(ScriptExhausted)
    ensures s.tickets != [] && CallAPI(s.tickets[0], StatusOK).Failure? ==>
      UploadOneStep(storeId, f, s).result == Failure(CallAPI(s.tickets[0], StatusOK).error)
    ensures s.tickets != [] && CallAPI(s.tickets[0], StatusOK).Success? ==>
      var ticket, r := CallAPI(s.tickets[0], StatusOK).value, UploadOneStep(storeId, f, s).result;
      && (s.puts == [] ==> r == Failure(ScriptExhausted))
      && (s.puts != [] && s.puts[0].PutTransportFailure? ==> r == Failure(PutFailed(ticket.url, s.puts[0].cause)))
      && (s.puts != [] && s.puts[0].PutAnswered? ==>
            s.puts[0].status != StatusOK && r == Failure(PutUnexpectedStatus(s.puts[0].status)))
    ensures var one := UploadOneStep(storeId, f, s);
      && one.result.Failure?
      && |one.calls| <= 2
      && (0 < |one.calls| ==> one.calls[0] == NegotiationCall(storeId, f))
      && (1 < |one.calls| ==>
            s.tickets != [] && s.puts != [] && CallAPI(s.tickets[0], StatusOK).Success? &&
            one.calls[1] == TransferCall(CallAPI(s.tickets[0], StatusOK).value, f) &&
            s.puts[0] != PutAnswered(StatusOK))
  {
  }

  /** The batch after a file that goes through: that file's negotiation and
      transfer, then the batch of the remaining files on the remaining replies. */
  lemma UploadConsGoesThrough(storeId: string, files: seq<File>, s: Script)
    requires files != [] && s.tickets != [] && s.puts != []
    requires GoesThrough(s.tickets[0], s.puts[0])
    ensures var rest := UploadStep(storeId, files[1..], s.(tickets := s.tickets[1..], puts := s.puts[1..]));
      UploadStep(storeId, files, s) ==
        Step(rest.result, rest.rest,
             [NegotiationCall(storeId, files[0]), TransferCall(CallAPI(s.tickets[0], StatusOK).value, files[0])] + rest.calls, 0)
  {
    UploadOneGoesThrough(storeId, files[0], s);
  }

  /** The remaining replies, after the first file went through, still let
      every remaining file go through. */
  lemma PrefixShift(files: seq<File>, s: Script, k: nat)
    requires 0 < k <= |files| && AllGoThrough(s, k)
    ensures AllGoThrough(Skip(s, 1), k - 1)
    ensures files[1..][k - 1..] == files[k..] && Skip(Skip(s, 1), k - 1) == Skip(s, k)
    ensures files[..k][1..] == files[1..][..k - 1] && s.tickets[..k][1..] == Skip(s, 1).tickets[..k - 1]
  {
    forall j | 0 <= j < k - 1
      ensures GoesThrough(Skip(s, 1).tickets[j], Skip(s, 1).puts[j])
    {
      assert GoesThrough(s.tickets[j + 1], s.puts[j + 1]);
    }
  }

  /** A batch whose first file does not go through is that file's failure. */
  lemma UploadFailsFirst(storeId: string, files: seq<File>, s: Script)
    requires files != []
    requires !(0 < |s.tickets| && 0 < |s.puts| && GoesThrough(s.tickets[0], s.puts[0]))
    ensures var st := UploadStep(storeId, files, s);
      && st.result.Failure?
      && st.result == UploadOneStep(storeId, files[0], s).result
      && |st.calls| <= 2
      && (0 < |st.calls| ==> st.calls[0] == NegotiationCall(storeId, files[0]))
      && (1 < |st.calls| ==>
            0 < |s.tickets| && 0 < |s.puts| && CallAPI(s.tickets[0], StatusOK).Success? &&
            st.calls[1] == TransferCall(CallAPI(s.tickets[0], StatusOK).value, files[0]) &&
            s.puts[0] != PutAnswered(StatusOK))
  {
    UploadOneFails(storeId, files[0], s);
  }

  /** The first `n` ticket and PUT replies let a file go through each. */
  predicate AllGoThrough(s: Script, n: nat) {
    n <= |s.tickets| && n <= |s.puts| &&
    forall j :: 0 <= j < n ==> GoesThrough(s.tickets[j], s.puts[j])
  }

  /** The script once `n` files have used their ticket and PUT replies. */
  function Skip(s: Script, n: nat): Script
    requires n <= |s.tickets| && n <= |s.puts|
  {
    s.(tickets := s.tickets[n..], puts := s.puts[n..])
  }

  /** Each file's negotiation followed by its transfer under its own ticket,
      file after file. */
  function PairCalls(storeId: string, files: seq<File>, tickets: seq<Exchange<UploadFileResponse>>): (calls: seq<Call>)
    requires |files| == |tickets|
    requires forall j :: 0 <= j < |tickets| ==> CallAPI(tickets[j], StatusOK).Success?
    ensures |calls| == 2 * |files|
  {
    if files == [] then []
    else [NegotiationCall(storeId, files[0]), TransferCall(CallAPI(tickets[0], StatusOK).value, files[0])]
         + PairCalls(storeId, files[1..], tickets[1..])
  }

  lemma {:induction false} PairCallsAt(storeId: string, files: seq<File>, tickets: seq<Exchange<UploadFileResponse>>, j: nat)
    requires |files| == |tickets| && j < |files|
    requires forall i :: 0 <= i < |tickets| ==> CallAPI(tickets[i], StatusOK).Success?
    ensures PairCalls(storeId, files, tickets)[2 * j] == NegotiationCall(storeId, files[j])
    ensures PairCalls(storeId, files, tickets)[2 * j + 1] == TransferCall(CallAPI(tickets[j], StatusOK).value, files[j])
    decreases j
  {
    if j > 0 {
      PairCallsAt(storeId, files[1..], tickets[1..], j - 1);
    }
  }

  /** After k files that go through, the batch has logged their pairs of
      calls and goes on with file k on the remaining replies. */
  lemma {:induction false} UploadPrefix(storeId: string, files: seq<File>, s: Script, k: nat)
    requires k <= |files| && AllGoThrough(s, k)
    ensures UploadStep(storeId, files, s) ==
      Prepend(PairCalls(storeId, files[..k], s.tickets[..k]), UploadStep(storeId, files[k..], Skip(s, k)))
    decreases k
  {
    if k == 0 {
      assert files[0..] == files && Skip(s, 0) == s;
      var st := UploadStep(storeId, files, s);
      assert PairCalls(storeId, files[..0], s.tickets[..0]) == [];
      assert [] + st.calls == st.calls;
    } else {
      var after := Skip(s, 1);
      var head := [NegotiationCall(storeId, files[0]), TransferCall(CallAPI(s.tickets[0], StatusOK).value, files[0])];
      var tail := UploadStep(storeId, files[k..], Skip(s, k));
      assert UploadStep(storeId, files, s) == Prepend(head, UploadStep(storeId, files[1..], after)) by {
        assert GoesThrough(s.tickets[0], s.puts[0]);
        UploadConsGoesThrough(storeId, files, s);
      }
      PrefixShift(files, s, k);
      UploadPrefix(storeId, files[1..], after, k - 1);
      assert PairCalls(storeId, files[..k], s.tickets[..k]) ==
             head + PairCalls(storeId, files[..k][1..], s.tickets[..k][1..]);
      PrependTwice(head, PairCalls(storeId, files[..k][1..], s.tickets[..k][1..]), tail);
    }
  }

  /** When every file goes through, the batch succeeds after exactly one
      negotiation and one PUT per file, in file order; each PUT goes to its
      own ticket's URL with that ticket's headers. */
  lemma UploadAllSucceed(storeId: string, files: seq<File>, s: Script)
    requires |files| <= |s.tickets| && |files| <= |s.puts|
    requires forall j :: 0 <= j < |files| ==> GoesThrough(s.tickets[j], s.puts[j])
    ensures var st := UploadStep(storeId, files, s);
      && st.result == Success(())
      && |st.calls| == 2 * |files|
      && (forall j :: 0 <= j < |files| ==>
            GoesThrough(s.tickets[j], s.puts[j]) &&
            st.calls[2 * j] == NegotiationCall(storeId, files[j]) &&
            st.calls[2 * j + 1] == TransferCall(CallAPI(s.tickets[j], StatusOK).value, files[j]))
      && st.rest == s.(tickets := s.tickets[|files|..], puts := s.puts[|files|..])
  {
    var n := |files|;
    UploadAllPairs(storeId, files, s);
    forall j | 0 <= j < n
      ensures GoesThrough(s.tickets[j], s.puts[j])
      ensures PairCalls(storeId, files, s.tickets[..n])[2 * j] == NegotiationCall(storeId, files[j])
      ensures PairCalls(storeId, files, s.tickets[..n])[2 * j + 1] == TransferCall(CallAPI(s.tickets[j], StatusOK).value, files[j])
    {
      PairCallsAt(storeId, files, s.tickets[..n], j);
    }
  }

  /** When every file goes through, the batch is exactly their pairs of
      calls. */
  lemma UploadAllPairs(storeId: string, files: seq<File>, s: Script)
    requires AllGoThrough(s, |files|)
    ensures UploadStep(storeId, files, s) ==
      Step(Success(()), Skip(s, |files|), PairCalls(storeId, files, s.tickets[..|files|]), 0)
  {
    var n := |files|;
    UploadPrefix(storeId, files, s, n);
    assert files[..n] == files && files[n..] == [];
    assert PairCalls(storeId, files, s.tickets[..n]) + [] == PairCalls(storeId, files, s.tickets[..n]);
  }

  /** Fail-fast: when file k is the first that does not go through, the batch
      fails with file k's own error; the first k files were negotiated and
      PUT in order (k completed transfers), file k was negotiated and PUT at
      most once, with a reply other than 200, and no later file is touched.
      File k's error is its ticket call's error, or, after a good ticket, the
      PUT's transport error naming the ticket's URL or the PUT's status. */
  lemma UploadFailFast(storeId: string, files: seq<File>, s: Script, k: nat)
    requires k < |files|
    requires k <= |s.tickets| && k <= |s.puts|
    requires forall j :: 0 <= j < k ==> GoesThrough(s.tickets[j], s.puts[j])
    requires !(k < |s.tickets| && k < |s.puts| && GoesThrough(s.tickets[k], s.puts[k]))
    ensures k == |s.tickets| ==> UploadStep(storeId, files, s).result == Failure(ScriptExhausted)
    ensures k < |s.tickets| && CallAPI(s.tickets[k], StatusOK).Failure? ==>
      UploadStep(storeId, files, s).result == Failure(CallAPI(s.tickets[k], StatusOK).error)
    ensures k < |s.tickets| && CallAPI(s.tickets[k], StatusOK).Success? ==>
      var ticket, r := CallAPI(s.tickets[k], StatusOK).value, UploadStep(storeId, files, s).result;
      && (k == |s.puts| ==> r == Failure(ScriptExhausted))
      && (k < |s.puts| && s.puts[k].PutTransportFailure? ==> r == Failure(PutFailed(ticket.url, s.puts[k].cause)))
      && (k < |s.puts| && s.puts[k].PutAnswered? ==>
            s.puts[k].status != StatusOK && r == Failure(PutUnexpectedStatus(s.puts[k].status)))
    ensures var st := UploadStep(storeId, files, s);
      && st.result.Failure?
      && st.result == UploadOneStep(storeId, files[k], s.(tickets := s.tickets[k..], puts := s.puts[k..])).result
      && 2 * k <= |st.calls| <= 2 * k + 2
      && (forall j :: 0 <= j < k ==>
            GoesThrough(s.tickets[j], s.puts[j]) &&
            st.calls[2 * j] == NegotiationCall(storeId, files[j]) &&
            st.calls[2 * j + 1] == TransferCall(CallAPI(s.tickets[j], StatusOK).value, files[j]))
      && (2 * k < |st.calls| ==> st.calls[2 * k] == NegotiationCall(storeId, files[k]))
      && (2 * k + 1 < |st.calls| ==>
            k < |s.tickets| && k < |s.puts| && CallAPI(s.tickets[k], StatusOK).Success? &&
            st.calls[2 * k + 1] == TransferCall(CallAPI(s.tickets[k], StatusOK).value, files[k]) &&
            s.puts[k] != PutAnswered(StatusOK))
  {
    var rest := Skip(s, k);
    UploadPrefix(storeId, files, s, k);
    assert files[k..][0] == files[k];
    UploadFailsFirst(storeId, files[k..], rest);
    UploadOneFails(storeId, files[k], rest);
    var pairs := PairCalls(storeId, files[..k], s.tickets[..k]);
    var tail := UploadStep(storeId, files[k..], rest);
    assert UploadStep(storeId, files, s).calls == pairs + tail.calls;
    forall j | 0 <= j < k
      ensures GoesThrough(s.tickets[j], s.puts[j])
      ensures pairs[2 * j] == NegotiationCall(storeId, files[j])
      ensures pairs[2 * j + 1] == TransferCall(CallAPI(s.tickets[j], StatusOK).value, files[j])
    {
      PairCallsAt(storeId, files[..k], s.tickets[..k], j);
    }
  }

  /** Uploading consumes ticket and PUT replies only. */
  lemma {:induction false} UploadKeepsOtherReplies(storeId: string, files: seq<File>, s: Script)
    ensures var r := UploadStep(storeId, files, s).rest;
      r.assistants == s.assistants && r.creations == s.creations &&
      r.polls == s.polls && r.listings == s.listings
    decreases |files|
  {
    if files != [] {
      var one := UploadOneStep(storeId, files[0], s);
      if one.result.Success? {
        UploadKeepsOtherReplies(storeId, files[1..], one.rest);
      }
    }
  }

  /** Uploading never reports a missing assistant id: its errors come from
      the ticket calls and the PUTs. */
  lemma {:induction false} UploadNeverAsksForId(storeId: string, files: seq<File>, s: Script)
    ensures UploadStep(storeId, files, s).result != Failure(AssistantIdRequired)
    decreases |files|
  {
    if files != [] {
      var one := UploadOneStep(storeId, files[0], s);
      if one.result.Success? {
        UploadNeverAsksForId(storeId, files[1..], one.rest);
      }
    }
  }
}
