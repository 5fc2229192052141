/** Reading a run's answer: the ListMessages call and the aggregation of the
    messages' texts into one string, one line per non-empty text part. */
module Messages {
  import opened Types
  import opened Errors
  import opened Transport
  import opened Network
  import opened Client

  /** The non-empty texts of a message's content parts, in order. */
  function ContentTexts(cs: seq<MessageContent>): (parts: seq<string>)
    ensures |parts| <= |cs|
  {
    if cs == [] then []
    else ContentTexts(cs[..|cs| - 1]) + (if cs[|cs| - 1].text != "" then [cs[|cs| - 1].text] else [])
  }

  /** The non-empty texts of all messages, message by message. */
  function TextParts(ms: seq<Message>): seq<string> {
    if ms == [] then []
    else TextParts(ms[..|ms| - 1]) + ContentTexts(ms[|ms| - 1].content)
  }

  /** Every part followed by a newline, concatenated. */
  function Lines(parts: seq<string>): (text: string)
    ensures |text| >= |parts|
    ensures parts != [] ==> text[|text| - 1] == '\n'
  {
    if parts == [] then ""
    else Lines(parts[..|parts| - 1]) + parts[|parts| - 1] + "\n"
  }

  /** The answer text built from a list of messages: a non-empty one ends
      with a newline. */
  function Aggregated(ms: seq<Message>): (text: string)
    ensures text == "" || text[|text| - 1] == '\n'
  {
    Lines(TextParts(ms))
  }

  /** The aggregation loop: every non-empty text part of every message, in
      order, each followed by a newline. */
  method FlattenText(messages: seq<Message>) returns (text: string)
    ensures text == Aggregated(messages)
  {
    text := "";
    for i := 0 to |messages|
      invariant text == Lines(TextParts(messages[..i]))
    {
      var content := messages[i].content;
      ghost var head := text;
      for j := 0 to |content|
        invariant text == head + Lines(ContentTexts(content[..j]))
      {
        ContentStep(content, j);
        ghost var lines := Lines(ContentTexts(content[..j]));
        if content[j].text != "" {
          AppendAssoc(head, lines, content[j].text + "\n");
          text := text + (content[j].text + "\n");
        } else {
          assert lines + "" == lines;
        }
      }
      assert content[..|content|] == content;
      MessageStep(messages, i);
    }
    assert messages[..|messages|] == messages;
  }

  /** One more content part adds its line when its text is not empty. */
  lemma ContentStep(cs: seq<MessageContent>, j: nat)
    requires j < |cs|
    ensures Lines(ContentTexts(cs[..j + 1])) ==
      Lines(ContentTexts(cs[..j])) + (if cs[j].text != "" then cs[j].text + "\n" else "")
  {
    assert cs[..j + 1][..j] == cs[..j];
    if cs[j].text != "" {
      var parts := ContentTexts(cs[..j + 1]);
      assert parts == ContentTexts(cs[..j]) + [cs[j].text];
      assert parts[..|parts| - 1] == ContentTexts(cs[..j]);
    } else {
      assert ContentTexts(cs[..j + 1]) == ContentTexts(cs[..j]) + [];
      assert ContentTexts(cs[..j]) + [] == ContentTexts(cs[..j]);
      assert Lines(ContentTexts(cs[..j])) + "" == Lines(ContentTexts(cs[..j]));
    }
  }

  /** One more message adds the lines of its content parts. */
  lemma MessageStep(ms: seq<Message>, i: nat)
    requires i < |ms|
    ensures Lines(TextParts(ms[..i + 1])) ==
      Lines(TextParts(ms[..i])) + Lines(ContentTexts(ms[i].content))
  {
    assert ms[..i + 1][..i] == ms[..i];
    LinesAppend(TextParts(ms[..i]), ContentTexts(ms[i].content));
  }

  /** Lines of two lists of parts is the lines of the first followed by the
      lines of the second. */
  lemma {:induction false} LinesAppend(a: seq<string>, b: seq<string>)
    ensures Lines(a + b) == Lines(a) + Lines(b)
    decreases |b|
  {
    if b == [] {
      assert a + b == a;
    } else {
      var b', last := b[..|b| - 1], b[|b| - 1] + "\n";
      assert (a + b)[..|a + b| - 1] == a + b' && (a + b)[|a + b| - 1] == b[|b| - 1];
      assert Lines(a + b) == Lines(a + b') + last;
      LinesAppend(a, b');
      assert Lines(b) == Lines(b') + last;
      AppendAssoc(Lines(a), Lines(b'), last);
    }
  }

  /** The parts of two lists of messages are the parts of the first followed
      by those of the second. */
  lemma {:induction false} TextPartsAppend(xs: seq<Message>, ys: seq<Message>)
    ensures TextParts(xs + ys) == TextParts(xs) + TextParts(ys)
    decreases |ys|
  {
    if ys == [] {
      assert xs + ys == xs;
    } else {
      var ys' := ys[..|ys| - 1];
      assert (xs + ys)[..|xs + ys| - 1] == xs + ys';
      TextPartsAppend(xs, ys');
    }
  }

  /** Aggregating two lists of messages gives the two texts one after the
      other. */
  lemma AggregatedConcat(xs: seq<Message>, ys: seq<Message>)
    ensures Aggregated(xs + ys) == Aggregated(xs) + Aggregated(ys)
  {
    TextPartsAppend(xs, ys);
    LinesAppend(TextParts(xs), TextParts(ys));
  }

  /** A single message contributes one line per non-empty content part. */
  lemma AggregatedSingle(m: Message)
    ensures Aggregated([m]) == Lines(ContentTexts(m.content))
  {
    assert [m][..0] == [];
    assert TextParts([m]) == TextParts([]) + ContentTexts(m.content);
    assert [] + ContentTexts(m.content) == ContentTexts(m.content);
  }

  /** Every part ContentTexts keeps is a non-empty text of one of the parts,
      and it keeps every non-empty text. */
  lemma {:induction false} ContentTextsExactly(cs: seq<MessageContent>)
    ensures forall p :: p in ContentTexts(cs) ==> p != "" && exists c :: c in cs && c.text == p
    ensures forall c :: c in cs && c.text != "" ==> c.text in ContentTexts(cs)
    decreases |cs|
  {
    if cs != [] {
      var init := cs[..|cs| - 1];
      ContentTextsExactly(init);
      forall c | c in cs && c.text != ""
        ensures c.text in ContentTexts(cs)
      {
        if c != cs[|cs| - 1] {
          assert c in init;
        }
      }
      forall p | p in ContentTexts(cs)
        ensures p != "" && exists c :: c in cs && c.text == p
      {
        if p in ContentTexts(init) {
          var c :| c in init && c.text == p;
          assert c in cs;
        } else {
          assert cs[|cs| - 1] in cs;
        }
      }
    }
  }

  /** No part is kept exactly when every content part has an empty text. */
  lemma ContentTextsEmptyIff(cs: seq<MessageContent>)
    ensures ContentTexts(cs) == [] <==> forall j :: 0 <= j < |cs| ==> cs[j].text == ""
  {
    ContentTextsExactly(cs);
    if ContentTexts(cs) != [] {
      var p := ContentTexts(cs)[0];
      assert p in ContentTexts(cs);
    } else {
      forall j | 0 <= j < |cs|
        ensures cs[j].text == ""
      {
        assert cs[j] in cs;
      }
    }
  }

  /** Lines of non-empty parts is empty exactly when there are no parts. */
  lemma LinesEmptyIff(parts: seq<string>)
    ensures Lines(parts) == "" <==> parts == []
  {
    if parts != [] {
      assert |Lines(parts)| >= 1;
    }
  }

  /** The answer text is empty exactly when no content part of any message
      has text. */
  lemma {:induction false} AggregatedEmptyIff(ms: seq<Message>)
    ensures Aggregated(ms) == "" <==>
      forall i, j :: 0 <= i < |ms| && 0 <= j < |ms[i].content| ==> ms[i].content[j].text == ""
    decreases |ms|
  {
    LinesEmptyIff(TextParts(ms));
    if ms != [] {
      var init := ms[..|ms| - 1];
      var last := ms[|ms| - 1];
      AggregatedEmptyIff(init);
      LinesEmptyIff(TextParts(init));
      ContentTextsEmptyIff(last.content);
      if TextParts(ms) == [] {
        forall i, j | 0 <= i < |ms| && 0 <= j < |ms[i].content|
          ensures ms[i].content[j].text == ""
        {
          if i < |ms| - 1 {
            assert ms[i] == init[i];
          }
        }
      } else if TextParts(init) != [] {
        var i, j :| 0 <= i < |init| && 0 <= j < |init[i].content| && init[i].content[j].text != "";
        assert ms[i] == init[i];
      } else {
        var j :| 0 <= j < |last.content| && last.content[j].text != "";
        assert ms[|ms| - 1] == last;
      }
    }
  }

  /** Three messages whose middle one has no content give the two texts,
      each on its own line. */
  lemma AggregatedExample()
    ensures Aggregated([Message([MessageContent("a")]), Message([]), Message([MessageContent("b")])]) == "a\nb\n"
  {
    var a := Message([MessageContent("a")]);
    var b := Message([MessageContent("b")]);
    AggregatedConcat([a, Message([])], [b]);
    AggregatedConcat([a], [Message([])]);
    AggregatedSingle(a);
    AggregatedSingle(Message([]));
    AggregatedSingle(b);
    assert [a, Message([])] + [b] == [a, Message([]), b];
    assert [a] + [Message([])] == [a, Message([])];
    assert Lines(ContentTexts(a.content)) == "a\n" by {
      assert a.content[..0] == [];
      assert ContentTexts(a.content) == ["a"];
      assert ["a"][..0] == [];
    }
    assert Lines(ContentTexts(b.content)) == "b\n" by {
      assert b.content[..0] == [];
      assert ContentTexts(b.content) == ["b"];
      assert ["b"][..0] == [];
    }
  }

  function ListMessagesCall(threadId: string, runId: string): Call {
    Post(ListMessagesUrl, ListMessagesBody(ListMessagesRequest(threadId, runId)))
  }

  /** Reading the answer: one ListMessages POST, checked for status 200, then
      the aggregation of the messages it returns. */
  function ResponseStep(threadId: string, runId: string, s: Script): Step<string> {
    var listed := Answer(s.listings);
    Step(if listed.Failure? then Failure(listed.error) else Success(Aggregated(listed.value.messages)),
         s.(listings := Rest(s.listings)), Logged(s.listings, ListMessagesCall(threadId, runId)), 0)
  }

  method GetResponseMessages(net: Network, threadId: string, runId: string) returns (r: Result<string>)
    modifies net
    ensures Follows(ResponseStep(threadId, runId, old(net.script)), r, net.script,
                    old(net.log), net.log, old(net.clock), net.clock)
  {
    var response := net.PostListMessages(ListMessagesRequest(threadId, runId));
    if response.Failure? {
      return Failure(response.error);
    }
    var text := FlattenText(response.value.messages);
    return Success(text);
  }

  /** The answer is read with a single ListMessages call for the given thread
      and run; a failed call is returned as it is and yields no text. */
  lemma ResponseReadsOnce(threadId: string, runId: string, s: Script)
    requires s.listings != []
    ensures var st := ResponseStep(threadId, runId, s);
      st.calls == [ListMessagesCall(threadId, runId)] &&
      st.rest == s.(listings := s.listings[1..]) &&
      (CallAPI(s.listings[0], StatusOK).Failure? ==> st.result == Failure(CallAPI(s.listings[0], StatusOK).error)) &&
      (CallAPI(s.listings[0], StatusOK).Success? ==>
        st.result == Success(Aggregated(CallAPI(s.listings[0], StatusOK).value.messages)))
  {
  }
}
