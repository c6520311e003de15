/**
 * One exchange end to end: what the relay sends back, read by the chat widget.
 * The relay answers the four shortcut questions with a one-line JSON object, but
 * the widget only reads `data: ` lines of an event stream.
 */
module Session {
  import opened Wrappers
  import opened Text
  import Chatbot
  import Relay
  import Wire

  /** A buffer without a line break drains to nothing and waits for more. */
  lemma DrainWithoutLine(parse: string -> Chatbot.ParseOutcome, buffer: string, message: string)
    requires '\n' !in buffer
    ensures Chatbot.Drain(parse, buffer, message) == Chatbot.Drained(buffer, message, Chatbot.NeedMore)
  {
    IndexOfAbsent(buffer, '\n');
  }

  /**
   * The widget's request ends with the newly typed text, so the relay's choice of
   * shortcut depends on that text alone and never on the earlier conversation.
   */
  lemma OutgoingDecidesIntent(history: seq<Chatbot.Message>, userMessage: string)
    ensures Relay.LastMessage(Chatbot.Outgoing(history, userMessage)) == Some(Lower(userMessage))
    ensures Relay.IntentOf(Chatbot.Outgoing(history, userMessage))
              == Relay.IntentOf([Wire.ChatMessage("user", userMessage)])
  {
  }

  /**
   * A shortcut answer is never shown: however its JSON body is split into chunks,
   * the widget ends with the empty bot placeholder and no error notice.
   */
  lemma ShortcutNeverShown(parse: string -> Chatbot.ParseOutcome, history: seq<Chatbot.Message>,
                           answer: string, texts: seq<string>, botId: string, errorId: string)
    requires Chatbot.Concat(texts) == Relay.Serialize(Relay.Content(answer))
    ensures Chatbot.Transcript(parse, history, Chatbot.Body(Chatbot.Chunks(texts)), botId, errorId)
              == history + [Chatbot.Placeholder(botId)]
  {
    Relay.ReplyRoundTrip(Relay.Content(answer));
    DrainWithoutLine(parse, Chatbot.Concat(texts), "");
    Chatbot.ReplayFromStart(parse, texts);
  }

  /** A `data: ` line around a trimmed, single-line payload hands that payload on untouched. */
  lemma DataLine(json: string)
    requires '\n' !in json && Trim(json) == json
    ensures var raw := "data: " + json;
            && '\n' !in raw && Chatbot.StripCR(raw) == raw
            && StartsWith(raw, "data: ") && Trim(raw[6..]) == json
  {
    var raw := "data: " + json;
    assert raw[6..] == json;
    assert '\n' !in "data: ";
    assert !EndsWith(raw, "\r") by {
      TrimSpec(json);
      if |json| > 0 {
        assert raw[|raw| - 1] == json[|json| - 1];
        assert IsSpace('\r');
      } else {
        assert raw[|raw| - 1] == ' ';
      }
    }
  }

  /** The terminator line ends the drain, leaving what follows it. */
  lemma DoneLine(parse: string -> Chatbot.ParseOutcome, rest: string, message: string)
    ensures Chatbot.Drain(parse, "data: [DONE]" + "\n" + rest, message) == Chatbot.Drained(rest, message, Chatbot.Terminated)
  {
    var line := "data: [DONE]";
    assert '\n' !in line;
    Chatbot.NextLine(line, rest);
    Chatbot.TerminatorFrame();
  }

  /** A blank line and then the terminator: the text stays, the stream stops. */
  lemma BlankThenDone(parse: string -> Chatbot.ParseOutcome, message: string)
    ensures Chatbot.Drain(parse, "\n" + ("data: [DONE]" + "\n" + "\n"), message)
              == Chatbot.Drained("\n", message, Chatbot.Terminated)
  {
    var tail := "data: [DONE]" + "\n" + "\n";
    AppendEmpty("\n" + tail);
    AppendAssoc("", "\n", tail);
    Chatbot.DrainIgnoredLine(parse, "", tail, message);
    DoneLine(parse, "\n", message);
  }

  /**
   * An event stream with one content delta and the terminator, as the relay passes
   * it through from upstream, is shown: however it is chunked, the bot entry ends
   * with exactly that content.
   */
  lemma StreamShown(parse: string -> Chatbot.ParseOutcome, history: seq<Chatbot.Message>,
                    json: string, content: string, texts: seq<string>, botId: string, errorId: string)
    requires '\n' !in json && Trim(json) == json && json != "[DONE]"
    requires parse(json) == Chatbot.Parsed(Some(content))
    requires Chatbot.Concat(texts) == "data: " + json + "\n" + "\n" + "data: [DONE]" + "\n" + "\n"
    ensures Chatbot.Transcript(parse, history, Chatbot.Body(Chatbot.Chunks(texts)), botId, errorId)
              == Chatbot.Shown(history, botId, content)
  {
    var raw, tail := "data: " + json, "\n" + ("data: [DONE]" + "\n" + "\n");
    assert Chatbot.Concat(texts) == raw + "\n" + tail by {
      AppendAssoc(raw + "\n" + "\n" + "data: [DONE]", "\n", "\n");
      AppendAssoc(raw + "\n" + "\n", "data: [DONE]", "\n" + "\n");
      AppendAssoc(raw + "\n", "\n", "data: [DONE]" + ("\n" + "\n"));
      AppendAssoc("data: [DONE]", "\n", "\n");
    }
    DataLine(json);
    Chatbot.DrainDeltaLine(parse, raw, tail, "", Some(content));
    AppendEmpty(content);
    BlankThenDone(parse, content);
    Chatbot.ReplayFromStart(parse, texts);
  }
}
