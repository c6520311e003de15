/**
 * The chat widget's client side: the message list and the stream assembler that
 * turns the relayed Server-Sent-Events body (the WHATWG HTML Living Standard,
 * section 9.2, `data:` lines) back into the assistant's text while it arrives in
 * arbitrarily split chunks.
 */
module Chatbot {
  import opened Wrappers
  import opened Text
  import opened Wire

  // ---------------------------------------------------------------------------
  // The message list
  // ---------------------------------------------------------------------------

  datatype Sender = User | Bot

  /** One entry of the widget's conversation; the timestamp is not modelled. */
  datatype Message = Message(id: string, text: string, sender: Sender)

  const ErrorText := "Sorry, I encountered an error. Please try again."

  /** The empty bot entry created before the first byte arrives. */
  function Placeholder(id: string): Message {
    Message(id, "", Bot)
  }

  /** The one generic failure notice appended when the exchange fails. */
  function ErrorNotice(id: string): Message {
    Message(id, ErrorText, Bot)
  }

  /** The request's message list: the earlier entries by role, then the new user text. */
  function Outgoing(history: seq<Message>, userMessage: string): (r: seq<ChatMessage>)
    ensures |r| == |history| + 1
    ensures r[|history|] == ChatMessage("user", userMessage)
    ensures forall i :: 0 <= i < |history| ==>
              r[i] == ChatMessage(if history[i].sender == User then "user" else "assistant", history[i].text)
  {
    var earlier := seq(|history|, i requires 0 <= i < |history| =>
      ChatMessage(if history[i].sender == User then "user" else "assistant", history[i].text));
    earlier + [ChatMessage("user", userMessage)]
  }

  /** `prev.map(m => m.id === id ? { ...m, text } : m)` */
  function ReplaceText(ms: seq<Message>, id: string, text: string): (r: seq<Message>)
    ensures |r| == |ms|
    ensures forall i :: 0 <= i < |ms| ==> r[i].id == ms[i].id && r[i].sender == ms[i].sender
    ensures forall i :: 0 <= i < |ms| && ms[i].id != id ==> r[i] == ms[i]
    ensures forall i :: 0 <= i < |ms| && ms[i].id == id ==> r[i].text == text
    decreases |ms|
  {
    if |ms| == 0 then []
    else [if ms[0].id == id then ms[0].(text := text) else ms[0]] + ReplaceText(ms[1..], id, text)
  }

  /** Replacing the text twice leaves only the second text. */
  lemma ReplaceTextTwice(ms: seq<Message>, id: string, a: string, b: string)
    ensures ReplaceText(ReplaceText(ms, id, a), id, b) == ReplaceText(ms, id, b)
  {
    var x, y := ReplaceText(ReplaceText(ms, id, a), id, b), ReplaceText(ms, id, b);
    assert |x| == |y|;
    forall i | 0 <= i < |x| ensures x[i] == y[i] {
    }
  }

  /**
   * The message list while the assistant text is `text`: the placeholder has been
   * appended, and once a delta arrived every entry with the bot's id shows the text.
   */
  function Shown(history: seq<Message>, botId: string, text: string): seq<Message> {
    var base := history + [Placeholder(botId)];
    if text == "" then base else ReplaceText(base, botId, text)
  }

  /** The bot entry shows the assistant text; earlier entries with other ids are untouched. */
  lemma ShownBotEntry(history: seq<Message>, botId: string, text: string)
    ensures |Shown(history, botId, text)| == |history| + 1
    ensures Shown(history, botId, text)[|history|] == Message(botId, text, Bot)
    ensures forall i :: 0 <= i < |history| && history[i].id != botId ==>
              Shown(history, botId, text)[i] == history[i]
  {
    var base := history + [Placeholder(botId)];
    assert base[|history|] == Placeholder(botId);
    assert forall i :: 0 <= i < |history| ==> base[i] == history[i];
  }

  // ---------------------------------------------------------------------------
  // Frames
  // ---------------------------------------------------------------------------

  /**
   * What `JSON.parse` followed by `parsed.choices?.[0]?.delta?.content` yields:
   * `Malformed` when either throws, otherwise the content, `None` when it is
   * missing or a falsy non-string. A truthy content that is not a string (a
   * number or an object) is appended through string conversion, so for it the
   * parse yields `Parsed(Some(s))` with `s` its string form.
   */
  datatype ParseOutcome = Malformed | Parsed(content: Option<string>)

  /** The text `if (content) assistantMessage += content` appends. */
  function Delta(content: Option<string>): string {
    if content.Some? then content.value else ""
  }

  /** How one extracted line is treated. */
  datatype Frame = Ignored | Terminator | Payload(json: string)

  /** Drops one trailing carriage return. */
  function StripCR(line: string): (r: string)
    ensures EndsWith(line, "\r") ==> r + "\r" == line
    ensures !EndsWith(line, "\r") ==> r == line
  {
    if EndsWith(line, "\r") then line[..|line| - 1] else line
  }

  /** Comment, blank and non-`data: ` lines are ignored; `[DONE]` terminates. */
  function Classify(line: string): Frame {
    if StartsWith(line, ":") || Trim(line) == "" then Ignored
    else if !StartsWith(line, "data: ") then Ignored
    else
      var json := Trim(line[6..]);
      if json == "[DONE]" then Terminator else Payload(json)
  }

  /** Stripping one more carriage return keeps a `data: ` line and its trimmed payload. */
  lemma StripCRKeepsPayload(line: string)
    requires StartsWith(line, "data: ")
    ensures StartsWith(StripCR(line), "data: ")
    ensures Trim(StripCR(line)[6..]) == Trim(line[6..])
  {
    if EndsWith(line, "\r") {
      var shorter := line[..|line| - 1];
      assert line[5] == ' ';
      assert shorter[..6] == line[..6];
      assert shorter[6..] + "\r" == line[6..];
      TrimDropsTrailingSpace(shorter[6..], '\r');
    }
  }

  /** A `data: ` line is the terminator when its trimmed payload is `[DONE]`, and a payload otherwise. */
  lemma ClassifyData(line: string)
    requires StartsWith(line, "data: ")
    ensures Classify(line) == (if Trim(line[6..]) == "[DONE]" then Terminator else Payload(Trim(line[6..])))
  {
    assert line[0] == 'd';
    TrimSpec(line);
  }

  /** A data line keeps its payload when one more carriage return is stripped. */
  lemma ClassifyStripCR(line: string)
    requires Classify(line).Payload?
    ensures Classify(StripCR(line)) == Classify(line)
  {
    StripCRKeepsPayload(line);
    ClassifyData(line);
    ClassifyData(StripCR(line));
  }

  // ---------------------------------------------------------------------------
  // Draining the buffer
  // ---------------------------------------------------------------------------

  /** Why a drain stopped: no complete line left, `[DONE]` seen, or a payload pushed back. */
  datatype Halt = NeedMore | Terminated | Stalled

  datatype Drained = Drained(buffer: string, message: string, halt: Halt)

  /**
   * The inner loop: take complete lines off the front of `buffer` and apply them
   * to the assistant text `message`, until no newline is left, `[DONE]` is seen,
   * or a payload fails to parse and is pushed back.
   */
  function Drain(parse: string -> ParseOutcome, buffer: string, message: string): (d: Drained)
    ensures message <= d.message
    decreases |buffer|
  {
    match SplitFirst(buffer, '\n')
    case None => Drained(buffer, message, NeedMore)
    case Some((raw, rest)) =>
      var line := StripCR(raw);
      match Classify(line)
      case Ignored => Drain(parse, rest, message)
      case Terminator => Drained(rest, message, Terminated)
      case Payload(json) =>
        match parse(json)
        case Malformed => Drained(line + "\n" + rest, message, Stalled)
        case Parsed(content) => Drain(parse, rest, message + Delta(content))
  }

  /** A drain that needs more bytes has no complete line left. */
  lemma {:induction false} DrainNeedsMore(parse: string -> ParseOutcome, buffer: string, message: string)
    ensures Drain(parse, buffer, message).halt == NeedMore ==> '\n' !in Drain(parse, buffer, message).buffer
    decreases |buffer|
  {
    SplitFirstSpec(buffer, '\n');
    match SplitFirst(buffer, '\n')
    case None =>
    case Some((raw, rest)) =>
      var line := StripCR(raw);
      match Classify(line)
      case Ignored => DrainNeedsMore(parse, rest, message);
      case Terminator =>
      case Payload(json) =>
        match parse(json)
        case Malformed =>
        case Parsed(content) => DrainNeedsMore(parse, rest, message + Delta(content));
  }

  /** Taking a line off the buffer: the line, its newline and the new buffer make up the old one. */
  lemma NextLine(raw: string, rest: string)
    requires '\n' !in raw
    ensures SplitFirst(raw + "\n" + rest, '\n') == Some((raw, rest))
  {
    SplitFirstOf(raw, '\n', rest);
  }

  /** A comment, blank or non-`data: ` line changes neither the text nor the halt state. */
  lemma DrainIgnoredLine(parse: string -> ParseOutcome, raw: string, rest: string, message: string)
    requires '\n' !in raw
    requires var line := StripCR(raw);
             StartsWith(line, ":") || Trim(line) == "" || !StartsWith(line, "data: ")
    ensures Drain(parse, raw + "\n" + rest, message) == Drain(parse, rest, message)
  {
    NextLine(raw, rest);
  }

  /** `data: [DONE]` stops the drain with the text unchanged and the rest left in the buffer. */
  lemma DrainTerminatorLine(parse: string -> ParseOutcome, raw: string, rest: string, message: string)
    requires '\n' !in raw
    requires var line := StripCR(raw);
             StartsWith(line, "data: ") && Trim(line[6..]) == "[DONE]"
    ensures Drain(parse, raw + "\n" + rest, message) == Drained(rest, message, Terminated)
  {
    ClassifyData(StripCR(raw));
    NextLine(raw, rest);
  }

  /** A parsed data line appends its content (nothing when it is missing or empty) and goes on. */
  lemma DrainDeltaLine(parse: string -> ParseOutcome, raw: string, rest: string, message: string,
                       content: Option<string>)
    requires '\n' !in raw
    requires var line := StripCR(raw);
             StartsWith(line, "data: ") && Trim(line[6..]) != "[DONE]"
             && parse(Trim(line[6..])) == Parsed(content)
    ensures Drain(parse, raw + "\n" + rest, message) == Drain(parse, rest, message + Delta(content))
    ensures content.None? || content == Some("") ==> message + Delta(content) == message
  {
    ClassifyData(StripCR(raw));
    NextLine(raw, rest);
  }

  /**
   * A data line that does not parse is pushed back with its newline in front of
   * the rest, which is the buffer before the extraction unless a `\r` was stripped.
   */
  lemma DrainMalformedLine(parse: string -> ParseOutcome, raw: string, rest: string, message: string)
    requires '\n' !in raw
    requires var line := StripCR(raw);
             StartsWith(line, "data: ") && Trim(line[6..]) != "[DONE]"
             && parse(Trim(line[6..])) == Malformed
    ensures Drain(parse, raw + "\n" + rest, message) == Drained(StripCR(raw) + "\n" + rest, message, Stalled)
    ensures !EndsWith(raw, "\r") ==> Drain(parse, raw + "\n" + rest, message).buffer == raw + "\n" + rest
  {
    ClassifyData(StripCR(raw));
    NextLine(raw, rest);
  }

  /** The line `data: [DONE]` is the terminator. */
  lemma TerminatorFrame()
    ensures Classify(StripCR("data: [DONE]")) == Terminator
  {
    var line := "data: [DONE]";
    assert line[|line| - 1] == ']';
    assert StripCR(line) == line;
    assert line[..6] == "data: ";
    assert line[6..] == "[DONE]";
    assert TrimEnd("[DONE]") == "[DONE]";
    assert TrimStart("[DONE]") == "[DONE]";
    ClassifyData(line);
  }

  /** A buffer holding just the terminator line drains to nothing, stopping the stream. */
  lemma DrainDone(parse: string -> ParseOutcome, message: string)
    ensures Drain(parse, "data: [DONE]\n", message) == Drained("", message, Terminated)
  {
    var line := "data: [DONE]";
    assert '\n' !in line;
    NextLine(line, "");
    assert line + "\n" + "" == "data: [DONE]\n";
    TerminatorFrame();
  }

  /** The assistant text only ever grows by what the buffer contributes, whatever came before. */
  lemma {:induction false} DrainExtendsMessage(parse: string -> ParseOutcome, buffer: string, message: string)
    ensures Drain(parse, buffer, message).buffer == Drain(parse, buffer, "").buffer
    ensures Drain(parse, buffer, message).halt == Drain(parse, buffer, "").halt
    ensures Drain(parse, buffer, message).message == message + Drain(parse, buffer, "").message
    decreases |buffer|
  {
    match SplitFirst(buffer, '\n')
    case None =>
    case Some((raw, rest)) =>
      var line := StripCR(raw);
      match Classify(line)
      case Ignored =>
        DrainExtendsMessage(parse, rest, message);
        DrainExtendsMessage(parse, rest, "");
      case Terminator =>
      case Payload(json) =>
        match parse(json)
        case Malformed =>
        case Parsed(content) =>
          var delta := Delta(content);
          DrainExtendsMessage(parse, rest, message + delta);
          DrainExtendsMessage(parse, rest, delta);
          AppendAssoc(message, delta, Drain(parse, rest, "").message);
          AppendEmpty(delta);
  }

  /** The first complete line of `buffer` is a data line whose payload does not parse. */
  predicate Blocked(parse: string -> ParseOutcome, buffer: string) {
    match SplitFirst(buffer, '\n')
    case None => false
    case Some((raw, _)) =>
      var frame := Classify(StripCR(raw));
      frame.Payload? && parse(frame.json).Malformed?
  }

  /** A drain that stalled leaves the unparsable line at the front of the buffer. */
  lemma {:induction false} StalledIsBlocked(parse: string -> ParseOutcome, buffer: string, message: string)
    requires Drain(parse, buffer, message).halt == Stalled
    ensures Blocked(parse, Drain(parse, buffer, message).buffer)
    decreases |buffer|
  {
    match SplitFirst(buffer, '\n')
    case None =>
    case Some((raw, rest)) =>
      var line := StripCR(raw);
      match Classify(line)
      case Ignored => StalledIsBlocked(parse, rest, message);
      case Terminator =>
      case Payload(json) =>
        match parse(json)
        case Malformed =>
          SplitFirstSpec(buffer, '\n');
          assert '\n' !in line;
          NextLine(line, rest);
          ClassifyStripCR(line);
        case Parsed(content) => StalledIsBlocked(parse, rest, message + Delta(content));
  }

  /** More bytes behind a blocked line do not unblock it. */
  lemma BlockedExtends(parse: string -> ParseOutcome, buffer: string, more: string)
    requires Blocked(parse, buffer)
    ensures Blocked(parse, buffer + more)
  {
    SplitFirstSpec(buffer, '\n');
    var (raw, rest) := SplitFirst(buffer, '\n').value;
    AppendAssoc(raw + "\n", rest, more);
    NextLine(raw, rest + more);
  }

  /**
   * A defect of the push-back rule: once a payload fails to parse, feeding any
   * further bytes never changes the text again and the drain stays stalled.
   */
  lemma StallPersists(parse: string -> ParseOutcome, buffer: string, message: string, more: string)
    requires Drain(parse, buffer, message).halt == Stalled
    ensures var d := Drain(parse, buffer, message);
            var e := Drain(parse, d.buffer + more, d.message);
            e.message == d.message && e.halt == Stalled
  {
    var d := Drain(parse, buffer, message);
    StalledIsBlocked(parse, buffer, message);
    BlockedExtends(parse, d.buffer, more);
  }

  /**
   * Draining `buffer + more` is draining `buffer` and then, when that ran out of
   * complete lines, draining what was left followed by `more`; a drain that stopped
   * keeps `more` unread behind its buffer.
   */
  lemma {:induction false} DrainAppend(parse: string -> ParseOutcome, buffer: string, more: string, message: string)
    ensures var d := Drain(parse, buffer, message);
            Drain(parse, buffer + more, message)
              == if d.halt == NeedMore then Drain(parse, d.buffer + more, d.message)
                 else d.(buffer := d.buffer + more)
    decreases |buffer|
  {
    match SplitFirst(buffer, '\n')
    case None =>
    case Some((raw, rest)) =>
      SplitFirstSpec(buffer, '\n');
      AppendAssoc(raw + "\n", rest, more);
      NextLine(raw, rest + more);
      var line := StripCR(raw);
      match Classify(line)
      case Ignored => DrainAppend(parse, rest, more, message);
      case Terminator =>
      case Payload(json) =>
        match parse(json)
        case Malformed =>
          AppendAssoc(line + "\n", rest, more);
        case Parsed(content) => DrainAppend(parse, rest, more, message + Delta(content));
  }

  // ---------------------------------------------------------------------------
  // The read loop
  // ---------------------------------------------------------------------------

  /** One `reader.read()`: a decoded chunk, or a transport error. */
  datatype Read = Chunk(text: string) | ReadFailure

  /** Where the read loop ends: assembler state, and whether a read failed. */
  datatype Outcome = Outcome(buffer: string, message: string, done: bool, failed: bool)

  /**
   * The outer loop: read until `[DONE]` was seen, the stream ends (the reads run
   * out) or a read fails; every chunk is appended to the buffer and drained.
   */
  function Replay(parse: string -> ParseOutcome, buffer: string, message: string, done: bool,
                  results: seq<Read>): (o: Outcome)
    ensures message <= o.message
    ensures done ==> o == Outcome(buffer, message, true, false)
    decreases |results|
  {
    if done || |results| == 0 then Outcome(buffer, message, done, false)
    else match results[0]
      case ReadFailure => Outcome(buffer, message, false, true)
      case Chunk(text) =>
        var d := Drain(parse, buffer + text, message);
        Replay(parse, d.buffer, d.message, d.halt == Terminated, results[1..])
  }

  function Chunks(texts: seq<string>): (r: seq<Read>)
    ensures |r| == |texts|
    ensures forall i :: 0 <= i < |texts| ==> r[i] == Chunk(texts[i])
  {
    seq(|texts|, i requires 0 <= i < |texts| => Chunk(texts[i]))
  }

  function Concat(texts: seq<string>): string
    decreases |texts|
  {
    if |texts| == 0 then "" else texts[0] + Concat(texts[1..])
  }

  lemma {:induction false} ConcatAppend(texts: seq<string>, last: string)
    ensures Concat(texts + [last]) == Concat(texts) + last
    decreases |texts|
  {
    if |texts| > 0 {
      assert (texts + [last])[1..] == texts[1..] + [last];
      ConcatAppend(texts[1..], last);
    } else {
      assert texts + [last] == [last];
    }
  }

  /** Two runs of chunks carry the bytes of each, one after the other. */
  lemma {:induction false} ConcatJoin(a: seq<string>, b: seq<string>)
    ensures Concat(a + b) == Concat(a) + Concat(b)
    decreases |a|
  {
    if |a| > 0 {
      assert (a + b)[1..] == a[1..] + b;
      ConcatJoin(a[1..], b);
      AppendAssoc(a[0], Concat(a[1..]), Concat(b));
    } else {
      assert a + b == b;
      AppendEmpty(Concat(b));
    }
  }

  /**
   * Reading the chunks one by one ends with the text and the `[DONE]` state of one
   * drain over their concatenation, and with its buffer unless that drain stopped.
   */
  lemma {:induction false} ReplayAgreesWithDrain(parse: string -> ParseOutcome, buffer: string, message: string,
                                                 texts: seq<string>)
    ensures var d := Drain(parse, buffer, message);
            var o := Replay(parse, d.buffer, d.message, d.halt == Terminated, Chunks(texts));
            var w := Drain(parse, buffer + Concat(texts), message);
            && !o.failed && o.message == w.message && o.done == (w.halt == Terminated)
            && (w.halt == NeedMore ==> o.buffer == w.buffer)
    decreases |texts|
  {
    var d := Drain(parse, buffer, message);
    var o := Replay(parse, d.buffer, d.message, d.halt == Terminated, Chunks(texts));
    var w := Drain(parse, buffer + Concat(texts), message);
    if |texts| == 0 {
      AppendEmpty(buffer);
    } else {
      var first, others := texts[0], texts[1..];
      assert Chunks(texts)[1..] == Chunks(others);
      assert Concat(texts) == first + Concat(others);
      match d.halt
      case NeedMore =>
        var d1 := Drain(parse, buffer + first, message);
        assert d1 == Drain(parse, d.buffer + first, d.message) by {
          DrainAppend(parse, buffer, first, message);
        }
        assert o == Replay(parse, d1.buffer, d1.message, d1.halt == Terminated, Chunks(others));
        assert w == Drain(parse, (buffer + first) + Concat(others), message) by {
          AppendAssoc(buffer, first, Concat(others));
        }
        ReplayAgreesWithDrain(parse, buffer + first, message, others);
      case Terminated =>
        assert w.message == d.message && w.halt == Terminated by {
          DrainAppend(parse, buffer, Concat(texts), message);
        }
      case Stalled =>
        var d1 := Drain(parse, d.buffer + first, d.message);
        assert d1.message == d.message && d1.halt == Stalled by {
          StallPersists(parse, buffer, message, first);
        }
        assert o == Replay(parse, d1.buffer, d1.message, false, Chunks(others));
        var w1 := Drain(parse, (d.buffer + first) + Concat(others), d.message);
        assert w1.message == d.message && w1.halt == Stalled by {
          StallPersists(parse, buffer, message, first + Concat(others));
          AppendAssoc(d.buffer, first, Concat(others));
        }
        assert w.message == d.message && w.halt == Stalled by {
          DrainAppend(parse, buffer, Concat(texts), message);
        }
        ReplayAgreesWithDrain(parse, d.buffer + first, d.message, others);
    }
  }

  /** The read loop from a fresh assembler agrees with one drain over all the bytes. */
  lemma ReplayFromStart(parse: string -> ParseOutcome, texts: seq<string>)
    ensures var o := Replay(parse, "", "", false, Chunks(texts));
            var w := Drain(parse, Concat(texts), "");
            && !o.failed && o.message == w.message && o.done == (w.halt == Terminated)
            && (w.halt == NeedMore ==> o.buffer == w.buffer)
  {
    assert Drain(parse, "", "") == Drained("", "", NeedMore);
    ReplayAgreesWithDrain(parse, "", "", texts);
    AppendEmpty(Concat(texts));
  }

  /**
   * However the same bytes are split into chunks, the assistant text and the
   * `[DONE]` state come out the same.
   */
  lemma ChunkingIrrelevant(parse: string -> ParseOutcome, texts1: seq<string>, texts2: seq<string>)
    requires Concat(texts1) == Concat(texts2)
    ensures var o1, o2 := Replay(parse, "", "", false, Chunks(texts1)), Replay(parse, "", "", false, Chunks(texts2));
            o1.message == o2.message && o1.done == o2.done && !o1.failed && !o2.failed
  {
    ReplayFromStart(parse, texts1);
    ReplayFromStart(parse, texts2);
  }

  /**
   * A stream of complete frames that closes without `[DONE]` ends, silently, with
   * the text the same stream followed by `data: [DONE]` ends with.
   */
  lemma SilentEndOfStream(parse: string -> ParseOutcome, texts: seq<string>)
    requires var w := Drain(parse, Concat(texts), ""); w.halt == NeedMore && w.buffer == ""
    ensures var open := Replay(parse, "", "", false, Chunks(texts));
            var closed := Replay(parse, "", "", false, Chunks(texts + ["data: [DONE]\n"]));
            open.message == closed.message && !open.done && closed.done && !open.failed && !closed.failed
  {
    var done := "data: [DONE]\n";
    var w := Drain(parse, Concat(texts), "");
    ReplayFromStart(parse, texts);
    ReplayFromStart(parse, texts + [done]);
    assert Drain(parse, Concat(texts + [done]), "") == Drained("", w.message, Terminated) by {
      ConcatAppend(texts, done);
      DrainAppend(parse, Concat(texts), done, "");
      AppendEmpty(done);
      DrainDone(parse, w.message);
    }
  }

  /**
   * Once a payload fails to parse, the stream is stuck: whatever arrives after it,
   * the text never changes again and `[DONE]` is never seen.
   */
  lemma StalledForever(parse: string -> ParseOutcome, texts: seq<string>, later: seq<string>)
    requires Drain(parse, Concat(texts), "").halt == Stalled
    ensures var stuck, after := Replay(parse, "", "", false, Chunks(texts)),
                                Replay(parse, "", "", false, Chunks(texts + later));
            && after.message == stuck.message && !stuck.done && !after.done && !after.failed
  {
    ReplayFromStart(parse, texts);
    ReplayFromStart(parse, texts + later);
    ConcatJoin(texts, later);
    DrainAppend(parse, Concat(texts), Concat(later), "");
  }

  // ---------------------------------------------------------------------------
  // The assembler object
  // ---------------------------------------------------------------------------

  /** The per-request state of `streamChat` once the response body is being read. */
  class Assembler {
    const parse: string -> ParseOutcome
    const botMessageId: string
    ghost const history: seq<Message>
    var textBuffer: string
    var assistantMessage: string
    var streamDone: bool
    var messages: seq<Message>

    /** The list shows the history, then the bot entry with the text assembled so far. */
    ghost predicate Valid()
      reads this
    {
      messages == Shown(history, botMessageId, assistantMessage)
    }

    /** Starts reading: empty buffer and text, and the placeholder appended to the list. */
    constructor (parse: string -> ParseOutcome, history: seq<Message>, botMessageId: string)
      ensures Valid()
      ensures this.parse == parse && this.history == history && this.botMessageId == botMessageId
      ensures textBuffer == "" && assistantMessage == "" && !streamDone
      ensures messages == history + [Placeholder(botMessageId)]
    {
      this.parse := parse;
      this.history := history;
      this.botMessageId := botMessageId;
      textBuffer := "";
      assistantMessage := "";
      streamDone := false;
      messages := history + [Placeholder(botMessageId)];
    }

    /** Appends one decoded chunk to the buffer and processes every complete line. */
    method Feed(chunk: string)
      requires Valid() && !streamDone
      modifies this
      ensures Valid()
      ensures var d := Drain(parse, old(textBuffer) + chunk, old(assistantMessage));
              textBuffer == d.buffer && assistantMessage == d.message && streamDone == (d.halt == Terminated)
    {
      var buffer, text := textBuffer + chunk, assistantMessage;
      ghost var target := Drain(parse, buffer, text);
      var done := false;
      while true
        invariant messages == Shown(history, botMessageId, text)
        invariant !done && Drain(parse, buffer, text) == target
        decreases |buffer|
      {
        var newlineIndex := IndexOf(buffer, '\n');
        if newlineIndex.None? {
          break;
        }
        ghost var before := buffer;
        var line := buffer[..newlineIndex.value];
        buffer := buffer[newlineIndex.value + 1..];
        ghost var raw := line;
        assert before == raw + "\n" + buffer && '\n' !in raw by {
          SplitFirstSpec(before, '\n');
        }

        if EndsWith(line, "\r") {
          line := line[..|line| - 1];
        }
        assert line == StripCR(raw);
        if StartsWith(line, ":") || Trim(line) == "" {
          DrainIgnoredLine(parse, raw, buffer, text);
          continue;
        }
        if !StartsWith(line, "data: ") {
          DrainIgnoredLine(parse, raw, buffer, text);
          continue;
        }
        var jsonStr := Trim(line[6..]);
        if jsonStr == "[DONE]" {
          DrainTerminatorLine(parse, raw, buffer, text);
          done := true;
          break;
        }
        match parse(jsonStr) {
          case Malformed =>
            DrainMalformedLine(parse, raw, buffer, text);
            buffer := line + "\n" + buffer;
            break;
          case Parsed(content) =>
            DrainDeltaLine(parse, raw, buffer, text, content);
            if content.Some? && content.value != "" {
              ReplaceTextTwice(history + [Placeholder(botMessageId)], botMessageId, text, text + content.value);
              text := text + content.value;
              messages := ReplaceText(messages, botMessageId, text);
            } else {
              AppendEmpty(text);
            }
        }
      }
      textBuffer, assistantMessage, streamDone := buffer, text, done;
    }

    /**
     * Reads until `[DONE]`, the end of the stream or a failed read; a failed read
     * appends the one error notice.
     */
    method Run(results: seq<Read>, errorId: string)
      requires Valid()
      modifies this
      ensures var o := Replay(parse, old(textBuffer), old(assistantMessage), old(streamDone), results);
              && textBuffer == o.buffer && assistantMessage == o.message && streamDone == o.done
              && messages == Shown(history, botMessageId, o.message) + (if o.failed then [ErrorNotice(errorId)] else [])
    {
      var i := 0;
      while !streamDone
        invariant Valid() && 0 <= i <= |results|
        invariant Replay(parse, textBuffer, assistantMessage, streamDone, results[i..])
               == Replay(parse, old(textBuffer), old(assistantMessage), old(streamDone), results)
        decreases |results| - i
      {
        if i == |results| {
          break;
        }
        match results[i] {
          case ReadFailure =>
            messages := messages + [ErrorNotice(errorId)];
            return;
          case Chunk(text) =>
            assert results[i..][1..] == results[i + 1..];
            Feed(text);
        }
        i := i + 1;
      }
    }
  }

  // ---------------------------------------------------------------------------
  // One exchange
  // ---------------------------------------------------------------------------

  /** What `fetch` gave the widget: a non-OK status, an OK response without a body, or the body's reads. */
  datatype Reply = Rejected | Bodiless | Body(results: seq<Read>)

  /** The exchange failed: no usable body, or a read failed before `[DONE]`. */
  predicate Failed(parse: string -> ParseOutcome, reply: Reply) {
    !reply.Body? || Replay(parse, "", "", false, reply.results).failed
  }

  /** The message list after one `streamChat` call. */
  function Transcript(parse: string -> ParseOutcome, history: seq<Message>, reply: Reply,
                      botId: string, errorId: string): seq<Message>
  {
    match reply
    case Body(results) =>
      var o := Replay(parse, "", "", false, results);
      Shown(history, botId, o.message) + (if o.failed then [ErrorNotice(errorId)] else [])
    case _ => history + [ErrorNotice(errorId)]
  }

  /** `streamChat` after the request was sent. */
  method StreamChat(parse: string -> ParseOutcome, history: seq<Message>, reply: Reply,
                    botId: string, errorId: string) returns (messages: seq<Message>)
    ensures messages == Transcript(parse, history, reply, botId, errorId)
  {
    match reply {
      case Body(results) =>
        var assembler := new Assembler(parse, history, botId);
        assembler.Run(results, errorId);
        messages := assembler.messages;
      case _ =>
        messages := history + [ErrorNotice(errorId)];
    }
  }

  /**
   * Only the bot entry is written in place; earlier entries with other ids stay,
   * and a failure appends exactly one error notice at the end.
   */
  lemma TranscriptShape(parse: string -> ParseOutcome, history: seq<Message>, reply: Reply,
                        botId: string, errorId: string)
    ensures var r := Transcript(parse, history, reply, botId, errorId);
            && |r| == |history| + (if reply.Body? then 1 else 0) + (if Failed(parse, reply) then 1 else 0)
            && (forall i :: 0 <= i < |history| && (history[i].id != botId || !reply.Body?) ==> r[i] == history[i])
            && (reply.Body? ==> r[|history|] == Message(botId, Replay(parse, "", "", false, reply.results).message, Bot))
            && (Failed(parse, reply) ==> r[|r| - 1] == ErrorNotice(errorId))
  {
    if reply.Body? {
      ShownBotEntry(history, botId, Replay(parse, "", "", false, reply.results).message);
    }
  }
}
