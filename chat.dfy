/**
 * The chat page: sending a message (call options, history, one retry without temperature, the
 * streamed reply accumulated fragment by fragment until the user stops it), stopping, and the
 * effect that saves the open conversation whenever its messages, model or temperature change.
 *
 * The AI service is not modelled: each call's outcome is a parameter, either a rejection carrying
 * an error or a finite sequence of streamed fragments.
 */
module ChatPage {
  import opened Options
  import opened Schema
  import opened Text
  import opened Models
  import opened Storage

  // ---------------------------------------------------------------------------------------------
  // Call options and history

  /** One entry of the history sent to the model: `{ role, content }`. */
  datatype Turn = Turn(role: Role, content: string)

  /** The options of a call; `temperature` is absent when the field is not set. */
  datatype CallOptions = CallOptions(model: string, temperature: Option<Number>, stream: bool)

  /** One call to the AI service: the history and the options it was given. */
  datatype Call = Call(history: seq<Turn>, options: CallOptions)

  /** The first call's options: streaming, the selected model, and the temperature unless it is 1. */
  function BuildOptions(model: string, temperature: Number): (o: CallOptions)
    ensures o.stream && o.model == model
    ensures o.temperature.Some? <==> temperature != 1.0
    ensures o.temperature.Some? ==> o.temperature.value == temperature
  {
    CallOptions(model, if temperature != 1.0 then Some(temperature) else None, true)
  }

  /** The retry's options: the same model, still streaming, and no temperature at all. */
  function FallbackOptions(model: string): (o: CallOptions)
    ensures o.stream && o.model == model && o.temperature.None?
  {
    CallOptions(model, None, true)
  }

  /** The prior messages as (role, content) pairs, in order. */
  function Turns(prior: seq<Message>): (h: seq<Turn>)
    ensures |h| == |prior|
    ensures forall i :: 0 <= i < |prior| ==> h[i] == Turn(prior[i].role, prior[i].content)
  {
    if |prior| == 0 then [] else [Turn(prior[0].role, prior[0].content)] + Turns(prior[1..])
  }

  /** The history sent: the messages shown before the send, then the new user turn. */
  function BuildHistory(prior: seq<Message>, content: string): (h: seq<Turn>)
    ensures |h| == |prior| + 1
    ensures h[..|prior|] == Turns(prior)
    ensures h[|prior|] == Turn(User, content)
  {
    Turns(prior) + [Turn(User, content)]
  }

  // ---------------------------------------------------------------------------------------------
  // Calling, with one retry

  /** What a rejected call throws; `message` is `err.error.message` when there is one. */
  datatype CallError = CallError(message: Option<string>)

  /**
   * The outcome of one call: a rejection, or the fragments the response yields, in order.
   * `throwsAtEnd` is set when the stream throws once its fragments are used up.
   */
  datatype Outcome = Rejected(error: CallError) | Streamed(parts: seq<Part>, throwsAtEnd: bool)

  /** The calls made and the outcome that the rest of the send works with. */
  datatype Attempt = Attempt(calls: seq<Call>, result: Outcome)

  /** `err?.error?.message?.includes('temperature')`. */
  predicate MentionsTemperature(e: CallError) {
    e.message.Some? && Contains(e.message.value, "temperature")
  }

  /**
   * The call and its retry. `first` and `second` are the outcomes the service gives to the first
   * and to a second call. Only a rejection that mentions the temperature is retried, once,
   * without the temperature; the retry's outcome is final.
   */
  function CallWithRetry(history: seq<Turn>, model: string, temperature: Number, first: Outcome, second: Outcome)
    : (a: Attempt)
    ensures 1 <= |a.calls| <= 2
    ensures forall i :: 0 <= i < |a.calls| ==> a.calls[i].history == history
    ensures a.calls[0].options == BuildOptions(model, temperature)
    ensures |a.calls| == 2 <==> first.Rejected? && MentionsTemperature(first.error)
    ensures |a.calls| == 2 ==> a.calls[1].options == FallbackOptions(model) && a.result == second
    ensures |a.calls| == 1 ==> a.result == first
  {
    var call := Call(history, BuildOptions(model, temperature));
    if first.Rejected? && MentionsTemperature(first.error) then
      Attempt([call, Call(history, FallbackOptions(model))], second)
    else
      Attempt([call], first)
  }

  // ---------------------------------------------------------------------------------------------
  // Fragments

  /** An element of an array-valued `message.content`; `text` is its text field, if any. */
  datatype Block = Block(text: Option<string>)

  /** `message.content`: a string, or an array of content blocks. */
  datatype Content = Plain(s: string) | Blocks(items: seq<Block>)

  /** One streamed fragment: `part.text` and `part.message.content`, each possibly missing. */
  datatype Part = Part(text: Option<string>, message: Option<Content>)

  /** `part.text`, with a missing value read as empty. */
  function TextField(p: Part): string {
    p.text.GetOr("")
  }

  /** `part.message.content[0].text`: only an array's first block has one (a string's `[0]` does not). */
  function FirstBlockText(p: Part): string {
    if p.message.Some? && p.message.value.Blocks? && |p.message.value.items| > 0
    then p.message.value.items[0].text.GetOr("")
    else ""
  }

  /** `part.message.content` when it is a string. */
  function PlainContent(p: Part): string {
    if p.message.Some? && p.message.value.Plain? then p.message.value.s else ""
  }

  /**
   * The text a fragment contributes: the first non-empty of its text field, its first block's
   * text and its string content, or "" when all are empty.
   */
  function FragmentText(p: Part): (r: string)
    ensures r == TextField(p) || r == FirstBlockText(p) || r == PlainContent(p)
    ensures TextField(p) != "" ==> r == TextField(p)
    ensures TextField(p) == "" && FirstBlockText(p) != "" ==> r == FirstBlockText(p)
    ensures r == "" <==> TextField(p) == "" && FirstBlockText(p) == "" && PlainContent(p) == ""
  {
    if TextField(p) != "" then TextField(p)
    else if FirstBlockText(p) != "" then FirstBlockText(p)
    else PlainContent(p)
  }

  /** What string concatenation makes of an array of `n` plain objects. */
  function ArrayAsText(n: nat): (r: string)
    ensures n == 0 <==> r == ""
  {
    if n == 0 then "" else if n == 1 then "[object Object]" else ArrayAsText(n - 1) + ",[object Object]"
  }

  /**
   * The fragment text exactly as the `||` chain computes it: when `content` is an array whose
   * first block has no text, the array itself is truthy and is what gets appended.
   */
  function FragmentTextAsWritten(p: Part): string {
    if TextField(p) != "" then TextField(p)
    else if FirstBlockText(p) != "" then FirstBlockText(p)
    else if p.message.Some? && p.message.value.Blocks? then ArrayAsText(|p.message.value.items|)
    else PlainContent(p)
  }

  /**
   * The expression as written and the intended text differ exactly on fragments whose content
   * is a non-empty array without a leading text block.
   */
  lemma AsWrittenDiffers(p: Part)
    ensures FragmentTextAsWritten(p) != FragmentText(p)
            <==> TextField(p) == "" && FirstBlockText(p) == ""
                 && p.message.Some? && p.message.value.Blocks? && |p.message.value.items| > 0
  {
  }

  /** A single tool-call block, with no text, puts "[object Object]" into the reply. */
  lemma AsWrittenLeaksObject()
    ensures FragmentTextAsWritten(Part(None, Some(Blocks([Block(None)])))) == "[object Object]"
    ensures FragmentText(Part(None, Some(Blocks([Block(None)])))) == ""
  {
  }

  /** The reply text after the first `|parts|` fragments: their texts, concatenated in order. */
  function Joined(parts: seq<Part>): string {
    if |parts| == 0 then "" else Joined(parts[..|parts| - 1]) + FragmentText(parts[|parts| - 1])
  }

  /** Joining respects concatenation of fragment sequences. */
  lemma {:induction false} JoinedAppend(a: seq<Part>, b: seq<Part>)
    ensures Joined(a + b) == Joined(a) + Joined(b)
    decreases |b|
  {
    if |b| > 0 {
      var b' := b[..|b| - 1];
      assert (a + b)[..|a + b| - 1] == a + b';
      JoinedAppend(a, b');
    } else {
      assert a + b == a;
    }
  }

  /** The text shown while streaming only grows: every partial text is a prefix of the next. */
  lemma JoinedPrefix(parts: seq<Part>, i: nat, j: nat)
    requires i <= j <= |parts|
    ensures Joined(parts[..i]) <= Joined(parts[..j])
  {
    assert parts[..j] == parts[..i] + parts[i..j];
    JoinedAppend(parts[..i], parts[i..j]);
  }

  // ---------------------------------------------------------------------------------------------
  // How a send ends

  /**
   * The reply text the loop accumulated, whether the user stopped the send, and whether it
   * failed (the call was rejected, or the stream threw).
   */
  datatype Ending = Ending(text: string, aborted: bool, failed: bool)

  /**
   * How a send ends. `stop == Some(k)` delivers the user's stop click once `k` fragments have
   * been taken: before fragment `k` is looked at, or, when `k` is the number of fragments, before
   * the stream reports its end. A later click finds no send to stop.
   */
  function EndOf(result: Outcome, stop: Option<nat>): (e: Ending)
    ensures result.Rejected? ==> e == Ending("", false, true)
    ensures result.Streamed? && stop.Some? && stop.value < |result.parts|
            ==> e == Ending(Joined(result.parts[..stop.value]), true, false)
    ensures result.Streamed? && !(stop.Some? && stop.value < |result.parts|)
            ==> e.text == Joined(result.parts) && e.failed == result.throwsAtEnd
                && e.aborted == (stop == Some(|result.parts|))
  {
    match result
    case Rejected(_) => Ending("", false, true)
    case Streamed(parts, throwsAtEnd) =>
      if stop.Some? && stop.value < |parts| then
        Ending(Joined(parts[..stop.value]), true, false)
      else
        assert parts[..|parts|] == parts;
        Ending(Joined(parts), stop == Some(|parts|), throwsAtEnd)
  }

  /** Fragments after the stop point never reach the reply text, nor does how the stream ends. */
  lemma StopIgnoresLaterFragments(parts: seq<Part>, other: seq<Part>, k: nat, t1: bool, t2: bool)
    requires k < |parts| && k < |other| && parts[..k] == other[..k]
    ensures EndOf(Streamed(parts, t1), Some(k)) == EndOf(Streamed(other, t2), Some(k))
  {
  }

  /** `getModelById(id)?.name || id`: the catalog name, or the id itself. */
  function ModelLabel(id: string): (r: string)
    ensures ModelById(id).None? ==> r == id
  {
    var m := ModelById(id);
    if m.Some? && m.value.name != "" then m.value.name else id
  }

  /** A catalog model is labelled with its own name. */
  lemma ModelLabelOfEntry(m: AIModel)
    requires m in AI_MODELS && m.name != ""
    ensures ModelLabel(m.id) == m.name
  {
    ModelByIdOfEntry(m);
  }

  /** The reply a send appends, if it appends one. */
  function ReplyOf(e: Ending, id: string, timestamp: Number, model: string): (r: Option<Message>)
    ensures r.Some? <==> !e.aborted && !e.failed && e.text != ""
    ensures r.Some? ==> r.value == Message(id, Assistant, e.text, timestamp, Some(ModelLabel(model)))
  {
    if !e.aborted && !e.failed && e.text != "" then
      Some(Message(id, Assistant, e.text, timestamp, Some(ModelLabel(model))))
    else
      None
  }

  // ---------------------------------------------------------------------------------------------
  // Saving the open conversation

  /** The saved title: the first message's title, or the placeholder when that is empty. */
  function PersistTitle(messages: seq<Message>): (t: string)
    requires |messages| > 0
    ensures messages[0].content == [] ==> t == UNTITLED
    ensures messages[0].content != [] ==> t == Title(messages[0].content) && |t| > 0
  {
    var t := Title(messages[0].content);
    if t == "" then UNTITLED else t
  }

  /** The conversation as the persist effect writes it. */
  function Snapshot(c: Conversation, messages: seq<Message>, model: string, temperature: Number, now: Number)
    : (r: Conversation)
    requires |messages| > 0
    ensures r.id == c.id && r.createdAt == c.createdAt
    ensures r.messages == messages && r.model == model && r.temperature == temperature
    ensures r.updatedAt == now && r.title == PersistTitle(messages)
  {
    c.(messages := messages, model := model, temperature := temperature, updatedAt := now,
       title := PersistTitle(messages))
  }

  /** A later snapshot overwrites everything an earlier one set. */
  lemma SnapshotTwice(c: Conversation, m1: seq<Message>, m2: seq<Message>, model: string, t: Number, n1: Number, n2: Number)
    requires |m1| > 0 && |m2| > 0
    ensures Snapshot(Snapshot(c, m1, model, t, n1), m2, model, t, n2) == Snapshot(c, m2, model, t, n2)
  {
  }

  /** How a send of `content` after `prior` ends, given the service's answers and the stop click. */
  function SendEnding(prior: seq<Message>, content: string, model: string, temperature: Number,
                      first: Outcome, second: Outcome, stop: Option<nat>): Ending
  {
    EndOf(CallWithRetry(BuildHistory(prior, content), model, temperature, first, second).result, stop)
  }

  /** The reply such a send appends: none, or one assistant message. */
  function SendReply(prior: seq<Message>, content: string, model: string, temperature: Number,
                     first: Outcome, second: Outcome, stop: Option<nat>, env: SendEnv): (r: seq<Message>)
    ensures |r| <= 1
  {
    var reply := ReplyOf(SendEnding(prior, content, model, temperature, first, second, stop),
                         env.replyId, env.replyTime, model);
    if reply.Some? then [reply.value] else []
  }

  /** The clock readings, fresh ids and storage outcomes one send consumes, in order. */
  datatype SendEnv = SendEnv(
    userId: string,
    userTime: Number,
    firstSaveTime: Number,
    firstWriteOk: bool,
    replyId: string,
    replyTime: Number,
    secondSaveTime: Number,
    secondWriteOk: bool)

  // ---------------------------------------------------------------------------------------------
  // The page

  class Page {
    const store: Store
    var selectedModel: string
    var temperature: Number
    var messages: seq<Message>
    var isStreaming: bool
    var streamingContent: string
    var current: Option<Conversation>
    /** The abort controller: none, or one with its `aborted` flag. */
    var controller: Option<bool>
    /** How many times the page told the shell that a conversation was saved. */
    var updates: nat

    /**
     * Mounting: open the loaded conversation, or start a fresh one with the given id and clock
     * readings and no messages; then the persist effect runs once, at `mountTime`, so a loaded
     * conversation with messages is saved again and reported to the shell.
     */
    constructor (store: Store, selectedModel: string, temperature: Number, loaded: Option<Conversation>,
                 freshId: string, createdAt: Number, updatedAt: Number, mountTime: Number, mountWriteOk: bool)
      modifies store`conversations
      ensures this.store == store && this.selectedModel == selectedModel && this.temperature == temperature
      ensures loaded.Some? ==> messages == loaded.value.messages
      ensures loaded.Some? && |loaded.value.messages| == 0
              ==> current == loaded && updates == 0 && store.conversations == old(store.conversations)
      ensures loaded.Some? && |loaded.value.messages| > 0
              ==> current == Some(Snapshot(loaded.value, loaded.value.messages, selectedModel, temperature, mountTime))
                  && updates == 1
                  && store.conversations == AfterSave(old(store.conversations), current.value, mountWriteOk)
      ensures loaded.None? ==> messages == [] && updates == 0 && store.conversations == old(store.conversations)
                               && current == Some(CreateConversation(freshId, createdAt, updatedAt, selectedModel, temperature, None))
      ensures !isStreaming && streamingContent == "" && controller.None?
    {
      this.store := store;
      this.selectedModel := selectedModel;
      this.temperature := temperature;
      if loaded.Some? {
        current := loaded;
        messages := loaded.value.messages;
      } else {
        current := Some(CreateConversation(freshId, createdAt, updatedAt, selectedModel, temperature, None));
        messages := [];
      }
      isStreaming := false;
      streamingContent := "";
      controller := None;
      updates := 0;
      new;
      PersistEffect(mountTime, mountWriteOk);
    }

    /**
     * The persist effect: with an open conversation and at least one message, save a snapshot,
     * make it the open conversation and notify the shell. An empty conversation is never saved.
     */
    method PersistEffect(now: Number, writeOk: bool)
      modifies this`current, this`updates, store`conversations
      ensures |messages| == 0 || old(current).None?
              ==> current == old(current) && updates == old(updates) && store.conversations == old(store.conversations)
      ensures |messages| > 0 && old(current).Some?
              ==> current == Some(Snapshot(old(current).value, messages, selectedModel, temperature, now))
                  && updates == old(updates) + 1
                  && store.conversations == AfterSave(old(store.conversations), current.value, writeOk)
      ensures |messages| > 0 && old(current).Some? && writeOk
              ==> FindById(ListIn(store.conversations), current.value.id) == current
    {
      if current.Some? && |messages| > 0 {
        var updated := Snapshot(current.value, messages, selectedModel, temperature, now);
        store.SaveConversation(updated, writeOk);
        current := Some(updated);
        updates := updates + 1;
      }
    }

    /** New props from the shell; a changed model or temperature re-runs the persist effect. */
    method ReceiveProps(model: string, temperature: Number, now: Number, writeOk: bool)
      modifies this`selectedModel, this`temperature, this`current, this`updates, store`conversations
      ensures selectedModel == model && this.temperature == temperature
      ensures model == old(selectedModel) && temperature == old(this.temperature)
              ==> current == old(current) && updates == old(updates) && store.conversations == old(store.conversations)
      ensures (model != old(selectedModel) || temperature != old(this.temperature)) && (|messages| == 0 || old(current).None?)
              ==> current == old(current) && updates == old(updates) && store.conversations == old(store.conversations)
      ensures (model != old(selectedModel) || temperature != old(this.temperature)) && |messages| > 0 && old(current).Some?
              ==> current == Some(Snapshot(old(current).value, messages, model, temperature, now))
                  && updates == old(updates) + 1
                  && store.conversations == AfterSave(old(store.conversations), current.value, writeOk)
                  && (writeOk ==> FindById(ListIn(store.conversations), current.value.id) == current)
    {
      var changed := model != selectedModel || temperature != this.temperature;
      selectedModel := model;
      this.temperature := temperature;
      if changed {
        PersistEffect(now, writeOk);
      }
    }

    /** `handleStop`: abort a running send and clear the streamed text; otherwise nothing. */
    method HandleStop()
      modifies this`controller, this`isStreaming, this`streamingContent
      ensures old(controller).Some? ==> controller == Some(true) && !isStreaming && streamingContent == ""
      ensures old(controller).None?
              ==> controller.None? && isStreaming == old(isStreaming) && streamingContent == old(streamingContent)
    {
      if controller.Some? {
        controller := Some(true);
        isStreaming := false;
        streamingContent := "";
      }
    }

    /**
     * The fragment loop: before each fragment, check the abort flag; otherwise append the
     * fragment's text and show the text so far. `stop` delivers the user's click as in `EndOf`.
     */
    method Consume(parts: seq<Part>, stop: Option<nat>) returns (full: string, taken: nat)
      requires controller == Some(false) && streamingContent == ""
      modifies this`controller, this`isStreaming, this`streamingContent
      ensures taken <= |parts| && full == Joined(parts[..taken])
      ensures stop.Some? && stop.value < |parts|
              ==> taken == stop.value && controller == Some(true) && !isStreaming && streamingContent == ""
      ensures !(stop.Some? && stop.value < |parts|)
              ==> taken == |parts| && controller == Some(false) && streamingContent == full
                  && isStreaming == old(isStreaming)
    {
      full := "";
      taken := 0;
      while taken < |parts|
        invariant taken <= |parts| && full == Joined(parts[..taken])
        invariant controller == Some(false) && streamingContent == full && isStreaming == old(isStreaming)
        invariant stop.Some? && stop.value < |parts| ==> taken <= stop.value
        decreases |parts| - taken
      {
        if stop == Some(taken) {
          HandleStop();
        }
        if controller.Some? && controller.value {
          return;
        }
        assert parts[..taken + 1][..taken] == parts[..taken];
        full := full + FragmentText(parts[taken]);
        streamingContent := full;
        taken := taken + 1;
      }
    }

    /**
     * The end of a send once the service answered: on a stream, take fragments; then append the
     * reply (and save) when the send was neither stopped nor failed and the text is non-empty.
     * `failed` is set when the error toast is shown.
     */
    method Settle(result: Outcome, stop: Option<nat>, env: SendEnv) returns (failed: bool)
      requires controller == Some(false) && streamingContent == ""
      modifies this`controller, this`isStreaming, this`streamingContent, this`messages, this`current,
               this`updates, store`conversations
      ensures SettledAs(EndOf(result, stop), ReplyOf(EndOf(result, stop), env.replyId, env.replyTime, selectedModel),
                        failed, old(messages), old(current), old(updates), old(store.conversations), env)
      ensures controller == Some(EndOf(result, stop).aborted)
              && isStreaming == (old(isStreaming) && !EndOf(result, stop).aborted)
    {
      match result {
        case Rejected(_) =>
          failed := true;
        case Streamed(parts, throwsAtEnd) =>
          failed := SettleStream(parts, throwsAtEnd, stop, env);
      }
    }

    /**
     * The state a settled send leaves: `e` is how it ended and `reply` the reply it appends;
     * the other arguments are the state before settling.
     */
    ghost predicate SettledAs(e: Ending, reply: Option<Message>, failed: bool, messages0: seq<Message>,
                              current0: Option<Conversation>, updates0: nat, slot0: Slot<seq<Conversation>>,
                              env: SendEnv)
      reads this`messages, this`streamingContent, this`current, this`updates, this`selectedModel,
            this`temperature, store
    {
      && failed == e.failed
      && messages == messages0 + (if reply.Some? then [reply.value] else [])
      && streamingContent == (if reply.Some? || e.aborted then "" else e.text)
      && (reply.None? ==> current == current0 && updates == updates0 && store.conversations == slot0)
      && (reply.Some? && current0.Some? ==>
            current == Some(Snapshot(current0.value, messages, selectedModel, temperature, env.secondSaveTime))
            && updates == updates0 + 1
            && store.conversations == AfterSave(slot0, current.value, env.secondWriteOk)
            && (env.secondWriteOk ==> FindById(ListIn(store.conversations), current.value.id) == current))
      && (current0.None? ==> current.None? && updates == updates0 && store.conversations == slot0)
    }

    /** `Settle` on a stream: the fragment loop, then the end of the stream. */
    method SettleStream(parts: seq<Part>, throwsAtEnd: bool, stop: Option<nat>, env: SendEnv) returns (failed: bool)
      requires controller == Some(false) && streamingContent == ""
      modifies this`controller, this`isStreaming, this`streamingContent, this`messages, this`current,
               this`updates, store`conversations
      ensures SettledAs(EndOf(Streamed(parts, throwsAtEnd), stop),
                        ReplyOf(EndOf(Streamed(parts, throwsAtEnd), stop), env.replyId, env.replyTime, selectedModel),
                        failed, old(messages), old(current), old(updates), old(store.conversations), env)
      ensures controller == Some(EndOf(Streamed(parts, throwsAtEnd), stop).aborted)
              && isStreaming == (old(isStreaming) && !EndOf(Streamed(parts, throwsAtEnd), stop).aborted)
    {
      var full, taken := Consume(parts, stop);
      if stop.Some? && stop.value < |parts| {
        failed := false;
        return;
      }
      assert parts[..taken] == parts;
      failed := FinishStream(parts, throwsAtEnd, stop, env);
    }

    /**
     * The stream ran out with every fragment taken: a stop click now still aborts the send; a
     * throwing end fails it; otherwise a non-empty reply is appended and saved.
     */
    method FinishStream(parts: seq<Part>, throwsAtEnd: bool, stop: Option<nat>, env: SendEnv) returns (failed: bool)
      requires !(stop.Some? && stop.value < |parts|)
      requires controller == Some(false) && streamingContent == Joined(parts)
      modifies this`controller, this`isStreaming, this`streamingContent, this`messages, this`current,
               this`updates, store`conversations
      ensures SettledAs(EndOf(Streamed(parts, throwsAtEnd), stop),
                        ReplyOf(EndOf(Streamed(parts, throwsAtEnd), stop), env.replyId, env.replyTime, selectedModel),
                        failed, old(messages), old(current), old(updates), old(store.conversations), env)
      ensures controller == Some(EndOf(Streamed(parts, throwsAtEnd), stop).aborted)
              && isStreaming == (old(isStreaming) && !EndOf(Streamed(parts, throwsAtEnd), stop).aborted)
    {
      var e := EndOf(Streamed(parts, throwsAtEnd), stop);
      assert e == Ending(Joined(parts), stop == Some(|parts|), throwsAtEnd);
      var reply := ReplyOf(e, env.replyId, env.replyTime, selectedModel);
      if stop == Some(|parts|) {
        HandleStop();
      }
      failed := throwsAtEnd;
      if reply.Some? {
        AppendReply(reply.value, env.secondSaveTime, env.secondWriteOk);
      }
    }

    /** Show the reply, clear the streamed text, and save. */
    method AppendReply(reply: Message, now: Number, writeOk: bool)
      modifies this`messages, this`streamingContent, this`current, this`updates, store`conversations
      ensures messages == old(messages) + [reply] && streamingContent == ""
      ensures old(current).Some?
              ==> current == Some(Snapshot(old(current).value, messages, selectedModel, temperature, now))
                  && updates == old(updates) + 1
                  && store.conversations == AfterSave(old(store.conversations), current.value, writeOk)
                  && (writeOk ==> FindById(ListIn(store.conversations), current.value.id) == current)
      ensures old(current).None?
              ==> current.None? && updates == old(updates) && store.conversations == old(store.conversations)
    {
      messages := messages + [reply];
      streamingContent := "";
      PersistEffect(now, writeOk);
    }

    /** The first half of a send: show the user message, start streaming, and save. */
    method BeginSend(user: Message, now: Number, writeOk: bool)
      modifies this`messages, this`isStreaming, this`streamingContent, this`current, this`updates,
               store`conversations
      ensures messages == old(messages) + [user] && isStreaming && streamingContent == ""
      ensures old(current).Some?
              ==> current == Some(Snapshot(old(current).value, messages, selectedModel, temperature, now))
                  && updates == old(updates) + 1
                  && store.conversations == AfterSave(old(store.conversations), current.value, writeOk)
                  && (writeOk ==> FindById(ListIn(store.conversations), current.value.id) == current)
      ensures old(current).None?
              ==> current.None? && updates == old(updates) && store.conversations == old(store.conversations)
    {
      messages := messages + [user];
      isStreaming := true;
      streamingContent := "";
      PersistEffect(now, writeOk);
    }

    /**
     * `handleSend(content)`: append the user message (and save), call the service with one retry,
     * and settle the send. `calls` are the calls made; `failed` is set when the error toast is
     * shown. Whatever happens, the user message stays and the page stops streaming.
     */
    method HandleSend(content: string, env: SendEnv, first: Outcome, second: Outcome, stop: Option<nat>)
      returns (calls: seq<Call>, failed: bool)
      modifies this`controller, this`isStreaming, this`streamingContent, this`messages, this`current,
               this`updates, store`conversations
      ensures selectedModel == old(selectedModel) && temperature == old(temperature)
      ensures calls == CallWithRetry(BuildHistory(old(messages), content), selectedModel, temperature, first, second).calls
      ensures failed == SendEnding(old(messages), content, selectedModel, temperature, first, second, stop).failed
      ensures messages == old(messages) + [Message(env.userId, User, content, env.userTime, None)]
                          + SendReply(old(messages), content, selectedModel, temperature, first, second, stop, env)
      ensures streamingContent
              == if |messages| == |old(messages)| + 2
                    || SendEnding(old(messages), content, selectedModel, temperature, first, second, stop).aborted
                 then ""
                 else SendEnding(old(messages), content, selectedModel, temperature, first, second, stop).text
      ensures old(current).Some?
              ==> current == Some(Snapshot(old(current).value, messages, selectedModel, temperature,
                                           if |messages| == |old(messages)| + 2 then env.secondSaveTime else env.firstSaveTime))
                  && updates == old(updates) + |messages| - |old(messages)|
                  && ((if |messages| == |old(messages)| + 2 then env.secondWriteOk else env.firstWriteOk)
                      ==> FindById(ListIn(store.conversations), current.value.id) == current)
      ensures old(current).Some? && |messages| == |old(messages)| + 2
              ==> store.conversations
                  == AfterSave(AfterSave(old(store.conversations),
                                         Snapshot(old(current).value, old(messages) + [Message(env.userId, User, content, env.userTime, None)],
                                                  selectedModel, temperature, env.firstSaveTime),
                                         env.firstWriteOk),
                               current.value, env.secondWriteOk)
      ensures old(current).Some? && |messages| != |old(messages)| + 2
              ==> store.conversations == AfterSave(old(store.conversations), current.value, env.firstWriteOk)
      ensures old(current).None?
              ==> current.None? && updates == old(updates) && store.conversations == old(store.conversations)
      ensures !isStreaming && controller.None?
    {
      var prior := messages;
      var user := Message(env.userId, User, content, env.userTime, None);
      BeginSend(user, env.firstSaveTime, env.firstWriteOk);
      ghost var current1, updates1, slot1 := current, updates, store.conversations;
      calls, failed := Respond(prior, content, env, first, second, stop);
      ghost var e := SendEnding(prior, content, selectedModel, temperature, first, second, stop);
      ghost var reply := ReplyOf(e, env.replyId, env.replyTime, selectedModel);
      assert SendReply(prior, content, selectedModel, temperature, first, second, stop, env)
             == if reply.Some? then [reply.value] else [];
      if reply.Some? {
        assert |messages| == |prior| + 2;
        if old(current).Some? {
          SnapshotTwice(old(current).value, prior + [user], messages, selectedModel, temperature,
                        env.firstSaveTime, env.secondSaveTime);
          assert current == Some(Snapshot(old(current).value, messages, selectedModel, temperature, env.secondSaveTime));
          assert updates == old(updates) + 2;
          assert store.conversations == AfterSave(slot1, current.value, env.secondWriteOk);
        }
      } else {
        assert messages == prior + [user];
        assert current == current1 && updates == updates1 && store.conversations == slot1;
      }
    }

    /**
     * The second half of a send, after the user message is shown: call the service with one
     * retry on the history `prior` plus `content`, settle the send, and stop streaming.
     */
    method Respond(prior: seq<Message>, content: string, env: SendEnv, first: Outcome, second: Outcome,
                   stop: Option<nat>) returns (calls: seq<Call>, failed: bool)
      requires streamingContent == ""
      modifies this`controller, this`isStreaming, this`streamingContent, this`messages, this`current,
               this`updates, store`conversations
      ensures calls == CallWithRetry(BuildHistory(prior, content), selectedModel, temperature, first, second).calls
      ensures SettledAs(SendEnding(prior, content, selectedModel, temperature, first, second, stop),
                        ReplyOf(SendEnding(prior, content, selectedModel, temperature, first, second, stop),
                                env.replyId, env.replyTime, selectedModel),
                        failed, old(messages), old(current), old(updates), old(store.conversations), env)
      ensures !isStreaming && controller.None?
    {
      controller := Some(false);
      var attempt := CallWithRetry(BuildHistory(prior, content), selectedModel, temperature, first, second);
      calls := attempt.calls;
      failed := Settle(attempt.result, stop, env);
      isStreaming := false;
      controller := None;
    }
  }
}
