/** Translating realtime model events into frames for the caller and requests to the model. */
module Realtime {
  import opened Common

  const CHUNK_BYTES: nat := 4096

  datatype Mode = TwilioPcmu | WebPcm24

  /** A function_call item with the fields its handler reads. */
  datatype Item = Item(isFunctionCall: bool, callId: string, name: string, answer: string)

  /** What arrives from the model. An audio delta carries its text and what base64 decoding makes of it. */
  datatype Incoming =
    | ReceiveError
    | CloseFrame(reason: string)
    | Unreadable
    | AudioDelta(text: string, decoded: Option<Bytes>)
    | AudioDone
    | SpeechStarted
    | SpeechStopped
    | OutputItemDone(item: Option<Item>)
    | ResponseDone(items: seq<Item>)
    | ErrorEvent(message: string)
    | SessionUpdated
    | OtherEvent

  /** What is sent: frames to the caller, and requests to the model. */
  datatype Sent =
    | AudioStart | AudioChunk(bytes: Bytes) | AudioEnd | AudioClear
    | VadSpeaking | VadProcessing
    | ErrorNotice(message: string) | SpokenNotice
    | TwilioMedia(payload: string) | TwilioMark | TwilioClear
    | GreetingRequest(text: string) | CancelRequest | ToolOutput(callId: string, output: string) | ResponseRequest

  datatype Reader = Reader(mode: Mode, hasStream: bool, greeting: Option<string>, noticeSent: bool, audioOpen: bool)

  const CLOSED_MESSAGE := "Voice is unavailable right now. OpenAI Realtime closed the connection."

  /** The bytes in frames of at most CHUNK_BYTES each. */
  function ChunkFrames(bytes: Bytes): (frames: seq<Sent>)
    ensures forall f | f in frames :: f.AudioChunk? && 0 < |f.bytes| <= CHUNK_BYTES
  {
    if bytes == [] then []
    else if |bytes| <= CHUNK_BYTES then [AudioChunk(bytes)]
    else [AudioChunk(bytes[..CHUNK_BYTES])] + ChunkFrames(bytes[CHUNK_BYTES..])
  }

  /** handle_realtime_function_call. */
  function CallItem(item: Item): seq<Sent> {
    if !item.isFunctionCall || item.callId == "" || item.name == "" then []
    else [ToolOutput(item.callId, item.answer), ResponseRequest]
  }

  function CallItems(items: seq<Item>): seq<Sent> {
    if items == [] then [] else CallItems(items[..|items| - 1]) + CallItem(items[|items| - 1])
  }

  /** send_openai_realtime_failure_notice, guarded by claim_voice_failure_notice. */
  function Notice(r: Reader, message: string): (Reader, seq<Sent>) {
    if r.noticeSent then (r, [])
    else
      (r.(noticeSent := true),
       match r.mode
       case WebPcm24 => [ErrorNotice(message)]
       case TwilioPcmu => if r.hasStream then [SpokenNotice] else [])
  }

  datatype Reaction = Reaction(reader: Reader, sent: seq<Sent>, stop: bool)

  /** The reaction to one incoming message. */
  function React(r: Reader, m: Incoming): Reaction {
    match m
    case ReceiveError => var (r2, out) := Notice(r, CLOSED_MESSAGE); Reaction(r2, out, true)
    case CloseFrame(reason) => var (r2, out) := Notice(r, reason); Reaction(r2, out, true)
    case ErrorEvent(message) => var (r2, out) := Notice(r, message); Reaction(r2, out, false)
    case AudioDelta(text, decoded) =>
      if text == "" then Reaction(r, [], false)
      else if r.mode == TwilioPcmu then
        Reaction(r, if r.hasStream then [TwilioMedia(text)] else [], false)
      else
        Reaction(r.(audioOpen := true),
                 (if r.audioOpen then [] else [AudioStart]) + (if decoded.Some? then ChunkFrames(decoded.value) else []),
                 false)
    case AudioDone =>
      if r.mode == TwilioPcmu then Reaction(r, if r.hasStream then [TwilioMark] else [], false)
      else Reaction(r.(audioOpen := false), if r.audioOpen then [AudioEnd] else [], false)
    case SpeechStarted =>
      if r.mode == TwilioPcmu then Reaction(r, (if r.hasStream then [TwilioClear] else []) + [CancelRequest], false)
      else Reaction(r.(audioOpen := false), [VadSpeaking, AudioClear], false)
    case SpeechStopped => Reaction(r, if r.mode == WebPcm24 then [VadProcessing] else [], false)
    case OutputItemDone(item) => Reaction(r, if item.Some? then CallItem(item.value) else [], false)
    case ResponseDone(items) => Reaction(r, CallItems(items), false)
    case SessionUpdated =>
      if r.greeting.Some? then Reaction(r.(greeting := None), [GreetingRequest(r.greeting.value)], false)
      else Reaction(r, [], false)
    case Unreadable => Reaction(r, [], false)
    case OtherEvent => Reaction(r, [], false)
  }

  /** The reader session, updated in place while messages arrive. */
  class ReaderSession {
    const mode: Mode
    const hasStream: bool
    var greeting: Option<string>
    var sentErrorNotice: bool
    var webAudioOpen: bool
    var sent: seq<Sent>

    function State(): Reader
      reads this
    {
      Reader(mode, hasStream, greeting, sentErrorNotice, webAudioOpen)
    }

    constructor (mode: Mode, hasStream: bool, greeting: Option<string>)
      ensures State() == Reader(mode, hasStream, greeting, false, false) && sent == []
    {
      this.mode := mode;
      this.hasStream := hasStream;
      this.greeting := greeting;
      sentErrorNotice := false;
      webAudioOpen := false;
      sent := [];
    }

    method Send(s: Sent)
      modifies this`sent
      ensures sent == old(sent) + [s]
    {
      sent := sent + [s];
    }

    /** claim_voice_failure_notice: true for the first caller only. */
    method ClaimFailureNotice() returns (claimed: bool)
      modifies this`sentErrorNotice
      ensures sentErrorNotice && claimed == !old(sentErrorNotice)
    {
      claimed := !sentErrorNotice;
      sentErrorNotice := true;
    }

    method SendFailureNotice(message: string)
      modifies this`sent, this`sentErrorNotice
      ensures (State(), sent) == (Notice(old(State()), message).0, old(sent) + Notice(old(State()), message).1)
    {
      var claimed := ClaimFailureNotice();
      if !claimed {
        assert sent + [] == sent;
        return;
      }
      if mode == TwilioPcmu {
        if hasStream {
          Send(SpokenNotice);
        }
      } else {
        Send(ErrorNotice(message));
      }
    }

    method SendChunks(bytes: Bytes)
      modifies this`sent
      ensures sent == old(sent) + ChunkFrames(bytes)
    {
      var rest := bytes;
      while rest != []
        invariant sent + ChunkFrames(rest) == old(sent) + ChunkFrames(bytes)
        decreases |rest|
      {
        var n := if |rest| <= CHUNK_BYTES then |rest| else CHUNK_BYTES;
        ghost var before := sent;
        Send(AudioChunk(rest[..n]));
        assert rest[..|rest|] == rest && rest[|rest|..] == [];
        assert ChunkFrames(rest) == [AudioChunk(rest[..n])] + ChunkFrames(rest[n..]);
        assert before + ChunkFrames(rest) == sent + ChunkFrames(rest[n..]);
        rest := rest[n..];
      }
    }

    method SendCalls(items: seq<Item>)
      modifies this`sent
      ensures sent == old(sent) + CallItems(items)
    {
      for i := 0 to |items|
        invariant sent == old(sent) + CallItems(items[..i])
      {
        var item := items[i];
        if item.isFunctionCall && item.callId != "" && item.name != "" {
          Send(ToolOutput(item.callId, item.answer));
          Send(ResponseRequest);
        }
        assert items[..i + 1][..i] == items[..i];
      }
      assert items[..|items|] == items;
    }

    /** One turn of the receive loop; true ends it. */
    method OnMessage(m: Incoming) returns (stop: bool)
      modifies this
      ensures |old(sent)| <= |sent| && sent[..|old(sent)|] == old(sent)
      ensures Reaction(State(), sent[|old(sent)|..], stop) == React(old(State()), m)
    {
      hide ChunkFrames, CallItem, CallItems;
      stop := false;
      match m {
        case ReceiveError =>
          SendFailureNotice(CLOSED_MESSAGE);
          stop := true;
        case CloseFrame(reason) =>
          SendFailureNotice(reason);
          stop := true;
        case ErrorEvent(message) =>
          SendFailureNotice(message);
        case AudioDelta(text, decoded) =>
          if text == "" {
            return;
          }
          if mode == TwilioPcmu {
            if hasStream {
              Send(TwilioMedia(text));
            }
          } else {
            if !webAudioOpen {
              Send(AudioStart);
              webAudioOpen := true;
            }
            if decoded.Some? {
              SendChunks(decoded.value);
            }
          }
        case AudioDone =>
          if mode == TwilioPcmu {
            if hasStream {
              Send(TwilioMark);
            }
          } else if webAudioOpen {
            Send(AudioEnd);
            webAudioOpen := false;
          }
        case SpeechStarted =>
          if mode == TwilioPcmu {
            if hasStream {
              Send(TwilioClear);
            }
            Send(CancelRequest);
          } else {
            Send(VadSpeaking);
            Send(AudioClear);
            webAudioOpen := false;
          }
        case SpeechStopped =>
          if mode == WebPcm24 {
            Send(VadProcessing);
          }
        case OutputItemDone(item) =>
          if item.Some? {
            SendCalls([item.value]);
            OneCall(item.value);
          }
        case ResponseDone(items) =>
          SendCalls(items);
        case SessionUpdated =>
          if greeting.Some? {
            var text := greeting.value;
            greeting := None;
            Send(GreetingRequest(text));
          }
        case Unreadable =>
        case OtherEvent =>
      }
    }

    /** handle_openai_reader over all messages that arrive; `live` says that none of them ended the loop. */
    method Read(messages: seq<Incoming>) returns (live: bool)
      requires !webAudioOpen && !sentErrorNotice && sent == []
      modifies this
      ensures Session(State(), sent, live) == RunTo(old(State()), messages, |messages|)
    {
      hide React;
      live := true;
      ghost var first := State();
      for k := 0 to |messages|
        invariant Session(State(), sent, live) == RunTo(first, messages, k)
      {
        if live {
          ghost var before := sent;
          var stop := OnMessage(messages[k]);
          assert sent == before + sent[|before|..];
          live := !stop;
        }
      }
    }
  }

  lemma OneCall(item: Item)
    ensures CallItems([item]) == CallItem(item)
  {
  }

  datatype Session = Session(reader: Reader, sent: seq<Sent>, live: bool)

  /** The session after the first k messages. */
  function RunTo(first: Reader, messages: seq<Incoming>, k: nat): Session
    requires k <= |messages|
  {
    if k == 0 then Session(first, [], true)
    else
      var before := RunTo(first, messages, k - 1);
      if !before.live then before
      else
        var a := React(before.reader, messages[k - 1]);
        Session(a.reader, before.sent + a.sent, !a.stop)
  }

  // ---- Audio frames are bracketed ----

  /** After this log the caller is between an audio_start and the next audio_end or audio_clear. */
  function Open(log: seq<Sent>): bool {
    if log == [] then false
    else match log[|log| - 1]
      case AudioStart => true
      case AudioEnd => false
      case AudioClear => false
      case _ => Open(log[..|log| - 1])
  }

  /** Open means: some audio_start has no audio_end or audio_clear after it. */
  lemma {:induction false} OpenMeaning(log: seq<Sent>)
    ensures Open(log) <==> exists i | 0 <= i < |log| :: StartsOpen(log, i)
  {
    if log != [] {
      var n := |log| - 1;
      OpenMeaning(log[..n]);
      if Open(log) {
        if log[n].AudioStart? {
          assert StartsOpen(log, n);
        } else {
          var i :| 0 <= i < n && StartsOpen(log[..n], i);
          assert StartsOpen(log, i);
        }
      }
      if i :| 0 <= i < |log| && StartsOpen(log, i) {
        if i < n {
          assert StartsOpen(log[..n], i);
        }
      }
    }
  }

  predicate StartsOpen(log: seq<Sent>, i: nat)
    requires i < |log|
  {
    log[i].AudioStart? && forall j | i < j < |log| :: !log[j].AudioEnd? && !log[j].AudioClear?
  }

  /** A frame fits after what was sent before it. */
  predicate Fits(open: bool, s: Sent) {
    && (s.AudioChunk? ==> open)
    && (s.AudioStart? ==> !open)
    && (s.AudioEnd? ==> open)
  }

  predicate Bracketed(log: seq<Sent>) {
    forall i | 0 <= i < |log| :: Fits(Open(log[..i]), log[i])
  }

  lemma BracketedAppend(log: seq<Sent>, s: Sent)
    requires Bracketed(log) && Fits(Open(log), s)
    ensures Bracketed(log + [s])
    ensures Open(log + [s]) == if s.AudioStart? then true else if s.AudioEnd? || s.AudioClear? then false else Open(log)
  {
    hide Open;
    OpenAppend(log, s);
    var more := log + [s];
    forall i | 0 <= i < |more| ensures Fits(Open(more[..i]), more[i]) {
      if i < |log| {
        assert more[..i] == log[..i];
      } else {
        assert more[..i] == log;
      }
    }
  }

  lemma OpenAppend(log: seq<Sent>, s: Sent)
    ensures Open(log + [s]) == if s.AudioStart? then true else if s.AudioEnd? || s.AudioClear? then false else Open(log)
  {
  }

  /** Frames that neither open nor close anything. */
  predicate Neutral(s: Sent) {
    !s.AudioStart? && !s.AudioEnd? && !s.AudioClear?
  }

  lemma {:induction false} NeutralAppend(log: seq<Sent>, more: seq<Sent>)
    requires Bracketed(log)
    requires forall s | s in more :: Neutral(s) && (s.AudioChunk? ==> Open(log))
    ensures Bracketed(log + more) && Open(log + more) == Open(log)
    decreases |more|
  {
    hide Bracketed, Open;
    if more == [] {
      assert log + more == log;
    } else {
      assert more[0] in more && Neutral(more[0]);
      BracketedAppend(log, more[0]);
      assert forall s | s in more[1..] :: s in more;
      NeutralAppend(log + [more[0]], more[1..]);
      assert log + more == log + [more[0]] + more[1..];
    }
  }

  lemma {:induction false} CallsNeutral(items: seq<Item>)
    ensures forall s | s in CallItems(items) :: s.ToolOutput? || s.ResponseRequest?
  {
    if items != [] {
      CallsNeutral(items[..|items| - 1]);
    }
  }

  /** Each reaction keeps the log bracketed and the open flag true to it. */
  lemma ReactBracketed(r: Reader, m: Incoming, log: seq<Sent>)
    requires r.mode == WebPcm24
    requires Bracketed(log) && r.audioOpen == Open(log)
    ensures Bracketed(log + React(r, m).sent)
    ensures React(r, m).reader.audioOpen == Open(log + React(r, m).sent)
    ensures React(r, m).reader.mode == WebPcm24
  {
    hide Bracketed, Open, ChunkFrames, CallItems;
    var a := React(r, m);
    match m {
      case AudioDelta(text, decoded) =>
        if text == "" {
          NeutralAppend(log, []);
        } else {
          var frames := if decoded.Some? then ChunkFrames(decoded.value) else [];
          if !r.audioOpen {
            BracketedAppend(log, AudioStart);
            NeutralAppend(log + [AudioStart], frames);
            assert log + a.sent == log + [AudioStart] + frames;
          } else {
            NeutralAppend(log, frames);
            assert log + a.sent == log + frames;
          }
        }
      case AudioDone =>
        if r.audioOpen {
          BracketedAppend(log, AudioEnd);
        } else {
          NeutralAppend(log, []);
        }
      case SpeechStarted =>
        BracketedAppend(log, VadSpeaking);
        BracketedAppend(log + [VadSpeaking], AudioClear);
        assert log + a.sent == log + [VadSpeaking] + [AudioClear];
      case ResponseDone(items) =>
        CallsNeutral(items);
        NeutralAppend(log, a.sent);
      case _ =>
        NeutralAppend(log, a.sent);
    }
  }

  /** In web mode every log is bracketed, whatever the model sends. */
  lemma {:induction false} SessionBracketed(first: Reader, messages: seq<Incoming>, k: nat)
    requires k <= |messages| && first.mode == WebPcm24 && !first.audioOpen
    ensures var s := RunTo(first, messages, k);
            Bracketed(s.sent) && s.reader.audioOpen == Open(s.sent) && s.reader.mode == WebPcm24
    decreases k
  {
    if k > 0 {
      SessionBracketed(first, messages, k - 1);
      var before := RunTo(first, messages, k - 1);
      if before.live {
        ReactBracketed(before.reader, messages[k - 1], before.sent);
      }
      hide React, Bracketed, Open;
    }
  }

  // ---- At most one greeting and one notice ----

  predicate IsGreeting(s: Sent) {
    s.GreetingRequest?
  }

  predicate IsNotice(s: Sent) {
    s.ErrorNotice? || s.SpokenNotice?
  }

  function CountOf(log: seq<Sent>, p: Sent -> bool): nat {
    if log == [] then 0 else CountOf(log[..|log| - 1], p) + if p(log[|log| - 1]) then 1 else 0
  }

  lemma {:induction false} CountConcat(a: seq<Sent>, b: seq<Sent>, p: Sent -> bool)
    ensures CountOf(a + b, p) == CountOf(a, p) + CountOf(b, p)
  {
    if b == [] {
      assert a + b == a;
    } else {
      var n := |b| - 1;
      assert (a + b)[..|a + b| - 1] == a + b[..n];
      CountConcat(a, b[..n], p);
    }
  }

  lemma {:induction false} CountNone(log: seq<Sent>, p: Sent -> bool)
    requires forall s | s in log :: !p(s)
    ensures CountOf(log, p) == 0
  {
    if log != [] {
      CountNone(log[..|log| - 1], p);
    }
  }

  lemma CountOne(s: Sent, p: Sent -> bool)
    ensures CountOf([s], p) == if p(s) then 1 else 0
  {
  }

  /** A reaction greets only by giving up the greeting, and notifies only by claiming the notice. */
  lemma ReactCounts(r: Reader, m: Incoming)
    ensures CountOf(React(r, m).sent, IsGreeting) + (if React(r, m).reader.greeting.Some? then 1 else 0)
         <= if r.greeting.Some? then 1 else 0
    ensures CountOf(React(r, m).sent, IsNotice) + (if React(r, m).reader.noticeSent then 0 else 1)
         <= if r.noticeSent then 0 else 1
  {
    hide CountOf, ChunkFrames, CallItems;
    var a := React(r, m);
    if m.SessionUpdated? && r.greeting.Some? {
      CountOne(a.sent[0], IsGreeting);
      CountNone(a.sent, IsNotice);
    } else if m.ReceiveError? || m.CloseFrame? || m.ErrorEvent? {
      CountNone(a.sent, IsGreeting);
      if a.sent == [] {
        CountNone(a.sent, IsNotice);
      } else {
        CountOne(a.sent[0], IsNotice);
      }
    } else {
      if m.ResponseDone? {
        CallsNeutral(m.items);
      }
      CountNone(a.sent, IsGreeting);
      CountNone(a.sent, IsNotice);
    }
  }

  /** Per session at most one greeting request and at most one failure notice are sent. */
  lemma {:induction false} OnceOnly(first: Reader, messages: seq<Incoming>, k: nat)
    requires k <= |messages|
    ensures var s := RunTo(first, messages, k);
            && CountOf(s.sent, IsGreeting) + (if s.reader.greeting.Some? then 1 else 0) <= 1
            && CountOf(s.sent, IsNotice) + (if s.reader.noticeSent then 0 else 1) <= 1
    decreases k
  {
    hide React, CountOf;
    if k == 0 {
      CountNone([], IsGreeting);
      CountNone([], IsNotice);
    } else {
      OnceOnly(first, messages, k - 1);
      var before := RunTo(first, messages, k - 1);
      if before.live {
        var a := React(before.reader, messages[k - 1]);
        ReactCounts(before.reader, messages[k - 1]);
        CountConcat(before.sent, a.sent, IsGreeting);
        CountConcat(before.sent, a.sent, IsNotice);
      }
    }
  }

  // ---- Phone audio and function calls ----

  /** The phone audio of a log, in order. */
  function MediaOf(log: seq<Sent>): seq<string> {
    if log == [] then []
    else MediaOf(log[..|log| - 1]) + if log[|log| - 1].TwilioMedia? then [log[|log| - 1].payload] else []
  }

  /** The answers to function calls of a log, each with the id it answers. */
  function OutputsOf(log: seq<Sent>): seq<(string, string)> {
    if log == [] then []
    else
      OutputsOf(log[..|log| - 1]) +
      if log[|log| - 1].ToolOutput? then [(log[|log| - 1].callId, log[|log| - 1].output)] else []
  }

  lemma {:induction false} MediaConcat(a: seq<Sent>, b: seq<Sent>)
    ensures MediaOf(a + b) == MediaOf(a) + MediaOf(b) && OutputsOf(a + b) == OutputsOf(a) + OutputsOf(b)
  {
    if b == [] {
      assert a + b == a;
    } else {
      var n := |b| - 1;
      assert (a + b)[..|a + b| - 1] == a + b[..n];
      MediaConcat(a, b[..n]);
    }
  }

  lemma {:induction false} NoMedia(log: seq<Sent>)
    ensures (forall s | s in log :: !s.TwilioMedia?) ==> MediaOf(log) == []
    ensures (forall s | s in log :: !s.ToolOutput?) ==> OutputsOf(log) == []
  {
    if log != [] {
      NoMedia(log[..|log| - 1]);
    }
  }

  predicate WellFormed(item: Item) {
    item.isFunctionCall && item.callId != "" && item.name != ""
  }

  /** The calls among the items, with their answers. */
  function CallsAmong(items: seq<Item>): seq<(string, string)> {
    if items == [] then []
    else
      CallsAmong(items[..|items| - 1]) +
      var item := items[|items| - 1];
      if WellFormed(item) then [(item.callId, item.answer)] else []
  }

  function ItemsOf(m: Incoming): seq<Item> {
    match m
    case OutputItemDone(Some(item)) => [item]
    case ResponseDone(items) => items
    case _ => []
  }

  lemma {:induction false} CallItemsAnswer(items: seq<Item>)
    ensures OutputsOf(CallItems(items)) == CallsAmong(items)
  {
    if items != [] {
      var n := |items| - 1;
      CallItemsAnswer(items[..n]);
      MediaConcat(CallItems(items[..n]), CallItem(items[n]));
      OneCallAnswers(items[n]);
    }
  }

  lemma OneCallAnswers(item: Item)
    ensures OutputsOf(CallItem(item)) == if WellFormed(item) then [(item.callId, item.answer)] else []
  {
    var log := CallItem(item);
    if WellFormed(item) {
      assert log[..1] == [ToolOutput(item.callId, item.answer)] && log[..1][..0] == [];
      assert OutputsOf(log[..1][..0]) == [];
      assert OutputsOf(log[..1]) == [(item.callId, item.answer)];
    }
  }

  lemma ReactForwards(r: Reader, m: Incoming)
    ensures OutputsOf(React(r, m).sent) == CallsAmong(ItemsOf(m))
    ensures r.mode == TwilioPcmu && r.hasStream ==>
              MediaOf(React(r, m).sent) == if m.AudioDelta? && m.text != "" then [m.text] else []
    ensures React(r, m).reader.mode == r.mode && React(r, m).reader.hasStream == r.hasStream
  {
    hide MediaOf, OutputsOf, CallItems, CallItem, ChunkFrames, CallsAmong;
    var sent := React(r, m).sent;
    CallItemsAnswer(ItemsOf(m));
    if m.OutputItemDone? && m.item.Some? {
      OneCall(m.item.value);
      CallsNeutral([m.item.value]);
    } else if m.ResponseDone? {
      CallsNeutral(m.items);
    } else {
      NoCallsNoOutputs();
    }
    NoMedia(sent);
    if m.AudioDelta? && r.mode == TwilioPcmu && r.hasStream && m.text != "" {
      OneMedia(m.text);
    }
  }

  lemma NoCallsNoOutputs()
    ensures CallsAmong([]) == []
  {
  }

  lemma OneMedia(text: string)
    ensures MediaOf([TwilioMedia(text)]) == [text]
  {
    assert MediaOf([TwilioMedia(text)][..0]) == [];
  }

  /** The non-empty audio deltas that a session read. */
  function DeltasIn(first: Reader, messages: seq<Incoming>, k: nat): seq<string>
    requires k <= |messages|
  {
    if k == 0 then []
    else
      DeltasIn(first, messages, k - 1) +
      if RunTo(first, messages, k - 1).live && messages[k - 1].AudioDelta? && messages[k - 1].text != ""
      then [messages[k - 1].text] else []
  }

  /** The well-formed function calls that a session read, with their answers. */
  function CallsIn(first: Reader, messages: seq<Incoming>, k: nat): seq<(string, string)>
    requires k <= |messages|
  {
    if k == 0 then []
    else
      CallsIn(first, messages, k - 1) +
      if RunTo(first, messages, k - 1).live then CallsAmong(ItemsOf(messages[k - 1])) else []
  }

  /**
   * A phone session with a stream forwards every non-empty delta in order, and every session answers
   * every well-formed function call it reads under the call's own id, in order.
   */
  lemma {:induction false} SessionForwards(first: Reader, messages: seq<Incoming>, k: nat)
    requires k <= |messages|
    ensures var s := RunTo(first, messages, k);
            && OutputsOf(s.sent) == CallsIn(first, messages, k)
            && (first.mode == TwilioPcmu && first.hasStream ==> MediaOf(s.sent) == DeltasIn(first, messages, k))
            && s.reader.mode == first.mode && s.reader.hasStream == first.hasStream
    decreases k
  {
    hide React, MediaOf, OutputsOf, CallsAmong;
    if k > 0 {
      SessionForwards(first, messages, k - 1);
      var before := RunTo(first, messages, k - 1);
      if before.live {
        ReactForwards(before.reader, messages[k - 1]);
        MediaConcat(before.sent, React(before.reader, messages[k - 1]).sent);
      }
    } else {
      NoMedia([]);
    }
  }

  // ---- The audio arrives whole ----

  /** The audio bytes of a log, in order. */
  function AudioOf(log: seq<Sent>): Bytes {
    if log == [] then []
    else AudioOf(log[..|log| - 1]) + if log[|log| - 1].AudioChunk? then log[|log| - 1].bytes else []
  }

  lemma {:induction false} AudioConcat(a: seq<Sent>, b: seq<Sent>)
    ensures AudioOf(a + b) == AudioOf(a) + AudioOf(b)
  {
    if b == [] {
      assert a + b == a;
    } else {
      var n := |b| - 1;
      assert (a + b)[..|a + b| - 1] == a + b[..n];
      AudioConcat(a, b[..n]);
    }
  }

  lemma {:induction false} AudioNone(log: seq<Sent>)
    requires forall s | s in log :: !s.AudioChunk?
    ensures AudioOf(log) == []
  {
    if log != [] {
      AudioNone(log[..|log| - 1]);
    }
  }

  /** Cutting into chunks loses nothing. */
  lemma {:induction false} ChunksWhole(bytes: Bytes)
    ensures AudioOf(ChunkFrames(bytes)) == bytes
    decreases |bytes|
  {
    if bytes != [] {
      var n := if |bytes| <= CHUNK_BYTES then |bytes| else CHUNK_BYTES;
      var head, tail := bytes[..n], bytes[n..];
      assert bytes == head + tail;
      assert bytes[..|bytes|] == bytes && bytes[|bytes|..] == [];
      assert ChunkFrames(bytes) == [AudioChunk(head)] + ChunkFrames(tail);
      ChunksWhole(tail);
      OneChunk(head);
      AudioConcat([AudioChunk(head)], ChunkFrames(tail));
    }
  }

  lemma OneChunk(bytes: Bytes)
    ensures AudioOf([AudioChunk(bytes)]) == bytes
  {
  }

  /** The audio carried by the messages a web session read. */
  function AudioIn(first: Reader, messages: seq<Incoming>, k: nat): Bytes
    requires k <= |messages|
  {
    if k == 0 then []
    else
      AudioIn(first, messages, k - 1) +
      if RunTo(first, messages, k - 1).live && messages[k - 1].AudioDelta? && messages[k - 1].text != ""
         && messages[k - 1].decoded.Some?
      then messages[k - 1].decoded.value else []
  }

  lemma ReactAudio(r: Reader, m: Incoming)
    requires r.mode == WebPcm24
    ensures AudioOf(React(r, m).sent)
         == if m.AudioDelta? && m.text != "" && m.decoded.Some? then m.decoded.value else []
    ensures React(r, m).reader.mode == WebPcm24
  {
    hide AudioOf, ChunkFrames, CallItems;
    var sent := React(r, m).sent;
    if m.AudioDelta? && m.text != "" && m.decoded.Some? {
      var start := if r.audioOpen then [] else [AudioStart];
      AudioNone(start);
      AudioConcat(start, ChunkFrames(m.decoded.value));
      ChunksWhole(m.decoded.value);
    } else {
      if m.ResponseDone? {
        CallsNeutral(m.items);
      }
      AudioNone(sent);
    }
  }

  /** The caller receives exactly the audio the model sent, in order. */
  lemma {:induction false} AudioPreserved(first: Reader, messages: seq<Incoming>, k: nat)
    requires k <= |messages| && first.mode == WebPcm24
    ensures AudioOf(RunTo(first, messages, k).sent) == AudioIn(first, messages, k)
    ensures RunTo(first, messages, k).reader.mode == WebPcm24
    decreases k
  {
    if k > 0 {
      AudioPreserved(first, messages, k - 1);
      var before := RunTo(first, messages, k - 1);
      if before.live {
        ReactAudio(before.reader, messages[k - 1]);
        AudioConcat(before.sent, React(before.reader, messages[k - 1]).sent);
      }
      hide React, AudioOf;
    }
  }
}
