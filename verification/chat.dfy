/** The chat page's session state and its transitions. Every network reply
    and every browser capability is a parameter, so each transition is a pure
    function from the state before to the state after. */
module Chat {
  import opened Optional
  import opened Text

  // ---------------------------------------------------------------------
  // Data
  // ---------------------------------------------------------------------

  datatype Role = User | Assistant

  /** An exercise the assistant recommends, with its video links. */
  datatype Tutorial = Tutorial(exercise: string, links: seq<string>)

  datatype Message = Message(role: Role, content: string, tutorials: Option<seq<Tutorial>>)

  /** What the browser's local storage holds under the history key: nothing,
      a saved conversation, or text that does not parse. */
  datatype Storage = Empty | Saved(messages: seq<Message>) | Unreadable

  datatype ChatState = ChatState(
    messages: seq<Message>,
    input: string,
    loading: bool,
    userId: string,
    isRecording: bool,
    isSpeaking: bool,
    autoPlay: bool,
    stored: Storage)

  /** The page as it first renders, before the user is known and the stored
      history is loaded: nothing in progress, automatic read-aloud on. */
  function Initial(stored: Storage): (st: ChatState)
    ensures st.messages == [] && st.input == [] && st.userId == []
    ensures !st.loading && !st.isRecording && !st.isSpeaking && st.autoPlay
    ensures st.stored == stored
  {
    ChatState([], "", false, "", false, false, true, stored)
  }

  // ---------------------------------------------------------------------
  // Signing in
  // ---------------------------------------------------------------------

  /** `checkAuth`: the signed-in user's id, when the session yields a user,
      becomes the page's user id; without a session or a user nothing changes
      (the redirect to the sign-in page is not part of this model). */
  function CheckAuth(st: ChatState, user: Option<string>): (r: ChatState)
    ensures user.Some? ==> r.userId == user.value
    ensures user.None? ==> r == st
    ensures r.(userId := st.userId) == st
  {
    match user
    case Some(id) => st.(userId := id)
    case None => st
  }

  // ---------------------------------------------------------------------
  // Persistence
  // ---------------------------------------------------------------------

  /** The conversation in memory is the one in storage whenever storage holds
      a conversation. */
  predicate Mirrored(st: ChatState) {
    st.stored.Saved? ==> st.stored.messages == st.messages
  }

  /** The conversation the page shows once the stored history is loaded. */
  function Loaded(stored: Storage): seq<Message> {
    if stored.Saved? then stored.messages else []
  }

  /** The page shows exactly what a reload would show: the saved conversation,
      or nothing when storage holds none. Stronger than `Mirrored`, which says
      nothing when storage is empty. */
  predicate ShowsStored(st: ChatState) {
    st.messages == Loaded(st.stored)
  }

  /** `loadChatHistory`: a saved conversation replaces the messages; nothing
      stored, or text that does not parse, leaves them alone. */
  function LoadHistory(st: ChatState): (r: ChatState)
    ensures Mirrored(r)
    ensures r.stored == st.stored
    ensures st.stored.Saved? ==> r.messages == st.stored.messages
    ensures r.(messages := st.messages) == st
    ensures !st.stored.Saved? ==> r == st
  {
    match st.stored
    case Saved(ms) => st.(messages := ms)
    case _ => st
  }

  /** `clearChat`: empties the conversation and removes it from storage. */
  function ClearChat(st: ChatState): (r: ChatState)
    ensures r.messages == [] && r.stored == Empty
    ensures r.(messages := st.messages, stored := st.stored) == st
  {
    st.(messages := [], stored := Empty)
  }

  /** Clearing twice is clearing once, and a reload after a clear shows
      nothing. */
  lemma ClearChatIdempotent(st: ChatState)
    ensures ClearChat(ClearChat(st)) == ClearChat(st)
    ensures LoadHistory(ClearChat(st)).messages == []
  {
  }

  /** The read-aloud switch. */
  function ToggleAutoPlay(st: ChatState): (r: ChatState)
    ensures r.autoPlay != st.autoPlay
    ensures r.(autoPlay := st.autoPlay) == st
  {
    st.(autoPlay := !st.autoPlay)
  }

  lemma ToggleAutoPlayInvolution(st: ChatState)
    ensures ToggleAutoPlay(ToggleAutoPlay(st)) == st
  {
  }

  // ---------------------------------------------------------------------
  // Sending a message
  // ---------------------------------------------------------------------

  /** The text shown when the reply is missing or empty. */
  const Fallback: string := "No response received."

  /** A history entry of the request: a message without its tutorials. */
  datatype HistoryEntry = HistoryEntry(role: Role, content: string)

  /** The body posted to the chat endpoint. */
  datatype ChatRequest = ChatRequest(message: string, userId: string, history: seq<HistoryEntry>)

  /** The endpoint's answer: a body whose `reply` and `tutorials` may be
      missing, or any failure (network error, a status other than success,
      a body that does not parse). */
  datatype ChatOutcome = Replied(reply: Option<string>, tutorials: Option<seq<Tutorial>>) | Failed

  /** What a send in progress remembers from the moment it started: the
      messages and the read-aloud switch as they were, and the request. */
  datatype PendingSend = PendingSend(before: seq<Message>, autoPlay: bool, request: ChatRequest)

  datatype SendStart = Ignored | Started(state: ChatState, pending: PendingSend)

  /** The end of a send: the state, and the text to read aloud, if any. */
  datatype SendResult = SendResult(state: ChatState, readAloud: Option<string>)

  /** The messages as the request's history: role and content only. */
  function History(ms: seq<Message>): (h: seq<HistoryEntry>)
    ensures |h| == |ms|
    ensures forall i :: 0 <= i < |ms| ==> h[i].role == ms[i].role && h[i].content == ms[i].content
  {
    seq(|ms|, i requires 0 <= i < |ms| => HistoryEntry(ms[i].role, ms[i].content))
  }

  function UserMessage(text: string): Message {
    Message(User, text, None)
  }

  /** `data.reply || "No response received."`: a missing or empty reply
      becomes the fallback text, so the content is never empty. */
  function ReplyContent(reply: Option<string>): (c: string)
    ensures c != []
    ensures c == Fallback <==> reply.None? || reply.value == [] || reply.value == Fallback
    ensures c != Fallback ==> reply == Some(c)
  {
    if reply.Some? && reply.value != "" then reply.value else Fallback
  }

  function AssistantMessage(reply: Option<string>, tutorials: Option<seq<Tutorial>>): Message {
    Message(Assistant, ReplyContent(reply), Some(tutorials.GetOr([])))
  }

  /** The synchronous part of `handleSend`: a blank draft or a missing user
      stops it; otherwise the trimmed draft is appended as a user message,
      the draft is cleared and the page waits for the reply. */
  function BeginSend(st: ChatState): (r: SendStart)
    ensures r.Ignored? <==> IsBlank(st.input) || st.userId == []
    ensures r.Started? ==>
      && r.state.messages == st.messages + [Message(User, Trim(st.input), None)]
      && r.state.input == [] && r.state.loading
      && r.state.(messages := st.messages, input := st.input, loading := st.loading) == st
    ensures r.Started? ==>
      && r.pending.before == st.messages && r.pending.autoPlay == st.autoPlay
      && r.pending.request == ChatRequest(Trim(st.input), st.userId, History(st.messages))
  {
    var text := Trim(st.input);
    if text == [] || st.userId == "" then Ignored
    else
      Started(
        st.(input := "", messages := st.messages + [UserMessage(text)], loading := true),
        PendingSend(st.messages, st.autoPlay, ChatRequest(text, st.userId, History(st.messages))))
  }

  /** The rest of `handleSend`, once the outcome is known, applied to the
      state `cur` the page is then in. A reply installs the remembered
      messages, the user message and the assistant message, and saves them;
      a failure puts the remembered messages back and saves nothing. Either
      way the page stops waiting. */
  function FinishSend(cur: ChatState, p: PendingSend, outcome: ChatOutcome): (r: SendResult)
    ensures !r.state.loading
    ensures r.state.(messages := cur.messages, stored := cur.stored, loading := cur.loading) == cur
    ensures outcome.Failed? ==> r.state.messages == p.before && r.state.stored == cur.stored
    ensures outcome.Replied? ==> r.state.stored == Saved(r.state.messages)
    ensures outcome.Replied? ==>
      r.state.messages == p.before + [Message(User, p.request.message, None),
                                      Message(Assistant, ReplyContent(outcome.reply),
                                              Some(outcome.tutorials.GetOr([])))]
    ensures r.readAloud.Some? <==>
      p.autoPlay && outcome.Replied? && ReplyContent(outcome.reply) != Fallback
    ensures r.readAloud.Some? ==> outcome.Replied? && outcome.reply == r.readAloud
  {
    match outcome
    case Replied(reply, tutorials) =>
      var ai := AssistantMessage(reply, tutorials);
      var final := p.before + [UserMessage(p.request.message), ai];
      var speak := if p.autoPlay && ai.content != "" && ai.content != Fallback then Some(ai.content) else None;
      SendResult(cur.(messages := final, stored := Saved(final), loading := false), speak)
    case Failed =>
      SendResult(cur.(messages := p.before, loading := false), None)
  }

  /** A whole send with nothing else happening while the reply is awaited. */
  function Send(st: ChatState, outcome: ChatOutcome): SendResult {
    match BeginSend(st)
    case Ignored => SendResult(st, None)
    case Started(s, p) => FinishSend(s, p, outcome)
  }

  /** A blank draft or a missing user changes nothing and sends nothing. */
  lemma SendIgnored(st: ChatState, outcome: ChatOutcome)
    requires IsBlank(st.input) || st.userId == []
    ensures Send(st, outcome) == SendResult(st, None)
  {
  }

  /** A reply appends the trimmed draft and the assistant's answer (its
      tutorials defaulting to none), saves the new conversation, and clears
      the draft and the waiting flag; nothing else changes. */
  lemma SendReplied(st: ChatState, reply: Option<string>, tutorials: Option<seq<Tutorial>>)
    requires !IsBlank(st.input) && st.userId != []
    ensures var r := Send(st, Replied(reply, tutorials)).state;
      && r.messages == st.messages + [Message(User, Trim(st.input), None),
                                      Message(Assistant, ReplyContent(reply), Some(tutorials.GetOr([])))]
      && r.stored == Saved(r.messages)
      && r.input == [] && !r.loading
      && r.(messages := st.messages, stored := st.stored, input := st.input, loading := st.loading) == st
  {
  }

  /** A failure leaves the conversation and storage as they were before the
      send, but the draft is still gone. */
  lemma SendFailed(st: ChatState)
    requires !IsBlank(st.input) && st.userId != []
    ensures var r := Send(st, Failed);
      && r.state.messages == st.messages && r.state.stored == st.stored
      && r.state.input == [] && !r.state.loading
      && r.state.(input := st.input, loading := st.loading) == st
      && r.readAloud == None
  {
  }

  /** The request carries the trimmed draft and the conversation as it was
      before the send: one entry per earlier message, not the new one. */
  lemma SendRequest(st: ChatState)
    requires !IsBlank(st.input) && st.userId != []
    ensures BeginSend(st).Started?
    ensures var q := BeginSend(st).pending.request;
      && q.message == Trim(st.input) && q.message != [] && q.userId == st.userId
      && |q.history| == |st.messages| == |BeginSend(st).state.messages| - 1
      && q.history == History(st.messages)
  {
  }

  /** The answer is read aloud exactly when the switch was on at the send,
      a reply arrived and it is not the fallback text; what is read is the
      reply itself. */
  lemma ReadAloudRule(st: ChatState, outcome: ChatOutcome)
    requires !IsBlank(st.input) && st.userId != []
    ensures var r := Send(st, outcome);
      && (r.readAloud.Some? <==>
            st.autoPlay && outcome.Replied? && ReplyContent(outcome.reply) != Fallback)
      && (r.readAloud.Some? ==> outcome.Replied? && outcome.reply == r.readAloud)
  {
  }

  /** Between sends, storage mirrors the conversation: a completed send keeps
      that true whatever the outcome. */
  lemma SendKeepsMirrored(st: ChatState, outcome: ChatOutcome)
    requires Mirrored(st)
    ensures Mirrored(Send(st, outcome).state)
  {
  }

  // ---------------------------------------------------------------------
  // Reading aloud
  // ---------------------------------------------------------------------

  /** The body posted to the speech endpoint. */
  datatype SpeechRequest = SpeechRequest(text: string, languageCode: string)

  datatype SpeakStart = Stopped(state: ChatState) | Requested(state: ChatState, request: SpeechRequest)

  /** `handleTextToSpeech`: while audio plays the button stops it and sends
      nothing; otherwise it marks the page as speaking and asks for audio. */
  function Speak(st: ChatState, text: string): (r: SpeakStart)
    ensures r.Stopped? <==> st.isSpeaking
    ensures r.state.isSpeaking == !st.isSpeaking
    ensures r.state.(isSpeaking := st.isSpeaking) == st
    ensures r.Requested? ==> r.request == SpeechRequest(text, "en")
  {
    if st.isSpeaking then Stopped(st.(isSpeaking := false))
    else Requested(st.(isSpeaking := true), SpeechRequest(text, "en"))
  }

  /** The speech endpoint's answer: audio, or no audio (the fifteen-second
      abort, a status other than success, a network error). */
  datatype SpeechOutcome = Audio | NoAudio

  /** Audio starts playing and the page stays in the speaking state; without
      audio it leaves that state. */
  function SpeechArrived(st: ChatState, outcome: SpeechOutcome): (r: ChatState)
    ensures outcome.Audio? ==> r == st
    ensures outcome.NoAudio? ==> !r.isSpeaking
    ensures r.(isSpeaking := st.isSpeaking) == st
  {
    match outcome
    case Audio => st
    case NoAudio => st.(isSpeaking := false)
  }

  /** The audio element's `ended` and `error` events: both leave the
      speaking state. */
  function PlaybackFinished(st: ChatState): (r: ChatState)
    ensures !r.isSpeaking
    ensures r.(isSpeaking := st.isSpeaking) == st
  {
    st.(isSpeaking := false)
  }

  /** Starting to read aloud and then reaching any end (no audio, or audio
      that finishes or fails) returns the page to the state it was in. */
  lemma SpeechRoundTrip(st: ChatState, text: string, outcome: SpeechOutcome)
    requires !st.isSpeaking
    ensures Speak(st, text).Requested?
    ensures outcome.NoAudio? ==> SpeechArrived(Speak(st, text).state, outcome) == st
    ensures PlaybackFinished(SpeechArrived(Speak(st, text).state, outcome)) == st
  {
  }

  // ---------------------------------------------------------------------
  // Voice input
  // ---------------------------------------------------------------------

  /** What the browser grants when the microphone button is pressed. */
  datatype MicAccess = Unsupported | Denied | Granted

  /** `handleVoiceInput` up to the start of recording: with no media support
      nothing changes; a refused microphone ends the recording state it had
      just entered; a granted one starts recording. */
  function StartVoiceInput(st: ChatState, access: MicAccess): (r: ChatState)
    ensures access.Granted? ==> r.isRecording
    ensures access.Denied? ==> !r.isRecording
    ensures access.Unsupported? ==> r == st
    ensures r.(isRecording := st.isRecording) == st
  {
    match access
    case Unsupported => st
    case Denied => st.(isRecording := false)
    case Granted => st.(isRecording := true)
  }

  /** The five-second timer stops a recording in progress. */
  function StopRecording(st: ChatState): (r: ChatState)
    ensures !r.isRecording
    ensures r.(isRecording := st.isRecording) == st
  {
    st.(isRecording := false)
  }

  /** The speech-to-text endpoint's answer: a body whose transcript may be
      missing, or any failure. */
  datatype TranscriptOutcome = Transcribed(transcript: Option<string>) | NotTranscribed

  /** A transcript replaces the draft (`data.transcript || ""`); a failure
      leaves the draft alone. */
  function TranscriptArrived(st: ChatState, outcome: TranscriptOutcome): (r: ChatState)
    ensures outcome.NotTranscribed? ==> r == st
    ensures outcome.Transcribed? ==> r.input == outcome.transcript.GetOr([])
    ensures r.(input := st.input) == st
  {
    match outcome
    case Transcribed(t) => st.(input := t.GetOr(""))
    case NotTranscribed => st
  }

  /** A granted recording that runs out and is transcribed puts the
      transcript in the draft and otherwise returns to where it started. */
  lemma VoiceRoundTrip(st: ChatState, t: string)
    requires !st.isRecording
    ensures TranscriptArrived(StopRecording(StartVoiceInput(st, Granted)), Transcribed(Some(t)))
         == st.(input := t)
  {
  }

  // ---------------------------------------------------------------------
  // The session as a whole
  // ---------------------------------------------------------------------

  /** Everything the page can do between sends. */
  datatype Event =
    | SignIn(user: Option<string>)
    | SendMessage(outcome: ChatOutcome)
    | Clear
    | Load
    | ToggleReadAloud
    | TypeDraft(text: string)
    | SpeakText(text: string)
    | SpeechReply(speech: SpeechOutcome)
    | PlaybackEnd
    | VoiceStart(access: MicAccess)
    | VoiceStop
    | Transcript(transcript: TranscriptOutcome)

  function Step(st: ChatState, e: Event): ChatState {
    match e
    case SignIn(u) => CheckAuth(st, u)
    case SendMessage(o) => Send(st, o).state
    case Clear => ClearChat(st)
    case Load => LoadHistory(st)
    case ToggleReadAloud => ToggleAutoPlay(st)
    case TypeDraft(text) => st.(input := text)
    case SpeakText(text) => Speak(st, text).state
    case SpeechReply(o) => SpeechArrived(st, o)
    case PlaybackEnd => PlaybackFinished(st)
    case VoiceStart(a) => StartVoiceInput(st, a)
    case VoiceStop => StopRecording(st)
    case Transcript(o) => TranscriptArrived(st, o)
  }

  function Run(st: ChatState, es: seq<Event>): ChatState
    decreases |es|
  {
    if es == [] then st else Run(Step(st, es[0]), es[1..])
  }

  /** Every event keeps storage mirroring the conversation. */
  lemma StepKeepsMirrored(st: ChatState, e: Event)
    requires Mirrored(st)
    ensures Mirrored(Step(st, e))
  {
    if e.SendMessage? {
      SendKeepsMirrored(st, e.outcome);
    }
  }

  /** Any sequence of events keeps storage mirroring the conversation. */
  lemma {:induction false} RunKeepsMirrored(st: ChatState, es: seq<Event>)
    requires Mirrored(st)
    ensures Mirrored(Run(st, es))
    decreases |es|
  {
    if es != [] {
      StepKeepsMirrored(st, es[0]);
      RunKeepsMirrored(Step(st, es[0]), es[1..]);
    }
  }

  /** From the first render followed by loading, whatever storage held, any
      sequence of events keeps storage mirroring the conversation. */
  lemma SessionMirrored(stored: Storage, es: seq<Event>)
    ensures Mirrored(Run(LoadHistory(Initial(stored)), es))
  {
    RunKeepsMirrored(LoadHistory(Initial(stored)), es);
  }

  /** A session that signs in, types a draft and sends it really sends: a
      reply extends the loaded conversation by the two messages and saves it;
      a failure leaves the loaded conversation and storage as they were. */
  lemma SessionSends(stored: Storage, id: string, draft: string, outcome: ChatOutcome)
    requires id != [] && !IsBlank(draft)
    ensures var st := Run(LoadHistory(Initial(stored)), [SignIn(Some(id)), TypeDraft(draft), SendMessage(outcome)]);
      && (outcome.Replied? ==>
            && st.messages == Loaded(stored) + [Message(User, Trim(draft), None),
                                                Message(Assistant, ReplyContent(outcome.reply),
                                                        Some(outcome.tutorials.GetOr([])))]
            && st.stored == Saved(st.messages))
      && (outcome.Failed? ==> st.messages == Loaded(stored) && st.stored == stored)
      && st.input == [] && !st.loading
  {
    var es := [SignIn(Some(id)), TypeDraft(draft), SendMessage(outcome)];
    var s0 := LoadHistory(Initial(stored));
    var s1 := Step(s0, es[0]);
    var s2 := Step(s1, es[1]);
    var s3 := Step(s2, es[2]);
    assert s2.input == draft && s2.userId == id && s2.messages == Loaded(stored);
    assert Run(s0, es) == Run(s1, es[1..]);
    assert Run(s1, es[1..]) == Run(s2, es[2..]);
    assert es[2..][1..] == [];
    assert Run(s2, es[2..]) == s3;
  }

  /** Every event keeps the page showing what a reload would show. */
  lemma StepShowsStored(st: ChatState, e: Event)
    requires ShowsStored(st)
    ensures ShowsStored(Step(st, e))
  {
    if e.SendMessage? {
      match BeginSend(st)
      case Ignored =>
      case Started(s, pending) =>
        var r := FinishSend(s, pending, e.outcome);
        assert Send(st, e.outcome) == r;
    }
  }

  lemma {:induction false} RunShowsStored(st: ChatState, es: seq<Event>)
    requires ShowsStored(st)
    ensures ShowsStored(Run(st, es))
    decreases |es|
  {
    if es != [] {
      StepShowsStored(st, es[0]);
      RunShowsStored(Step(st, es[0]), es[1..]);
    }
  }

  /** From the first render and the history load, whatever storage held, the
      page always shows what a reload would show: the saved conversation, and
      nothing before the first reply or after a clear. */
  lemma SessionShowsStored(stored: Storage, es: seq<Event>)
    ensures ShowsStored(Run(LoadHistory(Initial(stored)), es))
  {
    RunShowsStored(LoadHistory(Initial(stored)), es);
  }

  /** Pressing the button again while the speech request is still pending
      clears the speaking flag but does not cancel the request: audio that
      arrives afterwards plays with the flag off, so the next press starts a
      second request instead of stopping the audio. */
  lemma StopWhilePendingStillPlays(st: ChatState, text: string, again: string)
    requires !st.isSpeaking
    ensures var pending := Speak(st, text);
      && pending.Requested?
      && Speak(pending.state, text).Stopped?
      && var playing := SpeechArrived(Speak(pending.state, text).state, Audio);
         !playing.isSpeaking && Speak(playing, again).Requested?
  {
  }
}
