/**
 * The floating chat widget (components/AIAssistant.tsx): the shared message
 * log with this file's texts, plus speech input through the browser's
 * recognition object. Whether the browser has one, whether `start()` throws
 * and what the recogniser heard are inputs.
 */
module ChatWidget {
  import opened ChatLog

  const Greeting := "Welcome. I am the Brandabi Senior Growth Consultant. I am here to provide measured, strategic advice on business registration, digital architecture, and branding solutions. How may I assist your enterprise today?"
  const EmptyReply := "Communication interrupted. Please re-state your inquiry."
  const MaintenanceText := "Systems are currently under maintenance. Please contact our human support team if your inquiry is urgent."

  const WidgetCopy := Copy(Greeting, EmptyReply, MaintenanceText)

  /** `onresult`: the transcript is appended to a non-empty input after one space, or becomes the input. */
  function Merge(prev: string, transcript: string): (r: string)
    ensures prev == "" ==> r == transcript
    ensures prev != "" ==> |r| == |prev| + 1 + |transcript| && r[..|prev|] == prev && r[|prev|] == ' ' && r[|prev| + 1..] == transcript
  {
    if prev != "" then prev + " " + transcript else transcript
  }

  datatype WidgetState = WidgetState(chat: Chat, isListening: bool)

  function Heard(w: WidgetState, transcript: string): WidgetState {
    WidgetState(w.chat.(input := Merge(w.chat.input, transcript)), false)
  }

  /** `onerror` and `onend`. */
  function Ended(w: WidgetState): WidgetState {
    w.(isListening := false)
  }

  /**
   * `toggleListening`: nothing without recognition support (an alert); while
   * listening only `stop()` is called, whose `onend` clears the flag later;
   * otherwise listening starts unless `start()` throws.
   */
  function Toggle(w: WidgetState, supported: bool, startThrows: bool): WidgetState {
    if !supported || w.isListening || startThrows then w else w.(isListening := true)
  }

  /** Speech input never touches the log or the loading flag, and a heard transcript ends listening. */
  lemma SpeechLeavesLog(w: WidgetState, transcript: string, supported: bool, startThrows: bool)
    ensures Heard(w, transcript).chat.messages == w.chat.messages && Heard(w, transcript).chat.isLoading == w.chat.isLoading
    ensures !Heard(w, transcript).isListening && !Ended(w).isListening
    ensures Toggle(w, supported, startThrows).chat == w.chat && Ended(w).chat == w.chat
    ensures Toggle(w, supported, startThrows).isListening <==> w.isListening || (supported && !startThrows)
  {
  }

  /** Two utterances into an empty input read as the first, a space, and the second. */
  lemma TwoUtterances(t1: string, t2: string)
    requires t1 != ""
    ensures Merge(Merge("", t1), t2) == t1 + " " + t2
  {
  }

  class Widget {
    var messages: seq<Message>
    var input: string
    var isLoading: bool
    var isListening: bool
    /** Whether the browser offers a speech recogniser (fixed at mount). */
    const supported: bool

    function State(): WidgetState
      reads this
    {
      WidgetState(Log(), isListening)
    }

    constructor(recognizer: bool)
      ensures State() == WidgetState(Start(WidgetCopy), false) && supported == recognizer
    {
      messages := [Message(Assistant, Greeting)];
      input := "";
      isLoading := false;
      isListening := false;
      supported := recognizer;
    }

    method OnInputChange(text: string)
      modifies this
      ensures State() == old(State()).(chat := Type(old(State()).chat, text))
    {
      input := text;
    }

    function Log(): Chat
      reads this
    {
      Chat(messages, input, isLoading)
    }

    /** The synchronous part of `handleSend`, up to the remote call. */
    method HandleSend()
      modifies this
      ensures Log() == Send(old(Log())) && isListening == old(isListening)
      ensures State() == old(State()).(chat := Send(old(State()).chat))
    {
      var c := Log();
      var refused := CheckRefused(c);
      if refused {
        SendGuard(c);
        return;
      }
      SendAppends(c);
      input := "";
      messages := c.messages + [Message(User, c.input)];
      isLoading := true;
    }

    /** The remote call settles with `reply`; it can only do so while a send is in flight. */
    method OnReply(reply: Reply)
      requires isLoading
      modifies this
      ensures State() == old(State()).(chat := Settle(old(State()).chat, reply, WidgetCopy))
    {
      var text := if reply.Answered? && reply.text != "" then reply.text
        else if reply.Answered? then EmptyReply else MaintenanceText;
      messages := messages + [Message(Assistant, text)];
      isLoading := false;
    }

    method OnResult(transcript: string)
      modifies this
      ensures State() == Heard(old(State()), transcript)
    {
      input := if input != "" then input + " " + transcript else transcript;
      isListening := false;
    }

    /** `onerror` and `onend` both clear the flag. */
    method OnEnd()
      modifies this
      ensures State() == Ended(old(State()))
    {
      isListening := false;
    }

    method ToggleListening(startThrows: bool)
      modifies this
      ensures State() == Toggle(old(State()), supported, startThrows)
    {
      if !supported {
        return;
      }
      if !isListening && !startThrows {
        isListening := true;
      }
    }
  }
}
