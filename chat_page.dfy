/**
 * The stand-alone chat page (pages/AIAssistant.tsx): the shared message log
 * with this file's texts and no speech input. No route in App.tsx renders it.
 */
module ChatPage {
  import opened ChatLog

  const Greeting := "Good day. I am the Brandabi Senior Growth Consultant. How may I assist with your brand architecture or business scaling objectives today?"
  const EmptyReply := "I apologize, there was a technical disruption. Please re-state your request."
  const CapacityText := "Our consultation systems are currently at capacity. Please try again shortly or contact our human specialists."

  const PageCopy := Copy(Greeting, EmptyReply, CapacityText)

  class Page {
    var messages: seq<Message>
    var input: string
    var isLoading: bool

    function State(): Chat
      reads this
    {
      Chat(messages, input, isLoading)
    }

    constructor()
      ensures State() == Start(PageCopy)
    {
      messages := [Message(Assistant, Greeting)];
      input := "";
      isLoading := false;
    }

    method OnInputChange(text: string)
      modifies this
      ensures State() == Type(old(State()), text)
    {
      input := text;
    }

    method HandleSend()
      modifies this
      ensures State() == Send(old(State()))
    {
      var c := State();
      var refused := CheckRefused(c);
      if refused {
        SendGuard(c);
        return;
      }
      SendAppends(c);
      input := "";
      messages := c.messages + [Message(User, c.input)];
      isLoading := true;
    }

    method OnReply(reply: Reply)
      requires isLoading
      modifies this
      ensures State() == Settle(old(State()), reply, PageCopy)
    {
      var text := if reply.Answered? && reply.text != "" then reply.text
        else if reply.Answered? then EmptyReply else CapacityText;
      messages := messages + [Message(Assistant, text)];
      isLoading := false;
    }
  }
}
