/**
 * What the two chat assistants (components/AIAssistant.tsx and
 * pages/AIAssistant.tsx) share: the message log with its send guard and reply
 * handling, the `trim` the guard uses, and `renderMessageContent`, which
 * splits a message on the consultant's title with a capturing regular
 * expression and highlights the title.
 *
 * The two files differ only in their greeting and their two fallback texts,
 * which are a `Copy` parameter here, and in the widget's speech input, which
 * the ChatWidget module adds.
 */
module ChatLog {
  import opened Wrappers

  // ---------------------------------------------------------------------
  // `String.prototype.trim`

  /** The characters `trim` strips: ECMAScript's WhiteSpace and LineTerminator code points. */
  predicate IsWhitespace(c: char) {
    || c == '\t' || c == '\n' || c == '\U{000B}' || c == '\U{000C}' || c == '\r' || c == ' '
    || c == '\U{00A0}' || c == '\U{1680}' || ('\U{2000}' <= c <= '\U{200A}')
    || c == '\U{2028}' || c == '\U{2029}' || c == '\U{202F}' || c == '\U{205F}' || c == '\U{3000}' || c == '\U{FEFF}'
  }

  function TrimStart(s: string): (r: string)
    ensures |r| <= |s| && r == s[|s| - |r|..]
    ensures IsBlank(s[..|s| - |r|])
    ensures r != [] ==> !IsWhitespace(r[0])
  {
    if s != [] && IsWhitespace(s[0]) then
      var r := TrimStart(s[1..]);
      TrimStartStep(s, r);
      r
    else s
  }

  function TrimEnd(s: string): (r: string)
    ensures |r| <= |s| && r == s[..|r|]
    ensures IsBlank(s[|r|..])
    ensures r != [] ==> !IsWhitespace(r[|r| - 1])
  {
    if s != [] && IsWhitespace(s[|s| - 1]) then
      var r := TrimEnd(s[..|s| - 1]);
      TrimEndStep(s, r);
      r
    else s
  }

  function Trim(s: string): string {
    TrimEnd(TrimStart(s))
  }

  /** Every character is whitespace. */
  predicate IsBlank(s: string) {
    forall i :: 0 <= i < |s| ==> IsWhitespace(s[i])
  }

  /** Trimming a whitespace character and then the rest drops a blank prefix of `s`. */
  lemma TrimStartStep(s: string, r: string)
    requires s != [] && IsWhitespace(s[0])
    requires |r| <= |s| - 1 && r == s[1..][|s| - 1 - |r|..] && IsBlank(s[1..][..|s| - 1 - |r|])
    ensures r == s[|s| - |r|..] && IsBlank(s[..|s| - |r|])
  {
    BlankPrepend(s[0], s[1..][..|s| - 1 - |r|]);
    assert s[..|s| - |r|] == [s[0]] + s[1..][..|s| - 1 - |r|];
  }

  /** Trimming a trailing whitespace character and then the rest drops a blank suffix of `s`. */
  lemma TrimEndStep(s: string, r: string)
    requires s != [] && IsWhitespace(s[|s| - 1])
    requires |r| <= |s| - 1 && r == s[..|s| - 1][..|r|] && IsBlank(s[..|s| - 1][|r|..])
    ensures r == s[..|r|] && IsBlank(s[|r|..])
  {
    BlankAppend(s[..|s| - 1][|r|..], s[|s| - 1]);
    assert s[|r|..] == s[..|s| - 1][|r|..] + [s[|s| - 1]];
  }

  lemma BlankPrepend(c: char, t: string)
    requires IsWhitespace(c) && IsBlank(t)
    ensures IsBlank([c] + t)
  {
    forall i | 0 <= i < |[c] + t| ensures IsWhitespace(([c] + t)[i]) {
      if i > 0 {
        assert ([c] + t)[i] == t[i - 1];
      }
    }
  }

  lemma BlankAppend(t: string, c: char)
    requires IsBlank(t) && IsWhitespace(c)
    ensures IsBlank(t + [c])
  {
    forall i | 0 <= i < |t + [c]| ensures IsWhitespace((t + [c])[i]) {
      if i < |t| {
        assert (t + [c])[i] == t[i];
      }
    }
  }

  /** Trimming leaves nothing exactly for the all-whitespace strings, the empty one included. */
  lemma {:induction false} TrimEmptyIffBlank(s: string)
    ensures Trim(s) == "" <==> IsBlank(s)
  {
    StartEmptyIffBlank(s);
    var t := TrimStart(s);
    if t != "" {
      // A non-empty `t` starts with a non-whitespace character, which TrimEnd never removes.
      EndKeepsLeading(t);
    }
  }

  lemma {:induction false} StartEmptyIffBlank(s: string)
    ensures TrimStart(s) == "" <==> IsBlank(s)
    decreases |s|
  {
    if s != [] {
      BlankCons(s);
      if IsWhitespace(s[0]) {
        StartEmptyIffBlank(s[1..]);
        assert TrimStart(s) == TrimStart(s[1..]);
      } else {
        assert TrimStart(s) == s;
      }
    }
  }

  lemma BlankCons(s: string)
    requires s != []
    ensures IsBlank(s) <==> IsWhitespace(s[0]) && IsBlank(s[1..])
  {
    var tail := s[1..];
    if IsWhitespace(s[0]) && IsBlank(tail) {
      forall i | 0 <= i < |s| ensures IsWhitespace(s[i]) {
        if i > 0 {
          assert s[i] == tail[i - 1];
        }
      }
    }
    if IsBlank(s) {
      forall i | 0 <= i < |tail| ensures IsWhitespace(tail[i]) {
        assert tail[i] == s[i + 1];
      }
    }
  }

  lemma {:induction false} EndKeepsLeading(t: string)
    requires t != [] && !IsWhitespace(t[0])
    ensures TrimEnd(t) != ""
    decreases |t|
  {
    if IsWhitespace(t[|t| - 1]) {
      EndKeepsLeading(t[..|t| - 1]);
    }
  }

  // ---------------------------------------------------------------------
  // Splitting a message around the consultant's title, keeping each occurrence

  const Phrase := "Senior Growth Consultant"

  /** The phrase occurs in `s` at position `i`. */
  predicate OccursAt(s: string, i: nat) {
    i + |Phrase| <= |s| && s[i..i + |Phrase|] == Phrase
  }

  predicate Contains(s: string) {
    exists i: nat :: i <= |s| && OccursAt(s, i)
  }

  /** The leftmost occurrence at or after `from`, as the regular expression's scan finds it. */
  function Find(s: string, from: nat): (r: Option<nat>)
    ensures r.Some? ==> from <= r.value && OccursAt(s, r.value)
    ensures r.Some? ==> forall j: nat :: from <= j < r.value ==> !OccursAt(s, j)
    ensures r.None? ==> forall j: nat :: from <= j ==> !OccursAt(s, j)
    decreases |s| - from
  {
    if from + |Phrase| > |s| then None
    else if s[from..from + |Phrase|] == Phrase then Some(from)
    else Find(s, from + 1)
  }

  /** The parts concatenated in order. */
  function Concat(parts: seq<string>): string {
    if parts == [] then "" else parts[0] + Concat(parts[1..])
  }

  /**
   * The split: the text before each occurrence, then the captured phrase,
   * and the rest after the last occurrence. There is always an odd number of
   * parts (one for a string without the phrase, the empty string included);
   * they put the string back together, the odd-indexed ones are the phrase
   * and no even-indexed one contains it.
   */
  function Split(s: string): (parts: seq<string>)
    ensures |parts| % 2 == 1
    ensures Concat(parts) == s
    ensures forall k :: 0 <= k < |parts| && k % 2 == 1 ==> parts[k] == Phrase
    ensures forall k :: 0 <= k < |parts| && k % 2 == 0 ==> !Contains(parts[k])
    decreases |s|
  {
    match Find(s, 0)
    case None => [s]
    case Some(i) =>
      var rest := Split(s[i + |Phrase|..]);
      SplitStep(s, i, rest);
      [s[..i], Phrase] + rest
  }

  /** The parts of the split put together around the leftmost occurrence at `i`. */
  lemma SplitStep(s: string, i: nat, rest: seq<string>)
    requires OccursAt(s, i) && forall j: nat :: j < i ==> !OccursAt(s, j)
    requires |rest| % 2 == 1 && Concat(rest) == s[i + |Phrase|..]
    requires forall k :: 0 <= k < |rest| && k % 2 == 1 ==> rest[k] == Phrase
    requires forall k :: 0 <= k < |rest| && k % 2 == 0 ==> !Contains(rest[k])
    ensures var parts := [s[..i], Phrase] + rest;
      && |parts| % 2 == 1
      && Concat(parts) == s
      && (forall k :: 0 <= k < |parts| && k % 2 == 1 ==> parts[k] == Phrase)
      && (forall k :: 0 <= k < |parts| && k % 2 == 0 ==> !Contains(parts[k]))
  {
    var parts := [s[..i], Phrase] + rest;
    ConcatCons(s[..i], Phrase, rest);
    assert s == s[..i] + (s[i..i + |Phrase|] + s[i + |Phrase|..]);
    PrefixFree(s, i);
    assert forall k :: 2 <= k < |parts| ==> parts[k] == rest[k - 2];
  }

  lemma ConcatCons(a: string, b: string, rest: seq<string>)
    ensures Concat([a, b] + rest) == a + (b + Concat(rest))
  {
    var parts := [a, b] + rest;
    assert parts[1..] == [b] + rest;
    assert parts[1..][1..] == rest;
  }

  /** The text before the leftmost occurrence does not contain the phrase. */
  lemma PrefixFree(s: string, i: nat)
    requires i <= |s| && forall j: nat :: j < i ==> !OccursAt(s, j)
    ensures !Contains(s[..i])
  {
    forall j: nat | j <= i && OccursAt(s[..i], j) ensures false {
      assert s[..i][j..j + |Phrase|] == s[j..j + |Phrase|];
      assert OccursAt(s, j);
    }
  }

  /** A piece of rendered content: a plain text node or a highlighted `<span>`. */
  datatype Fragment = Plain(text: string) | Highlighted(text: string)

  /** `renderMessageContent`: each part equal to the phrase is highlighted. */
  function Render(content: string): seq<Fragment> {
    var parts := Split(content);
    seq(|parts|, k requires 0 <= k < |parts| => if parts[k] == Phrase then Highlighted(parts[k]) else Plain(parts[k]))
  }

  function Text(fragments: seq<Fragment>): string {
    if fragments == [] then "" else fragments[0].text + Text(fragments[1..])
  }

  lemma {:induction false} TextOfMap(fragments: seq<Fragment>, parts: seq<string>)
    requires |fragments| == |parts|
    requires forall k :: 0 <= k < |parts| ==> fragments[k].text == parts[k]
    ensures Text(fragments) == Concat(parts)
  {
    if parts != [] {
      TextOfMap(fragments[1..], parts[1..]);
    }
  }

  /**
   * The rendered message reads as the content, and exactly the odd-indexed
   * fragments (the captured phrase) are highlighted.
   */
  lemma RenderFaithful(content: string)
    ensures Text(Render(content)) == content
    ensures forall k :: 0 <= k < |Render(content)| ==> (Render(content)[k].Highlighted? <==> k % 2 == 1)
    ensures forall k :: 0 <= k < |Render(content)| && Render(content)[k].Highlighted? ==> Render(content)[k].text == Phrase
  {
    var parts := Split(content);
    TextOfMap(Render(content), parts);
    forall k | 0 <= k < |parts| && k % 2 == 0 ensures parts[k] != Phrase {
      assert !Contains(parts[k]);
      if parts[k] == Phrase {
        assert OccursAt(parts[k], 0);
      }
    }
  }

  /** Content without the phrase renders as one plain node. */
  lemma NoPhraseOnePart(content: string)
    requires !Contains(content)
    ensures Render(content) == [Plain(content)]
  {
  }

  // ---------------------------------------------------------------------
  // The message log

  datatype Role = User | Assistant

  datatype Message = Message(role: Role, content: string)

  /** The outcome of the remote call: its `text` (the empty string when absent), or a thrown error. */
  datatype Reply = Answered(text: string) | Failed

  /** The texts that differ between the two assistants. */
  datatype Copy = Copy(greeting: string, emptyReply: string, failure: string)

  datatype Chat = Chat(messages: seq<Message>, input: string, isLoading: bool)

  /** The first render: the greeting alone, an empty input, not loading. */
  function Start(copy: Copy): Chat {
    Chat([Message(Assistant, copy.greeting)], "", false)
  }

  /** The input's `onChange`. */
  function Type(c: Chat, text: string): Chat {
    c.(input := text)
  }

  /** The guard of `handleSend`: a blank input (the empty string is falsy) or a send while loading. */
  predicate Refused(c: Chat) {
    Trim(c.input) == "" || c.isLoading
  }

  /**
   * The synchronous part of `handleSend`: a blank input or a send while
   * loading does nothing; otherwise the input is appended verbatim as the
   * user's message, the input is cleared and loading starts.
   */
  function Send(c: Chat): Chat {
    if Refused(c) then c
    else Chat(c.messages + [Message(User, c.input)], "", true)
  }

  /**
   * The guard evaluated at run time, as `handleSend` does before anything
   * else: it refuses exactly an input made only of whitespace, or a send
   * while loading.
   */
  method CheckRefused(c: Chat) returns (refused: bool)
    ensures refused <==> IsBlank(c.input) || c.isLoading
  {
    TrimEmptyIffBlank(c.input);
    refused := Trim(c.input) == "" || c.isLoading;
  }

  /** The reply's text, the fallback text when the reply is empty, or the failure text when the call threw. */
  function ReplyText(r: Reply, copy: Copy): string {
    match r
    case Answered(text) => if text != "" then text else copy.emptyReply
    case Failed => copy.failure
  }

  /** The rest of `handleSend` once the call settles: one assistant message is appended and loading ends. */
  function Settle(c: Chat, r: Reply, copy: Copy): Chat {
    c.(messages := c.messages + [Message(Assistant, ReplyText(r, copy))], isLoading := false)
  }

  /** A blank or whitespace-only input, or a send while loading, leaves the chat as it was. */
  lemma SendGuard(c: Chat)
    requires IsBlank(c.input) || c.isLoading
    ensures Send(c) == c
  {
    TrimEmptyIffBlank(c.input);
  }

  /** Otherwise the send appends the input verbatim, clears it, and starts loading. */
  lemma SendAppends(c: Chat)
    requires !IsBlank(c.input) && !c.isLoading
    ensures Send(c).messages == c.messages + [Message(User, c.input)]
    ensures Send(c).input == "" && Send(c).isLoading
  {
    TrimEmptyIffBlank(c.input);
  }

  /** Exactly one assistant message is appended: the reply, its fallback when empty, or the failure text. */
  lemma SettleAppendsOne(c: Chat, r: Reply, copy: Copy)
    ensures |Settle(c, r, copy).messages| == |c.messages| + 1
    ensures Settle(c, r, copy).messages[..|c.messages|] == c.messages
    ensures Settle(c, r, copy).messages[|c.messages|].role == Assistant
    ensures r.Answered? && r.text != "" ==> Settle(c, r, copy).messages[|c.messages|].content == r.text
    ensures r.Answered? && r.text == "" ==> Settle(c, r, copy).messages[|c.messages|].content == copy.emptyReply
    ensures r.Failed? ==> Settle(c, r, copy).messages[|c.messages|].content == copy.failure
    ensures !Settle(c, r, copy).isLoading && Settle(c, r, copy).input == c.input
  {
  }

  /** The role the message at index `k` has in an alternating log. */
  function RoleAt(k: nat): Role {
    if k % 2 == 0 then Assistant else User
  }

  ghost predicate Alternating(messages: seq<Message>) {
    forall k :: 0 <= k < |messages| ==> messages[k].role == RoleAt(k)
  }

  /**
   * The log alternates: the greeting, then user and assistant messages in
   * turn; it ends with a user message exactly while a reply is awaited.
   */
  ghost predicate Alternates(c: Chat) {
    && |c.messages| >= 1
    && Alternating(c.messages)
    && (c.isLoading <==> |c.messages| % 2 == 0)
  }

  lemma AppendInTurn(messages: seq<Message>, m: Message)
    requires Alternating(messages) && m.role == RoleAt(|messages|)
    ensures Alternating(messages + [m])
  {
    var longer := messages + [m];
    forall k | 0 <= k < |longer| ensures longer[k].role == RoleAt(k) {
      if k < |messages| {
        assert longer[k] == messages[k];
      }
    }
  }

  lemma {:induction false} StepsKeepAlternation(c: Chat, text: string, r: Reply, copy: Copy)
    requires Alternates(c)
    ensures Alternates(Start(copy))
    ensures Alternates(Type(c, text)) && Alternates(Send(c))
    ensures c.isLoading ==> Alternates(Settle(c, r, copy))
  {
    SendKeepsAlternation(c);
    if c.isLoading {
      SettleKeepsAlternation(c, r, copy);
    }
  }

  lemma SendKeepsAlternation(c: Chat)
    requires Alternates(c)
    ensures Alternates(Send(c))
  {
    if !Refused(c) {
      AppendInTurn(c.messages, Message(User, c.input));
      assert Send(c).messages == c.messages + [Message(User, c.input)];
    }
  }

  lemma SettleKeepsAlternation(c: Chat, r: Reply, copy: Copy)
    requires Alternates(c) && c.isLoading
    ensures Alternates(Settle(c, r, copy))
  {
    AppendInTurn(c.messages, Message(Assistant, ReplyText(r, copy)));
  }

  /** An event the chat reacts to. */
  datatype Event = Typed(text: string) | Pressed | Replied(reply: Reply)

  function Step(c: Chat, e: Event, copy: Copy): Chat {
    match e
    case Typed(text) => Type(c, text)
    case Pressed => Send(c)
    case Replied(r) => Settle(c, r, copy)
  }

  function Run(c: Chat, events: seq<Event>, copy: Copy): Chat
    decreases |events|
  {
    if events == [] then c else Run(Step(c, events[0], copy), events[1..], copy)
  }

  /** The log is append-only: whatever happens, every earlier message stays, unchanged, where it was. */
  lemma {:induction false} AppendOnly(c: Chat, events: seq<Event>, copy: Copy)
    ensures |c.messages| <= |Run(c, events, copy).messages|
    ensures Run(c, events, copy).messages[..|c.messages|] == c.messages
    decreases |events|
  {
    if events != [] {
      var d := Step(c, events[0], copy);
      assert |c.messages| <= |d.messages| && d.messages[..|c.messages|] == c.messages;
      AppendOnly(d, events[1..], copy);
      var final := Run(c, events, copy).messages;
      assert final[..|d.messages|] == d.messages;
      assert final[..|c.messages|] == final[..|d.messages|][..|c.messages|];
    }
  }
}
