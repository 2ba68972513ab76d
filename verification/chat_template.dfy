/**
 * The Llama-3 chat template of the Rust library front end: a role renders as
 * its lower-case name, a message as a header/eot block, and a chat as the
 * begin-of-text marker, the messages in order, and an open assistant header.
 */
module ChatTemplate {
  import opened Wrappers

  const BeginOfText := "<|begin_of_text|>"
  const StartHeader := "<|start_header_id|>"
  const EndHeader := "<|end_header_id|>"
  const EndOfTurn := "<|eot_id|>"

  /** The system instruction `prompt` puts before the user's text. */
  const SystemInstruction := "You are a helpful assistant. Respond using one sentence"

  datatype Role = System | User | Assistant

  datatype ChatMessage = ChatMessage(role: Role, content: string)

  /** The `Display` / serde name of a role: a non-empty lower-case word. */
  function RoleName(r: Role): (name: string)
    ensures |name| > 0
    ensures forall i :: 0 <= i < |name| ==> 'a' <= name[i] <= 'z'
  {
    match r
    case System => "system"
    case User => "user"
    case Assistant => "assistant"
  }

  /** Reading a role back from its name, as serde's `rename` does. */
  function ParseRole(name: string): (r: Option<Role>)
    ensures r.Some? ==> RoleName(r.value) == name
    ensures forall role :: RoleName(role) == name ==> r == Some(role)
  {
    if name == "system" then Some(System)
    else if name == "user" then Some(User)
    else if name == "assistant" then Some(Assistant)
    else None
  }

  /** The header that opens a turn of `role`. */
  function Header(role: Role): string
  {
    StartHeader + RoleName(role) + EndHeader
  }

  /** `ChatMessage::to_string`. */
  function RenderMessage(m: ChatMessage): (s: string)
    ensures |s| == |StartHeader| + |RoleName(m.role)| + |EndHeader| + |m.content| + |EndOfTurn|
  {
    Header(m.role) + m.content + EndOfTurn
  }

  /**
   * The rendered messages, concatenated in list order with nothing between
   * them. Every rendered message is non-empty, so only the empty list
   * renders to the empty string.
   */
  function RenderAll(messages: seq<ChatMessage>): (s: string)
    ensures s == "" <==> messages == []
    ensures |messages| == 1 ==> s == RenderMessage(messages[0])
  {
    if messages == [] then "" else RenderMessage(messages[0]) + RenderAll(messages[1..])
  }

  /** `chat`'s prompt string. */
  function RenderChat(messages: seq<ChatMessage>): (s: string)
    ensures |s| == |BeginOfText| + |RenderAll(messages)| + |Header(Assistant)|
    ensures s[..|BeginOfText|] == BeginOfText
    ensures s[|s| - |Header(Assistant)|..] == Header(Assistant)
    ensures s[|BeginOfText|..|s| - |Header(Assistant)|] == RenderAll(messages)
  {
    BeginOfText + RenderAll(messages) + Header(Assistant)
  }

  /** `prompt`'s message list: the fixed system instruction, then the user's text. */
  function PromptMessages(text: string): (ms: seq<ChatMessage>)
    ensures |ms| == 2
    ensures ms[0].role == System && ms[0].content == SystemInstruction
    ensures ms[1].role == User && ms[1].content == text
  {
    [ChatMessage(System, SystemInstruction), ChatMessage(User, text)]
  }

  // ---- Reading a rendered message back ----

  /** The role whose header opens `s`, if any. */
  function ParseHeader(s: string): (r: Option<Role>)
    ensures r.Some? ==> |Header(r.value)| <= |s| && s[..|Header(r.value)|] == Header(r.value)
  {
    if |Header(System)| <= |s| && s[..|Header(System)|] == Header(System) then Some(System)
    else if |Header(User)| <= |s| && s[..|Header(User)|] == Header(User) then Some(User)
    else if |Header(Assistant)| <= |s| && s[..|Header(Assistant)|] == Header(Assistant) then Some(Assistant)
    else None
  }

  /** Splits one rendered message into its role and content. */
  function ParseMessage(s: string): (r: Option<ChatMessage>)
    ensures r.Some? ==> RenderMessage(r.value) == s
  {
    match ParseHeader(s)
    case None => None
    case Some(role) =>
      var h := |Header(role)|;
      if |s| >= h + |EndOfTurn| && s[|s| - |EndOfTurn|..] == EndOfTurn then
        var m := ChatMessage(role, s[h..|s| - |EndOfTurn|]);
        assert s == Header(role) + m.content + EndOfTurn;
        Some(m)
      else None
  }

  /** Only the header of its own role opens a rendered message. */
  lemma HeaderOfRendered(m: ChatMessage)
    ensures ParseHeader(RenderMessage(m)) == Some(m.role)
  {
    var s := RenderMessage(m);
    assert s[..|Header(m.role)|] == Header(m.role);
    match m.role
    case System =>
    case User =>
      assert s[|StartHeader|] == 'u';
      assert Header(System)[|StartHeader|] == 's';
    case Assistant =>
      assert s[|StartHeader|] == 'a';
      assert Header(System)[|StartHeader|] == 's';
      assert Header(User)[|StartHeader|] == 'u';
  }

  /** Rendering then reading a message gives it back. */
  lemma ParseRenderRoundTrip(m: ChatMessage)
    ensures ParseMessage(RenderMessage(m)) == Some(m)
  {
    var s := RenderMessage(m);
    HeaderOfRendered(m);
    assert s[|s| - |EndOfTurn|..] == EndOfTurn;
    assert s[|Header(m.role)|..|s| - |EndOfTurn|] == m.content;
  }

  /** Two messages render alike only if they are equal. */
  lemma RenderInjective(m1: ChatMessage, m2: ChatMessage)
    requires RenderMessage(m1) == RenderMessage(m2)
    ensures m1 == m2
  {
    ParseRenderRoundTrip(m1);
    ParseRenderRoundTrip(m2);
  }

  // ---- Laws of the chat prompt ----

  /** Rendering a list distributes over concatenation: messages appear in list order. */
  lemma {:induction false} RenderAllAppend(a: seq<ChatMessage>, b: seq<ChatMessage>)
    ensures RenderAll(a + b) == RenderAll(a) + RenderAll(b)
    decreases |a|
  {
    if a == [] {
      assert a + b == b;
    } else {
      assert (a + b)[1..] == a[1..] + b;
      RenderAllAppend(a[1..], b);
    }
  }

  /** Sum of the rendered lengths of `messages`. */
  function RenderedLength(messages: seq<ChatMessage>): nat
  {
    if messages == [] then 0 else |RenderMessage(messages[0])| + RenderedLength(messages[1..])
  }

  /** The prompt's length is the prefix, each rendered message, and the suffix. */
  lemma {:induction false} RenderChatLength(messages: seq<ChatMessage>)
    ensures |RenderChat(messages)| == |BeginOfText| + RenderedLength(messages) + |Header(Assistant)|
  {
    RenderAllLength(messages);
  }

  lemma {:induction false} RenderAllLength(messages: seq<ChatMessage>)
    ensures |RenderAll(messages)| == RenderedLength(messages)
    decreases |messages|
  {
    if messages != [] {
      RenderAllLength(messages[1..]);
    }
  }

  /** With no messages the prompt is the prefix followed by the assistant header. */
  lemma EmptyChat()
    ensures RenderChat([]) == BeginOfText + StartHeader + "assistant" + EndHeader
  {
    assert RenderAll([]) == "";
  }

  /** The exact prompt string `prompt` sends for a user text. */
  lemma PromptText(text: string)
    ensures RenderChat(PromptMessages(text)) ==
      BeginOfText
      + Header(System) + SystemInstruction + EndOfTurn
      + Header(User) + text + EndOfTurn
      + Header(Assistant)
  {
    var ms := PromptMessages(text);
    assert ms[1..][1..] == [];
    assert RenderAll(ms[1..][1..]) == [];
    var m0 := RenderMessage(ms[0]);
    var m1 := RenderMessage(ms[1]);
    assert RenderAll(ms[1..]) == m1 + [];
    assert RenderAll(ms) == m0 + m1;
    Concat8(BeginOfText, Header(System), SystemInstruction, EndOfTurn, Header(User), text, EndOfTurn, Header(Assistant));
  }

  lemma Concat8(a: string, b: string, c: string, d: string, e: string, f: string, g: string, h: string)
    ensures a + (b + c + d + (e + f + g)) + h == a + b + c + d + e + f + g + h
  {
  }
}
