/**
 * The tutoring agent: checks for the model credential, renders a bounded
 * window of the conversation as `Role: content` lines, assembles the prompt
 * and labels the outcome. The language model is an oracle that answers a
 * prompt or raises.
 */
module Agent {
  import opened Records

  const MissingKeyMessage := "Error: GROQ_API_KEY not found in .env file."
  const ConfigFailedLabel := "Configuration Check Failed"
  const SuccessLabel := "Internal Knowledge (Llama 3 70B)"
  const CallFailedPrefix := "Error contacting Groq API: "
  const CallFailedLabel := "API Call Failed"

  /** How many of the most recent messages reach the prompt. */
  const WindowSize := 10

  /** What the model call gives back: its text, or the text of what it raised. */
  datatype LlmReply = Answered(content: string) | Raised(detail: string)

  /** `GROQ_API_KEY` is set and not empty. */
  predicate HasKey(apiKey: Option<string>) {
    apiKey.Some? && apiKey.value != ""
  }

  /** `chat_history[-10:] if chat_history else []`. */
  function Window(history: seq<Message>): (w: seq<Message>)
    ensures |w| == if |history| < WindowSize then |history| else WindowSize
    ensures w == history[|history| - |w|..]
  {
    if |history| <= WindowSize then history else history[|history| - WindowSize..]
  }

  /** Only the role `"user"` is shown as `User`; every other role as `Assistant`. */
  function RoleLabel(m: Message): (r: string)
    ensures r == "User" <==> m.role == Some("user")
    ensures r == "User" || r == "Assistant"
  {
    if m.role == Some("user") then "User" else "Assistant"
  }

  /** One rendered history line; missing content renders as nothing. */
  function Line(m: Message): (r: string)
    ensures |r| > 0 && r[|r| - 1] == '\n'
  {
    RoleLabel(m) + ": " + GetOr(m.content, "") + "\n"
  }

  /** The lines of `window`, oldest first. */
  function HistoryText(window: seq<Message>): string
    decreases |window|
  {
    if window == [] then ""
    else HistoryText(window[..|window| - 1]) + Line(window[|window| - 1])
  }

  /** The loop that builds `history_text`. */
  method FormatHistory(window: seq<Message>) returns (text: string)
    ensures text == HistoryText(window)
  {
    text := "";
    for i := 0 to |window|
      invariant text == HistoryText(window[..i])
    {
      var msg := window[i];
      var role := if msg.role == Some("user") then "User" else "Assistant";
      var content := GetOr(msg.content, "");
      var line := role + ": " + content + "\n";
      assert line == Line(msg);
      assert window[..i + 1][..i] == window[..i];
      text := text + line;
    }
    assert window[..|window|] == window;
  }

  lemma {:induction false} HistoryTextAppend(a: seq<Message>, b: seq<Message>)
    ensures HistoryText(a + b) == HistoryText(a) + HistoryText(b)
    decreases |b|
  {
    if b == [] {
      assert a + b == a;
    } else {
      var b', last := b[..|b| - 1], b[|b| - 1];
      assert (a + b)[..|a + b| - 1] == a + b';
      assert (a + b)[|a + b| - 1] == last;
      calc {
        HistoryText(a + b);
        HistoryText(a + b') + Line(last);
        { HistoryTextAppend(a, b'); }
        HistoryText(a) + HistoryText(b') + Line(last);
        HistoryText(a) + HistoryText(b);
      }
    }
  }

  /** The text is empty exactly when the window is. */
  lemma HistoryTextEmptyIff(window: seq<Message>)
    ensures HistoryText(window) == "" <==> window == []
  {
    if window != [] {
      assert |Line(window[|window| - 1])| > 0;
    }
  }

  /** Rendering works line by line from the front as well. */
  lemma HistoryTextCons(m: Message, rest: seq<Message>)
    ensures HistoryText([m] + rest) == Line(m) + HistoryText(rest)
  {
    HistoryTextAppend([m], rest);
    assert [m][..0] == [];
  }

  /**
   * When the history ends with the user's turn, the rendered window ends
   * with that turn's `User:` line.
   */
  lemma CurrentTurnIsLastLine(prior: seq<Message>, message: string)
    ensures var text := HistoryText(Window(prior + [UserTurn(message)]));
            var line := "User: " + message + "\n";
            |line| <= |text| && text[|text| - |line|..] == line
  {
    var h := prior + [UserTurn(message)];
    var w := Window(h);
    assert w[|w| - 1] == UserTurn(message);
    assert Line(UserTurn(message)) == "User: " + message + "\n";
  }

  const PromptHead := @"You are a strict but helpful Tutor for Operating Systems (based on Silberschatz OS Concepts).

        Your Goal: Answer the user's question about Operating Systems.
        
        STRICT RULES:
        1. Answer ONLY questions related to Operating Systems, Computer Science, or Coding.
        2. If the user asks about anything else (e.g., General Knowledge, Sports, Movies, Geography), politely REFUSE.
           - Example Refusal: ""I am an OS Tutor. I can only answer questions about Operating Systems.""
        3. Use the Conversation History to understand context (e.g. ""What about threads?"" refers to previous topic).
        
        DIAGRAM GENERATION RULES:
        1. If key concepts are discussed, generate a Mermaid.js diagram.
        2. SYNTAX ""GOLDEN RULES"" (CRITICAL):
           - ALWAYS use double QUOTES for node labels: `id[""Label Text""]`. NEVER `id[Label Text]`.
           - Node IDs must NOT contain spaces or special chars. Use `node1` not `node 1`.
           - AVOID special characters inside quotes if possible. Encode if necessary.
           - Use `graph TD` (Top-Down) or `graph LR` (Left-Right) for flows.
           - Use `sequenceDiagram` for steps.
           - FOR GANTT CHARTS (Scheduling):
             - MUST use `dateFormat s` and `axisFormat %s`.
             - Start from 0. Do NOT use dates (2024-...).
             - Example: `Process P1 : active, 0, 5s`
           - FOR MLFQ / Multilevel Queue: Use `graph TD` (Flowchart) only. Do NOT use Gantt or Block diagrams for logic explanation.
        3. EXAMPLES:
           - Process: `graph LR; A[""Start""] --> B[""Process""];`
           - Hierarchy: `graph TD; Parent[""Parent""] --> Child[""Child""];`
        4. Do NOT use `block-beta` or `mindmap`.
        5. Output ONLY valid Markdown with `mermaid` tag.
        
        Conversation History:
        "

  const PromptMiddle := @"
        
        Current Question:
        "

  const PromptTail := @"
        "

  /** Five strings laid end to end, and where each one sits. */
  function Concat5(a: string, b: string, c: string, d: string, e: string): (p: string)
    ensures |p| == |a| + |b| + |c| + |d| + |e|
    ensures p[..|a|] == a
    ensures p[|a|..|a| + |b|] == b
    ensures p[|a| + |b| + |c|..|p| - |e|] == d
  {
    a + b + c + d + e
  }

  /** The f-string of the prompt around `history_text` and `user_message`. */
  function Prompt(historyText: string, userMessage: string): (p: string)
    ensures |p| == |PromptHead| + |historyText| + |PromptMiddle| + |userMessage| + |PromptTail|
    ensures p[..|PromptHead|] == PromptHead
    ensures p[|PromptHead|..|PromptHead| + |historyText|] == historyText
    ensures p[|PromptHead| + |historyText| + |PromptMiddle|..|p| - |PromptTail|] == userMessage
  {
    Concat5(PromptHead, historyText, PromptMiddle, userMessage, PromptTail)
  }

  /**
   * Within one question the prompt tells histories apart, and within one
   * history it tells questions apart.
   */
  lemma PromptSeparates(h1: string, q1: string, h2: string, q2: string)
    requires h1 == h2 || q1 == q2
    requires Prompt(h1, q1) == Prompt(h2, q2)
    ensures h1 == h2 && q1 == q2
  {
    var p := Prompt(h1, q1);
    assert |h1| == |h2| && |q1| == |q2|;
  }

  /**
   * `agent(user_message, chat_history)`. Also returns the prompt that went
   * to the model, `None` when the model was not called.
   */
  method Agent(userMessage: string, chatHistory: seq<Message>, apiKey: Option<string>, llm: string -> LlmReply)
    returns (response: string, mode: string, sent: Option<string>)
    ensures !HasKey(apiKey) ==> response == MissingKeyMessage && mode == ConfigFailedLabel && sent == None
    ensures HasKey(apiKey) ==> sent == Some(Prompt(HistoryText(Window(chatHistory)), userMessage))
    ensures HasKey(apiKey) && llm(sent.value).Answered? ==>
              response == llm(sent.value).content && mode == SuccessLabel
    ensures HasKey(apiKey) && llm(sent.value).Raised? ==>
              response == CallFailedPrefix + llm(sent.value).detail && mode == CallFailedLabel
  {
    if apiKey.None? || apiKey.value == "" {
      return MissingKeyMessage, ConfigFailedLabel, None;
    }
    var recent := if chatHistory != [] then Window(chatHistory) else [];
    var historyText := FormatHistory(recent);
    var prompt := Prompt(historyText, userMessage);
    sent := Some(prompt);
    match llm(prompt)
    case Answered(content) =>
      response, mode := content, SuccessLabel;
    case Raised(detail) =>
      response, mode := CallFailedPrefix + detail, CallFailedLabel;
  }
}
