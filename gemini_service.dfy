/**
 * The text side of the Gemini service module (services/geminiService.ts):
 * the reply sanitiser, the chat prompt built from a history, the
 * missing-key short-circuits and the image-description wrapper. The API
 * keys, the client and the remote model are parameters: the keys as
 * optional strings, the model as a function from the prompt it is sent to
 * the outcome of the call.
 */
module GeminiService {
  import opened Text
  import opened Types

  // ---------------------------------------------------------------------
  // The reply sanitiser.
  // ---------------------------------------------------------------------

  /** The characters the sanitiser deletes: the Markdown marks '*' and '#'. */
  predicate IsMark(c: char) {
    c == '*' || c == '#'
  }

  predicate NoMarks(s: string) {
    forall i :: 0 <= i < |s| ==> !IsMark(s[i])
  }

  /** `s` keeps some of the characters of `t`, in their order. */
  predicate IsSubsequence(s: string, t: string)
    decreases |t|
  {
    if s == [] then true
    else if t == [] then false
    else if s[0] == t[0] then IsSubsequence(s[1..], t[1..])
    else IsSubsequence(s, t[1..])
  }

  /** `text.replace(/[\*#]/g, '')`: every '*' and '#' removed, everything else kept in order. */
  function RemoveMarks(s: string): (r: string)
    ensures NoMarks(r)
    ensures |r| <= |s|
  {
    if s == [] then []
    else if IsMark(s[0]) then RemoveMarks(s[1..])
    else [s[0]] + RemoveMarks(s[1..])
  }

  /** `cleanResponse`: the empty string stays empty; otherwise the marks go and the result is trimmed. */
  function CleanResponse(text: string): string {
    if text == "" then "" else Trim(RemoveMarks(text))
  }

  /** The sanitised text holds no '*' and no '#'. */
  lemma CleanHasNoMarks(text: string)
    ensures var r := CleanResponse(text); '*' !in r && '#' !in r
  {
    var r := CleanResponse(text);
    if text != "" {
      var m := RemoveMarks(text);
      var i, j := TrimIsSlice(m);
      SliceHasNoMarks(m, i, j);
    }
    NoMarksLacksBoth(r);
  }

  /** A stretch of text without marks has none. */
  lemma SliceHasNoMarks(m: string, i: nat, j: nat)
    requires NoMarks(m) && i <= j <= |m|
    ensures NoMarks(m[i..j])
  {
    assert forall k :: 0 <= k < j - i ==> m[i..j][k] == m[i + k];
  }

  lemma NoMarksLacksBoth(s: string)
    requires NoMarks(s)
    ensures '*' !in s && '#' !in s
  {
  }

  /** The sanitised text has no whitespace at either end, and the empty text gives "". */
  lemma CleanIsTrimmed(text: string)
    ensures var r := CleanResponse(text); r == [] || (!IsWhitespace(r[0]) && !IsWhitespace(r[|r| - 1]))
    ensures text == "" ==> CleanResponse(text) == ""
  {
    if text != "" {
      var m := RemoveMarks(text);
      assert CleanResponse(text) == Trim(m);
      var _, _ := TrimIsSlice(m);
    }
  }

  /** Deleting characters leaves a subsequence. */
  lemma {:induction false} RemoveMarksIsSubsequence(s: string)
    ensures IsSubsequence(RemoveMarks(s), s)
  {
    if s != [] {
      RemoveMarksIsSubsequence(s[1..]);
      if IsMark(s[0]) {
        SubsequenceOfTail(RemoveMarks(s[1..]), s);
      }
    }
  }

  /** A subsequence of a string's tail is one of the string. */
  lemma {:induction false} SubsequenceOfTail(s: string, t: string)
    requires t != [] && IsSubsequence(s, t[1..])
    ensures IsSubsequence(s, t)
    decreases |t|
  {
    if s != [] && s[0] == t[0] {
      SubsequenceDropFirst(s, t[1..]);
      SubsequenceOfTail(s[1..], t[1..]);
    }
  }

  /** Dropping the first character of a subsequence leaves a subsequence of the same string's tail. */
  lemma {:induction false} SubsequenceDropFirst(s: string, t: string)
    requires s != [] && IsSubsequence(s, t)
    ensures t != [] && IsSubsequence(s[1..], t[1..])
    decreases |t|
  {
    if s[0] != t[0] {
      SubsequenceDropFirst(s, t[1..]);
      SubsequenceOfTail(s[1..], t[1..]);
    }
  }

  /** Any contiguous stretch is a subsequence. */
  lemma {:induction false} SliceIsSubsequence(t: string, i: nat, j: nat)
    requires i <= j <= |t|
    ensures IsSubsequence(t[i..j], t)
    decreases |t|
  {
    if i < j {
      assert t[i..j][0] == t[i];
      if i == 0 {
        assert t[i..j][1..] == t[1..][0..j - 1];
        SliceIsSubsequence(t[1..], 0, j - 1);
      } else {
        assert t[i..j] == t[1..][i - 1..j - 1];
        SliceIsSubsequence(t[1..], i - 1, j - 1);
        SubsequenceOfTail(t[i..j], t);
      }
    }
  }

  /** Subsequences of subsequences are subsequences. */
  lemma {:induction false} SubsequenceTransitive(r: string, s: string, t: string)
    requires IsSubsequence(r, s) && IsSubsequence(s, t)
    ensures IsSubsequence(r, t)
    decreases |t|
  {
    if r != [] {
      SubsequenceDropFirst(s, t);
      if r[0] == s[0] {
        if s[0] == t[0] {
          SubsequenceTransitive(r[1..], s[1..], t[1..]);
        } else {
          SubsequenceTransitive(r, s, t[1..]);
          SubsequenceOfTail(r, t);
        }
      } else {
        SubsequenceDropFirst(r, s);
        if s[0] == t[0] {
          SubsequenceTransitive(r, s[1..], t[1..]);
        } else {
          SubsequenceTransitive(r, s, t[1..]);
        }
        SubsequenceOfTail(r, t);
      }
    }
  }

  /** The sanitised text keeps characters of the input in their order. */
  lemma CleanIsSubsequence(text: string)
    ensures IsSubsequence(CleanResponse(text), text)
  {
    if text != "" {
      var m := RemoveMarks(text);
      var i, j := TrimIsSlice(m);
      SliceIsSubsequence(m, i, j);
      RemoveMarksIsSubsequence(text);
      SubsequenceTransitive(CleanResponse(text), m, text);
    }
  }

  /** Text without marks passes the mark removal unchanged. */
  lemma {:induction false} RemoveMarksKeepsUnmarked(s: string)
    requires NoMarks(s)
    ensures RemoveMarks(s) == s
  {
    if s != [] {
      assert NoMarks(s[1..]) by { assert forall i :: 0 <= i < |s| - 1 ==> s[1..][i] == s[i + 1]; }
      RemoveMarksKeepsUnmarked(s[1..]);
    }
  }

  /** Cleaning a cleaned text changes nothing. */
  lemma CleanIdempotent(text: string)
    ensures CleanResponse(CleanResponse(text)) == CleanResponse(text)
  {
    var r := CleanResponse(text);
    if text != "" && r != "" {
      var m := RemoveMarks(text);
      var i, j := TrimIsSlice(m);
      SliceHasNoMarks(m, i, j);
      RemoveMarksKeepsUnmarked(r);
      TrimOfTrimmed(r);
    }
  }

  // ---------------------------------------------------------------------
  // The chat prompt.
  // ---------------------------------------------------------------------

  /** One history turn as the prompt shows it: "role: text". */
  function TurnLine(m: Message): string {
    RoleName(m.role) + ": " + m.text
  }

  /** `history.map(h => `${h.role}: ${h.text}`)`. */
  function TurnLines(history: seq<Message>): (lines: seq<string>)
    ensures |lines| == |history|
    ensures forall i :: 0 <= i < |history| ==> lines[i] == TurnLine(history[i])
  {
    if history == [] then [] else [TurnLine(history[0])] + TurnLines(history[1..])
  }

  /** The flattened history: the turn lines joined by newlines. */
  function HistoryText(history: seq<Message>): string {
    Join(TurnLines(history), "\n")
  }

  /** The last part of every chat prompt, after the history. */
  function PromptTail(text: string): string {
    "\nuser: " + text + "\n(Reply as a helpful AI assistant)"
  }

  /** The prompt `generateMarketingChat` sends: the flattened history, then the new turn. */
  function ChatPrompt(history: seq<Message>, text: string): string {
    HistoryText(history) + PromptTail(text)
  }

  /**
   * Every turn of the history appears in the prompt, in order, each
   * followed by a newline: turn i sits at the offset of line i, and no turn
   * is dropped or reordered.
   */
  lemma PromptShowsTurn(history: seq<Message>, text: string, i: nat)
    requires i < |history|
    ensures var o := JoinOffset(TurnLines(history), "\n", i);
            o + |TurnLine(history[i])| < |ChatPrompt(history, text)| &&
            ChatPrompt(history, text)[o..o + |TurnLine(history[i])|] == TurnLine(history[i]) &&
            ChatPrompt(history, text)[o + |TurnLine(history[i])|] == '\n'
  {
    var lines, tail := TurnLines(history), PromptTail(text);
    assert lines[i] == TurnLine(history[i]);
    TailOpensLine(text);
    PartThenNewline(lines, i, tail, ChatPrompt(history, text));
  }

  /** The text after the history starts on a new line. */
  lemma TailOpensLine(text: string)
    ensures PromptTail(text) != [] && PromptTail(text)[0] == '\n'
  {
    assert PromptTail(text) == "\nuser: " + (text + "\n(Reply as a helpful AI assistant)");
  }

  /** In a newline join followed by a text opening with a newline, every part is followed by a newline. */
  lemma PartThenNewline(lines: seq<string>, i: nat, tail: string, p: string)
    requires i < |lines| && tail != [] && tail[0] == '\n'
    requires p == Join(lines, "\n") + tail
    ensures var o, n := JoinOffset(lines, "\n", i), |lines[i]|;
            o + n < |p| && p[o..o + n] == lines[i] && p[o + n] == '\n'
  {
    var o := JoinOffset(lines, "\n", i);
    var n := |lines[i]|;
    var h := Join(lines, "\n");
    JoinAt(lines, "\n", i);
    SliceOfPrefix(h, tail, o, o + n);
    if i + 1 < |lines| {
      assert h[o + n..o + n + 1] == "\n";
      assert (h + tail)[o + n] == h[o + n];
    } else {
      JoinLastEnds(lines, "\n", i);
      assert (h + tail)[o + n] == tail[0];
    }
  }

  /** The last part of a join ends it. */
  lemma {:induction false} JoinLastEnds(parts: seq<string>, sep: string, i: nat)
    requires i + 1 == |parts|
    ensures JoinOffset(parts, sep, i) + |parts[i]| == |Join(parts, sep)|
  {
    if i > 0 {
      assert parts == [parts[0]] + parts[1..];
      JoinCons(parts[0], parts[1..], sep);
      JoinLastEnds(parts[1..], sep, i - 1);
    }
  }

  /** The prompt ends with the new user turn and the reply request. */
  lemma PromptEndsWithTurn(history: seq<Message>, text: string)
    ensures var p := ChatPrompt(history, text);
            |PromptTail(text)| <= |p| && p[|p| - |PromptTail(text)|..] == "\nuser: " + text + "\n(Reply as a helpful AI assistant)"
  {
    var p := ChatPrompt(history, text);
    assert p[|HistoryText(history)|..] == PromptTail(text);
  }

  /** Histories that agree on roles and texts give the same prompt: attached images are not sent. */
  lemma PromptIgnoresImages(h1: seq<Message>, h2: seq<Message>, text: string)
    requires |h1| == |h2|
    requires forall i :: 0 <= i < |h1| ==> h1[i].role == h2[i].role && h1[i].text == h2[i].text
    ensures ChatPrompt(h1, text) == ChatPrompt(h2, text)
  {
    assert TurnLines(h1) == TurnLines(h2);
  }

  /** Parts free of the separator come back out of their join. */
  lemma {:induction false} SplitJoin(parts: seq<string>, sep: char)
    requires |parts| >= 1
    requires forall i :: 0 <= i < |parts| ==> sep !in parts[i]
    ensures Split(Join(parts, [sep]), sep) == parts
  {
    if |parts| == 1 {
      SplitWithout(parts[0], sep);
    } else {
      var tail := parts[1..];
      assert parts == [parts[0]] + tail;
      JoinCons(parts[0], tail, [sep]);
      SplitAt(parts[0], sep, Join(tail, [sep]));
      SplitJoin(tail, sep);
    }
  }

  /** A turn whose text has no newline is shown on one line. */
  lemma TurnLineOneLine(m: Message)
    requires '\n' !in m.text
    ensures '\n' !in TurnLine(m)
  {
    assert '\n' !in RoleName(m.role);
    assert '\n' !in ": ";
  }

  /** When no turn contains a newline, the turns can be read back from the flattened history. */
  lemma HistoryTextLines(history: seq<Message>)
    requires history != []
    requires forall i :: 0 <= i < |history| ==> '\n' !in history[i].text
    ensures Split(HistoryText(history), '\n') == TurnLines(history)
  {
    var lines := TurnLines(history);
    forall i | 0 <= i < |lines| ensures '\n' !in lines[i] {
      TurnLineOneLine(history[i]);
    }
    SplitJoin(lines, '\n');
  }

  // ---------------------------------------------------------------------
  // The service calls.
  // ---------------------------------------------------------------------

  /** A client of the Gemini API, made with an API key. */
  datatype Client = Client(apiKey: string)

  /**
   * `getClient`: a client made with the first non-empty key of the two
   * environment variables, or none when both are missing or empty.
   */
  function GetClient(geminiKey: Option<string>, googleKey: Option<string>): (c: Option<Client>)
    ensures c.None? <==> !Truthy(geminiKey) && !Truthy(googleKey)
    ensures Truthy(geminiKey) ==> c == Some(Client(geminiKey.value))
    ensures !Truthy(geminiKey) && Truthy(googleKey) ==> c == Some(Client(googleKey.value))
  {
    if Truthy(geminiKey) then Some(Client(geminiKey.value))
    else if Truthy(googleKey) then Some(Client(googleKey.value))
    else None
  }

  /**
   * What a call to the remote model does: it fails (the promise rejects or
   * reading the reply throws), or it returns a reply whose text may be
   * missing.
   */
  datatype Outcome = Failed | Returned(text: Option<string>)

  /**
   * The arguments the chat tools pass to `generateMarketingChat`: the
   * history, the text of the new turn and the images of the new turn. The
   * function reads only the first two.
   */
  datatype ChatArgs = ChatArgs(history: seq<Message>, text: string, images: seq<string>)

  /** The answer of a service function: the prompt it sent to the model, if any, and the text it returns. */
  datatype Answer = Answer(sent: Option<string>, text: string)

  /**
   * `generateMarketingChat(history, text)`: without a client, a fixed error
   * and no call; otherwise the chat prompt is sent, a failure gives a fixed
   * apology, and a reply is sanitised ("No response." when it is missing or
   * empty).
   */
  function MarketingChat(client: Option<Client>, history: seq<Message>, text: string,
                         model: string -> Outcome): (a: Answer)
    ensures client.None? <==> a.sent.None?
    ensures client.None? ==> a.text == "Error: API Key is missing."
    ensures client.Some? ==> a.sent == Some(ChatPrompt(history, text))
    ensures client.Some? && model(ChatPrompt(history, text)).Failed? ==>
      a.text == "I cannot connect right now. Please check your internet."
  {
    if client.None? then Answer(None, "Error: API Key is missing.")
    else
      var prompt := ChatPrompt(history, text);
      match model(prompt)
      case Failed => Answer(Some(prompt), "I cannot connect right now. Please check your internet.")
      case Returned(reply) => Answer(Some(prompt), CleanResponse(if Truthy(reply) then reply.value else "No response."))
  }

  /** A chat reply that came back is the sanitised reply text, or "No response." when there is none. */
  lemma ChatReplyIsCleaned(client: Option<Client>, history: seq<Message>, text: string, model: string -> Outcome)
    requires client.Some? && model(ChatPrompt(history, text)).Returned?
    ensures var a := MarketingChat(client, history, text, model);
            var reply := model(ChatPrompt(history, text)).text;
            '*' !in a.text && '#' !in a.text &&
            (Truthy(reply) ==> IsSubsequence(a.text, reply.value)) &&
            (!Truthy(reply) ==> a.text == "No response.")
  {
    var reply := model(ChatPrompt(history, text)).text;
    var a := MarketingChat(client, history, text, model);
    if Truthy(reply) {
      CleanHasNoMarks(reply.value);
      CleanIsSubsequence(reply.value);
    } else {
      NoResponseIsClean();
    }
  }

  /** "No response." comes through the sanitiser unchanged. */
  lemma NoResponseIsClean()
    ensures CleanResponse("No response.") == "No response."
  {
    var s := "No response.";
    assert NoMarks(s);
    assert !IsWhitespace(s[0]) && !IsWhitespace(s[|s| - 1]);
    CleanKeepsClean(s);
  }

  /** A non-empty text without marks and without whitespace at its ends is already clean. */
  lemma CleanKeepsClean(s: string)
    requires s != [] && NoMarks(s) && !IsWhitespace(s[0]) && !IsWhitespace(s[|s| - 1])
    ensures CleanResponse(s) == s
  {
    RemoveMarksKeepsUnmarked(s);
    TrimOfTrimmed(s);
  }

  /**
   * `generateText(prompt)`: without a client, a fixed error and no call;
   * otherwise the prompt is sent, a failure gives a fixed message, and a
   * reply is sanitised ("" when it is missing).
   */
  function GenerateText(client: Option<Client>, prompt: string, model: string -> Outcome): (a: Answer)
    ensures client.None? <==> a.sent.None?
    ensures client.None? ==> a.text == "Error: API Key missing."
    ensures client.Some? ==> a.sent == Some(prompt)
    ensures client.Some? && model(prompt).Failed? ==> a.text == "Text generation failed."
  {
    if client.None? then Answer(None, "Error: API Key missing.")
    else
      match model(prompt)
      case Failed => Answer(Some(prompt), "Text generation failed.")
      case Returned(reply) => Answer(Some(prompt), CleanResponse(if Truthy(reply) then reply.value else ""))
  }

  /** A generated text that came back is sanitised: no marks, trimmed, drawn from the reply. */
  lemma GeneratedTextIsCleaned(client: Option<Client>, prompt: string, model: string -> Outcome)
    requires client.Some? && model(prompt).Returned?
    ensures var a := GenerateText(client, prompt, model);
            var reply := model(prompt).text;
            '*' !in a.text && '#' !in a.text &&
            (a.text == [] || (!IsWhitespace(a.text[0]) && !IsWhitespace(a.text[|a.text| - 1]))) &&
            (Truthy(reply) ==> IsSubsequence(a.text, reply.value)) &&
            (!Truthy(reply) ==> a.text == "")
  {
    var reply := model(prompt).text;
    var t := if Truthy(reply) then reply.value else "";
    CleanHasNoMarks(t);
    CleanIsTrimmed(t);
    CleanIsSubsequence(t);
  }

  const ImageUnavailable: string := "(Image generation is currently unavailable. Description: "

  /**
   * `generateOrEditImage(prompt)`: the model is asked to describe the image
   * and the description is wrapped in a notice. The description never
   * throws, so the wrapper's own failure message is never produced.
   */
  function GenerateOrEditImage(client: Option<Client>, prompt: string, model: string -> Outcome): (a: Answer)
    ensures a.sent == GenerateText(client, "Describe an image of: " + prompt, model).sent
    ensures |ImageUnavailable| < |a.text| && a.text[..|ImageUnavailable|] == ImageUnavailable && a.text[|a.text| - 1] == ')'
    ensures a.text[|ImageUnavailable|..|a.text| - 1] == GenerateText(client, "Describe an image of: " + prompt, model).text
  {
    var d := GenerateText(client, "Describe an image of: " + prompt, model);
    Parenthesised(ImageUnavailable, d.text);
    Answer(d.sent, ImageUnavailable + d.text + ")")
  }

  /** A text placed after a notice and closed by ')' can be read back between them. */
  lemma Parenthesised(notice: string, text: string)
    ensures var t := notice + text + ")";
      |notice| < |t| && t[..|notice|] == notice && t[|t| - 1] == ')' && t[|notice|..|t| - 1] == text
  {
    var t := notice + text + ")";
    assert t[..|notice|] == notice;
    assert t[|notice|..|t| - 1] == text;
  }
}
