/**
 * The chat state of the content-writer tool (components/tools/Copywriter.tsx):
 * sending a turn, the reply or the error that ends it, the attachments
 * that go with the next turn, and the export of a message to a document.
 */
module Copywriter {
  import opened Text
  import opened Types
  import opened GeminiService

  datatype AttachmentKind = ImageAttachment | TextAttachment | DocAttachment

  /** An attached file: its content (a data URL for an image, the text otherwise), kind and name. */
  datatype Attachment = Attachment(data: string, kind: AttachmentKind, name: string)

  const Greeting: string :=
    "Pro Content Writer Online. I handle high-speed copywriting and complex enquiry responses. "
    + "Simply type your request or click a strategy model below to apply a specific framework. "
    + "All output is strictly plain text."

  const ReplyError: string := "Direct response error. Please retry."

  /** An uploaded file as an attachment: an image when its MIME type starts with "image/", text otherwise. */
  function AttachmentOf(file: Upload): (a: Attachment)
    ensures a.kind == ImageAttachment <==> StartsWith(file.mimeType, "image/")
    ensures a.kind != DocAttachment && a.name == file.name
    ensures a.data == if a.kind == ImageAttachment then file.asDataUrl else file.asText
  {
    if StartsWith(file.mimeType, "image/") then Attachment(file.asDataUrl, ImageAttachment, file.name)
    else Attachment(file.asText, TextAttachment, file.name)
  }

  /** `attachments.filter(a => a.type === 'image').map(a => a.data)`. */
  function ImagesOf(atts: seq<Attachment>): (r: seq<string>)
    ensures |r| <= |atts|
    ensures forall x :: x in r ==> exists a :: a in atts && a.kind == ImageAttachment && a.data == x
  {
    if atts == [] then []
    else
      var rest := ImagesOf(atts[1..]);
      assert forall a :: a in atts[1..] ==> a in atts;
      if atts[0].kind == ImageAttachment then [atts[0].data] + rest else rest
  }

  /** The images of two lists of attachments are those of the first, then those of the second. */
  lemma {:induction false} ImagesOfAppend(a: seq<Attachment>, b: seq<Attachment>)
    ensures ImagesOf(a + b) == ImagesOf(a) + ImagesOf(b)
  {
    if a != [] {
      assert (a + b)[1..] == a[1..] + b;
      ImagesOfAppend(a[1..], b);
    } else {
      assert a + b == b;
    }
  }

  /** Every image attachment's data is among the images sent. */
  lemma {:induction false} ImagesOfComplete(atts: seq<Attachment>, i: nat)
    requires i < |atts| && atts[i].kind == ImageAttachment
    ensures atts[i].data in ImagesOf(atts)
  {
    if i > 0 {
      ImagesOfComplete(atts[1..], i - 1);
    }
  }

  /** `prev.filter((_, i) => i !== index)`: the list without the element at `index`. */
  function Without<T>(s: seq<T>, index: int): seq<T>
  {
    if s == [] then []
    else (if index == 0 then [] else [s[0]]) + Without(s[1..], index - 1)
  }

  /**
   * Removing an attachment deletes exactly the one at that index and keeps
   * the others in order; an index outside the list changes nothing.
   */
  lemma {:induction false} WithoutDeletes<T>(s: seq<T>, index: int)
    ensures 0 <= index < |s| ==> Without(s, index) == s[..index] + s[index + 1..]
    ensures !(0 <= index < |s|) ==> Without(s, index) == s
  {
    if s != [] {
      WithoutDeletes(s[1..], index - 1);
      if index == 0 {
        assert s[index + 1..] == s[1..];
      } else if 0 < index < |s| {
        assert s[..index] == [s[0]] + s[1..][..index - 1];
        assert s[index + 1..] == s[1..][index..];
      } else {
        assert s == [s[0]] + s[1..];
      }
    }
  }

  /** The text shown for the user's turn: "Apply S: I" with a chosen framework S, the input I otherwise. */
  function UserText(input: string, style: Option<string>): (t: string)
    ensures !Truthy(style) ==> t == input
    ensures Truthy(style) ==> StartsWith(t, "Apply " + style.value + ": ") && EndsWith(t, input)
    ensures Truthy(style) ==> |t| == |"Apply " + style.value + ": "| + |input|
  {
    if Truthy(style) then
      var head := "Apply " + style.value + ": ";
      assert (head + input)[..|head|] == head && (head + input)[|head|..] == input;
      head + input
    else input
  }

  /** The text sent to the model: "Using the S model, respond to: I" with a framework S, the input otherwise. */
  function PromptFor(input: string, style: Option<string>): (p: string)
    ensures !Truthy(style) ==> p == input
    ensures Truthy(style) ==> StartsWith(p, "Using the " + style.value + " model, respond to: ") && EndsWith(p, input)
    ensures Truthy(style) ==> |p| == |"Using the " + style.value + " model, respond to: "| + |input|
  {
    if Truthy(style) then
      var head := "Using the " + style.value + " model, respond to: ";
      assert (head + input)[..|head|] == head && (head + input)[|head|..] == input;
      head + input
    else input
  }

  class CopywriterTool {
    var messages: seq<Message>
    var input: string
    var loading: bool
    var attachments: seq<Attachment>
    var exporting: Option<int>
    var synced: set<int>

    /** The tool once mounted: the greeting as the only message, nothing typed or attached. */
    constructor()
      ensures messages == [Message(Model, Greeting, None)]
      ensures input == "" && !loading && attachments == [] && exporting == None && synced == {}
    {
      messages := [Message(Model, Greeting, None)];
      input := "";
      loading := false;
      attachments := [];
      exporting := None;
      synced := {};
    }

    /** A turn can be sent when something is typed or attached and no reply is awaited. */
    predicate CanSend()
      reads this
    {
      !(IsBlank(input) && attachments == []) && !loading
    }

    /**
     * `handleSend(forcedStyle)` up to the service call. When nothing can be
     * sent, nothing changes. Otherwise exactly one user turn is appended,
     * the input and attachments are cleared, the tool is loading, and the
     * call receives the messages as they were before the new turn.
     */
    method Begin(style: Option<string>) returns (call: Option<ChatArgs>)
      modifies this
      ensures exporting == old(exporting) && synced == old(synced)
      ensures !old(CanSend()) ==>
        call.None? && messages == old(messages) && input == old(input) &&
        attachments == old(attachments) && loading == old(loading)
      ensures old(CanSend()) ==>
        call == Some(ChatArgs(old(messages), PromptFor(old(input), style), ImagesOf(old(attachments)))) &&
        messages == old(messages) + [Message(User, UserText(old(input), style), Some(ImagesOf(old(attachments))))] &&
        input == "" && attachments == [] && loading
    {
      if (IsBlank(input) && attachments == []) || loading {
        return None;
      }
      var prompt := PromptFor(input, style);
      var images := ImagesOf(attachments);
      call := Some(ChatArgs(messages, prompt, images));
      messages := messages + [Message(User, UserText(input, style), Some(images))];
      input := "";
      attachments := [];
      loading := true;
    }

    /** The service answered: its text becomes exactly one model turn, and loading ends. */
    method Complete(call: ChatArgs, client: Option<Client>, model: string -> Outcome)
      modifies this
      ensures messages == old(messages) + [Message(Model, MarketingChat(client, call.history, call.text, model).text, None)]
      ensures !loading
      ensures input == old(input) && attachments == old(attachments)
      ensures exporting == old(exporting) && synced == old(synced)
    {
      var turn := Message(Model, MarketingChat(client, call.history, call.text, model).text, None);
      messages := messages + [turn];
      loading := false;
    }

    /** The call threw: exactly one model turn with the fixed error text, and loading ends. */
    method Fail()
      modifies this
      ensures messages == old(messages) + [Message(Model, ReplyError, None)]
      ensures !loading
      ensures input == old(input) && attachments == old(attachments)
      ensures exporting == old(exporting) && synced == old(synced)
    {
      messages := messages + [Message(Model, ReplyError, None)];
      loading := false;
    }

    /** `removeAttachment(index)`. */
    method RemoveAttachment(index: int)
      modifies this
      ensures attachments == Without(old(attachments), index)
      ensures 0 <= index < |old(attachments)| ==> attachments == old(attachments)[..index] + old(attachments)[index + 1..]
      ensures !(0 <= index < |old(attachments)|) ==> attachments == old(attachments)
      ensures messages == old(messages) && input == old(input) && loading == old(loading)
      ensures exporting == old(exporting) && synced == old(synced)
    {
      WithoutDeletes(attachments, index);
      attachments := Without(attachments, index);
    }

    /** A file read after upload is attached at the end. */
    method FileUploaded(file: Upload)
      modifies this
      ensures attachments == old(attachments) + [AttachmentOf(file)]
      ensures messages == old(messages) && input == old(input) && loading == old(loading)
      ensures exporting == old(exporting) && synced == old(synced)
    {
      attachments := attachments + [AttachmentOf(file)];
    }

    /** `handleExportToDoc(text, index)`: without a signed-in user nothing changes; otherwise the export starts. */
    method ExportToDoc(index: int, signedIn: bool)
      modifies this
      ensures !signedIn ==> exporting == old(exporting)
      ensures signedIn ==> exporting == Some(index)
      ensures synced == old(synced)
      ensures messages == old(messages) && input == old(input) && loading == old(loading) && attachments == old(attachments)
    {
      if signedIn {
        exporting := Some(index);
      }
    }

    /** The export timer fires: no export is shown as running, and the message is marked as synced. */
    method ExportFinished(index: int)
      modifies this
      ensures exporting == None
      ensures synced == old(synced) + {index}
      ensures messages == old(messages) && input == old(input) && loading == old(loading) && attachments == old(attachments)
    {
      exporting := None;
      synced := synced + {index};
    }
  }
}
