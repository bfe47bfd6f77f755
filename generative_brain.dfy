/**
 * The chat state of the assistant tool (components/tools/GenerativeBrain.tsx):
 * the greeting it starts with, sending a turn with an optional image, the
 * reply or the error that ends it, the suggestion row and the export of a
 * message to a document.
 */
module GenerativeBrain {
  import opened Text
  import opened Types
  import opened GeminiService

  const Greeting: string :=
    "Neural Core Active. I process media strategy and extract cross-platform data. "
    + "Responses are delivered in ultra-clean plain text. "
    + "Upload assets below or provide your production brief."

  /** The text shown for a turn sent with no text. */
  const ImageOnlyText: string := "Visual Neural Analysis"

  /** The text sent to the model for a turn with no text. */
  const ImageOnlyPrompt: string := "Analyze and extract visual text. No asterisks."

  const TimeoutText: string := "Neural link timeout. Please try again."

  /** A suggestion button: its caption and the text it sends. */
  datatype Suggestion = Suggestion(caption: string, prompt: string)

  const Suggestions: seq<Suggestion> := [
    Suggestion("OCR Extract", "Extract all text from the image. No asterisks."),
    Suggestion("Production Brief", "Write a high-end production brief for a commercial. No markdown."),
    Suggestion("VFX Guide", "Suggest specific VFX for a tech product reveal. Plain text only.")
  ]

  /**
   * Every suggestion sends its own prompt: the prompt is not blank, so a
   * click is never refused for want of text, and it is sent and shown as it
   * is rather than replaced by the image-only fallbacks.
   */
  lemma SuggestionSent(i: nat)
    requires i < |Suggestions|
    ensures var prompt := Suggestions[i].prompt;
      !IsBlank(prompt) && OrElse(prompt, ImageOnlyPrompt) == prompt && OrElse(prompt, ImageOnlyText) == prompt
  {
    var prompt := Suggestions[i].prompt;
    if i == 0 {
      assert Suggestions[0].prompt[|Suggestions[0].prompt| - 1] == '.';
    } else if i == 1 {
      assert Suggestions[1].prompt[|Suggestions[1].prompt| - 1] == '.';
    } else {
      assert Suggestions[2].prompt[|Suggestions[2].prompt| - 1] == '.';
    }
    assert !IsWhitespace(prompt[|prompt| - 1]);
  }

  /** `text || fallback`: the text, or the fallback when the text is empty. */
  function OrElse(text: string, fallback: string): string
  {
    if text != "" then text else fallback
  }

  /** `selectedImage ? [selectedImage] : []`. */
  function ImagesFor(selectedImage: Option<string>): seq<string>
  {
    if Truthy(selectedImage) then [selectedImage.value] else []
  }

  class GenerativeBrainTool {
    var input: string
    var history: seq<Message>
    var loading: bool
    var selectedImage: Option<string>
    var exporting: Option<int>
    var syncedIndices: set<int>

    /** The initial state: exactly one model turn, the greeting. */
    constructor()
      ensures history == [Message(Model, Greeting, None)]
      ensures input == "" && !loading && selectedImage == None && exporting == None && syncedIndices == {}
      ensures SuggestionsVisible()
    {
      input := "";
      history := [Message(Model, Greeting, None)];
      loading := false;
      selectedImage := None;
      exporting := None;
      syncedIndices := {};
    }

    /** The suggestion row shows while no image is chosen and the history has fewer than four turns. */
    predicate SuggestionsVisible()
      reads this
    {
      !Truthy(selectedImage) && |history| < 4
    }

    /** A text can be sent when it is not blank or an image is chosen, and no reply is awaited. */
    predicate CanSend(text: string)
      reads this
    {
      !(IsBlank(text) && !Truthy(selectedImage)) && !loading
    }

    /**
     * `handleSend(textInput)` up to the service call; `textInput` is absent
     * when the typed input is sent, a suggestion's text otherwise. When
     * nothing can be sent, nothing changes. Otherwise exactly one user turn
     * is appended, the input and image are cleared, the tool is loading,
     * and the call receives the history as it was before the new turn.
     */
    method Begin(textInput: Option<string>) returns (call: Option<ChatArgs>)
      modifies this
      ensures exporting == old(exporting) && syncedIndices == old(syncedIndices)
      ensures var text := textInput.GetOr(old(input));
        !old(CanSend(text)) ==>
          call.None? && history == old(history) && input == old(input) &&
          selectedImage == old(selectedImage) && loading == old(loading)
      ensures var text := textInput.GetOr(old(input));
        old(CanSend(text)) ==>
          call == Some(ChatArgs(old(history), OrElse(text, ImageOnlyPrompt), ImagesFor(old(selectedImage)))) &&
          history == old(history) + [Message(User, OrElse(text, ImageOnlyText), Some(ImagesFor(old(selectedImage))))] &&
          input == "" && selectedImage == None && loading
    {
      var text := textInput.GetOr(input);
      if (IsBlank(text) && !Truthy(selectedImage)) || loading {
        return None;
      }
      var images := ImagesFor(selectedImage);
      call := Some(ChatArgs(history, OrElse(text, ImageOnlyPrompt), images));
      history := history + [Message(User, OrElse(text, ImageOnlyText), Some(images))];
      input := "";
      selectedImage := None;
      loading := true;
    }

    /** The service answered: its text becomes exactly one model turn, and loading ends. */
    method Complete(call: ChatArgs, client: Option<Client>, model: string -> Outcome)
      modifies this
      ensures history == old(history) + [Message(Model, MarketingChat(client, call.history, call.text, model).text, None)]
      ensures !loading
      ensures input == old(input) && selectedImage == old(selectedImage)
      ensures exporting == old(exporting) && syncedIndices == old(syncedIndices)
    {
      var answer := MarketingChat(client, call.history, call.text, model);
      history := history + [Message(Model, answer.text, None)];
      loading := false;
    }

    /** The call threw: exactly one model turn with the timeout text, and loading ends. */
    method Fail()
      modifies this
      ensures history == old(history) + [Message(Model, TimeoutText, None)]
      ensures !loading
      ensures input == old(input) && selectedImage == old(selectedImage)
      ensures exporting == old(exporting) && syncedIndices == old(syncedIndices)
    {
      history := history + [Message(Model, TimeoutText, None)];
      loading := false;
    }

    /** An image read after upload becomes the chosen image. */
    method ImageUploaded(file: Upload)
      modifies this
      ensures selectedImage == Some(file.asDataUrl)
      ensures history == old(history) && input == old(input) && loading == old(loading)
      ensures exporting == old(exporting) && syncedIndices == old(syncedIndices)
    {
      selectedImage := Some(file.asDataUrl);
    }

    /** `handleExportToDoc(text, index)`: without a signed-in user nothing changes; otherwise the export starts. */
    method ExportToDoc(index: int, signedIn: bool)
      modifies this
      ensures !signedIn ==> exporting == old(exporting)
      ensures signedIn ==> exporting == Some(index)
      ensures syncedIndices == old(syncedIndices)
      ensures history == old(history) && input == old(input) && loading == old(loading) && selectedImage == old(selectedImage)
    {
      if signedIn {
        exporting := Some(index);
      }
    }

    /** The export timer fires: no export is shown as running, and the message is marked as synced. */
    method ExportFinished(index: int)
      modifies this
      ensures exporting == None
      ensures syncedIndices == old(syncedIndices) + {index}
      ensures history == old(history) && input == old(input) && loading == old(loading) && selectedImage == old(selectedImage)
    {
      exporting := None;
      syncedIndices := syncedIndices + {index};
    }
  }
}
