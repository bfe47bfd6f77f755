# Unity AI studio: WAV encoder, voice settings, Gemini service and chat tools

This Dafny project models the computational core of the Unity AI creative studio, a
React single-page application whose tools call Google's Gemini models:

- **WavEncoder** (`wav_encoder.dfy`): `audioBufferToWav` of the voice-over tool.
  It turns a Web Audio buffer into the bytes of a RIFF WAVE file: a 44-byte header
  with a PCM "fmt " chunk, then every sample clamped to [-1, 1] and stored as a
  signed 16-bit little-endian value, channels interleaved frame by frame.
  - `WavBytes` specifies the output and `AudioBufferToWav` fills an `array<byte>`.
    The procedure is proved to produce exactly those bytes.
  - Lemmas read the header fields back and state where each sample lands.
- **VoiceOver** (`voice_over.dfy`): the voice-over tool's settings and generation:
  - the speed and pitch instructions;
  - the region and persona menus;
  - the persona fallback and the prebuilt voice it selects;
  - the accent instruction;
  - the 10 MiB upload limit and the MIME type and payload taken from a data URL;
  - the label recorded for a generated clip.

  The component state is a class whose methods are the event handlers.
- **GeminiService** (`gemini_service.dfy`): the service module's text side:
  - the reply sanitiser (`cleanResponse`);
  - the chat prompt built from a history;
  - the client selection from two API keys and the missing-key replies;
  - the text-generation call and the image-description fallback.

  The keys and the remote model are parameters.
- **Copywriter** and **GenerativeBrain** (`copywriter.dfy`, `generative_brain.dfy`):
  the two chat tools as classes.
  - Sending a turn is split in two. `Begin` runs up to the service call. `Complete`
    handles the reply and `Fail` handles a thrown error.
  - Both classes also model attachments and images, and the document export.
- **Text** (`text.dfy`): the JavaScript string operations these rely on, with
  ECMAScript semantics: `trim`, `startsWith`, `endsWith`, `indexOf`, `substring`,
  `split` and `join`.
- **Types** (`types.dfy`): the shared records of `types.ts` (chat messages and
  generated media) and the uploaded-file record.

## Model

| member | source | states |
|---|---|---|
| WavEncoder.Le16Reads | components/tools/VoiceOver.tsx:169-172 | the two bytes written for a 16-bit field read back as the value modulo 2^16 |
| WavEncoder.Le32Reads | components/tools/VoiceOver.tsx:173-176 | the four bytes written for a 32-bit field read back as the value modulo 2^32 |
| WavEncoder.Int16RoundTrip | components/tools/VoiceOver.tsx:161 | a value in [-32768, 32767] written as a little-endian int16 reads back unchanged as a signed value |
| WavEncoder.Quantize | components/tools/VoiceOver.tsx:159-160 | the sample conversion as written: the result is a 16-bit signed value; 1 and above give 32767, -1 and below give -32768; the sign is kept |
| WavEncoder.QuantizeHalves | components/tools/VoiceOver.tsx:160 | as written, 0.5 gives 16383 and -0.5, which is not below -0.5, gives -16383 |
| WavEncoder.QuantizeIntended | components/tools/VoiceOver.tsx:159-160 | the corrected conversion (32768 for every negative sample) has the same range, saturation and sign properties |
| WavEncoder.QuantizeIntendedRoundTrip | components/tools/VoiceOver.tsx:159-160 | with the corrected conversion, every sample in [-1, 1] decodes back to within one step (1/32767) |
| WavEncoder.QuantizeLosesStep | components/tools/VoiceOver.tsx:160 | as written, -0.49 becomes -16055, which decodes to more than one step away from -0.49 |
| WavEncoder.QuantizeIntendedHalves | components/tools/VoiceOver.tsx:160 | the corrected conversion takes 0.5 to 16383 and -0.5 to -16384 |
| WavEncoder.MulIsProduct | components/tools/VoiceOver.tsx:129 | the frame-offset product is ordinary multiplication |
| WavEncoder.ChannelBytes | components/tools/VoiceOver.tsx:158-163 | one frame is 2 bytes per channel, channel by channel |
| WavEncoder.FramesBetweenLength | components/tools/VoiceOver.tsx:157-165 | the frames written from one index to another take 2 bytes per channel per frame |
| WavEncoder.FramesBetweenAt | components/tools/VoiceOver.tsx:161 | sample c of frame f lies at offset (f - from) * 2 * channels + 2c of the frame bytes |
| WavEncoder.LayoutSize | components/tools/VoiceOver.tsx:129-130 | the frames written plus the zero tail fill the buffer exactly |
| WavEncoder.LayoutLength | components/tools/VoiceOver.tsx:129-130 | the output is 44 + length * channels * 2 bytes long |
| WavEncoder.LayoutSampleAt | components/tools/VoiceOver.tsx:161 | in the output, the bytes of a written frame's sample sit at 44 plus its offset |
| WavEncoder.HeaderLength | components/tools/VoiceOver.tsx:138-152 | the header is 44 bytes |
| WavEncoder.WavBytesLength | components/tools/VoiceOver.tsx:129-130 | the encoded file is 44 + length * channels * 2 bytes long |
| WavEncoder.WavSampleAt | components/tools/VoiceOver.tsx:157-165 | as written, frame f (f >= 44) is stored at byte 44 + (f - 44) * 2 * channels + 2c |
| WavEncoder.WavZeroTail | components/tools/VoiceOver.tsx:129-165 | as written, every byte after the frames actually written, the last min(44, length) frames' worth, stays zero |
| WavEncoder.HeaderFields | components/tools/VoiceOver.tsx:138-152 | each of the 14 header fields reads back at its offset |
| WavEncoder.RiffFields | components/tools/VoiceOver.tsx:138-140 | "RIFF", file length - 8 and "WAVE" are at offsets 0, 4, 8 |
| WavEncoder.FmtHeadFields | components/tools/VoiceOver.tsx:142-145 | "fmt ", 16, PCM format 1 and the channel count are at offsets 12, 16, 20, 22 |
| WavEncoder.FmtRateFields | components/tools/VoiceOver.tsx:146-149 | sample rate, byte rate = rate * 2 * channels, block align = 2 * channels, and 16 bits are at offsets 24, 28, 32, 34 |
| WavEncoder.DataFields | components/tools/VoiceOver.tsx:151-152 | "data" and the data length = file length - 44 are at offsets 36 and 40 |
| WavEncoder.TagConstants | components/tools/VoiceOver.tsx:138-151 | the four numeric tags are the ASCII codes of "RIFF", "WAVE", "fmt " and "data" in little-endian order |
| WavEncoder.HeaderDescribesFile | components/tools/VoiceOver.tsx:138-152 | when every field fits its width, the header's RIFF size, byte rate, block align and data size agree with the file's real length, channels and rate |
| WavEncoder.WavHeaderPrefix | components/tools/VoiceOver.tsx:138-152 | the encoded file starts with the header |
| WavEncoder.IntendedSampleAt | components/tools/VoiceOver.tsx:157-165 | in the corrected file, sample c of frame f reads back as QuantizeIntended of the input sample, for every frame from 0 |
| WavEncoder.ShortBufferIsSilent | components/tools/VoiceOver.tsx:157 | as written, a 3-frame buffer encodes to a header followed by six zero bytes |
| WavEncoder.ShortBufferFrames | components/tools/VoiceOver.tsx:157-165 | the corrected frames of that buffer are 16383, -16384, 32767 in little-endian order |
| WavEncoder.ShortBufferIntended | components/tools/VoiceOver.tsx:157-165 | the corrected encoder writes exactly those bytes after the header |
| WavEncoder.WriteLe16 | components/tools/VoiceOver.tsx:169-172 | writes Le16 at the cursor, changes nothing else |
| WavEncoder.WriteLe32 | components/tools/VoiceOver.tsx:173-176 | writes Le32 at the cursor, changes nothing else |
| WavEncoder.SetUint16 | components/tools/VoiceOver.tsx:169-172 | writes the field and advances the cursor by 2 |
| WavEncoder.SetUint32 | components/tools/VoiceOver.tsx:173-176 | writes the field and advances the cursor by 4 |
| WavEncoder.WriteHeader | components/tools/VoiceOver.tsx:138-152 | writes exactly the 44 header bytes, leaves the cursor at 44 and the rest zero |
| WavEncoder.WriteRiffDescriptor | components/tools/VoiceOver.tsx:138-140 | writes the RIFF descriptor |
| WavEncoder.WriteFmtHead | components/tools/VoiceOver.tsx:142-145 | writes the fmt chunk id, size, format and channel count |
| WavEncoder.WriteFmtRates | components/tools/VoiceOver.tsx:146-149 | writes rate, byte rate, block align and bit depth |
| WavEncoder.WriteDataChunkHeader | components/tools/VoiceOver.tsx:151-152 | writes "data" and the data size computed from the cursor |
| WavEncoder.WriteFrame | components/tools/VoiceOver.tsx:158-163 | appends one frame's samples, converted as written or as intended |
| WavEncoder.WriteFrames | components/tools/VoiceOver.tsx:157-165 | the loop leaves the frame index at max(from, length) and the buffer equal to the layout from frame `from` |
| WavEncoder.CopyChannels | components/tools/VoiceOver.tsx:154-155 | the channel arrays are gathered in order |
| WavEncoder.AudioBufferToWav | components/tools/VoiceOver.tsx:127-177 | the encoder as written produces exactly WavBytes |
| WavEncoder.AudioBufferToWavIntended | components/tools/VoiceOver.tsx:127-177 | the corrected encoder produces exactly WavBytesIntended |
| VoiceOver.FindById | components/tools/VoiceOver.tsx:93-95 | `find` by id over personas or regions: found exactly when some element has the id, and then the first such one |
| VoiceOver.SelectPersona | components/tools/VoiceOver.tsx:93 | the persona with the id, or the region's first persona when none has it |
| VoiceOver.BaseVoice | components/tools/VoiceOver.tsx:94 | "Fenrir" exactly for male personas, "Kore" otherwise |
| VoiceOver.Instructions | components/tools/VoiceOver.tsx:69-76 | each instruction is present exactly when its threshold is crossed; at most two; empty exactly in the middle band; speed before pitch |
| VoiceOver.ToneOf | components/tools/VoiceOver.tsx:96 | the tone after '-' exists exactly when the title has a '-' |
| VoiceOver.NoSeparatorOneField | components/tools/VoiceOver.tsx:96 | a split has one field exactly when the separator is absent |
| VoiceOver.ToneOfTitle | components/tools/VoiceOver.tsx:96 | for a tone without '-' or surrounding blanks, the title's second field, trimmed, is the tone |
| VoiceOver.PersonaTones | components/tools/VoiceOver.tsx:37-46 | every persona on the menu yields its own tone |
| VoiceOver.AccentInstruction | components/tools/VoiceOver.tsx:96-99 | starts with the language and tone sentence; is exactly that sentence when there are no instructions; otherwise that sentence followed by " Also, ", the instructions joined by " and ", and "." (stated by length and suffix) |
| VoiceOver.MimeOfDataUrl | components/tools/VoiceOver.tsx:58 | the MIME type taken between ':' and ';' of a base64 data URL is the one it was built with |
| VoiceOver.PayloadOfDataUrl | components/tools/VoiceOver.tsx:90 | the second field after splitting at ',' is the payload |
| VoiceOver.MimeOfWithoutSemicolon | components/tools/VoiceOver.tsx:58 | with no ';', `substring` swaps its ends and yields the prefix up to and including ':' |
| VoiceOver.VoiceLabelIntended | components/tools/VoiceOver.tsx:112 | "Custom Clone" in clone mode; otherwise the region and the title of the persona actually used |
| VoiceOver.DefaultPersonaUnknown | components/tools/VoiceOver.tsx:17-46 | no persona has the initial id 'female_professional' |
| VoiceOver.DefaultPersonaFallsBack | components/tools/VoiceOver.tsx:93-94 | the initial settings therefore speak with the first persona, voice "Kore" |
| VoiceOver.DefaultVoiceLabel | components/tools/VoiceOver.tsx:112 | as written, the initial settings record the label "US - undefined" |
| VoiceOver.DefaultVoiceLabelIntended | components/tools/VoiceOver.tsx:112 | the corrected label names the first persona |
| VoiceOver.VoiceLabelsAgree | components/tools/VoiceOver.tsx:112 | both labels agree whenever the persona id is on the menu |
| VoiceOver.Request | components/tools/VoiceOver.tsx:86-100 | the clone request carries the payload, MIME type and instructions joined by " and "; the preset request carries the script, the base voice and the accent instruction built from the region's language, the persona's tone and the speed and pitch instructions; it fails exactly when the title has no tone |
| VoiceOver.PresetRequest | components/tools/VoiceOver.tsx:93-100 | for every menu persona the preset request exists, on the persona's voice; its instruction names the language and tone, and is followed by " Also, " and the speed and pitch instructions joined by " and " exactly when there are any |
| VoiceOver.FastSpeechRequest | components/tools/VoiceOver.tsx:69-99 | at speed 80 and pitch 50 the preset instruction ends " Also, speak quickly." |
| VoiceOver.VoiceOverTool.constructor | components/tools/VoiceOver.tsx:12-23 | the initial state |
| VoiceOver.VoiceOverTool.ChangeRegion | components/tools/VoiceOver.tsx:228-231 | sets the region and resets the persona to the region's first |
| VoiceOver.VoiceOverTool.SelectVoicePersona | components/tools/VoiceOver.tsx:246 | sets only the persona id |
| VoiceOver.VoiceOverTool.ClearCustomVoice | components/tools/VoiceOver.tsx:288 | removes only the reference file |
| VoiceOver.VoiceOverTool.HandleFileChange | components/tools/VoiceOver.tsx:48-67 | refuses files over 10 MiB; otherwise stores data, name and the MIME type from the data URL |
| VoiceOver.VoiceOverTool.GetInstructions | components/tools/VoiceOver.tsx:69-76 | the pushes give exactly Instructions(speed, pitch) |
| VoiceOver.VoiceOverTool.BeginGenerate | components/tools/VoiceOver.tsx:78-101 | nothing happens on a blank script or a clone without a file; otherwise loading starts and the request is built, and a missing tone ends the loading; the entry records the label as written (`VoiceLabel`), "US - undefined" for the initial persona id |
| VoiceOver.VoiceOverTool.CompleteGenerate | components/tools/VoiceOver.tsx:103-124 | with audio, the bytes of the encoder as written (`WavBytes`) and a new first entry with the recorded label, speed and pitch; without, the list is unchanged; loading ends either way |
| GeminiService.RemoveMarks | services/geminiService.ts:15 | removing '*' and '#' leaves none and never lengthens |
| GeminiService.CleanHasNoMarks | services/geminiService.ts:14-16 | a cleaned reply has no '*' or '#' |
| GeminiService.CleanIsTrimmed | services/geminiService.ts:14-16 | a cleaned reply has no whitespace at either end |
| GeminiService.RemoveMarksIsSubsequence | services/geminiService.ts:15 | the marks-free text is a subsequence of the reply |
| GeminiService.CleanIsSubsequence | services/geminiService.ts:14-16 | a cleaned reply is a subsequence of the raw one: nothing is added or reordered |
| GeminiService.RemoveMarksKeepsUnmarked | services/geminiService.ts:15 | a text without marks is unchanged by the removal |
| GeminiService.CleanIdempotent | services/geminiService.ts:14-16 | cleaning twice equals cleaning once |
| GeminiService.TurnLines | services/geminiService.ts:25 | one "role: text" line per turn, in order |
| GeminiService.PromptShowsTurn | services/geminiService.ts:25-26 | every turn's line appears in the prompt at its offset, followed by a newline |
| GeminiService.PromptEndsWithTurn | services/geminiService.ts:26 | the prompt ends with the user line and the reply instruction |
| GeminiService.PromptIgnoresImages | services/geminiService.ts:25 | images attached to turns do not change the prompt |
| GeminiService.HistoryTextLines | services/geminiService.ts:25 | splitting the history text at newlines gives back the turn lines when no turn contains a newline |
| GeminiService.GetClient | services/geminiService.ts:5-12 | the Gemini key wins, the Google key is the fallback, and no client exactly when neither is set |
| GeminiService.MarketingChat | services/geminiService.ts:19-38 | no key: the fixed error and nothing sent; otherwise the chat prompt is sent, and a failure gives the fixed apology |
| GeminiService.ChatReplyIsCleaned | services/geminiService.ts:33 | a returned reply has no '*' or '#' and is a subsequence of the model's text, or is "No response." when that text is empty or missing |
| GeminiService.NoResponseIsClean | services/geminiService.ts:33 | the fallback text survives cleaning |
| GeminiService.GenerateText | services/geminiService.ts:41-54 | no key: the fixed error and nothing sent; otherwise the prompt is sent, and a failure gives the fixed text |
| GeminiService.GeneratedTextIsCleaned | services/geminiService.ts:50 | a returned text is the cleaned one, or "" when missing |
| GeminiService.GenerateOrEditImage | services/geminiService.ts:57-65 | sends the description prompt and wraps its text between the unavailability notice and ')' |
| Text.TrimIsSlice | services/geminiService.ts:15 | `trim` keeps a contiguous block and drops only whitespace around it |
| Text.TrimEmptyIffBlank | components/tools/Copywriter.tsx:53 | `!s.trim()` holds exactly for all-whitespace strings |
| Text.IndexOf | components/tools/VoiceOver.tsx:58 | the first position of the character, or -1 exactly when absent |
| Text.Substring | components/tools/VoiceOver.tsx:58 | with both positions inside the string, the slice between them in either order; never longer than the string |
| Text.SubstringLaws | components/tools/VoiceOver.tsx:58 | the two positions can be swapped; a position outside the string acts as the nearer end; the length is the distance between the clamped positions |
| Text.JoinSplit | components/tools/VoiceOver.tsx:90 | joining the fields of `split` gives the string back |
| Text.SplitFieldsLackSeparator | components/tools/VoiceOver.tsx:96 | no field of `split` contains the separator |
| Text.JoinAt | services/geminiService.ts:25 | every part appears in the joined string at its offset, followed by the separator unless last |
| Copywriter.AttachmentOf | components/tools/Copywriter.tsx:106-110 | an image exactly when the MIME type starts with "image/", with the data URL; text otherwise |
| Copywriter.ImagesOf | components/tools/Copywriter.tsx:56 | only image attachments' data, no more entries than attachments |
| Copywriter.ImagesOfAppend | components/tools/Copywriter.tsx:56 | filtering distributes over concatenation, keeping order |
| Copywriter.ImagesOfComplete | components/tools/Copywriter.tsx:56 | every image attachment's data is sent |
| Copywriter.WithoutDeletes | components/tools/Copywriter.tsx:115-117 | the filter removes exactly the element at the index, or nothing when out of range |
| Copywriter.UserText | components/tools/Copywriter.tsx:60 | with a framework, exactly "Apply S: " followed by the input (prefix, suffix and length); the input otherwise |
| Copywriter.PromptFor | components/tools/Copywriter.tsx:55 | with a framework, exactly "Using the S model, respond to: " followed by the input (prefix, suffix and length); the input otherwise |
| Copywriter.CopywriterTool.constructor | components/tools/Copywriter.tsx:20-44 | the greeting is the only message after mounting |
| Copywriter.CopywriterTool.Begin | components/tools/Copywriter.tsx:52-81 | no-op when blank with no attachments or loading; otherwise one user turn, cleared input and attachments, loading, and the call gets the earlier messages |
| Copywriter.CopywriterTool.Complete | components/tools/Copywriter.tsx:76-89 | one model turn with the service's answer; loading ends |
| Copywriter.CopywriterTool.Fail | components/tools/Copywriter.tsx:85-88 | one model turn with the fixed error; loading ends |
| Copywriter.CopywriterTool.RemoveAttachment | components/tools/Copywriter.tsx:115-117 | removes exactly the attachment at the index |
| Copywriter.CopywriterTool.FileUploaded | components/tools/Copywriter.tsx:102-113 | appends the uploaded file as an attachment |
| Copywriter.CopywriterTool.ExportToDoc | components/tools/Copywriter.tsx:92-94 | signed out: nothing changes; signed in: the export starts |
| Copywriter.CopywriterTool.ExportFinished | components/tools/Copywriter.tsx:95-99 | the export ends and the message is marked synced |
| GenerativeBrain.SuggestionSent | components/tools/GenerativeBrain.tsx:34-38 | every suggestion's prompt is non-blank, so a click is never refused for want of text, and it is sent and shown unchanged rather than replaced by the image-only fallbacks |
| GenerativeBrain.GenerativeBrainTool.constructor | components/tools/GenerativeBrain.tsx:18-30 | the greeting is the only turn, and the suggestions show |
| GenerativeBrain.GenerativeBrainTool.Begin | components/tools/GenerativeBrain.tsx:66-85 | no-op when blank with no image or loading; otherwise one user turn (the fallback caption for an image alone), cleared input and image, loading, and the call gets the earlier history and the fallback prompt |
| GenerativeBrain.GenerativeBrainTool.Complete | components/tools/GenerativeBrain.tsx:80-93 | one model turn with the service's answer; loading ends |
| GenerativeBrain.GenerativeBrainTool.Fail | components/tools/GenerativeBrain.tsx:89-92 | one model turn with the timeout text; loading ends |
| GenerativeBrain.GenerativeBrainTool.ImageUploaded | components/tools/GenerativeBrain.tsx:46-54 | the uploaded image's data URL becomes the chosen image |
| GenerativeBrain.GenerativeBrainTool.ExportToDoc | components/tools/GenerativeBrain.tsx:56-58 | signed out: nothing changes; signed in: the export starts |
| GenerativeBrain.GenerativeBrainTool.ExportFinished | components/tools/GenerativeBrain.tsx:59-63 | the export ends and the message is marked synced |

## Left out

- The JSX rendering, CSS, icons, scrolling, clipboard copy, `alert` messages, `console` logging and the notification bell callback: presentation only.
- `FileReader`, `Blob`, `URL.createObjectURL`, timers and `async`/`await`: each asynchronous step is a separate method (`Begin`/`Complete`/`Fail`, `BeginGenerate`/`CompleteGenerate`, `ExportToDoc`/`ExportFinished`, `FileUploaded`, `ImageUploaded`). The file contents arrive as parameters (`Upload`) and the object URL as a string.
- Strings are modelled as sequences of Unicode characters, not as JavaScript's UTF-16 code units, so `length`, `indexOf` and `substring` positions would differ for characters outside the Basic Multilingual Plane. The inputs the positions are taken on (data URLs, MIME types, persona titles) are ASCII.
- Environment variables, the Gemini client and the remote model are parameters: two optional keys, and a function from the prompt to an `Outcome`. The model name and request shape are not modelled.
- GeminiService.MarketingChat: a `text()` accessor that throws, which the source's `catch` turns into the apology, is folded into the `Failed` outcome.
- `generateVideo`, `generateSpeech`, `analyzeImage` and `generateSpeechFromReference` are placeholders returning a constant or null. The speech calls are the `audio` parameter of `CompleteGenerate`, and null is `None`.
- The system instructions the chat tools pass are not modelled: `generateMarketingChat` reads only its first two arguments.
- The `catch` branches around the service calls are unreachable, because the service functions catch their own errors. They are still modelled by `Fail`.
- Floating point: samples are exact reals, with no NaN, infinities or rounding. The `| 0` truncation is `Trunc`, truncation toward zero.
- WavEncoder.HeaderDescribesFile: DataView's modulo-2^32 wrap of oversized header fields is modelled in `Le32`, but the header is proved to describe the file only when the fields fit.
- The speed and pitch sliders' `parseInt` is not modelled: speed and pitch are integers.
- VoiceOver.VoiceLabel carries no contract. It is the label as written, whose persona lookup may give `undefined`. Its behaviour is stated by `DefaultVoiceLabel` and `VoiceLabelsAgree`, and `BeginGenerate` records it.
- `handleGenerate` has no guard against a second generation while loading. The model keeps that.
- App.tsx, Sidebar.tsx, SubscriptionModal.tsx, Workspace.tsx, MediaStudio.tsx, ScriptToVideo.tsx, SmartEditor.tsx and BrandingAssistant.tsx are not part of this model.
- The code's threshold for the negative scale is `0.5 + sample < 0`. `Quantize`, `AudioBufferToWav` and the voice tool follow it, and `QuantizeIntended` is the corrected conversion (finding 3).

## Findings

| source | as written | input that shows it | evidently intended | confidence | as-written member | corrected member |
|---|---|---|---|---|---|---|
| components/tools/VoiceOver.tsx:157 | the sample loop reuses the header cursor `pos`, which is 44 after the header, as the frame index; frames 0-43 are never written and the data area ends in zeros | a 3-frame buffer: every sample byte is 0 | write every frame, starting at frame 0 | not executed | WavEncoder.ShortBufferIsSilent | WavEncoder.ShortBufferIntended |
| components/tools/VoiceOver.tsx:112 | the label looks up `voicePersona` without the fallback used at line 93; the initial id 'female_professional' matches no persona | default settings: label "US - undefined", while the speech uses the first persona | the label of the persona actually used | not executed | VoiceOver.DefaultVoiceLabel | VoiceOver.DefaultVoiceLabelIntended |
| components/tools/VoiceOver.tsx:160 | the negative scale is chosen when `0.5 + sample < 0`, so samples in [-0.5, 0) are scaled by 32767 | -0.49 becomes -16055, more than one step from -0.49 when decoded | the 32768 scale for every negative sample, so that every sample decodes to within one step | not executed | WavEncoder.QuantizeLosesStep | WavEncoder.QuantizeIntendedRoundTrip |

The voice tool itself (`VoiceOverTool`) keeps the behaviour as written: `CompleteGenerate` encodes with `AudioBufferToWav` and `BeginGenerate` records `VoiceLabel`. The corrected members stand beside them: `AudioBufferToWavIntended` (findings 1 and 3) and `VoiceLabelIntended` (finding 2).
