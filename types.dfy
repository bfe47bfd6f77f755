/**
 * The shared record types of the application (types.ts), without the
 * `Date` timestamps, which no modelled operation inspects.
 */
module Types {
  import opened Text

  datatype Role = User | Model

  /** The role as it is spelled in messages: 'user' or 'model'. */
  function RoleName(r: Role): string {
    match r
    case User => "user"
    case Model => "model"
  }

  /**
   * A chat turn. The chat tools keep an optional list of image data URLs on
   * each turn; turns written by the model carry none.
   */
  datatype Message = Message(role: Role, text: string, images: Option<seq<string>>)

  datatype MediaKind = ImageMedia | VideoMedia | AudioMedia

  datatype AudioVariant = AudioVariant(voice: string, speed: int, pitch: int)

  datatype GeneratedMedia = GeneratedMedia(kind: MediaKind, url: string, prompt: string, audioVariant: Option<AudioVariant>)

  /**
   * A file chosen in a file picker. The browser's `FileReader` results are
   * given as fields: the file read as a data URL and read as text.
   */
  datatype Upload = Upload(name: string, size: nat, mimeType: string, asDataUrl: string, asText: string)
}
