/**
 * The voice tool's settings and generation steps (VoiceOver.tsx): the
 * region and persona choice, the speed and pitch instructions, the
 * reference-file guard with its data-URL handling, and the request that a
 * generation sends. The component's state is a class; each handler is a
 * method. A generation is split in two steps, `BeginGenerate` (the part
 * before the speech call) and `CompleteGenerate` (the part after it).
 */
module VoiceOver {
  import opened Text
  import opened Types
  import WavEncoder

  datatype Gender = Female | Male

  /**
   * A persona of the voice menu. Its menu text ("Female - Soft & Soothing")
   * is the gender's name, " - " and the tone; see `Title`.
   */
  datatype Persona = Persona(id: string, gender: Gender, tone: string)

  datatype Region = Region(id: string, name: string)

  datatype Mode = PresetVoice | CustomClone

  /** The reference recording kept for cloning: the file as a data URL, its name and MIME type. */
  datatype VoiceFile = VoiceFile(data: string, name: string, mime: string)

  /** The regions offered, in menu order. */
  const Regions: seq<Region> := [
    Region("US", "American English (US)"),
    Region("NG", "Nigerian English"),
    Region("UK", "British English (UK)"),
    Region("IN", "Indian English"),
    Region("EU", "European English"),
    Region("CN", "Chinese (Mandarin)"),
    Region("IL", "Hebrew (Israel)")
  ]

  /** The six personas. */
  const Personas: seq<Persona> := [
    Persona("female_soft", Female, "Soft & Soothing"),
    Persona("female_prof", Female, "Professional"),
    Persona("female_energetic", Female, "Energetic"),
    Persona("male_deep", Male, "Deep & Authoritative"),
    Persona("male_casual", Male, "Casual & Friendly"),
    Persona("male_prof", Male, "Professional")
  ]

  /** Every region offers the same personas. */
  function PersonasForRegion(region: string): seq<Persona> {
    Personas
  }

  function GenderName(g: Gender): string {
    match g
    case Female => "Female"
    case Male => "Male"
  }

  /** The persona's menu text. */
  function Title(p: Persona): string {
    GenderName(p.gender) + " - " + p.tone
  }

  /** The largest reference file accepted: 10 MiB. */
  const MaxUploadBytes: nat := 10 * 1024 * 1024

  // ---------------------------------------------------------------------
  // Pure choices.
  // ---------------------------------------------------------------------

  function PersonaId(p: Persona): string { p.id }
  function RegionId(r: Region): string { r.id }

  /** `xs.find(x => x.id === id)`: the first element with that id, if any. */
  function FindById<T>(xs: seq<T>, idOf: T -> string, id: string): (r: Option<T>)
    ensures r.Some? <==> exists i :: 0 <= i < |xs| && idOf(xs[i]) == id
    ensures r.Some? ==> exists i :: 0 <= i < |xs| && xs[i] == r.value && idOf(r.value) == id &&
                                    forall j :: 0 <= j < i ==> idOf(xs[j]) != id
  {
    if xs == [] then None
    else if idOf(xs[0]) == id then Some(xs[0])
    else
      var r := FindById(xs[1..], idOf, id);
      assert forall i :: 1 <= i < |xs| ==> xs[i] == xs[1..][i - 1];
      r
  }

  /** `personas.find(p => p.id === id)`. */
  function FindPersona(ps: seq<Persona>, id: string): Option<Persona> {
    FindById(ps, PersonaId, id)
  }

  /** The persona a preset generation uses: the one chosen, or the region's first one. */
  function SelectPersona(region: string, id: string): (p: Persona)
    ensures p in PersonasForRegion(region)
    ensures p.id == id || ((forall q :: q in PersonasForRegion(region) ==> q.id != id) && p == PersonasForRegion(region)[0])
  {
    match FindPersona(PersonasForRegion(region), id)
    case Some(p) => p
    case None => PersonasForRegion(region)[0]
  }

  /** The prebuilt voice behind a persona: 'Fenrir' for male personas, 'Kore' otherwise. */
  function BaseVoice(p: Persona): (v: string)
    ensures v == "Fenrir" <==> p.gender == Male
    ensures v == "Kore" <==> p.gender != Male
  {
    if p.gender == Male then "Fenrir" else "Kore"
  }

  /** `regions.find(r => r.id === region)`. */
  function FindRegion(rs: seq<Region>, id: string): Option<Region> {
    FindById(rs, RegionId, id)
  }

  /** The language named in a preset instruction: the region's name, or 'English' when it is missing or empty. */
  function LanguageName(rs: seq<Region>, region: string): string {
    match FindRegion(rs, region)
    case Some(r) => if r.name != "" then r.name else "English"
    case None => "English"
  }

  /**
   * The speed and pitch instructions: "speak quickly" above 75, "speak
   * slowly" below 25, then "use a high-pitched voice" above 75 and "use a
   * deep voice" below 25.
   */
  function Instructions(speed: int, pitch: int): (r: seq<string>)
    ensures "speak quickly" in r <==> speed > 75
    ensures "speak slowly" in r <==> speed < 25
    ensures "use a high-pitched voice" in r <==> pitch > 75
    ensures "use a deep voice" in r <==> pitch < 25
    ensures |r| <= 2
    ensures r == [] <==> 25 <= speed <= 75 && 25 <= pitch <= 75
    ensures |r| == 2 ==> r[0] in {"speak quickly", "speak slowly"} && r[1] in {"use a high-pitched voice", "use a deep voice"}
  {
    SpeedPart(speed) + PitchPart(pitch)
  }

  function SpeedPart(speed: int): seq<string> {
    if speed > 75 then ["speak quickly"] else if speed < 25 then ["speak slowly"] else []
  }

  function PitchPart(pitch: int): seq<string> {
    if pitch > 75 then ["use a high-pitched voice"] else if pitch < 25 then ["use a deep voice"] else []
  }

  /** The tone named after the first '-' of a persona title, trimmed; missing when the title has no '-'. */
  function ToneOf(title: string): (t: Option<string>)
    ensures t.Some? <==> '-' in title
  {
    match Field(Split(title, '-'), 1)
    case Some(part) => Some(Trim(part))
    case None =>
      NoSeparatorOneField(title, '-');
      None
  }

  /** A string splits into a single field exactly when it lacks the separator. */
  lemma NoSeparatorOneField(s: string, sep: char)
    ensures |Split(s, sep)| == 1 <==> sep !in s
  {
    if sep in s {
      var i := IndexOf(s, sep);
      assert Split(s, sep) == [s[..i]] + Split(s[i + 1..], sep);
    }
  }

  /** A tone as the menu spells it: not empty, no '-', no whitespace at either end. */
  predicate PlainTone(t: string) {
    t != [] && '-' !in t && !IsWhitespace(t[0]) && !IsWhitespace(t[|t| - 1])
  }

  /** A title splits at its one '-' into the gender part and the spaced tone. */
  lemma TitleFields(g: string, t: string)
    requires '-' !in g && '-' !in t
    ensures Split(g + " - " + t, '-') == [g + " ", " " + t]
  {
    assert g + " - " + t == (g + " ") + ['-'] + (" " + t);
    assert '-' !in g + " " && '-' !in " " + t;
    SplitAt(g + " ", '-', " " + t);
    SplitWithout(" " + t, '-');
  }

  /** Trimming the spaced tone gives the tone. */
  lemma TrimSpaced(t: string)
    requires PlainTone(t)
    ensures Trim(" " + t) == t
  {
    assert (" " + t)[1..] == t;
    assert TrimStart(" " + t) == TrimStart(t) == t;
    TrimOfTrimmed(t);
  }

  /** Reading the tone back from a persona's title gives the persona's tone. */
  lemma ToneOfTitle(p: Persona)
    requires PlainTone(p.tone)
    ensures ToneOf(Title(p)) == Some(p.tone)
  {
    assert '-' !in GenderName(p.gender);
    TitleFields(GenderName(p.gender), p.tone);
    TrimSpaced(p.tone);
  }

  lemma SoftPlain() ensures PlainTone("Soft & Soothing") {}
  lemma ProfessionalPlain() ensures PlainTone("Professional") {}
  lemma EnergeticPlain() ensures PlainTone("Energetic") {}
  lemma DeepPlain() ensures PlainTone("Deep & Authoritative") {}
  lemma CasualPlain() ensures PlainTone("Casual & Friendly") {}

  /** The tones of the menu are plain. */
  lemma MenuTonePlain(i: nat)
    requires i < |Personas|
    ensures PlainTone(Personas[i].tone)
  {
    if i == 0 { SoftPlain(); }
    else if i == 1 || i == 5 { ProfessionalPlain(); }
    else if i == 2 { EnergeticPlain(); }
    else if i == 3 { DeepPlain(); }
    else { CasualPlain(); }
  }

  /** Every persona's title names its tone. */
  lemma PersonaTones(p: Persona)
    requires p in Personas
    ensures ToneOf(Title(p)) == Some(p.tone)
  {
    var i :| 0 <= i < |Personas| && Personas[i] == p;
    MenuTonePlain(i);
    ToneOfTitle(p);
  }

  /**
   * The instruction sent with a preset voice: language and tone, then the
   * speed and pitch instructions joined by " and " when there are any.
   */
  function AccentInstruction(languageName: string, tone: string, instructions: seq<string>): (a: string)
    ensures var base := "Speak in " + languageName + ". Use a " + tone + " tone.";
            StartsWith(a, base) && (instructions == [] <==> a == base)
    ensures var base, also := "Speak in " + languageName + ". Use a " + tone + " tone.", " Also, " + Join(instructions, " and ") + ".";
            instructions != [] ==> |a| == |base| + |also| && EndsWith(a, also)
  {
    var base := "Speak in " + languageName + ". Use a " + tone + " tone.";
    if |instructions| > 0 then
      var also := " Also, " + Join(instructions, " and ") + ".";
      var a := base + also;
      assert a[..|base|] == base && a[|a| - |also|..] == also;
      a
    else base
  }

  // ---------------------------------------------------------------------
  // Data URLs.
  // ---------------------------------------------------------------------

  /** "data:" + mime + ";base64", the part of a data URL before the ','. */
  function DataUrlHead(mime: string): string {
    "data" + ([':'] + (mime + ([';'] + "base64")))
  }

  /** A data URL as `FileReader.readAsDataURL` writes it for base64 content. */
  function DataUrl(mime: string, payload: string): string {
    DataUrlHead(mime) + [','] + payload
  }

  /** The MIME type of a data URL: the text between the first ':' and the first ';'. */
  function MimeOf(url: string): string {
    Substring(url, IndexOf(url, ':') + 1, IndexOf(url, ';'))
  }

  /** The base64 payload of a data URL: its second ','-separated field, if any. */
  function PayloadOf(url: string): Option<string> {
    Field(Split(url, ','), 1)
  }

  /** Where the first ':' and the first ';' of a "scheme:mime;rest" string are. */
  lemma HeadSeparators(scheme: string, mime: string, rest: string)
    requires ':' !in scheme && ';' !in scheme && ':' !in mime && ';' !in mime
    ensures IndexOf(scheme + ([':'] + (mime + ([';'] + rest))), ':') == |scheme|
    ensures IndexOf(scheme + ([':'] + (mime + ([';'] + rest))), ';') == |scheme| + 1 + |mime|
  {
    var r := mime + ([';'] + rest);
    IndexOfAt(scheme, ':', r);
    IndexOfAppend(scheme, [':'] + r, ';');
    IndexOfAppend([':'], r, ';');
    assert [':'] + r == [':'] + r;
    IndexOfAt(mime, ';', rest);
  }

  /** `MimeOf` of a string whose first ':' comes before its first ';'. */
  lemma MimeOfBetween(url: string, i: int, j: int)
    requires IndexOf(url, ':') == i && IndexOf(url, ';') == j && i < j
    ensures MimeOf(url) == url[i + 1..j]
  {
  }

  /** The text after a one-character mark sits right after it. */
  lemma SliceAfterMark(a: string, c: char, m: string, r: string, t: string)
    ensures (a + ([c] + (m + r)) + t)[|a| + 1..|a| + 1 + |m|] == m
  {
    var u := a + ([c] + (m + r)) + t;
    forall i | 0 <= i < |m| ensures u[|a| + 1 + i] == m[i] {
      assert u[|a| + 1 + i] == ([c] + (m + r))[1 + i] == (m + r)[i];
    }
  }

  /** `MimeOf` takes out the text between a leading "scheme:" and the next ';'. */
  lemma MimeBetween(scheme: string, mime: string, rest: string, tail: string)
    requires ':' !in scheme && ';' !in scheme && ':' !in mime && ';' !in mime
    ensures MimeOf(scheme + ([':'] + (mime + ([';'] + rest))) + tail) == mime
  {
    var h := scheme + ([':'] + (mime + ([';'] + rest)));
    var k := |scheme| + 1;
    HeadSeparators(scheme, mime, rest);
    IndexOfPrefix(h, tail, ':');
    IndexOfPrefix(h, tail, ';');
    MimeOfBetween(h + tail, k - 1, k + |mime|);
    SliceAfterMark(scheme, ':', mime, [';'] + rest, tail);
  }

  /** The MIME type of a well-formed data URL comes back out. */
  lemma MimeOfDataUrl(mime: string, payload: string)
    requires ':' !in mime && ';' !in mime
    ensures MimeOf(DataUrl(mime, payload)) == mime
  {
    var scheme, tail := "data", [','] + payload;
    assert ':' !in scheme && ';' !in scheme;
    assert DataUrl(mime, payload) == DataUrlHead(mime) + tail;
    MimeBetween(scheme, mime, "base64", tail);
  }

  /** The payload of a well-formed data URL comes back out. */
  lemma PayloadOfDataUrl(mime: string, payload: string)
    requires ',' !in mime && ',' !in payload
    ensures PayloadOf(DataUrl(mime, payload)) == Some(payload)
  {
    assert ',' !in "data" && ',' !in "base64";
    assert ',' !in DataUrlHead(mime);
    SplitAt(DataUrlHead(mime), ',', payload);
    SplitWithout(payload, ',');
  }

  /** With no ';' at all, `substring` swaps its ends: everything up to and including the first ':'. */
  lemma MimeOfWithoutSemicolon(url: string)
    requires ';' !in url && ':' in url
    ensures MimeOf(url) == url[..IndexOf(url, ':') + 1]
  {
  }

  // ---------------------------------------------------------------------
  // The voice label of a finished generation.
  // ---------------------------------------------------------------------

  /**
   * The voice label as written: for a preset voice, the region and the
   * title of the persona whose id is the chosen one, which prints as
   * "undefined" when no persona has that id.
   */
  function VoiceLabel(mode: Mode, region: string, personaId: string): string {
    if mode == CustomClone then "Custom Clone"
    else region + " - " + match FindPersona(PersonasForRegion(region), personaId)
                          case Some(p) => Title(p)
                          case None => "undefined"
  }

  /** The voice label naming the persona the generation actually used. */
  function VoiceLabelIntended(mode: Mode, region: string, personaId: string): (l: string)
    ensures mode == PresetVoice ==> l == region + " - " + Title(SelectPersona(region, personaId))
    ensures mode == CustomClone ==> l == "Custom Clone"
  {
    if mode == CustomClone then "Custom Clone"
    else region + " - " + Title(SelectPersona(region, personaId))
  }

  /** The initial persona id, 'female_professional', names no persona (the list has 'female_prof'). */
  lemma DefaultPersonaUnknown()
    ensures forall p :: p in Personas ==> p.id != "female_professional"
  {
    forall p | p in Personas ensures p.id != "female_professional" {
      assert |p.id| < 19;
    }
  }

  /**
   * A preset generation in the initial state therefore speaks with the first
   * persona, "Female - Soft & Soothing", on voice 'Kore'.
   */
  lemma DefaultPersonaFallsBack()
    ensures SelectPersona("US", "female_professional") == Personas[0]
    ensures BaseVoice(SelectPersona("US", "female_professional")) == "Kore"
  {
    DefaultPersonaUnknown();
  }

  /** ... yet the entry it records is labelled "US - undefined"... */
  lemma DefaultVoiceLabel()
    ensures VoiceLabel(PresetVoice, "US", "female_professional") == "US - undefined"
  {
    DefaultPersonaUnknown();
    assert FindPersona(Personas, "female_professional") == None;
  }

  /** ... where the intended label names the persona used. */
  lemma DefaultVoiceLabelIntended()
    ensures VoiceLabelIntended(PresetVoice, "US", "female_professional") == "US - " + Title(Personas[0])
  {
    DefaultPersonaFallsBack();
  }

  /** When the chosen id names a persona, both labels agree. */
  lemma VoiceLabelsAgree(mode: Mode, region: string, personaId: string)
    requires exists p :: p in PersonasForRegion(region) && p.id == personaId
    ensures VoiceLabel(mode, region, personaId) == VoiceLabelIntended(mode, region, personaId)
  {
    var p :| p in PersonasForRegion(region) && p.id == personaId;
    var i :| 0 <= i < |Personas| && Personas[i] == p;
    assert FindPersona(PersonasForRegion(region), personaId).Some?;
  }

  // ---------------------------------------------------------------------
  // The speech request.
  // ---------------------------------------------------------------------

  /**
   * What a generation asks the speech service for: a prebuilt voice with an
   * accent instruction, or a clone of a reference recording (its base64
   * payload, MIME type and the instructions joined by " and ").
   */
  datatype SpeechRequest =
    | PresetSpeech(text: string, voice: string, instruction: string)
    | CloneSpeech(text: string, payload: Option<string>, mime: string, style: string)

  /**
   * A generation under way: the request and the values the finished entry
   * records, all taken when the generation began.
   */
  datatype Pending = Pending(request: SpeechRequest, prompt: string, voice: string, speed: int, pitch: int)

  /** Whether a generation may start: a non-blank script and, for a clone, a reference file. */
  predicate CanGenerate(text: string, mode: Mode, file: Option<VoiceFile>) {
    !IsBlank(text) && !(mode == CustomClone && file.None?)
  }

  /**
   * The request of a generation; `None` where the source throws, when the
   * chosen persona's title has no '-' to take the tone from.
   */
  function Request(text: string, mode: Mode, region: string, personaId: string, file: Option<VoiceFile>,
                   speed: int, pitch: int): (r: Option<SpeechRequest>)
    requires CanGenerate(text, mode, file)
    ensures mode == CustomClone ==>
      r == Some(CloneSpeech(text, PayloadOf(file.value.data), file.value.mime, Join(Instructions(speed, pitch), " and ")))
    ensures mode == PresetVoice && r.Some? ==>
      var p := SelectPersona(region, personaId);
      r.value.PresetSpeech? && r.value.text == text && r.value.voice == BaseVoice(p) &&
      r.value.instruction == AccentInstruction(LanguageName(Regions, region), ToneOf(Title(p)).value, Instructions(speed, pitch))
    ensures mode == PresetVoice ==> (r.Some? <==> ToneOf(Title(SelectPersona(region, personaId))).Some?)
  {
    var instructions := Instructions(speed, pitch);
    if mode == CustomClone then
      Some(CloneSpeech(text, PayloadOf(file.value.data), file.value.mime, Join(instructions, " and ")))
    else
      var persona := SelectPersona(region, personaId);
      match ToneOf(Title(persona))
      case None => None
      case Some(tone) =>
        Some(PresetSpeech(text, BaseVoice(persona), AccentInstruction(LanguageName(Regions, region), tone, instructions)))
  }

  /**
   * A preset request is always made, on the persona's voice, and its
   * instruction names the language and the persona's tone; it ends with
   * " Also, " and the speed and pitch instructions joined by " and " exactly
   * when there are any.
   */
  lemma PresetRequest(text: string, region: string, personaId: string, speed: int, pitch: int)
    requires !IsBlank(text)
    ensures var p := SelectPersona(region, personaId);
      var r := Request(text, PresetVoice, region, personaId, None, speed, pitch);
      var base := "Speak in " + LanguageName(Regions, region) + ". Use a " + p.tone + " tone.";
      var also := " Also, " + Join(Instructions(speed, pitch), " and ") + ".";
      r.Some? && r.value.voice == BaseVoice(p) &&
      StartsWith(r.value.instruction, base) &&
      (r.value.instruction == base <==> Instructions(speed, pitch) == []) &&
      (Instructions(speed, pitch) != [] ==> |r.value.instruction| == |base| + |also| && EndsWith(r.value.instruction, also))
  {
    PersonaTones(SelectPersona(region, personaId));
  }

  /** A fast voice at middle pitch: the instruction ends " Also, speak quickly." */
  lemma FastSpeechRequest(text: string, region: string, personaId: string)
    requires !IsBlank(text)
    ensures var r := Request(text, PresetVoice, region, personaId, None, 80, 50);
      r.Some? && EndsWith(r.value.instruction, " Also, speak quickly.")
  {
    PresetRequest(text, region, personaId, 80, 50);
    FastSuffix();
  }

  lemma FastSuffix()
    ensures Instructions(80, 50) != []
    ensures " Also, " + Join(Instructions(80, 50), " and ") + "." == " Also, speak quickly."
  {
    assert Instructions(80, 50) == ["speak quickly"];
  }

  // ---------------------------------------------------------------------
  // The component state.
  // ---------------------------------------------------------------------

  class VoiceOverTool {
    var text: string
    var mode: Mode
    var region: string
    var voicePersona: string
    var customVoiceFile: Option<VoiceFile>
    var loading: bool
    var speed: int
    var pitch: int
    var generatedList: seq<GeneratedMedia>

    /** The initial state: US, persona id 'female_professional', speed and pitch 50, preset mode. */
    constructor()
      ensures text == "" && mode == PresetVoice && region == "US" && voicePersona == "female_professional"
      ensures customVoiceFile == None && !loading && speed == 50 && pitch == 50 && generatedList == []
    {
      text := "";
      mode := PresetVoice;
      region := "US";
      voicePersona := "female_professional";
      customVoiceFile := None;
      loading := false;
      speed := 50;
      pitch := 50;
      generatedList := [];
    }

    /** Choosing a region also resets the persona to that region's first one. */
    method ChangeRegion(reg: string)
      modifies this
      ensures region == reg && voicePersona == PersonasForRegion(reg)[0].id
      ensures text == old(text) && mode == old(mode) && customVoiceFile == old(customVoiceFile)
      ensures loading == old(loading) && speed == old(speed) && pitch == old(pitch)
      ensures generatedList == old(generatedList)
    {
      region := reg;
      voicePersona := PersonasForRegion(reg)[0].id;
    }

    /** Choosing a persona from the menu changes only the persona id. */
    method SelectVoicePersona(id: string)
      modifies this
      ensures voicePersona == id && region == old(region)
      ensures text == old(text) && mode == old(mode) && customVoiceFile == old(customVoiceFile)
      ensures loading == old(loading) && speed == old(speed) && pitch == old(pitch)
      ensures generatedList == old(generatedList)
    {
      voicePersona := id;
    }

    /** Removing the reference recording. */
    method ClearCustomVoice()
      modifies this
      ensures customVoiceFile == None
      ensures text == old(text) && mode == old(mode) && region == old(region) && voicePersona == old(voicePersona)
      ensures loading == old(loading) && speed == old(speed) && pitch == old(pitch)
      ensures generatedList == old(generatedList)
    {
      customVoiceFile := None;
    }

    /**
     * A file chosen as reference: a file over 10 MiB is refused and nothing
     * changes; otherwise, once read, it becomes the reference recording with
     * the MIME type taken from its data URL.
     */
    method HandleFileChange(file: Option<Upload>)
      modifies this
      ensures file.None? || file.value.size > MaxUploadBytes ==> customVoiceFile == old(customVoiceFile)
      ensures file.Some? && file.value.size <= MaxUploadBytes ==>
        customVoiceFile == Some(VoiceFile(file.value.asDataUrl, file.value.name, MimeOf(file.value.asDataUrl)))
      ensures text == old(text) && mode == old(mode) && region == old(region) && voicePersona == old(voicePersona)
      ensures loading == old(loading) && speed == old(speed) && pitch == old(pitch)
      ensures generatedList == old(generatedList)
    {
      if file.Some? {
        if file.value.size > MaxUploadBytes {
          return;
        }
        var result := file.value.asDataUrl;
        var mime := Substring(result, IndexOf(result, ':') + 1, IndexOf(result, ';'));
        customVoiceFile := Some(VoiceFile(result, file.value.name, mime));
      }
    }

    /** `getInstructions`: the instructions pushed one by one for the current speed and pitch. */
    method GetInstructions() returns (instructions: seq<string>)
      ensures instructions == Instructions(speed, pitch)
    {
      instructions := [];
      if speed > 75 { instructions := instructions + ["speak quickly"]; }
      if speed < 25 { instructions := instructions + ["speak slowly"]; }
      if pitch > 75 { instructions := instructions + ["use a high-pitched voice"]; }
      if pitch < 25 { instructions := instructions + ["use a deep voice"]; }
    }

    /**
     * The part of `handleGenerate` before the speech call. A blank script, or
     * clone mode without a reference file, changes nothing (a generation
     * already under way does not stop another). Otherwise the tool is
     * loading and the pending generation carries the request and the values
     * the finished entry will record; when no request can be built (the
     * persona's title has no tone) the error ends the loading at once.
     */
    method BeginGenerate() returns (pending: Option<Pending>)
      modifies this
      ensures text == old(text) && mode == old(mode) && region == old(region) && voicePersona == old(voicePersona)
      ensures customVoiceFile == old(customVoiceFile) && speed == old(speed) && pitch == old(pitch)
      ensures generatedList == old(generatedList)
      ensures !CanGenerate(text, mode, customVoiceFile) ==> pending.None? && loading == old(loading)
      ensures CanGenerate(text, mode, customVoiceFile) ==>
        var request := Request(text, mode, region, voicePersona, customVoiceFile, speed, pitch);
        loading == request.Some? &&
        pending == if request.Some? then Some(Pending(request.value, text, VoiceLabel(mode, region, voicePersona), speed, pitch)) else None
    {
      if IsBlank(text) || (mode == CustomClone && customVoiceFile.None?) {
        return None;
      }
      loading := true;
      var request := Request(text, mode, region, voicePersona, customVoiceFile, speed, pitch);
      if request.None? {
        loading := false;
        return None;
      }
      pending := Some(Pending(request.value, text, VoiceLabel(mode, region, voicePersona), speed, pitch));
    }

    /**
     * The part of `handleGenerate` after the speech call. With no audio (the
     * service gave nothing and the encoder fails on it) the list is left as
     * it was; otherwise the audio is encoded as WAV and an entry with the
     * given object URL is put first. Either way loading ends.
     */
    method CompleteGenerate(p: Pending, audio: Option<WavEncoder.AudioBuffer>, url: string)
      returns (wav: Option<seq<WavEncoder.byte>>)
      requires audio.Some? ==> audio.value.Valid()
      modifies this
      ensures !loading
      ensures audio.None? ==> wav.None? && generatedList == old(generatedList)
      ensures audio.Some? ==>
        wav == Some(WavEncoder.WavBytes(audio.value)) &&
        generatedList == [GeneratedMedia(AudioMedia, url, p.prompt, Some(AudioVariant(p.voice, p.speed, p.pitch)))]
                         + old(generatedList)
      ensures text == old(text) && mode == old(mode) && region == old(region) && voicePersona == old(voicePersona)
      ensures customVoiceFile == old(customVoiceFile) && speed == old(speed) && pitch == old(pitch)
    {
      if audio.None? {
        wav := None;
      } else {
        var view := WavEncoder.AudioBufferToWav(audio.value);
        wav := Some(view[..]);
        var entry := GeneratedMedia(AudioMedia, url, p.prompt, Some(AudioVariant(p.voice, p.speed, p.pitch)));
        generatedList := [entry] + generatedList;
      }
      loading := false;
    }
  }
}
