/**
 * The image-generation page (src/app/page.tsx): its component state, the
 * handlers that change it, and the pure rules those handlers apply to turn a
 * reply into an image or a message and a timestamp into a file name.
 * localStorage is the field `storedApiKey`; the HTTP call's outcome, the
 * clock's timestamp and the text typed into inputs are parameters.
 */
module Page {
  import opened Wrappers
  import opened JsText
  import opened Types
  import opened Request

  /** The localStorage key under which the API key is kept (`storedApiKey`). */
  const ApiKeyStorageKey := "sd_api_key"

  const SuccessReason := "SUCCESS"
  const DataUriPrefix := "data:image/png;base64,"

  const NoImageMessage := "No image was generated."
  const InvalidKeyMessage := "Invalid API Key"
  const GenericMessage := "An error occurred while generating the image."
  const ErrorMessages: set<string> := {NoImageMessage, InvalidKeyMessage, GenericMessage}

  predicate IsDataUri(s: string) {
    |DataUriPrefix| <= |s| && s[..|DataUriPrefix|] == DataUriPrefix
  }

  /** The PNG data URI for base64 data `b64`; the data can be read back from it. */
  function DataUri(b64: string): (uri: string)
    ensures IsDataUri(uri) && uri[|DataUriPrefix|..] == b64
  {
    DataUriPrefix + b64
  }

  /** What a finished generation leaves behind: an image and its seed, or a message. */
  datatype Settlement = Generated(uri: string, seed: Option<int>) | Failed(message: string)

  /**
   * How a finished request is read. A reply with a non-empty image and
   * finish reason "SUCCESS" gives that image as a data URI and the echoed
   * seed; any other reply gives "No image was generated."; an AxiosError with
   * status 401 gives "Invalid API Key"; any other error gives the generic
   * message.
   */
  function Settle(outcome: Outcome): (r: Settlement)
    ensures r.Generated? <==>
      outcome.Reply? && TruthyText(outcome.data.image) && outcome.data.finishReason == Some(SuccessReason)
    ensures r.Generated? ==>
      IsDataUri(r.uri) && r.uri[|DataUriPrefix|..] == outcome.data.image.value && r.seed == outcome.data.seed
    ensures r.Failed? ==> r.message in ErrorMessages
    ensures r == Failed(NoImageMessage) <==> outcome.Reply? && !r.Generated?
    ensures r == Failed(InvalidKeyMessage) <==> outcome == Raised(AxiosError(Some(401)))
    ensures r == Failed(GenericMessage) <==> outcome.Raised? && outcome != Raised(AxiosError(Some(401)))
  {
    match outcome
    case Reply(data) =>
      if TruthyText(data.image) && data.finishReason == Some(SuccessReason) then
        Generated(DataUri(data.image.value), data.seed)
      else
        Failed(NoImageMessage)
    case Raised(e) =>
      if e.AxiosError? && e.status == Some(401) then Failed(InvalidKeyMessage) else Failed(GenericMessage)
  }

  /** The character `c` becomes in a file name: ':' and '.' turn into '-'. */
  function FileNameChar(c: char): char {
    if c == ':' || c == '.' then '-' else c
  }

  /** `timestamp.replace(/[:.]/g, "-")`. */
  function SanitizeTimestamp(timestamp: string): (r: string)
    ensures |r| == |timestamp|
    ensures forall k :: 0 <= k < |r| ==> r[k] == FileNameChar(timestamp[k])
  {
    if timestamp == [] then [] else [FileNameChar(timestamp[0])] + SanitizeTimestamp(timestamp[1..])
  }

  const FileNamePrefix := "generated-"
  const FileNameSuffix := ".png"

  /**
   * The download's file name: "generated-", the timestamp with every ':' and
   * '.' turned into '-' and every other character kept, then ".png".
   */
  function DownloadName(timestamp: string): (name: string)
    ensures |name| == |FileNamePrefix| + |timestamp| + |FileNameSuffix|
    ensures name[..|FileNamePrefix|] == FileNamePrefix
    ensures name[|name| - |FileNameSuffix|..] == FileNameSuffix
    ensures forall k :: 0 <= k < |timestamp| ==> name[|FileNamePrefix| + k] == FileNameChar(timestamp[k])
    ensures forall k :: 0 <= k < |timestamp| ==>
      var c := name[|FileNamePrefix| + k];
      c != ':' && c != '.' && (timestamp[k] != ':' && timestamp[k] != '.' ==> c == timestamp[k])
  {
    var middle := SanitizeTimestamp(timestamp);
    var name := FileNamePrefix + middle + FileNameSuffix;
    assert forall k :: 0 <= k < |timestamp| ==> name[|FileNamePrefix| + k] == middle[k];
    name
  }

  /** The link `handleDownload` clicks: where it points and the name it saves under. */
  datatype DownloadLink = DownloadLink(href: string, filename: string)

  /** The form's starting values. */
  function InitialOptions(): GenerationOptions {
    GenerationOptions("", Some(SD35Large), Some(Ratio1x1), Some(""), Some(0), Some(JsNumber("7.5")), None)
  }

  class GeneratePage {
    var options: GenerationOptions
    var image: Option<string>
    var loading: bool
    var error: Option<string>
    var lastSeed: Option<int>
    var showApiKeyDialog: bool
    var apiKey: string
    var tempApiKey: string
    /** The localStorage entry under `ApiKeyStorageKey`. */
    var storedApiKey: Option<string>

    /**
     * While a request is out nothing is shown; a shown image is a PNG data
     * URI; a shown error is one of the three fixed messages.
     */
    ghost predicate Valid()
      reads this
    {
      (loading ==> image.None? && error.None?)
      && (image.Some? ==> IsDataUri(image.value))
      && (error.Some? ==> error.value in ErrorMessages)
    }

    /** The page as first rendered, over whatever localStorage holds. */
    constructor (stored: Option<string>)
      ensures Valid()
      ensures options == InitialOptions() && image.None? && !loading && error.None? && lastSeed.None?
      ensures !showApiKeyDialog && apiKey == "" && tempApiKey == "" && storedApiKey == stored
    {
      options := InitialOptions();
      image := None;
      loading := false;
      error := None;
      lastSeed := None;
      showApiKeyDialog := false;
      apiKey := "";
      tempApiKey := "";
      storedApiKey := stored;
    }

    /** The mount effect: no stored key (or an empty one) opens the dialog, else the key is adopted. */
    method Mount()
      requires Valid()
      modifies this`showApiKeyDialog, this`apiKey
      ensures Valid()
      ensures !TruthyText(storedApiKey) ==> showApiKeyDialog && apiKey == old(apiKey)
      ensures TruthyText(storedApiKey) ==>
        apiKey == storedApiKey.value && showApiKeyDialog == old(showApiKeyDialog)
    {
      if !TruthyText(storedApiKey) {
        showApiKeyDialog := true;
      } else {
        apiKey := storedApiKey.value;
      }
    }

    /** The dialog's own open/close control (`onOpenChange`). */
    method SetDialogOpen(open: bool)
      requires Valid()
      modifies this`showApiKeyDialog
      ensures showApiKeyDialog == open
      ensures Valid()
    {
      showApiKeyDialog := open;
    }

    /** Typing into the API-key input. */
    method EditTempApiKey(text: string)
      requires Valid()
      modifies this`tempApiKey
      ensures tempApiKey == text
      ensures Valid()
    {
      tempApiKey := text;
    }

    /**
     * `handleApiKeySubmit`: a key that is not blank once trimmed is stored
     * and adopted in trimmed form and the dialog closes; a blank one changes
     * nothing.
     */
    method SubmitApiKey()
      requires Valid()
      modifies this`storedApiKey, this`apiKey, this`showApiKeyDialog
      ensures Trim(old(tempApiKey)) != "" ==>
        var key := Trim(old(tempApiKey));
        storedApiKey == Some(key) && apiKey == key && !showApiKeyDialog
      ensures Trim(old(tempApiKey)) == "" ==>
        storedApiKey == old(storedApiKey) && apiKey == old(apiKey) && showApiKeyDialog == old(showApiKeyDialog)
      ensures Valid()
    {
      var key := Trim(tempApiKey);
      if key != "" {
        storedApiKey := Some(key);
        apiKey := key;
        showApiKeyDialog := false;
      }
    }

    /** Editing the form (any of its inputs). */
    method EditOptions(o: GenerationOptions)
      requires Valid()
      modifies this`options
      ensures options == o
      ensures Valid()
    {
      options := o;
    }

    /** The Generate button is enabled when nothing is loading and the prompt is not empty. */
    predicate GenerateEnabled()
      reads this
    {
      !loading && options.prompt != ""
    }

    /**
     * The part of `handleGenerate` before the request goes out: loading is
     * set, error and image are cleared, and the request for the current
     * options and key is built. Nothing else changes.
     */
    method BeginGenerate() returns (request: Outbound)
      requires Valid() && GenerateEnabled()
      modifies this`loading, this`error, this`image
      ensures Valid() && loading && error.None? && image.None?
      ensures request == OutboundFor(options, apiKey)
    {
      loading := true;
      error := None;
      image := None;
      var fd := BuildFormData(options);
      request := Outbound(Endpoint, fd, Headers(Bearer(apiKey)));
    }

    /**
     * The part of `handleGenerate` after the request settles: exactly one of
     * image and error is set, as `Settle` reads the outcome; the seed is
     * recorded only with an image; loading ends. Nothing else changes.
     */
    method FinishGenerate(outcome: Outcome)
      requires Valid() && loading
      modifies this`loading, this`error, this`image, this`lastSeed
      ensures Valid() && !loading
      ensures image.Some? != error.Some?
      ensures Settle(outcome).Generated? ==>
        image == Some(Settle(outcome).uri) && lastSeed == Settle(outcome).seed
      ensures Settle(outcome).Failed? ==>
        error == Some(Settle(outcome).message) && lastSeed == old(lastSeed)
    {
      match Settle(outcome) {
        case Generated(uri, seed) =>
          image := Some(uri);
          lastSeed := seed;
        case Failed(message) =>
          error := Some(message);
      }
      loading := false;
    }

    /**
     * `handleDownload` with the clock's ISO timestamp as a parameter: nothing
     * without an image; otherwise a link to the image itself, named after the
     * timestamp.
     */
    method Download(timestamp: string) returns (link: Option<DownloadLink>)
      ensures link.None? <==> !TruthyText(image)
      ensures link.Some? ==> link.value.href == image.value && link.value.filename == DownloadName(timestamp)
    {
      if !TruthyText(image) {
        return None;
      }
      link := Some(DownloadLink(image.value, DownloadName(timestamp)));
    }
  }

  /** A key submitted in one session is adopted, without the dialog, at the next page load. */
  method KeySurvivesReload(typed: string)
    requires Trim(typed) != ""
  {
    var first := new GeneratePage(None);
    first.Mount();
    assert first.showApiKeyDialog;
    first.EditTempApiKey(typed);
    first.SubmitApiKey();
    var second := new GeneratePage(first.storedApiKey);
    second.Mount();
    assert !second.showApiKeyDialog && second.apiKey == Trim(typed);
  }
}
