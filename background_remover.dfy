/** The background-removal page of src/pages/BackgroundRemover.tsx: the image upload
    validator, the original and processed images it shows, and how the result is
    picked out of the response. */
module BackgroundRemover {
  import opened Common
  import opened Api
  import Text

  const ImageTypePrefix := "image/"
  const MaxImageBytes := 10 * 1024 * 1024

  const NoFileMessage := "Please select an image first"
  const FallbackError := "Failed to remove background"

  datatype Rejection = NotImage | TooLarge
  {
    function Message(): string
    {
      match this
      case NotImage => "Please select an image file"
      case TooLarge => "File size must be less than 10MB"
    }
  }

  /** Any type starting with `image/` is accepted; the type is checked before the
      size, and a file of exactly 10 MiB passes. */
  function CheckImage(f: File): (r: Option<Rejection>)
    ensures r == Some(NotImage) <==> !Text.StartsWith(f.mimeType, ImageTypePrefix)
    ensures r == Some(TooLarge) <==> Text.StartsWith(f.mimeType, ImageTypePrefix) && f.size > MaxImageBytes
    ensures r.None? <==> Text.StartsWith(f.mimeType, ImageTypePrefix) && f.size <= 10485760
  {
    if !Text.StartsWith(f.mimeType, ImageTypePrefix) then Some(NotImage)
    else if f.size > MaxImageBytes then Some(TooLarge)
    else None
  }

  /** The response body: `imageUrl` and `processedImage`, either possibly missing. */
  datatype RemovalResponse = RemovalResponse(imageUrl: Option<string>, processedImage: Option<string>)

  /** `data.imageUrl || data.processedImage || ''`. */
  function ProcessedResult(data: RemovalResponse): (r: string)
    ensures Truthy(data.imageUrl) ==> r == data.imageUrl.value
    ensures !Truthy(data.imageUrl) && Truthy(data.processedImage) ==> r == data.processedImage.value
    ensures !Truthy(data.imageUrl) && !Truthy(data.processedImage) ==> r == ""
  {
    FirstOfTwo(data.imageUrl, data.processedImage);
    FirstTruthy([data.imageUrl, data.processedImage])
  }

  /** `onError`: the server's message, or the fixed fallback. */
  function ErrorMessage(e: ApiError): (r: string)
    ensures r != ""
    ensures Truthy(ResponseMessage(e)) ==> r == ResponseMessage(e).value
  {
    MessageOr(e, FallbackError)
  }

  class BackgroundPage {
    /** The picked image as a data URL, once the file reader has loaded it. */
    var originalImage: string
    var processedImage: string
    var selectedFile: Option<File>

    constructor ()
      ensures originalImage == "" && processedImage == "" && selectedFile.None?
    {
      originalImage, processedImage, selectedFile := "", "", None;
    }

    /** `handleFileSelect`: a refused file changes nothing; an accepted one becomes
        the selection at once, while the images change only when the reader
        finishes (`OnOriginalLoaded`). */
    method HandleFileSelect(file: Option<File>) returns (rejected: Option<Rejection>, toast: Option<string>)
      modifies this
      ensures file.None? ==> rejected.None?
      ensures toast.Some? <==> rejected.Some?
      ensures rejected.Some? ==> toast.value == rejected.value.Message()
      ensures file.Some? ==> rejected == CheckImage(file.value)
      ensures file.None? || rejected.Some? ==> selectedFile == old(selectedFile)
      ensures file.Some? && rejected.None? ==> selectedFile == file
      ensures originalImage == old(originalImage) && processedImage == old(processedImage)
    {
      rejected, toast := None, None;
      if file.Some? {
        var f := file.value;
        if !Text.StartsWith(f.mimeType, ImageTypePrefix) {
          return Some(NotImage), Some(NotImage.Message());
        }
        if f.size > MaxImageBytes {
          return Some(TooLarge), Some(TooLarge.Message());
        }
        selectedFile := Some(f);
      }
    }

    /** The reader's `onload`: the new original replaces the old one and the
        previous result is cleared. */
    method OnOriginalLoaded(dataUrl: string)
      modifies this
      ensures originalImage == dataUrl && processedImage == ""
      ensures selectedFile == old(selectedFile)
    {
      originalImage := dataUrl;
      processedImage := "";
    }

    /** `handleProcessImage`: without a selection no request is made and the page
        asks for an image; with one the file is posted as the form field `image`
        with the long timeout. */
    method HandleProcessImage(client: Client) returns (sent: Option<Request>, toast: Option<string>)
      ensures sent.None? <==> selectedFile.None?
      ensures toast.Some? <==> sent.None?
      ensures toast.Some? ==> toast.value == NoFileMessage
      ensures sent.Some? ==>
                && sent.value.path == "/bg-remove"
                && sent.value.body == FormBody([Part("image", selectedFile.value)])
                && sent.value.timeoutMs == BgRemoveTimeoutMs
      ensures sent.Some? ==> CarriesCredentialOf(sent.value, client.common)
    {
      if selectedFile.None? {
        return None, Some(NoFileMessage);
      }
      var req := client.RemoveBackground(selectedFile.value);
      sent, toast := Some(req), None;
    }

    /** `onSuccess`. */
    method OnSuccess(data: RemovalResponse)
      modifies this
      ensures processedImage == ProcessedResult(data)
      ensures originalImage == old(originalImage) && selectedFile == old(selectedFile)
    {
      processedImage := ProcessedResult(data);
    }

    /** `clearImages`. */
    method ClearImages()
      modifies this
      ensures originalImage == "" && processedImage == "" && selectedFile.None?
    {
      originalImage := "";
      processedImage := "";
      selectedFile := None;
    }

    /** The result panel is shown when either image is present. */
    function ShowsResults(): (r: bool)
      reads this
      ensures r <==> originalImage != "" || processedImage != ""
    {
      Truthy(Some(originalImage)) || Truthy(Some(processedImage))
    }
  }

  /** An accepted pick followed by its own load shows the new original and clears
      the old result; a refused pick changes nothing. */
  method SelectAndLoad(page: BackgroundPage, file: File, dataUrl: string)
    returns (rejected: Option<Rejection>)
    modifies page
    ensures rejected == CheckImage(file)
    ensures rejected.None? ==>
              page.selectedFile == Some(file) && page.originalImage == dataUrl && page.processedImage == ""
    ensures rejected.Some? ==>
              && page.selectedFile == old(page.selectedFile)
              && page.originalImage == old(page.originalImage)
              && page.processedImage == old(page.processedImage)
  {
    var toast;
    rejected, toast := page.HandleFileSelect(Some(file));
    if rejected.None? {
      page.OnOriginalLoaded(dataUrl);
    }
  }
}
