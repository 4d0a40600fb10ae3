/** The image page of src/pages/ImageGenerator.tsx: the prompt gate, the request it
    makes, the defaults of its selectors and how the result is picked out of the
    response. */
module ImageGenerator {
  import opened Common
  import opened Api
  import Text

  const DefaultStyle := "realistic"
  const DefaultSize := "1024x1024"

  const EmptyPromptMessage := "Please enter a prompt"
  const FallbackError := "Failed to generate image"

  /** The response body: `imageUrl` and `image`, either possibly missing. */
  datatype ImageResponse = ImageResponse(imageUrl: Option<string>, image: Option<string>)

  /** `data.imageUrl || data.image || ''`. */
  function GeneratedResult(data: ImageResponse): (r: string)
    ensures Truthy(data.imageUrl) ==> r == data.imageUrl.value
    ensures !Truthy(data.imageUrl) && Truthy(data.image) ==> r == data.image.value
    ensures !Truthy(data.imageUrl) && !Truthy(data.image) ==> r == ""
  {
    FirstOfTwo(data.imageUrl, data.image);
    FirstTruthy([data.imageUrl, data.image])
  }

  /** `onError`: the server's message, or the fixed fallback. */
  function ErrorMessage(e: ApiError): (r: string)
    ensures r != ""
    ensures Truthy(ResponseMessage(e)) ==> r == ResponseMessage(e).value
  {
    MessageOr(e, FallbackError)
  }

  class ImagePage {
    var prompt: string
    var style: string
    var size: string
    var generatedImage: string

    constructor ()
      ensures prompt == "" && style == DefaultStyle && size == DefaultSize && generatedImage == ""
    {
      prompt, style, size, generatedImage := "", DefaultStyle, DefaultSize, "";
    }

    /** The "Generate Image" button is disabled exactly while a request is pending
        or while the prompt is empty or white space only. */
    function GenerateDisabled(isPending: bool): (r: bool)
      reads this
      ensures r <==> isPending || Text.AllSpace(prompt)
    {
      Text.BlankIffAllSpace(prompt);
      isPending || Text.IsBlank(prompt)
    }

    /** `handleGenerate`: a blank prompt makes no request and asks for a prompt;
        any other prompt is trimmed and sent with the current style and size as
        they are. */
    method HandleGenerate(client: Client) returns (sent: Option<Request>, toast: Option<string>)
      ensures sent.None? <==> Text.AllSpace(prompt)
      ensures toast.Some? <==> sent.None?
      ensures toast.Some? ==> toast.value == EmptyPromptMessage
      ensures sent.Some? ==> CarriesCredentialOf(sent.value, client.common)
      ensures sent.Some? ==>
                && sent.value.path == "/image"
                && sent.value.body == ImageBody(Text.Trim(prompt), Some(style), Some(size))
    {
      var p := prompt;
      Text.BlankIffAllSpace(p);
      if Text.IsBlank(p) {
        return None, Some(EmptyPromptMessage);
      }
      var req := client.GenerateImage(Text.Trim(p), Some(style), Some(size));
      sent, toast := Some(req), None;
    }

    /** `onSuccess`. */
    method OnSuccess(data: ImageResponse)
      modifies this
      ensures generatedImage == GeneratedResult(data)
      ensures prompt == old(prompt) && style == old(style) && size == old(size)
    {
      generatedImage := GeneratedResult(data);
    }
  }

  /** A sent prompt is never blank and never carries white space at either end. */
  lemma SentPromptIsTrimmed(prompt: string)
    requires !Text.AllSpace(prompt)
    ensures Text.Trim(prompt) != ""
    ensures !Text.IsSpace(Text.Trim(prompt)[0]) && !Text.IsSpace(Text.Trim(prompt)[|Text.Trim(prompt)| - 1])
    ensures Text.Trim(Text.Trim(prompt)) == Text.Trim(prompt)
  {
    Text.BlankIffAllSpace(prompt);
    Text.TrimIdempotent(prompt);
  }
}
