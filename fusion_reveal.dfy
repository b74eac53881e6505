/** The fusion image: the `src` built from a bare base64 payload or a full
    data URL, and the reveal button that shows it once. */
module FusionReveal {
  import opened Common
  import opened Text

  const DATA_SCHEME := "data:"
  const JPEG_PREFIX := "data:image/jpeg;base64,"

  /** The image `src`: a data URL unchanged, anything else prefixed as a
      base64 JPEG. */
  function DataSrc(image: string): (src: string)
    ensures StartsWith(image, DATA_SCHEME) ==> src == image
    ensures !StartsWith(image, DATA_SCHEME) ==> src == JPEG_PREFIX + image
  {
    if StartsWith(image, DATA_SCHEME) then image else JPEG_PREFIX + image
  }

  /** Every `src` is a data URL, normalising twice changes nothing, and a
      prefixed payload can be read back after the prefix. */
  lemma DataSrcNormal(image: string)
    ensures StartsWith(DataSrc(image), DATA_SCHEME)
    ensures DataSrc(DataSrc(image)) == DataSrc(image)
    ensures !StartsWith(image, DATA_SCHEME) ==> DataSrc(image)[|JPEG_PREFIX|..] == image
  {
    var p := JPEG_PREFIX + image;
    assert p[..|DATA_SCHEME|] == JPEG_PREFIX[..|DATA_SCHEME|];
  }

  /** The component's state: whether the image has been revealed. */
  class Reveal {
    var revealed: bool

    constructor ()
      ensures !revealed
    {
      revealed := false;
    }

    /** The reveal button: the flag is set and is never cleared. */
    method Click()
      modifies this
      ensures revealed
    {
      revealed := true;
    }
  }

  /** What the component shows for `fusionImage`: nothing for a missing or
      empty image, otherwise the image (with its `src`) once revealed and
      the button before that. */
  datatype View = Hidden | Button | Image(src: string)

  function Render(fusionImage: Option<string>, revealed: bool): (v: View)
    ensures v == Hidden <==> !Truthy(fusionImage)
    ensures Truthy(fusionImage) && revealed ==> v == Image(DataSrc(fusionImage.value))
    ensures Truthy(fusionImage) && !revealed ==> v == Button
  {
    if !Truthy(fusionImage) then Hidden
    else if revealed then Image(DataSrc(fusionImage.value))
    else Button
  }
}
