/** Photo selection of `usePhotoCapture`: file validation, the conversion of a
    valid file to a data URL (an external step whose outcome is an input), and
    the `photo`/`error`/`loading` state the handlers update. */
module PhotoCapture {
  import opened Common

  const MAX_FILE_SIZE: nat := 10 * 1024 * 1024
  const ACCEPTED_TYPES: seq<string> := ["image/jpeg", "image/png", "image/webp"]

  /** A selected file: its MIME type and its size in bytes. */
  datatype File = File(mimeType: string, size: nat)

  /** `validate(file)`: the error message, or none for an acceptable file. The
      type is checked before the size, and the size limit is inclusive. */
  function Validate(file: Option<File>): (err: Option<string>)
    ensures file.None? ==> err == Some("No file selected")
    ensures file.Some? && file.value.mimeType !in ACCEPTED_TYPES ==> err == Some("Please use JPEG, PNG, or WebP")
    ensures file.Some? && file.value.mimeType in ACCEPTED_TYPES && file.value.size > MAX_FILE_SIZE ==>
              err == Some("File must be under 10MB")
    ensures err.None? <==> file.Some? && file.value.mimeType in ACCEPTED_TYPES && file.value.size <= MAX_FILE_SIZE
  {
    if file.None? then Some("No file selected")
    else if file.value.mimeType !in ACCEPTED_TYPES then Some("Please use JPEG, PNG, or WebP")
    else if file.value.size > MAX_FILE_SIZE then Some("File must be under 10MB")
    else None
  }

  /** A file of exactly 10 MiB passes and one byte more does not. */
  lemma SizeLimitIsInclusive(t: string)
    requires t in ACCEPTED_TYPES
    ensures Validate(Some(File(t, 10485760))).None?
    ensures Validate(Some(File(t, 10485761))) == Some("File must be under 10MB")
  {
  }

  class PhotoCapture {
    var photo: Option<string>
    var error: Option<string>
    var loading: bool
    /** Whether the file input element is mounted (`inputRef.current`). */
    var hasInput: bool
    /** The file input's `value`. */
    var inputValue: string

    constructor (mounted: bool, value: string)
      ensures photo.None? && error.None? && !loading
      ensures hasInput == mounted && inputValue == value
    {
      photo := None;
      error := None;
      loading := false;
      hasInput := mounted;
      inputValue := value;
    }

    /** The part of `handleFile` before the conversion: a rejected file only
        sets the error; an accepted one starts loading and clears the error. */
    method BeginFile(file: Option<File>) returns (accepted: bool)
      modifies this
      ensures accepted <==> Validate(file).None?
      ensures !accepted ==> error == Validate(file) && photo == old(photo) && loading == old(loading)
      ensures accepted ==> error.None? && photo == old(photo) && loading
      ensures hasInput == old(hasInput) && inputValue == old(inputValue)
    {
      var err := Validate(file);
      if err.Some? {
        error := err;
        accepted := false;
      } else {
        loading := true;
        error := None;
        accepted := true;
      }
    }

    /** The part of `handleFile` after the conversion: `converted` is the data
        URL, or none when the conversion failed. Loading ends either way. */
    method FinishFile(converted: Option<string>) returns (r: Option<string>)
      modifies this
      ensures r == converted && !loading
      ensures converted.Some? ==> photo == converted && error == old(error)
      ensures converted.None? ==> photo == old(photo) && error == Some("Failed to process image")
      ensures hasInput == old(hasInput) && inputValue == old(inputValue)
    {
      if converted.Some? {
        photo := converted;
        r := converted;
      } else {
        error := Some("Failed to process image");
        r := None;
      }
      loading := false;
    }

    /** `handleFile` run to completion: the result is the data URL or none. */
    method HandleFile(file: Option<File>, converted: Option<string>) returns (r: Option<string>)
      modifies this
      ensures Validate(file).Some? ==>
                r.None? && error == Validate(file) && photo == old(photo) && loading == old(loading)
      ensures Validate(file).None? && converted.Some? ==>
                r == converted && photo == converted && error.None? && !loading
      ensures Validate(file).None? && converted.None? ==>
                r.None? && photo == old(photo) && error == Some("Failed to process image") && !loading
      ensures hasInput == old(hasInput) && inputValue == old(inputValue)
    {
      var accepted := BeginFile(file);
      if !accepted {
        return None;
      }
      r := FinishFile(converted);
    }

    /** `handleInputChange` and `handleDrop`: the first file of the event, if
        any, goes to `handleFile`; an event without files changes nothing. */
    method HandleFiles(files: seq<File>, converted: Option<string>)
      modifies this
      ensures files == [] ==> photo == old(photo) && error == old(error) && loading == old(loading)
      ensures files != [] && Validate(Some(files[0])).None? && converted.Some? ==>
                photo == converted && error.None? && !loading
      ensures files != [] && Validate(Some(files[0])).None? && converted.None? ==>
                photo == old(photo) && error == Some("Failed to process image") && !loading
      ensures files != [] && Validate(Some(files[0])).Some? ==>
                photo == old(photo) && error == Validate(Some(files[0])) && loading == old(loading)
      ensures hasInput == old(hasInput) && inputValue == old(inputValue)
    {
      if files != [] {
        var _ := HandleFile(Some(files[0]), converted);
      }
    }

    /** `clearPhoto`: no photo, no error, and an emptied file input. */
    method ClearPhoto()
      modifies this
      ensures photo.None? && error.None? && loading == old(loading)
      ensures hasInput == old(hasInput)
      ensures inputValue == (if hasInput then "" else old(inputValue))
    {
      photo := None;
      error := None;
      if hasInput {
        inputValue := "";
      }
    }
  }
}
