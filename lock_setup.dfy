/**
 * The lock-image picker of components/LockSetup.tsx. `handleFileChange`
 * awaits `fileToBase64`; the part before the await is `SelectFile`, the part
 * after it `FinishEncoding`, and `encode` is the encoder's outcome per file.
 */
module LockSetupComponent {
  import opened Wrappers
  import opened Text
  import opened Browser

  const NotImageError := "Please select an image file."
  const ProcessError := "Could not process the image. Please try again."

  /** `file.type.startsWith('image/')`: the type is "image/" followed by any subtype. */
  predicate IsImageType(mimeType: string)
    ensures IsImageType(mimeType) <==> |mimeType| >= 6 && mimeType == "image/" + mimeType[6..]
  {
    StartsWith(mimeType, "image/")
  }

  /** Every subtype after "image/" passes, the bare "image/" included. */
  lemma ImageSubtypes(subtype: string)
    ensures IsImageType("image/" + subtype)
  {
    assert ("image/" + subtype)[6..] == subtype;
  }

  /** The test is case-sensitive and needs the slash: these types are refused. */
  lemma NotImageTypes()
    ensures !IsImageType("Image/png") && !IsImageType("IMAGE/JPEG") && !IsImageType("image") && !IsImageType("text/plain")
  {
    assert "Image/png"[0] != "image/"[0];
    assert "IMAGE/JPEG"[0] != "image/"[0];
    assert "text/plain"[0] != "image/"[0];
  }

  class LockSetup {
    var error: string

    constructor()
      ensures error == ""
    {
      error := "";
    }

    /** Up to the await: the file to encode, if the first picked file is an image. */
    method SelectFile(files: seq<File>) returns (toEncode: Option<File>)
      modifies this`error
      ensures files == [] ==> toEncode == None && error == old(error)
      ensures files != [] && !IsImageType(files[0].mimeType) ==> toEncode == None && error == NotImageError
      ensures files != [] && IsImageType(files[0].mimeType) ==> toEncode == Some(files[0]) && error == ""
    {
      toEncode := None;
      if |files| > 0 {
        var file := files[0];
        if !IsImageType(file.mimeType) {
          error := NotImageError;
          return;
        }
        error := "";
        toEncode := Some(file);
      }
    }

    /** After the await: `onLockSet` with the data URI, or the error line. */
    method FinishEncoding(encoding: Encoding) returns (lockSet: Option<string>)
      modifies this`error
      ensures encoding.Encoded? ==> lockSet == Some(encoding.dataUri) && error == old(error)
      ensures encoding.EncodeFailed? ==> lockSet == None && error == ProcessError
    {
      match encoding
      case Encoded(base64String) =>
        lockSet := Some(base64String);
      case EncodeFailed =>
        error := ProcessError;
        lockSet := None;
    }

    /** `handleFileChange`; `lockSet` holds the argument of the one `onLockSet` call, if any. */
    method HandleFileChange(files: seq<File>, encode: File -> Encoding) returns (lockSet: Option<string>)
      modifies this`error
      ensures files == [] ==> lockSet == None && error == old(error)
      ensures files != [] && !IsImageType(files[0].mimeType) ==> lockSet == None && error == NotImageError
      ensures files != [] && IsImageType(files[0].mimeType) ==>
        match encode(files[0])
        case Encoded(uri) => lockSet == Some(uri) && error == ""
        case EncodeFailed => lockSet == None && error == ProcessError
    {
      var toEncode := SelectFile(files);
      if toEncode.None? {
        return None;
      }
      lockSet := FinishEncoding(encode(toEncode.value));
    }
  }
}
