/**
 * What the components see of the browser: the three localStorage keys the
 * application reads and writes, and the file picker's files with the
 * `fileToBase64` encoder, whose outcome is an input of the model.
 */
module Browser {
  import opened Wrappers

  /** The account that sign-up serialises under the 'user' key (kept as a record, not as JSON text). */
  datatype Account = Account(email: string, password: string)

  /** localStorage, restricted to the keys 'apiKey', 'sessionToken' and 'user'; None is a missing key. */
  datatype Storage = Storage(apiKey: Option<string>, sessionToken: Option<string>, user: Option<Account>)

  /** The one localStorage of the page, shared by every component that holds a reference to it. */
  class LocalStorage {
    var items: Storage

    constructor(items: Storage)
      ensures this.items == items
    {
      this.items := items;
    }
  }

  /** A file chosen in an `<input type="file">`; only its MIME type is looked at. */
  datatype File = File(mimeType: string)

  /** The settled outcome of `fileToBase64(file)`: a data URI, or a rejection. */
  datatype Encoding = Encoded(dataUri: string) | EncodeFailed
}
