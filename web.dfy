/** Browser values the components receive or produce, reduced to the parts
    the components read. */
module Web {

  /** A `File` picked from a file input or built from a camera capture. */
  datatype File = File(name: string, size: nat, mimeType: string)

  datatype NoticeKind = Success | Error | Warning

  /** A snackbar or alert message shown to the user. */
  datatype Notice = Notice(message: string, kind: NoticeKind)
}
