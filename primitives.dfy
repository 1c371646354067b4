/** The library calls the client makes but does not define: UTF-8 encoding, MD5, SHA-1 and
    Base64. They are given as values, so the model states only how the client composes them. */
module Primitives {
  import opened Base

  type Bytes = seq<JByte>

  datatype Library = Library(
    utf8: string -> Bytes,                // String.toByteArray()
    md5: Option<Bytes -> Bytes>,          // MessageDigest.getInstance("MD5"); None when it throws
    sha1: Option<Bytes -> Bytes>,         // MessageDigest.getInstance("SHA-1"); None when it throws
    base64Encode: Bytes -> string,        // String(Base64.encode(bytes, Base64.DEFAULT))
    base64Decode: Bytes -> Option<Bytes>) // Base64.decode(bytes, Base64.DEFAULT); None when it throws
}
