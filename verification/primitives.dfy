/**
 * The library functions the URL builder calls and whose internals are not modelled:
 * percent-encoding (`urlencoding::encode`), the MD5 hex digest (`format!("{:x}", md5::compute(..))`)
 * and serde_json's text for a float. They are passed in as function values, so every
 * property of the model holds for any choice of them unless a lemma names a fact it assumes.
 */
module Primitives {

  datatype Deps = Deps(
    encode: string -> string,
    md5Hex: string -> string,
    formatFloat: bv64 -> string)

  /** An MD5 digest is 16 bytes, so its lower-case hex text has 32 characters. */
  const DigestLength := 32

  predicate IsLowerHex(c: char) {
    '0' <= c <= '9' || 'a' <= c <= 'f'
  }

  /**
   * Percent-encoding leaves only unreserved characters and `%XX` escapes, so its output
   * never holds the query delimiters `&` and `=` nor the `?` that starts a query.
   */
  ghost predicate EscapesDelimiters(encode: string -> string) {
    forall s :: '&' !in encode(s) && '=' !in encode(s) && '?' !in encode(s)
  }

  /** The digest text is 32 lower-case hex digits. */
  ghost predicate IsHexDigest(md5Hex: string -> string) {
    forall s :: |md5Hex(s)| == DigestLength && forall i :: 0 <= i < |md5Hex(s)| ==> IsLowerHex(md5Hex(s)[i])
  }

  /** The two library facts the URL round trip rests on. */
  ghost predicate WellBehaved(d: Deps) {
    EscapesDelimiters(d.encode) && IsHexDigest(d.md5Hex)
  }
}
