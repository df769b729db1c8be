/**
 * The chaincode keeps everything as JSON text in the ledger and decodes it with
 * encoding/json. The byte format itself is not modelled: a `Codec` bundles the
 * decoders and encoders the chaincode uses, and `Lawful` states the facts about
 * encoding/json that the proofs rely on.
 */
module JsonCodec {
  import opened Wrappers

  /** A JSON object of strings, Go's map[string]string. */
  type Fields = map<string, string>

  /**
   * Looking up `key` in a decoded map: a nil map (`None`) and a missing key both
   * read as the empty string, as indexing a Go map does.
   */
  function Field(record: Option<Fields>, key: string): string {
    if record.Some? && key in record.value then record.value[key] else ""
  }

  /**
   * The uses of encoding/json in the chaincode:
   * - decodeObject: Unmarshal into a map[string]string; `None` is the map left nil
   *   (text that is not a JSON object, or JSON null);
   * - decodeObjects: Unmarshal into a []map[string]string, error ignored;
   * - decodeStrings: Unmarshal into a []string; `None` is a returned error;
   * - encodeObject: Marshal of a map[string]string (a nil map gives null);
   * - encodeStrings: Marshal of a []string.
   */
  datatype Codec = Codec(
    decodeObject: string -> Option<Fields>,
    decodeObjects: string -> seq<Option<Fields>>,
    decodeStrings: string -> Option<seq<string>>,
    encodeObject: Option<Fields> -> string,
    encodeStrings: seq<string> -> string)

  /** The properties of encoding/json the model depends on. */
  ghost predicate Lawful(c: Codec) {
    // Marshal then Unmarshal gives the list and the map back.
    && (forall xs :: c.decodeStrings(c.encodeStrings(xs)) == Some(xs))
    && (forall r :: c.decodeObject(c.encodeObject(r)) == r)
    // Text that decodes into a map is a JSON object, which Unmarshal refuses to put in a []string.
    && (forall b :: c.decodeObject(b).Some? ==> c.decodeStrings(b).None?)
    // JSON null, the encoding of a nil map, decodes into a []string as an empty list.
    && c.decodeStrings(c.encodeObject(None)) == Some([])
    // The empty list is written as the two characters [ and ].
    && c.encodeStrings([]) == "[]"
  }
}
