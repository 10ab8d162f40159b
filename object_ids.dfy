/**
 * Document identifiers (`Types.ObjectId`) and `toObjectId`, the conversion
 * every service applies to the ids it receives as strings.
 */
module ObjectIds {
  import opened Wrappers

  /** An ObjectId, held as its hexadecimal text. */
  datatype ObjectId = ObjectId(hex: string)

  predicate IsHexDigit(c: char) {
    '0' <= c <= '9' || 'a' <= c <= 'f' || 'A' <= c <= 'F'
  }

  predicate IsLowerHexDigit(c: char) {
    '0' <= c <= '9' || 'a' <= c <= 'f'
  }

  /** class-validator's `IsMongoId` and mongoose's `isValid` on a string: 24 hexadecimal digits. */
  predicate IsMongoId(s: string) {
    |s| == 24 && forall i | 0 <= i < |s| :: IsHexDigit(s[i])
  }

  /** The form `ObjectId.toString()` produces: 24 lower-case hexadecimal digits. */
  predicate IsCanonical(id: ObjectId) {
    |id.hex| == 24 && forall i | 0 <= i < |id.hex| :: IsLowerHexDigit(id.hex[i])
  }

  function LowerHexChar(c: char): char {
    if 'A' <= c <= 'F' then (c as int - 'A' as int + 'a' as int) as char else c
  }

  /** `toObjectId(s)`: the id that `s` denotes, or the `Error` it throws (a 500 once it leaves the service). */
  function ToObjectId(s: string): (r: Result<ObjectId>)
    ensures r.Ok? <==> IsMongoId(s)
    ensures r.Ok? ==> IsCanonical(r.value)
    ensures r.Err? ==> r.error == HttpError(InternalServerError, "Invalid ObjectId: " + s)
  {
    if IsMongoId(s) then
      Ok(ObjectId(seq(|s|, i requires 0 <= i < |s| => LowerHexChar(s[i]))))
    else
      Err(HttpError(InternalServerError, "Invalid ObjectId: " + s))
  }

  /** The text of a stored id (what a token carries as `user_id`) converts back to that id. */
  lemma CanonicalRoundTrip(id: ObjectId)
    requires IsCanonical(id)
    ensures ToObjectId(id.hex) == Ok(id)
  {
    var s := id.hex;
    assert IsMongoId(s);
    var lowered := seq(|s|, i requires 0 <= i < |s| => LowerHexChar(s[i]));
    assert lowered == s;
  }
}
