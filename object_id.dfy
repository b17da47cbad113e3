/**
 * Document identities. A MongoDB ObjectId is modelled by its numeric
 * value; its textual form is 24 hexadecimal digits. A request token is
 * "a well-formed id" exactly when it is such a string, which is the test
 * the lookups apply before deciding between a lookup by id and one by name.
 */
module ObjectIds {
  import opened Wrappers

  type ObjectId = nat

  /** Number of hexadecimal digits in an ObjectId's text. */
  const IdDigits: nat := 24

  function Pow16(k: nat): (p: nat)
    ensures p >= 1
  {
    if k == 0 then 1 else 16 * Pow16(k - 1)
  }

  predicate IsHexDigit(c: char) {
    '0' <= c <= '9' || 'a' <= c <= 'f' || 'A' <= c <= 'F'
  }

  predicate AllHex(t: string) {
    forall i :: 0 <= i < |t| ==> IsHexDigit(t[i])
  }

  function DigitValue(c: char): (v: nat)
    requires IsHexDigit(c)
    ensures v < 16
  {
    if '0' <= c <= '9' then c as int - '0' as int
    else if 'a' <= c <= 'f' then c as int - 'a' as int + 10
    else c as int - 'A' as int + 10
  }

  /** The big-endian value of a string of hexadecimal digits. */
  function HexValue(t: string): (v: nat)
    requires AllHex(t)
    ensures v < Pow16(|t|)
    decreases |t|
  {
    if t == [] then 0
    else
      var high := HexValue(t[..|t| - 1]);
      assert high * 16 <= (Pow16(|t| - 1) - 1) * 16;
      high * 16 + DigitValue(t[|t| - 1])
  }

  /** The `ObjectId.isValid` test on request tokens. */
  predicate IsObjectIdText(t: string) {
    |t| == IdDigits && AllHex(t)
  }

  /** Casting a token to an ObjectId; `None` is a cast failure. */
  function ParseObjectId(t: string): (r: Option<ObjectId>)
    ensures r.Some? <==> IsObjectIdText(t)
    ensures r.Some? ==> r.value < Pow16(IdDigits)
  {
    if IsObjectIdText(t) then Some(HexValue(t)) else None
  }

  function LowerHexDigit(v: nat): (c: char)
    requires v < 16
    ensures IsHexDigit(c) && DigitValue(c) == v
  {
    if v < 10 then ('0' as int + v) as char else ('a' as int + v - 10) as char
  }

  /** `n` written with exactly `k` lower-case hexadecimal digits. */
  function HexText(n: nat, k: nat): (t: string)
    requires n < Pow16(k)
    ensures |t| == k && AllHex(t)
    decreases k
  {
    if k == 0 then ""
    else HexText(n / 16, k - 1) + [LowerHexDigit(n % 16)]
  }

  /** The text form in which an id is returned to clients (`_id` in JSON). */
  function IdText(id: ObjectId): (t: string)
    requires id < Pow16(IdDigits)
    ensures IsObjectIdText(t)
  {
    HexText(id, IdDigits)
  }

  lemma {:induction false} HexRoundTrip(n: nat, k: nat)
    requires n < Pow16(k)
    ensures HexValue(HexText(n, k)) == n
    decreases k
  {
    if k > 0 {
      HexRoundTrip(n / 16, k - 1);
      var t := HexText(n, k);
      assert t[..|t| - 1] == HexText(n / 16, k - 1);
    }
  }

  /** Every id's text form is a well-formed token that casts back to that id. */
  lemma IdTextRoundTrip(id: ObjectId)
    requires id < Pow16(IdDigits)
    ensures ParseObjectId(IdText(id)) == Some(id)
  {
    HexRoundTrip(id, IdDigits);
  }
}
