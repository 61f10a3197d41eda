/**
 * The pure parts of PushNotificationService
 * (Sources/Services/PushNotificationService.swift): the device token as a
 * hex string, and the `aps` guard deciding what a received payload does.
 */
module PushNotifications {
  import opened Wrappers
  import opened DynamicValue
  import Utf8

  type byte = Utf8.byte

  /** A nibble as one lowercase hex digit (the `x` conversion of `%02.2hhx`). */
  function HexDigit(n: nat): (c: char)
    requires n < 16
  {
    if n < 10 then ('0' as int + n) as char else ('a' as int + n - 10) as char
  }

  /** One byte as two lowercase hex digits, high nibble first. */
  function ByteHex(b: byte): (s: string)
    ensures |s| == 2
  {
    [HexDigit(b / 16), HexDigit(b % 16)]
  }

  /** `token.map { String(format: "%02.2hhx", $0) }.joined()`. */
  function TokenString(token: seq<byte>): (s: string)
    ensures |s| == 2 * |token|
  {
    if token == [] then "" else ByteHex(token[0]) + TokenString(token[1..])
  }

  /** Characters 2i and 2i+1 of the token string spell byte i, high nibble first. */
  lemma {:induction false} TokenStringDigits(token: seq<byte>, i: nat)
    requires i < |token|
    ensures TokenString(token)[2 * i] == HexDigit(token[i] / 16)
    ensures TokenString(token)[2 * i + 1] == HexDigit(token[i] % 16)
  {
    if i > 0 {
      TokenStringDigits(token[1..], i - 1);
    }
  }

  /** Every character of a token string is a lowercase hex digit. */
  predicate IsLowerHex(c: char) {
    ('0' <= c <= '9') || ('a' <= c <= 'f')
  }

  function LowerHexValue(c: char): (n: nat)
    requires IsLowerHex(c)
    ensures n < 16 && HexDigit(n) == c
  {
    if c <= '9' then c as int - '0' as int else c as int - 'a' as int + 10
  }

  lemma HexDigitValue(n: nat)
    requires n < 16
    ensures IsLowerHex(HexDigit(n)) && LowerHexValue(HexDigit(n)) == n
  {
  }

  /** The inverse: pairs of lowercase hex digits back to bytes. */
  function ParseToken(s: string): (r: Option<seq<byte>>)
    ensures r.Some? ==> |s| == 2 * |r.value|
    decreases |s|
  {
    if s == [] then Some([])
    else if |s| < 2 || !IsLowerHex(s[0]) || !IsLowerHex(s[1]) then None
    else
      var rest :- ParseToken(s[2..]);
      Some([LowerHexValue(s[0]) * 16 + LowerHexValue(s[1])] + rest)
  }

  /** Parsing the token string gives the token back. */
  lemma {:induction false} ParseTokenString(token: seq<byte>)
    ensures ParseToken(TokenString(token)) == Some(token)
  {
    if token != [] {
      var b := token[0];
      var s := TokenString(token);
      assert s[..2] == ByteHex(b) && s[2..] == TokenString(token[1..]);
      HexDigitValue(b / 16);
      HexDigitValue(b % 16);
      ParseTokenString(token[1..]);
      assert [b] + token[1..] == token;
    }
  }

  /** So different tokens never share a string. */
  lemma TokenStringInjective(a: seq<byte>, b: seq<byte>)
    requires TokenString(a) == TokenString(b)
    ensures a == b
  {
    ParseTokenString(a);
    ParseTokenString(b);
  }

  /**
   * What `handleNotification` does with a payload: the badge it sets and
   * the payload it posts; console output is not modelled.
   */
  datatype NotificationEffect = NotificationEffect(badge: Option<Int64>, posted: Option<map<string, Any>>)

  /** `notification["aps"] as? [String: Any]`. */
  function Aps(notification: map<string, Any>): Option<map<string, Any>> {
    if "aps" in notification && notification["aps"].DictValue? then Some(notification["aps"].entries) else None
  }

  /** `aps["badge"] as? Int`. */
  function Badge(aps: map<string, Any>): Option<Int64> {
    if "badge" in aps && aps["badge"].IntValue? then Some(aps["badge"].i) else None
  }

  /** `handleNotification`. */
  function HandleNotification(notification: map<string, Any>): (e: NotificationEffect)
    ensures Aps(notification).None? ==> e == NotificationEffect(None, None)
    ensures Aps(notification).Some? ==> e.posted == Some(notification)
    ensures e.badge.Some? <==>
      "aps" in notification && notification["aps"].DictValue?
      && "badge" in notification["aps"].entries && notification["aps"].entries["badge"].IntValue?
    ensures e.badge.Some? ==> e.badge.value == notification["aps"].entries["badge"].i
  {
    match Aps(notification)
    case None => NotificationEffect(None, None)
    case Some(aps) => NotificationEffect(Badge(aps), Some(notification))
  }
}
