/**
  `urlBase64ToUint8Array` of src/hooks/usePushNotifications.ts: a VAPID
  public key in the URL-safe base64 alphabet (section 5 of RFC 4648) is
  padded with '=' to a multiple of four characters (section 3.2 of
  RFC 4648) and rewritten in the standard alphabet (section 4 of RFC 4648)
  before decoding; the
  decoded characters become bytes.
 */
module PushKey {

  newtype uint8 = x: int | 0 <= x < 256

  /** `(4 - len % 4) % 4`. */
  function PadLength(len: nat): (p: nat)
    ensures p <= 3
    ensures (len + p) % 4 == 0
    ensures len % 4 == 0 <==> p == 0
  {
    (4 - len % 4) % 4
  }

  function Repeat(c: char, n: nat): (r: string)
    ensures |r| == n && forall k :: 0 <= k < n ==> r[k] == c
  {
    seq(n, k requires 0 <= k < n => c)
  }

  /** `base64String + '='.repeat(padding)`. */
  function Padded(s: string): (r: string)
    ensures |r| % 4 == 0 && |s| <= |r| <= |s| + 3
    ensures r[..|s|] == s
    ensures forall k :: |s| <= k < |r| ==> r[k] == '='
    ensures |s| % 4 == 0 ==> r == s
  {
    s + Repeat('=', PadLength(|s|))
  }

  /** `.replace(/a/g, b)` for single characters. */
  function ReplaceChar(s: string, a: char, b: char): (r: string)
    ensures |r| == |s|
    ensures forall k :: 0 <= k < |s| ==> r[k] == if s[k] == a then b else s[k]
  {
    seq(|s|, k requires 0 <= k < |s| => if s[k] == a then b else s[k])
  }

  /** The padded key in the standard alphabet: '-' becomes '+', then '_' becomes '/'. */
  function ToStandard(s: string): (r: string)
  {
    ReplaceChar(ReplaceChar(Padded(s), '-', '+'), '_', '/')
  }

  /**
    The rewritten key has a length that is a multiple of four, no URL-safe
    character left, '+' and '/' where the key had '-' and '_', every other
    character where it was, and nothing but '=' after the key.
   */
  lemma ToStandardShape(s: string)
    ensures var r := ToStandard(s);
      && |r| % 4 == 0 && |r| - |s| <= 3
      && (forall k :: 0 <= k < |r| ==> r[k] != '-' && r[k] != '_')
      && (forall k :: 0 <= k < |s| ==> r[k] == (if s[k] == '-' then '+' else if s[k] == '_' then '/' else s[k]))
      && (forall k :: |s| <= k < |r| ==> r[k] == '=')
  {
    var p := Padded(s);
    assert forall k :: 0 <= k < |s| ==> p[k] == s[k];
  }

  /**
    The rewriting loses nothing: for a key without '+' or '/', mapping '+'
    back to '-' and '/' back to '_' gives the padded key.
   */
  lemma ToStandardReverses(s: string)
    requires forall k :: 0 <= k < |s| ==> s[k] != '+' && s[k] != '/'
    ensures ReplaceChar(ReplaceChar(ToStandard(s), '+', '-'), '/', '_') == Padded(s)
  {
    var p := Padded(s);
    var back := ReplaceChar(ReplaceChar(ToStandard(s), '+', '-'), '/', '_');
    assert forall k :: 0 <= k < |s| ==> p[k] == s[k];
    assert forall k :: 0 <= k < |p| ==> back[k] == p[k];
  }

  /**
    `Uint8Array.from([...rawData].map(c => c.charCodeAt(0)))`: one byte per
    character, the character code modulo 256 as the typed array stores it.
   */
  function ToBytes(raw: string): (r: seq<uint8>)
    ensures |r| == |raw|
    ensures forall k :: 0 <= k < |raw| && (raw[k] as int) < 256 ==> r[k] as int == raw[k] as int
  {
    seq(|raw|, k requires 0 <= k < |raw| => ((raw[k] as int) % 256) as uint8)
  }

  /** For a decoded string of byte-valued characters, the bytes give back the string. */
  lemma ToBytesRoundTrip(raw: string)
    requires forall k :: 0 <= k < |raw| ==> (raw[k] as int) < 256
    ensures var b := ToBytes(raw);
      |b| == |raw| && forall k :: 0 <= k < |b| ==> (b[k] as int) as char == raw[k]
  {
  }
}
