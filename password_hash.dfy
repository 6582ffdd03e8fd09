/**
 * The stored password record `scrypt$<salt hex>$<key hex>` of app/utils.py. The scrypt key
 * derivation (n = 2^14, r = 8, p = 1, 32-byte key) is an abstract deterministic function and
 * the 16 random salt bytes are an input.
 */
module PasswordHash {
  import opened Common

  type byte = x: int | 0 <= x < 256

  const SaltLength: nat := 16
  const KeyLength: nat := 32
  const Scheme: string := "scrypt"
  const Separator: char := '$'

  /** A derived key: scrypt is asked for `length=32` bytes. */
  type Key = k: seq<byte> | |k| == KeyLength witness seq(KeyLength, _ => 0)

  /** The key derivation: (password, salt) to a key. */
  type Kdf = (string, seq<byte>) -> Key

  /** A lower-case hex digit, as `hexlify` writes them. */
  predicate IsHexDigit(c: char)
  {
    '0' <= c <= '9' || 'a' <= c <= 'f'
  }

  /** The lower-case hex digit of a value below 16. */
  function HexDigit(d: int): (c: char)
    requires 0 <= d < 16
    ensures IsHexDigit(c)
  {
    if d < 10 then ('0' as int + d) as char else ('a' as int + d - 10) as char
  }

  /** The two lower-case hex digits of one byte. */
  function ByteHex(b: byte): (s: string)
    ensures |s| == 2 && IsHexDigit(s[0]) && IsHexDigit(s[1])
  {
    [HexDigit(b / 16), HexDigit(b % 16)]
  }

  /** `binascii.hexlify`: two lower-case hex digits per byte. */
  function Hex(bytes: seq<byte>): (s: string)
    ensures |s| == 2 * |bytes|
    ensures forall i :: 0 <= i < |s| ==> IsHexDigit(s[i])
  {
    if bytes == [] then "" else ByteHex(bytes[0]) + Hex(bytes[1..])
  }

  /** The value of one hex digit; `unhexlify` accepts both cases. */
  function Nibble(c: char): (r: Option<int>)
    ensures r.Some? ==> 0 <= r.value < 16
  {
    if '0' <= c <= '9' then Some(c as int - '0' as int)
    else if 'a' <= c <= 'f' then Some(c as int - 'a' as int + 10)
    else if 'A' <= c <= 'F' then Some(c as int - 'A' as int + 10)
    else None
  }

  /** The byte written by two hex digits, if both are hex digits. */
  function PairValue(hi: char, lo: char): Option<byte>
  {
    match (Nibble(hi), Nibble(lo))
    case (Some(h), Some(l)) => Some(h * 16 + l)
    case _ => None
  }

  /** `binascii.unhexlify`: fails on an odd length or a non-hex character. */
  function Unhex(s: string): (r: Option<seq<byte>>)
    ensures r.Some? ==> |s| == 2 * |r.value|
    decreases |s|
  {
    if s == [] then Some([])
    else if |s| == 1 then None
    else
      match (PairValue(s[0], s[1]), Unhex(s[2..]))
      case (Some(b), Some(rest)) => Some([b] + rest)
      case _ => None
  }

  /** Reading a written hex digit gives back its value. */
  lemma NibbleOfDigit(d: int)
    requires 0 <= d < 16
    ensures Nibble(HexDigit(d)) == Some(d)
  {
  }

  /** Reading the two digits written for a byte gives back the byte. */
  lemma PairValueOfByteHex(b: byte)
    ensures PairValue(ByteHex(b)[0], ByteHex(b)[1]) == Some(b)
  {
    NibbleOfDigit(b / 16);
    NibbleOfDigit(b % 16);
  }

  /** Decoding inverts encoding for every byte string. */
  lemma {:induction false} UnhexHex(bytes: seq<byte>)
    ensures Unhex(Hex(bytes)) == Some(bytes)
  {
    if bytes != [] {
      var s := Hex(bytes);
      assert s[0] == ByteHex(bytes[0])[0] && s[1] == ByteHex(bytes[0])[1];
      assert s[2..] == Hex(bytes[1..]);
      UnhexHex(bytes[1..]);
      PairValueOfByteHex(bytes[0]);
      assert [bytes[0]] + bytes[1..] == bytes;
    }
  }

  /** `str.split(sep)`: every separator cuts, empty pieces included. */
  function Split(s: string, sep: char): (parts: seq<string>)
    ensures |parts| >= 1
    ensures forall i :: 0 <= i < |parts| ==> sep !in parts[i]
  {
    if s == [] then [""]
    else
      var rest := Split(s[1..], sep);
      if s[0] == sep then [""] + rest
      else [[s[0]] + rest[0]] + rest[1..]
  }

  /** `sep.join(parts)`. */
  function Join(parts: seq<string>, sep: char): string
    requires |parts| >= 1
  {
    if |parts| == 1 then parts[0] else parts[0] + [sep] + Join(parts[1..], sep)
  }

  lemma {:induction false} SplitPrefix(x: string, rest: string, sep: char)
    requires sep !in x
    ensures Split(x + rest, sep) == [x + Split(rest, sep)[0]] + Split(rest, sep)[1..]
  {
    if x != [] {
      assert (x + rest)[1..] == x[1..] + rest;
      SplitPrefix(x[1..], rest, sep);
      assert [x[0]] + (x[1..] + Split(rest, sep)[0]) == x + Split(rest, sep)[0];
    } else {
      var parts := Split(rest, sep);
      assert x + rest == rest && x + parts[0] == parts[0];
      assert parts == [parts[0]] + parts[1..];
    }
  }

  /** Splitting undoes joining when no part holds the separator. */
  lemma {:induction false} SplitJoin(parts: seq<string>, sep: char)
    requires |parts| >= 1
    requires forall i :: 0 <= i < |parts| ==> sep !in parts[i]
    ensures Split(Join(parts, sep), sep) == parts
  {
    if |parts| == 1 {
      SplitPrefix(parts[0], "", sep);
      assert parts[0] + "" == parts[0];
    } else {
      var tail := Join(parts[1..], sep);
      SplitJoin(parts[1..], sep);
      assert parts[0] + [sep] + tail == parts[0] + ([sep] + tail);
      SplitPrefix(parts[0], [sep] + tail, sep);
      assert ([sep] + tail)[1..] == tail;
      assert parts[0] + "" == parts[0];
      assert [parts[0]] + parts[1..] == parts;
    }
  }

  /** Joining undoes splitting for every string. */
  lemma {:induction false} JoinSplit(s: string, sep: char)
    ensures Join(Split(s, sep), sep) == s
  {
    if s != [] {
      JoinSplit(s[1..], sep);
      var rest := Split(s[1..], sep);
      if s[0] != sep && |rest| > 1 {
        assert rest == [rest[0]] + rest[1..];
      }
    }
  }

  /** The record written for a salt and a derived key. */
  function Format(salt: seq<byte>, key: seq<byte>): string
  {
    Join([Scheme, Hex(salt), Hex(key)], Separator)
  }

  /** `get_password_hash(password)` with the salt `os.urandom(16)` given as input. */
  function HashPassword(kdf: Kdf, password: string, salt: seq<byte>): (h: string)
    requires |salt| == SaltLength
  {
    Format(salt, kdf(password, salt))
  }

  /** The record is three '$'-separated fields: the scheme, 32 hex digits of salt, 64 of key. */
  lemma HashPasswordParts(kdf: Kdf, password: string, salt: seq<byte>)
    requires |salt| == SaltLength
    ensures Split(HashPassword(kdf, password, salt), Separator) == [Scheme, Hex(salt), Hex(kdf(password, salt))]
    ensures |Hex(salt)| == 32 && |Hex(kdf(password, salt))| == 64
  {
    var parts := [Scheme, Hex(salt), Hex(kdf(password, salt))];
    assert forall c :: c in Hex(salt) ==> IsHexDigit(c);
    assert forall c :: c in Hex(kdf(password, salt)) ==> IsHexDigit(c);
    SplitJoin(parts, Separator);
  }

  /** The parsing half of `verify_password`: three '$'-parts, scheme "scrypt", two hex fields. */
  function Parse(stored: string): (r: Option<(seq<byte>, seq<byte>)>)
    ensures r.Some? ==> |Split(stored, Separator)| == 3 && Split(stored, Separator)[0] == Scheme
  {
    var parts := Split(stored, Separator);
    if |parts| != 3 || parts[0] != Scheme then None
    else
      match (Unhex(parts[1]), Unhex(parts[2]))
      case (Some(salt), Some(key)) => Some((salt, key))
      case _ => None
  }

  /** Parsing a formatted record gives back its salt and key. */
  lemma ParseFormat(salt: seq<byte>, key: seq<byte>)
    ensures Parse(Format(salt, key)) == Some((salt, key))
  {
    var parts := [Scheme, Hex(salt), Hex(key)];
    assert forall c :: c in Hex(salt) ==> IsHexDigit(c);
    assert forall c :: c in Hex(key) ==> IsHexDigit(c);
    SplitJoin(parts, Separator);
    UnhexHex(salt);
    UnhexHex(key);
  }

  /**
   * `verify_password(plain, stored)`: false on a malformed record, true exactly when the key
   * re-derived from the stored salt equals the stored key. Nothing raises.
   */
  function VerifyPassword(kdf: Kdf, password: string, stored: string): (ok: bool)
    ensures ok <==> Parse(stored).Some? && kdf(password, Parse(stored).value.0) == Parse(stored).value.1
  {
    match Parse(stored)
    case None => false
    case Some((salt, key)) => kdf(password, salt) == key
  }

  /** A record whose '$'-parts are not exactly three, or whose scheme is not scrypt, fails. */
  lemma MalformedFails(kdf: Kdf, password: string, stored: string)
    requires |Split(stored, Separator)| != 3 || Split(stored, Separator)[0] != Scheme
    ensures !VerifyPassword(kdf, password, stored)
  {
  }

  /** A freshly hashed password verifies. */
  lemma VerifyOwnHash(kdf: Kdf, password: string, salt: seq<byte>)
    requires |salt| == SaltLength
    ensures VerifyPassword(kdf, password, HashPassword(kdf, password, salt))
  {
    ParseFormat(salt, kdf(password, salt));
  }

  /** Another password verifies against a hash exactly when the KDF cannot tell them apart. */
  lemma VerifyOtherPassword(kdf: Kdf, password: string, attempt: string, salt: seq<byte>)
    requires |salt| == SaltLength
    ensures VerifyPassword(kdf, attempt, HashPassword(kdf, password, salt))
        <==> kdf(attempt, salt) == kdf(password, salt)
  {
    ParseFormat(salt, kdf(password, salt));
  }
}
