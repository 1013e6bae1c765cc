/** Key ids of the PKCS #11 wrapper, kms/pkcs11/wrapper.go: printed as label:id in the blobs that
    Encrypt makes, split at the last colon by Decrypt. The token is a parameter: it finds a key by id
    and label and performs the operation, or fails. */
module KeyId {
  import opened Common

  type Bytes = seq<nat>

  datatype Result<T> = Ok(value: T) | Err(error: Error)
  datatype Error = InvalidKeyId | InvalidHex | TokenFailed

  /** What a key is looked up by. */
  datatype KeyRef = KeyRef(id: Bytes, keyLabel: string)

  datatype Wrapper = Wrapper(keyLabel: string, keyID: string)

  /** A blob; keyId is that of its KeyInfo, if it has one. */
  datatype Blob = Blob(iv: Bytes, ciphertext: Bytes, keyId: Option<string>)

  // ---- Hexadecimal ------------------------------------------------------------------------------

  function Digit(c: char): Option<nat> {
    if '0' <= c <= '9' then Some(c as nat - '0' as nat)
    else if 'a' <= c <= 'f' then Some(c as nat - 'a' as nat + 10)
    else if 'A' <= c <= 'F' then Some(c as nat - 'A' as nat + 10)
    else None
  }

  /** hex.DecodeString. */
  function HexDecode(s: string): Option<Bytes> {
    if s == "" then Some([])
    else if |s| == 1 || Digit(s[0]).None? || Digit(s[1]).None? then None
    else
      match HexDecode(s[2..])
      case None => None
      case Some(rest) => Some([16 * Digit(s[0]).value + Digit(s[1]).value] + rest)
  }

  lemma {:induction false} HexHasNoColon(s: string)
    requires HexDecode(s).Some?
    ensures ':' !in s
  {
    if s == "" {
    } else {
      HexHasNoColon(s[2..]);
      assert s == [s[0], s[1]] + s[2..];
    }
  }

  function HexDigit(n: nat): char
    requires n < 16
  {
    "0123456789abcdef"[n]
  }

  /** hex.EncodeToString. */
  function HexEncode(bytes: Bytes): string
    requires forall i :: 0 <= i < |bytes| ==> bytes[i] < 256
  {
    if bytes == [] then "" else [HexDigit(bytes[0] / 16), HexDigit(bytes[0] % 16)] + HexEncode(bytes[1..])
  }

  lemma {:induction false} HexRoundTrip(bytes: Bytes)
    requires forall i :: 0 <= i < |bytes| ==> bytes[i] < 256
    ensures HexDecode(HexEncode(bytes)) == Some(bytes)
  {
    if bytes == [] {
    } else {
      HexRoundTrip(bytes[1..]);
      ByteRoundTrip(bytes[0], HexEncode(bytes[1..]));
      assert [bytes[0]] + bytes[1..] == bytes;
    }
  }

  lemma ByteRoundTrip(b: nat, rest: string)
    requires b < 256 && HexDecode(rest).Some?
    ensures HexDecode([HexDigit(b / 16), HexDigit(b % 16)] + rest) == Some([b] + HexDecode(rest).value)
  {
    var s := [HexDigit(b / 16), HexDigit(b % 16)] + rest;
    assert s[2..] == rest;
    DigitRoundTrip(b / 16);
    DigitRoundTrip(b % 16);
  }

  lemma DigitRoundTrip(n: nat)
    requires n < 16
    ensures Digit(HexDigit(n)) == Some(n)
    ensures Digit("0123456789ABCDEF"[n]) == Some(n)
  {
  }

  lemma DigitAccepts(c: char)
    ensures Digit(c).Some? <==> c in "0123456789abcdefABCDEF"
  {
    assert "0123456789abcdefABCDEF" == "0123456789" + "abcdef" + "ABCDEF";
    if Digit(c).Some? {
      assert c == "0123456789abcdefABCDEF"[if c <= '9' then Digit(c).value else if c <= 'F' then Digit(c).value + 6 else Digit(c).value];
    }
  }

  /** What is accepted are the strings of an even number of digits. */
  lemma {:induction false} HexAccepts(s: string)
    ensures HexDecode(s).Some? <==> |s| % 2 == 0 && forall i :: 0 <= i < |s| ==> Digit(s[i]).Some?
  {
    if s == "" {
    } else if |s| > 1 {
      HexAccepts(s[2..]);
      assert s == [s[0], s[1]] + s[2..];
    }
  }

  // ---- Print and split ----------------------------------------------------------------------------

  /** strings.LastIndex(s, ":"). */
  function LastColon(s: string): (pos: int)
    ensures -1 <= pos < |s|
    ensures pos == -1 <==> ':' !in s
    ensures pos >= 0 ==> s[pos] == ':'
    ensures forall i :: pos < i < |s| ==> s[i] != ':'
  {
    if s == "" then -1
    else if s[|s| - 1] == ':' then |s| - 1
    else
      var pos := LastColon(s[..|s| - 1]);
      assert s == s[..|s| - 1] + [s[|s| - 1]];
      pos
  }

  function Print(keyLabel: string, id: string): string {
    keyLabel + ":" + id
  }

  function Split(s: string): Option<(string, string)> {
    var pos := LastColon(s);
    if pos < 0 then None else Some((s[..pos], s[pos + 1..]))
  }

  /** Printing then splitting gives the label and the id back exactly when the id has no colon; the
      label may have any. */
  lemma SplitPrint(keyLabel: string, id: string)
    ensures Split(Print(keyLabel, id)) == Some((keyLabel, id)) <==> ':' !in id
  {
    var s := Print(keyLabel, id);
    var pos := LastColon(s);
    assert s[|keyLabel|] == ':';
    assert s[|keyLabel| + 1..] == id;
    if pos > |keyLabel| {
      assert s[pos] == id[pos - |keyLabel| - 1];
    } else {
      assert s[..pos] == keyLabel;
    }
  }

  /** Splitting loses nothing: printing the parts gives the string back. It fails exactly on strings
      without a colon. */
  lemma PrintSplit(s: string)
    ensures Split(s).Some? <==> ':' in s
    ensures Split(s).Some? ==> Print(Split(s).value.0, Split(s).value.1) == s && ':' !in Split(s).value.1
  {
    var pos := LastColon(s);
    if pos >= 0 {
      assert s == s[..pos] + [s[pos]] + s[pos + 1..];
    }
  }

  // ---- Encrypt and Decrypt --------------------------------------------------------------------------

  /** The key `with` looks up: the configured one, or the one the blob names. */
  function Resolve(w: Wrapper, keyId: Option<string>): Result<KeyRef> {
    var named := if keyId.Some? then Split(keyId.value) else Some((w.keyLabel, w.keyID));
    if named.None? then Err(InvalidKeyId)
    else
      match HexDecode(named.value.1)
      case None => Err(InvalidHex)
      case Some(id) => Ok(KeyRef(id, named.value.0))
  }

  function Encrypt(w: Wrapper, token: (KeyRef, Bytes) -> Option<Bytes>, plaintext: Bytes): Result<Blob> {
    match Resolve(w, None)
    case Err(e) => Err(e)
    case Ok(key) =>
      match token(key, plaintext)
      case None => Err(TokenFailed)
      case Some(ciphertext) => Ok(Blob([], ciphertext, Some(Print(w.keyLabel, w.keyID))))
  }

  function Decrypt(w: Wrapper, token: (KeyRef, Bytes) -> Option<Bytes>, blob: Blob): Result<Bytes> {
    match Resolve(w, blob.keyId)
    case Err(e) => Err(e)
    case Ok(key) =>
      match token(key, blob.iv + blob.ciphertext)
      case None => Err(TokenFailed)
      case Some(plaintext) => Ok(plaintext)
  }

  /** Encrypt hands the token the plaintext and exactly the configured label and decoded id, and the blob is
      what the token returned, under the printed label and id. */
  lemma EncryptsUnderOwnKey(w: Wrapper, token: (KeyRef, Bytes) -> Option<Bytes>, plaintext: Bytes)
    ensures Encrypt(w, token, plaintext) ==
            if HexDecode(w.keyID).None? then Err(InvalidHex)
            else
              var ciphertext := token(KeyRef(HexDecode(w.keyID).value, w.keyLabel), plaintext);
              if ciphertext.None? then Err(TokenFailed)
              else Ok(Blob([], ciphertext.value, Some(w.keyLabel + ":" + w.keyID)))
  {
  }

  /** Decrypt hands the token the ciphertext after the iv, which blobs of the older wrapper have. It asks for
      the label and the decoded id that the blob names, split at the last colon, whatever key the wrapper
      has; and for the wrapper's own if the blob has no key info. */
  lemma DecryptsUnderNamedKey(w: Wrapper, token: (KeyRef, Bytes) -> Option<Bytes>, iv: Bytes, ciphertext: Bytes,
                              keyLabel: string, id: string)
    requires ':' !in id
    ensures var key := HexDecode(id); var data := iv + ciphertext;
            var named := Blob(iv, ciphertext, Some(keyLabel + ":" + id));
            Decrypt(w, token, named) ==
            if key.None? then Err(InvalidHex)
            else if token(KeyRef(key.value, keyLabel), data).None? then Err(TokenFailed)
            else Ok(token(KeyRef(key.value, keyLabel), data).value)
    ensures var key := HexDecode(w.keyID); var data := iv + ciphertext;
            Decrypt(w, token, Blob(iv, ciphertext, None)) ==
            if key.None? then Err(InvalidHex)
            else if token(KeyRef(key.value, w.keyLabel), data).None? then Err(TokenFailed)
            else Ok(token(KeyRef(key.value, w.keyLabel), data).value)
  {
    SplitPrint(keyLabel, id);
  }

  /** A blob whose key id has no colon is refused before the token is asked. */
  lemma NoKeyWithoutColon(w: Wrapper, token: (KeyRef, Bytes) -> Option<Bytes>, blob: Blob)
    requires blob.keyId.Some? && ':' !in blob.keyId.value
    ensures Decrypt(w, token, blob) == Err(InvalidKeyId)
  {
    PrintSplit(blob.keyId.value);
  }

  /** Every blob that Encrypt makes is decrypted with exactly the key that encrypted it, by any
      wrapper, whatever key that wrapper is configured with. */
  lemma BlobNamesItsKey(w: Wrapper, enc: (KeyRef, Bytes) -> Option<Bytes>, plaintext: Bytes, other: Wrapper)
    requires Encrypt(w, enc, plaintext).Ok?
    ensures var blob := Encrypt(w, enc, plaintext).value;
            blob.keyId.Some? && Split(blob.keyId.value) == Some((w.keyLabel, w.keyID)) &&
            Resolve(other, blob.keyId) == Resolve(w, None)
  {
    HexHasNoColon(w.keyID);
    SplitPrint(w.keyLabel, w.keyID);
  }

  lemma DecryptEncrypt(w: Wrapper, other: Wrapper, enc: (KeyRef, Bytes) -> Option<Bytes>,
                       dec: (KeyRef, Bytes) -> Option<Bytes>, plaintext: Bytes)
    requires forall key, data :: enc(key, data).Some? ==> dec(key, enc(key, data).value) == Some(data)
    requires Encrypt(w, enc, plaintext).Ok?
    ensures Decrypt(other, dec, Encrypt(w, enc, plaintext).value) == Ok(plaintext)
  {
    BlobNamesItsKey(w, enc, plaintext, other);
    var blob := Encrypt(w, enc, plaintext).value;
    assert blob.iv + blob.ciphertext == blob.ciphertext;
  }

  /** An id that is not hexadecimal is refused before a blob exists; so is one with a colon, whose
      printed form would name another key. */
  lemma NoBlobForBadId(w: Wrapper, enc: (KeyRef, Bytes) -> Option<Bytes>, plaintext: Bytes)
    requires ':' in w.keyID
    ensures Encrypt(w, enc, plaintext) == Err(InvalidHex)
    ensures Split(Print(w.keyLabel, w.keyID)) != Some((w.keyLabel, w.keyID))
  {
    if HexDecode(w.keyID).Some? {
      HexHasNoColon(w.keyID);
    }
    SplitPrint(w.keyLabel, w.keyID);
  }
}
