/** SecureStorage of src/services/storage.ts: the single saved credential record,
    whose API key is obfuscated by a repeating-key exclusive or followed by base64. */
module SecureStorage {
  import opened ApiTypes
  import opened Base64
  import opened CodeUnits
  import opened StorageKeys
  import opened BrowserStorage

  /** `key.charCodeAt(i % key.length)`: the key repeats along the text. */
  function KeyUnit(i: nat): (u: CodeUnit)
    ensures u < 128
  {
    var c := ENCRYPTION_KEY[i % |ENCRYPTION_KEY|];
    assert c in ENCRYPTION_KEY;
    c as int
  }

  /** The code units after the exclusive or with the repeating key. */
  function Masked(u: seq<CodeUnit>): (m: seq<CodeUnit>)
    ensures |m| == |u|
  {
    seq(|u|, k requires 0 <= k < |u| => XorUnit(u[k], KeyUnit(k)))
  }

  /** The mask is its own inverse. */
  lemma MaskedTwice(u: seq<CodeUnit>)
    ensures Masked(Masked(u)) == u
  {
    forall k | 0 <= k < |u| ensures Masked(Masked(u))[k] == u[k] {
      XorSelfInverse(u[k], KeyUnit(k));
    }
  }

  /** The mask keeps a code unit a byte exactly when it was one. */
  lemma MaskedBytes(u: seq<CodeUnit>)
    ensures AllBytes(Masked(u)) <==> AllBytes(u)
  {
    if !AllBytes(u) {
      var k :| 0 <= k < |u| && u[k] >= 256;
      XorKeepsWide(u[k], KeyUnit(k));
      assert Masked(u)[k] >= 256;
    }
  }

  /** What `encrypt` returns: the base64 of the masked code units, or the text
      itself when `btoa` throws on a code unit above 255. */
  function Encrypted(text: string): string {
    match Btoa(Masked(Utf16(text)))
    case Some(encoded) => encoded
    case None => text
  }

  /** What `decrypt` returns: the masked bytes as characters, or the text itself
      when `atob` throws. */
  function Decrypted(encryptedText: string): string {
    match Atob(encryptedText)
    case None => encryptedText
    case Some(decoded) => MaskedBytes(decoded); FromLatin1(Masked(decoded))
  }

  /** SecureStorage.encrypt. */
  method Encrypt(text: string) returns (r: string)
    ensures r == Encrypted(text)
  {
    var units := Utf16(text);
    var result: seq<CodeUnit> := [];
    for i := 0 to |units|
      invariant |result| == i
      invariant forall k | 0 <= k < i :: result[k] == XorUnit(units[k], KeyUnit(k))
    {
      result := result + [XorUnit(units[i], KeyUnit(i))];
    }
    assert result == Masked(units);
    var encoded := Btoa(result);
    if encoded.Some? {
      r := encoded.value;
    } else {
      r := text;
    }
  }

  /** SecureStorage.decrypt. */
  method Decrypt(encryptedText: string) returns (r: string)
    ensures r == Decrypted(encryptedText)
  {
    var decoded := Atob(encryptedText);
    if decoded.None? {
      return encryptedText;
    }
    var bytes := decoded.value;
    var result: string := "";
    for i := 0 to |bytes|
      invariant |result| == i
      invariant forall k | 0 <= k < i :: result[k] as int == XorUnit(bytes[k], KeyUnit(k))
    {
      var code := XorUnit(bytes[i], KeyUnit(i));
      result := result + [code as char];
    }
    MaskedBytes(bytes);
    assert result == FromLatin1(Masked(bytes));
    r := result;
  }

  /** Decryption undoes encryption for every text: a one-byte text comes back
      through the mask and base64, and any other text is left as it is by both. */
  lemma DecryptEncrypt(text: string)
    ensures Decrypted(Encrypted(text)) == text
  {
    var units := Utf16(text);
    Latin1Units(text);
    MaskedBytes(units);
    if IsLatin1(text) {
      AtobBtoa(Masked(units));
      MaskedTwice(units);
      FromLatin1OfUtf16(text);
    } else {
      var k :| 0 <= k < |text| && text[k] as int >= 256;
      AtobRejectsForeign(text, k);
    }
  }

  /** `encrypt` falls back to its input exactly when the text has a character
      above U+00FF; otherwise its result is valid base64. */
  lemma EncryptFallback(text: string)
    ensures Encrypted(text) == text || Atob(Encrypted(text)).Some?
    ensures !IsLatin1(text) ==> Encrypted(text) == text
    ensures IsLatin1(text) ==> Atob(Encrypted(text)) == Some(Masked(Utf16(text)))
  {
    var units := Utf16(text);
    Latin1Units(text);
    MaskedBytes(units);
    if IsLatin1(text) {
      AtobBtoa(Masked(units));
    }
  }

  /** `decrypt` gives back unchanged every text `atob` rejects. */
  lemma DecryptFallback(s: string)
    requires Atob(s).None?
    ensures Decrypted(s) == s
  {
  }

  /** In particular a text with a character outside the alphabet, '=' and
      whitespace, an alphabet text of length 1 modulo 4, and a text with
      misplaced padding all come back from `decrypt` unchanged. */
  lemma DecryptRejected(s: string, k: nat)
    ensures k < |s| && !InAlphabet(s[k]) && s[k] != '=' && !IsAsciiWhitespace(s[k]) ==> Decrypted(s) == s
    ensures |s| % 4 == 1 && (forall c | c in s :: InAlphabet(c)) ==> Decrypted(s) == s
    ensures (forall c | c in s :: !IsAsciiWhitespace(c)) && k + 2 < |s| && s[k] == '=' ==> Decrypted(s) == s
  {
    if k < |s| && !InAlphabet(s[k]) && s[k] != '=' && !IsAsciiWhitespace(s[k]) {
      AtobRejectsForeign(s, k);
    }
    if |s| % 4 == 1 && (forall c | c in s :: InAlphabet(c)) {
      AtobRejectsLength(s);
    }
    if (forall c | c in s :: !IsAsciiWhitespace(c)) && k + 2 < |s| && s[k] == '=' {
      AtobRejectsMisplacedPadding(s, k);
    }
  }

  // ----- The saved configuration -----

  /** The record as `saveAPIConfig` writes it: only the key is obfuscated. */
  function Sealed(config: SavedAPIConfig): (sealed: SavedAPIConfig)
    ensures sealed.provider == config.provider && sealed.model == config.model
  {
    config.(apiKey := Encrypted(config.apiKey))
  }

  /** What `getAPIConfig` returns (`None` for `null`): nothing for a missing,
      empty or unparsable item, otherwise the stored record with its key decrypted. */
  function LoadedConfig(items: map<string, Stored>): (r: Option<SavedAPIConfig>)
    ensures r.Some? <==> API_CONFIG_KEY in items && items[API_CONFIG_KEY].ConfigRecord?
  {
    if API_CONFIG_KEY in items && items[API_CONFIG_KEY].ConfigRecord? then
      var stored := items[API_CONFIG_KEY].config;
      Some(stored.(apiKey := Decrypted(stored.apiKey)))
    else None
  }

  /** SecureStorage.saveAPIConfig: overwrites the one record. */
  method SaveAPIConfig(store: LocalStorage, config: SavedAPIConfig)
    modifies store
    ensures store.items == old(store.items)[API_CONFIG_KEY := ConfigRecord(Sealed(config))]
  {
    var apiKey := Encrypt(config.apiKey);
    store.SetItem(API_CONFIG_KEY, ConfigRecord(config.(apiKey := apiKey)));
  }

  /** SecureStorage.getAPIConfig. */
  method GetAPIConfig(store: LocalStorage) returns (r: Option<SavedAPIConfig>)
    ensures r == LoadedConfig(store.items)
  {
    if API_CONFIG_KEY !in store.items {
      return None;
    }
    match store.items[API_CONFIG_KEY]
    case ConfigRecord(stored) =>
      var apiKey := Decrypt(stored.apiKey);
      r := Some(stored.(apiKey := apiKey));
    case HistoryRecord(_) =>
      r := None;
    case Corrupt(_) =>
      r := None;
  }

  /** SecureStorage.clearAPIConfig. */
  method ClearAPIConfig(store: LocalStorage)
    modifies store
    ensures store.items == old(store.items) - {API_CONFIG_KEY}
  {
    store.RemoveItem(API_CONFIG_KEY);
  }

  /** SecureStorage.hasStoredAPIConfig: whether `getAPIConfig` finds a record. */
  method HasStoredAPIConfig(store: LocalStorage) returns (b: bool)
    ensures b <==> LoadedConfig(store.items).Some?
    ensures b <==> API_CONFIG_KEY in store.items && store.items[API_CONFIG_KEY].ConfigRecord?
  {
    var config := GetAPIConfig(store);
    b := config.Some?;
  }

  /** Saving then loading gives back the configuration as it was saved, the
      API key included. */
  lemma SaveThenLoad(items: map<string, Stored>, config: SavedAPIConfig)
    ensures LoadedConfig(items[API_CONFIG_KEY := ConfigRecord(Sealed(config))]) == Some(config)
  {
    DecryptEncrypt(config.apiKey);
  }

  /** After clearing, nothing is loaded and no record is reported. */
  lemma ClearThenLoad(items: map<string, Stored>)
    ensures LoadedConfig(items - {API_CONFIG_KEY}) == None
  {
  }

  /** Writing the history record leaves the loaded configuration as it was:
      the two records live under keys of different lengths. */
  lemma HistoryWriteKeepsConfig(items: map<string, Stored>, value: Stored)
    ensures LoadedConfig(items[HISTORY_KEY := value]) == LoadedConfig(items)
    ensures LoadedConfig(items - {HISTORY_KEY}) == LoadedConfig(items)
  {
    assert |API_CONFIG_KEY| == 30 && |HISTORY_KEY| == 27;
    assert (API_CONFIG_KEY in items[HISTORY_KEY := value]) == (API_CONFIG_KEY in items);
  }
}
