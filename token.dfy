/**
 * Token hashing and TURN credentials (server/components/token.js; tools/token.js repeats the
 * same computations). scrypt (RFC 7914), HMAC-SHA1, base64, random bytes and the clock are
 * foreign: the first three are the fields of a `Crypto` value, the others are parameters.
 * Hex encoding and `String.prototype.split` are modelled exactly.
 */
module Token {
  import opened Wrappers
  import Env

  type Bytes = seq<bv8>

  /** The key `crypto.scrypt(password, salt, 64)` derives. */
  type DerivedKey = k: Bytes | |k| == 64 witness seq(64, _ => 0)

  /**
   * The foreign primitives: scrypt with key length 64 (None when it reports an error),
   * HMAC-SHA1 of a message under a key, and base64 encoding.
   */
  datatype Crypto = Crypto(
    scrypt: (string, string) -> Option<DerivedKey>,
    hmacSha1: (string, string) -> Bytes,
    base64: Bytes -> string)

  predicate IsHexDigit(c: char)
  {
    '0' <= c <= '9' || 'a' <= c <= 'f'
  }

  function HexDigit(d: int): (c: char)
    requires 0 <= d < 16
    ensures IsHexDigit(c)
  {
    if d < 10 then ('0' as int + d) as char else ('a' as int + d - 10) as char
  }

  /** `buffer.toString('hex')`: two lower-case hex digits per byte. */
  function Hex(b: Bytes): (h: string)
    ensures |h| == 2 * |b|
    ensures forall i :: 0 <= i < |h| ==> IsHexDigit(h[i])
  {
    if b == [] then "" else [HexDigit(b[0] as int / 16), HexDigit(b[0] as int % 16)] + Hex(b[1..])
  }

  lemma HexDigitInjective(d: int, e: int)
    requires 0 <= d < 16 && 0 <= e < 16
    requires HexDigit(d) == HexDigit(e)
    ensures d == e
  {
  }

  lemma ByteFromNibbles(x: bv8, y: bv8)
    requires x as int / 16 == y as int / 16 && x as int % 16 == y as int % 16
    ensures x == y
  {
    assert x as int == 16 * (x as int / 16) + x as int % 16;
    assert y as int == 16 * (y as int / 16) + y as int % 16;
  }

  /** The first two digits of a non-empty encoding are its first byte's nibbles; the rest encodes the rest. */
  lemma HexHead(b: Bytes)
    requires b != []
    ensures Hex(b)[0] == HexDigit(b[0] as int / 16) && Hex(b)[1] == HexDigit(b[0] as int % 16)
    ensures Hex(b)[2..] == Hex(b[1..])
  {
  }

  /** Hex encoding loses nothing: equal texts come from equal bytes. */
  lemma {:induction false} HexInjective(a: Bytes, b: Bytes)
    requires Hex(a) == Hex(b)
    ensures a == b
  {
    if a != [] {
      assert b != [];
      HexHead(a);
      HexHead(b);
      var x, y := a[0] as int, b[0] as int;
      assert HexDigit(x / 16) == HexDigit(y / 16) && HexDigit(x % 16) == HexDigit(y % 16);
      HexDigitInjective(x / 16, y / 16);
      HexDigitInjective(x % 16, y % 16);
      ByteFromNibbles(a[0], b[0]);
      HexInjective(a[1..], b[1..]);
    }
  }

  /** `s.split(sep)` for a one-character separator. */
  function Split(s: string, sep: char): (parts: seq<string>)
    ensures |parts| >= 1
  {
    if s == [] then [""]
    else
      var rest := Split(s[1..], sep);
      if s[0] == sep then [""] + rest else [[s[0]] + rest[0]] + rest[1..]
  }

  lemma {:induction false} SplitWithoutSeparator(s: string, sep: char)
    requires sep !in s
    ensures Split(s, sep) == [s]
  {
    if s != [] {
      SplitWithoutSeparator(s[1..], sep);
      assert [s[0]] + s[1..] == s;
    }
  }

  /** Splitting `a + sep + b`, where `a` holds no separator, yields `a` and then the parts of `b`. */
  lemma {:induction false} SplitJoined(a: string, b: string, sep: char)
    requires sep !in a
    ensures Split(a + [sep] + b, sep) == [a] + Split(b, sep)
  {
    var s := a + [sep] + b;
    if a == [] {
      assert s[1..] == b;
    } else {
      assert s[1..] == a[1..] + [sep] + b;
      SplitJoined(a[1..], b, sep);
      assert [a[0]] + a[1..] == a;
    }
  }

  /** The text after the first occurrence of `c` (empty when there is none). */
  function AfterFirst(s: string, c: char): string
  {
    if s == [] then "" else if s[0] == c then s[1..] else AfterFirst(s[1..], c)
  }

  lemma {:induction false} AfterFirstJoined(a: string, b: string, c: char)
    requires c !in a
    ensures AfterFirst(a + [c] + b, c) == b
  {
    var s := a + [c] + b;
    if a == [] {
      assert s[1..] == b;
    } else {
      assert s[1..] == a[1..] + [c] + b;
      AfterFirstJoined(a[1..], b, c);
    }
  }

  /** `createHash(token)`: `salt:key`, the hex of 16 random bytes and of the scrypt key. */
  function CreateHash(token: string, salt: Bytes, crypto: Crypto): (r: Option<string>)
    requires |salt| == 16
    ensures r.None? <==> crypto.scrypt(token, Hex(salt)).None?
    ensures r.Some? ==> |r.value| == 32 + 1 + 128 && r.value[32] == ':'
    ensures r.Some? ==> r.value[..32] == Hex(salt)
    ensures r.Some? ==> forall i :: 0 <= i < |r.value| && i != 32 ==> IsHexDigit(r.value[i])
  {
    var saltHex := Hex(salt);
    match crypto.scrypt(token, saltHex)
    case None => None
    case Some(key) => Some(saltHex + ":" + Hex(key))
  }

  /**
   * `verify(inputToken, hash)`: split the hash at ':', derive a key from the input with the
   * stored salt and compare hex texts. None when scrypt fails (the promise rejects); false when
   * the hash has no ':' (the stored key is undefined).
   */
  function Verify(input: string, hash: string, crypto: Crypto): Option<bool>
  {
    var parts := Split(hash, ':');
    var key := if |parts| > 1 then Some(parts[1]) else None;
    match crypto.scrypt(input, parts[0])
    case None => None
    case Some(derived) => Some(key == Some(Hex(derived)))
  }

  /** Against a hash made by CreateHash, verify accepts exactly the inputs whose scrypt key is equal. */
  lemma VerifyAgainstCreatedHash(input: string, token: string, salt: Bytes, crypto: Crypto)
    requires |salt| == 16
    requires CreateHash(token, salt, crypto).Some?
    ensures Verify(input, CreateHash(token, salt, crypto).value, crypto)
         == (match crypto.scrypt(input, Hex(salt))
             case None => None
             case Some(k) => Some(k == crypto.scrypt(token, Hex(salt)).value))
  {
    var saltHex := Hex(salt);
    var key := crypto.scrypt(token, saltHex).value;
    var keyHex := Hex(key);
    assert ':' !in saltHex;
    assert ':' !in keyHex;
    SplitJoined(saltHex, keyHex, ':');
    SplitWithoutSeparator(keyHex, ':');
    match crypto.scrypt(input, saltHex)
    case None =>
    case Some(k) =>
      if Hex(k) == keyHex {
        HexInjective(k, key);
      }
  }

  /** The round trip: a token always verifies against its own hash. */
  lemma VerifyCreateHash(token: string, salt: Bytes, crypto: Crypto)
    requires |salt| == 16
    requires CreateHash(token, salt, crypto).Some?
    ensures Verify(token, CreateHash(token, salt, crypto).value, crypto) == Some(true)
  {
    VerifyAgainstCreatedHash(token, token, salt, crypto);
  }

  datatype TokenPair = TokenPair(token: string, hash: string)

  /** `generateToken()`: a token of 32 random bytes in hex, with its hash. */
  function GenerateToken(random: Bytes, salt: Bytes, crypto: Crypto): (r: Option<TokenPair>)
    requires |random| == 32 && |salt| == 16
    ensures r.None? <==> crypto.scrypt(Hex(random), Hex(salt)).None?
    ensures r.Some? ==> |r.value.token| == 64
    ensures r.Some? ==> forall i :: 0 <= i < 64 ==> IsHexDigit(r.value.token[i])
    ensures r.Some? ==> Verify(r.value.token, r.value.hash, crypto) == Some(true)
  {
    var token := Hex(random);
    match CreateHash(token, salt, crypto)
    case None => None
    case Some(hash) =>
      VerifyCreateHash(token, salt, crypto);
      Some(TokenPair(token, hash))
  }

  /** `generateTokenByToken(token)`: the given token, unchanged, with its hash. */
  function GenerateTokenByToken(token: string, salt: Bytes, crypto: Crypto): (r: Option<TokenPair>)
    requires |salt| == 16
    ensures r.None? <==> crypto.scrypt(token, Hex(salt)).None?
    ensures r.Some? ==> r.value.token == token
    ensures r.Some? ==> Verify(token, r.value.hash, crypto) == Some(true)
  {
    match CreateHash(token, salt, crypto)
    case None => None
    case Some(hash) =>
      VerifyCreateHash(token, salt, crypto);
      Some(TokenPair(token, hash))
  }

  /** A TURN REST credential (draft-uberti-behave-turn-rest-00, section 2.2). */
  datatype Credentials = Credentials(username: string, password: string)

  /** `parseInt(Date.now() / 1000) + HOURS * 3600` as text; "NaN" when the hours are not a number. */
  function ExpiryText(nowMillis: nat, hours: string): (t: string)
    ensures ':' !in t
  {
    match Env.ToNumber(hours)
    case NaN => "NaN"
    case Int(h) =>
      var expiry := nowMillis / 1000 + h * 3600;
      assert h >= 0;
      Env.DecimalText(expiry)
  }

  /**
   * `generateTurnCredentials(name)`: undefined when the secret or the validity is falsy;
   * otherwise `username = <expiry>:<name>` and `password = base64(HMAC-SHA1(secret, username))`.
   */
  function GenerateTurnCredentials(name: string, secret: Option<string>, hours: Option<string>,
                                   nowMillis: nat, crypto: Crypto): (r: Option<Credentials>)
    ensures r.None? <==> Env.Falsy(secret) || Env.Falsy(hours)
    ensures r.Some? ==> AfterFirst(r.value.username, ':') == name
    ensures r.Some? ==> r.value.password == crypto.base64(crypto.hmacSha1(secret.value, r.value.username))
  {
    if Env.Falsy(secret) || Env.Falsy(hours) then None
    else
      var expiry := ExpiryText(nowMillis, hours.value);
      var username := expiry + ":" + name;
      AfterFirstJoined(expiry, name, ':');
      Some(Credentials(username, crypto.base64(crypto.hmacSha1(secret.value, username))))
  }

  lemma ExpiryTextOfDecimal(nowMillis: nat, hours: nat)
    ensures ExpiryText(nowMillis, Env.DecimalText(hours)) == Env.DecimalText(nowMillis / 1000 + hours * 3600)
  {
    Env.ToNumberDecimal(hours);
  }

  lemma UsernameOfDecimalHours(name: string, secret: string, hours: nat, nowMillis: nat, crypto: Crypto)
    requires secret != ""
    ensures GenerateTurnCredentials(name, Some(secret), Some(Env.DecimalText(hours)), nowMillis, crypto).Some?
    ensures GenerateTurnCredentials(name, Some(secret), Some(Env.DecimalText(hours)), nowMillis, crypto).value.username
         == Env.DecimalText(nowMillis / 1000 + hours * 3600) + ":" + name
  {
    Env.ToNumberDecimal(hours);
  }

  /** The text before the first ':' of the username reads back as the expiry in seconds. */
  lemma UsernameCarriesExpiry(name: string, secret: string, hours: nat, nowMillis: nat, crypto: Crypto)
    requires secret != ""
    ensures var r := GenerateTurnCredentials(name, Some(secret), Some(Env.DecimalText(hours)), nowMillis, crypto);
      && r.Some?
      && Env.ParseInt(Split(r.value.username, ':')[0]) == Env.Int(nowMillis / 1000 + hours * 3600)
  {
    var expiry := nowMillis / 1000 + hours * 3600;
    UsernameOfDecimalHours(name, secret, hours, nowMillis, crypto);
    var text := Env.DecimalText(expiry);
    assert ':' !in text;
    SplitJoined(text, name, ':');
    assert Split(text + ":" + name, ':')[0] == text;
    Env.ParseIntDecimalPrefix(expiry, "");
    assert text + "" == text;
  }

  /** The password depends on the secret and the username only, not on how they were obtained. */
  lemma PasswordDependsOnUsername(name1: string, name2: string, secret: Option<string>, hours: Option<string>,
                                  now1: nat, now2: nat, crypto: Crypto)
    requires GenerateTurnCredentials(name1, secret, hours, now1, crypto).Some?
    requires GenerateTurnCredentials(name2, secret, hours, now2, crypto).Some?
    requires GenerateTurnCredentials(name1, secret, hours, now1, crypto).value.username
          == GenerateTurnCredentials(name2, secret, hours, now2, crypto).value.username
    ensures GenerateTurnCredentials(name1, secret, hours, now1, crypto)
         == GenerateTurnCredentials(name2, secret, hours, now2, crypto)
  {
  }

  datatype IceServerInfo = IceServerInfo(stun: Option<string>, turn: Option<string>, credentials: Credentials)

  /** `generateICEServerInfo()`: credentials for a random 8-byte name, with the STUN and TURN URLs. */
  function GenerateICEServerInfo(nameBytes: Bytes, stun: Option<string>, turn: Option<string>,
                                 secret: Option<string>, hours: Option<string>, nowMillis: nat,
                                 crypto: Crypto): (r: Option<IceServerInfo>)
    requires |nameBytes| == 8
    ensures r.None? <==> Env.Falsy(secret) || Env.Falsy(hours)
    ensures r.Some? ==> r.value.stun == stun && r.value.turn == turn
    ensures r.Some? ==> AfterFirst(r.value.credentials.username, ':') == Hex(nameBytes)
  {
    match GenerateTurnCredentials(Hex(nameBytes), secret, hours, nowMillis, crypto)
    case None => None
    case Some(credentials) => Some(IceServerInfo(stun, turn, credentials))
  }

  /** The secret token.js uses: none in development, else the `TURN_SECRET` export. */
  function ServerSecret(config: Env.Config): Option<string>
  {
    if config.isDevelopment then None else Env.Export(config, "TURN_SECRET")
  }

  /**
   * As wired, token.js reads `TURN_SECRET`, which Environment.js does not export (it exports
   * `TURN_SECRETS`), so the server never issues ICE server information.
   */
  lemma AsWiredNoIceServerInfo(config: Env.Config, nameBytes: Bytes, nowMillis: nat, crypto: Crypto)
    requires |nameBytes| == 8
    ensures GenerateICEServerInfo(nameBytes, Env.Export(config, "STUN_URL"), Env.Export(config, "TURN_URL"),
                                  ServerSecret(config), Env.Export(config, "HOURS_TURN_CREDENTIAL_VALID"),
                                  nowMillis, crypto) == None
  {
  }
}
