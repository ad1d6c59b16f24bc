/**
 * Session identity: the `id` cookie.  A request that carries an `id` cookie
 * keeps that identity; one that does not is given a fresh token, and only
 * then is a Set-Cookie header sent.  The token's random bytes are a
 * parameter: reading them from the system's secure source is not modelled.
 */
module Session {
  import opened Wrappers
  import Hex

  /** The number of random bytes behind a token. */
  const TokenBytes: nat := 32

  const CookieName: string := "id"

  /** A well-formed token: 64 lower-case hexadecimal characters. */
  predicate IsToken(s: string) {
    |s| == 2 * TokenBytes && Hex.IsLowerHex(s)
  }

  /**
   * The cookie the service issues.  Its expiry (seven days from issue) is
   * wall-clock time and is not modelled.
   */
  datatype Cookie = Cookie(name: string, value: string, httpOnly: bool, sameSiteStrict: bool)

  function NewCookie(token: string): (c: Cookie)
    ensures c.name == CookieName && c.value == token && c.httpOnly && c.sameSiteStrict
  {
    Cookie(CookieName, token, true, true)
  }

  /** Who the caller is, and the cookie to set, if any. */
  datatype Identity = Identity(id: string, setCookie: Option<Cookie>)

  /**
   * The identity for a request whose `id` cookie is `cookie`, drawing a new
   * token from `random` when there is none.
   */
  function Resolve(cookie: Option<string>, random: seq<Hex.byte>): (r: Identity)
    requires cookie.None? ==> |random| == TokenBytes
    ensures r.setCookie.Some? <==> cookie.None?
    ensures cookie.Some? ==> r.id == cookie.value
    ensures cookie.None? ==> r.setCookie == Some(NewCookie(r.id)) && IsToken(r.id)
    ensures cookie.None? ==> Hex.Decode(r.id) == Some(random)
  {
    match cookie
    case Some(value) => Identity(value, None)
    case None =>
      var token := Hex.Encode(random);
      Hex.DecodeEncode(random);
      Identity(token, Some(NewCookie(token)))
  }

  /** Two requests without a cookie get the same identity only if their random bytes agree. */
  lemma FreshIdentitiesDiffer(random1: seq<Hex.byte>, random2: seq<Hex.byte>)
    requires |random1| == TokenBytes && |random2| == TokenBytes
    requires random1 != random2
    ensures Resolve(None, random1).id != Resolve(None, random2).id
  {
    if Hex.Encode(random1) == Hex.Encode(random2) {
      Hex.EncodeInjective(random1, random2);
    }
  }

  /**
   * The token generator: fills a buffer of twice the byte count with the
   * hexadecimal encoding of `random` and returns it as a string.
   */
  method GenerateToken(random: seq<Hex.byte>) returns (token: string)
    requires |random| == TokenBytes
    ensures IsToken(token)
    ensures token == Hex.Encode(random)
  {
    var out := new char[2 * |random|];
    var n := Hex.EncodeInto(out, random);
    token := out[..];
  }
}
