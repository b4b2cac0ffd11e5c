/**
  The JWT manager.  Signing is ideal: a token string is accepted under a secret
  exactly if the manager itself signed it with that secret, so a token is modelled
  by what was signed, and the set of tokens ever signed stands for the signatures.
 */
module Jwt {
  import opened Prelude

  /** The `iat` claim is not checked by anyone; mintedAt keeps the instant before truncation. */
  datatype Token = Token(user: Uuid, mintedAt: nat, expiresAt: nat, secret: string)

  datatype Manager = Manager(accessSecret: string, refreshSecret: string)

  const ACCESS_LIFETIME: nat := 15 * MINUTE
  const REFRESH_LIFETIME: nat := 7 * DAY

  /** A NumericDate keeps whole seconds only (section 2 of RFC 7519). */
  function WholeSeconds(t: nat): (r: nat)
    ensures r <= t < r + SECOND && r % SECOND == 0
  {
    t / SECOND * SECOND
  }

  function AccessToken(m: Manager, user: Uuid, now: nat): Token {
    Token(user, now, WholeSeconds(now + ACCESS_LIFETIME), m.accessSecret)
  }

  function RefreshToken(m: Manager, user: Uuid, now: nat): Token {
    Token(user, now, WholeSeconds(now + REFRESH_LIFETIME), m.refreshSecret)
  }

  /** The expiry must lie strictly after the current instant. */
  function Validate(signed: set<Token>, t: Token, secret: string, now: nat): Option<Uuid> {
    if t in signed && t.secret == secret && now < t.expiresAt then Some(t.user) else None
  }

  /**
    A signed access token names its user for fifteen minutes, and a refresh token for seven
    days, less the fraction of a second lost by truncation.
   */
  lemma Lifetimes(m: Manager, user: Uuid, minted: nat, signed: set<Token>, now: nat)
    requires {AccessToken(m, user, minted), RefreshToken(m, user, minted)} <= signed
    ensures var accepted := Validate(signed, AccessToken(m, user, minted), m.accessSecret, now);
            && (now <= minted + 15 * MINUTE - SECOND ==> accepted == Some(user))
            && (now >= minted + 15 * MINUTE ==> accepted == None)
            && (accepted == Some(user) <==> now / SECOND < (minted + 15 * MINUTE) / SECOND)
    ensures var accepted := Validate(signed, RefreshToken(m, user, minted), m.refreshSecret, now);
            && (now <= minted + 7 * DAY - SECOND ==> accepted == Some(user))
            && (now >= minted + 7 * DAY ==> accepted == None)
            && (accepted == Some(user) <==> now / SECOND < (minted + 7 * DAY) / SECOND)
  {
  }

  /** The two kinds of token are kept apart exactly if the two configured secrets differ. */
  lemma KindsSeparateIffSecretsDiffer(m: Manager)
    ensures m.accessSecret != m.refreshSecret
            <==> forall signed: set<Token>, user: Uuid, minted: nat, now: nat ::
                   && Validate(signed, RefreshToken(m, user, minted), m.accessSecret, now) == None
                   && Validate(signed, AccessToken(m, user, minted), m.refreshSecret, now) == None
  {
    var t := RefreshToken(m, 0, 0);
    var signed := {t};
    if m.accessSecret == m.refreshSecret {
      assert Validate(signed, RefreshToken(m, 0, 0), m.accessSecret, 0) == Some(0);
    }
  }
}
