/**
 * Session tokens. Signing a JSON Web Token for a user id and verifying it
 * are abstracted to an encoding that only `Sign` produces: a token verifies
 * exactly when it is the signature of some id, and then yields that id.
 * The signing secret and the expiry time are not modelled.
 */
module Token {
  import opened Wrappers
  import opened Ids
  import Decimal

  const Prefix: string := "jwt."

  /** `generateToken(user._id)`: the token bound to `id`. */
  function Sign(id: Id): (t: string)
    ensures ' ' !in t && t != ""
  {
    Prefix + Decimal.Show(id)
  }

  /** `jwt.verify(token, secret)`: the id the token is bound to, or a failure. */
  function Verify(t: string): Option<Id>
  {
    if |t| > |Prefix| && t[..|Prefix|] == Prefix && Decimal.Canonical(t[|Prefix|..])
    then Some(Decimal.Parse(t[|Prefix|..]))
    else None
  }

  /** A token verifies to `id` exactly when it was signed for `id`. */
  lemma {:induction false} VerifyIffSigned(t: string, id: Id)
    ensures Verify(t) == Some(id) <==> t == Sign(id)
  {
    Decimal.ParseShow(id);
    var s := Sign(id);
    assert s[..|Prefix|] == Prefix && s[|Prefix|..] == Decimal.Show(id);
    if Verify(t) == Some(id) {
      Decimal.ShowParse(t[|Prefix|..]);
      assert t == t[..|Prefix|] + t[|Prefix|..];
    }
  }
}
