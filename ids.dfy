/**
 * Record identifiers. The source's ObjectIds are modelled as naturals; an
 * identifier arriving in a request is absent, malformed (not castable to an
 * ObjectId, which makes the database driver throw a CastError) or given.
 */
module Ids {
  import Decimal

  type Id = nat

  datatype IdArg = Absent | Malformed | Given(id: Id)

  /** Casts a path parameter to an identifier. */
  function ParseId(s: string): (r: IdArg)
    ensures r != Absent
    ensures r.Given? <==> Decimal.Canonical(s)
    ensures r.Given? ==> s == Decimal.Show(r.id)
  {
    if Decimal.Canonical(s) then
      Decimal.ShowParse(s);
      Given(Decimal.Parse(s))
    else Malformed
  }

  /** An identifier written out is read back as itself. */
  lemma ParseIdShow(n: Id)
    ensures ParseId(Decimal.Show(n)) == Given(n)
  {
    Decimal.ParseShow(n);
  }
}
