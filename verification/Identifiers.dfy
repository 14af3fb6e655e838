/** The identifiers of modules and features: a lower-case letter, then letters, digits and hyphens. */
module Identifiers {
  predicate IsLower(c: char) { 'a' <= c <= 'z' }

  predicate IsId(id: string) {
    1 <= |id| <= 64 && IsLower(id[0]) &&
    forall i :: 1 <= i < |id| ==> IsLower(id[i]) || '0' <= id[i] <= '9' || id[i] == '-'
  }

  predicate IdText(id: string) {
    && 0 < |id| < 65 && 'a' <= id[0] <= 'z'
    && forall k :: 0 <= k < |id| ==> 'a' <= id[k] <= 'z' || '0' <= id[k] <= '9' || id[k] == '-'
  }

  lemma IdIs(id: string)
    ensures IsId(id) <==> IdText(id)
  {
  }
}
