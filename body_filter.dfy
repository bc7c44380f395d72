/**
 * `filterBodyObject(body, ...excluded)`: a shallow copy of `body` from which
 * each excluded key is deleted in turn.
 */
module BodyFilter {

  /** The keys of `m` outside `keys`, with their values. */
  function Omit<V>(m: map<string, V>, keys: seq<string>): (r: map<string, V>)
    ensures forall k :: k in r <==> k in m && k !in keys
    ensures forall k :: k in r ==> r[k] == m[k]
  {
    map k | k in m && k !in keys :: m[k]
  }

  /** The copy-and-delete loop; the caller's map is a value and stays as it was. */
  method FilterBodyObject<V>(body: map<string, V>, excluded: seq<string>) returns (copy: map<string, V>)
    ensures copy == Omit(body, excluded)
  {
    copy := body;
    var i := 0;
    while i < |excluded|
      invariant 0 <= i <= |excluded|
      invariant copy == Omit(body, excluded[..i])
    {
      copy := copy - {excluded[i]};
      i := i + 1;
    }
    assert excluded[..i] == excluded;
  }

  /** No excluded key is left, and every other key keeps its value. */
  lemma OmitSeparates<V>(m: map<string, V>, keys: seq<string>, k: string)
    ensures k in keys ==> k !in Omit(m, keys)
    ensures k in m && k !in keys ==> k in Omit(m, keys) && Omit(m, keys)[k] == m[k]
  {
  }

  /** With nothing excluded the copy equals the input. */
  lemma OmitNothing<V>(m: map<string, V>)
    ensures Omit(m, []) == m
  {
  }

  /** Filtering a second time with the same list changes nothing. */
  lemma OmitIdempotent<V>(m: map<string, V>, keys: seq<string>)
    ensures Omit(Omit(m, keys), keys) == Omit(m, keys)
  {
  }

  /** Only the set of excluded keys matters, not their order or repetition. */
  lemma OmitBySet<V>(m: map<string, V>, keys: seq<string>, others: seq<string>)
    requires forall k :: k in keys <==> k in others
    ensures Omit(m, keys) == Omit(m, others)
  {
  }
}
