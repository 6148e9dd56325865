/**
 * Runtime classes as type tags. A class is identified by its chain of ancestors,
 * starting below `object`: `object` itself is the empty chain and a class derived
 * from `B` is `B + [n]`. `issubclass(t, u)` and `isinstance(x, u)` become
 * `IsSubtype(t, u)`: `u` is a prefix of `t`.
 */
module Types {

  type TypeTag = seq<nat>

  /** Python's `object`, the top of the hierarchy. */
  const Object: TypeTag := []

  /** `issubclass(t, u)`. */
  predicate IsSubtype(t: TypeTag, u: TypeTag) {
    u <= t
  }

  /** A direct subclass of `parent`, numbered `n` among its siblings. */
  function Derive(parent: TypeTag, n: nat): (t: TypeTag)
    ensures IsSubtype(t, parent) && !IsSubtype(parent, t)
  {
    parent + [n]
  }

  lemma SubtypeIsPreorder(t: TypeTag, u: TypeTag, v: TypeTag)
    ensures IsSubtype(t, t)
    ensures IsSubtype(t, u) && IsSubtype(u, v) ==> IsSubtype(t, v)
    ensures IsSubtype(t, Object)
    ensures IsSubtype(t, u) && IsSubtype(u, t) ==> t == u
  {
  }
}
