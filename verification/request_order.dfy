/** The total order of request identifiers.

    Of the three identifier types only `RequestId` is ordered; its order is
    the one derived from its single field, so it compares the wrapped values.
    `Option<RequestId>` is ordered as options are: `None` below every `Some`,
    and two `Some`s by their contents. */
module RequestOrder {
  import opened U64
  import opened Wrappers
  import opened Ids

  datatype Ordering = Less | Equal | Greater {
    function Reverse(): (r: Ordering) {
      match this
      case Less => Greater
      case Equal => Equal
      case Greater => Less
    }
  }

  /** Comparison of two integers (used for raw values and for indices). */
  function CmpInt(a: int, b: int): (r: Ordering) {
    if a < b then Less else if a == b then Equal else Greater
  }

  /** The derived comparison of request identifiers. */
  function Cmp(a: RequestId, b: RequestId): (r: Ordering)
    ensures r == Less <==> a.AsU64() < b.AsU64()
    ensures r == Equal <==> a == b
    ensures r == Greater <==> a.AsU64() > b.AsU64()
  {
    CmpInt(a.v, b.v)
  }

  /** The comparison of optional request identifiers. */
  function CmpOption(a: Option<RequestId>, b: Option<RequestId>): (r: Ordering)
    ensures a.None? && b.Some? ==> r == Less
    ensures a.Some? && b.None? ==> r == Greater
    ensures a.Some? && b.Some? ==> (r == Less <==> a.value.AsU64() < b.value.AsU64())
    ensures r == Equal <==> a == b
  {
    match (a, b)
    case (None, None) => Equal
    case (None, Some(_)) => Less
    case (Some(_), None) => Greater
    case (Some(x), Some(y)) => Cmp(x, y)
  }

  predicate Lt(a: RequestId, b: RequestId) {
    Cmp(a, b) == Less
  }

  /** Request identifiers are ordered exactly as their raw values, and they
      compare equal exactly when they are equal. */
  lemma CmpAgreesWithValues(a: RequestId, b: RequestId)
    ensures Cmp(a, b) == Less <==> a.AsU64() < b.AsU64()
    ensures Cmp(a, b) == Equal <==> a == b
    ensures Cmp(a, b) == Greater <==> a.AsU64() > b.AsU64()
  {
  }

  /** The comparison is that of a total order: swapping the arguments
      reverses it, `Lt` is irreflexive and transitive, and any two distinct
      identifiers are related one way or the other. */
  lemma CmpIsTotalOrder(a: RequestId, b: RequestId, c: RequestId)
    ensures Cmp(b, a) == Cmp(a, b).Reverse()
    ensures !Lt(a, a)
    ensures Lt(a, b) && Lt(b, c) ==> Lt(a, c)
    ensures a != b ==> Lt(a, b) || Lt(b, a)
  {
  }

  /** `None` is the least optional identifier; `Some` identifiers compare as
      their contents. */
  lemma CmpOptionOrder(a: Option<RequestId>, b: Option<RequestId>)
    ensures a.None? && b.Some? ==> CmpOption(a, b) == Less
    ensures a.Some? && b.Some? ==> (CmpOption(a, b) == Less <==> a.value.AsU64() < b.value.AsU64())
    ensures CmpOption(a, b) == Equal <==> a == b
    ensures CmpOption(b, a) == CmpOption(a, b).Reverse()
  {
  }

  /** The chain `None < Some(0) < Some(1) < Some(u64::MAX)`. */
  function OrderedSamples(): (s: seq<Option<RequestId>>)
    ensures |s| == 4
    ensures s[0].None?
    ensures forall k :: 1 <= k < 4 ==> s[k].Some?
    ensures s[1].value.AsU64() == 0 && s[2].value.AsU64() == 1 && s[3].value.AsU64() == MAX
  {
    [None, Some(FromU64(0)), Some(FromU64(1)), Some(FromU64(MAX))]
  }

  /** Comparing any two entries of the chain gives the same answer as
      comparing their positions in it. */
  lemma SamplesOrderedByPosition()
    ensures forall i, j :: 0 <= i < 4 && 0 <= j < 4 ==>
      CmpOption(OrderedSamples()[i], OrderedSamples()[j]) == CmpInt(i, j)
  {
  }

  /** The maximum identifier is above every other request identifier. */
  lemma MaxIsGreatest(a: RequestId)
    ensures a != FromU64(MAX) ==> Lt(a, FromU64(MAX))
  {
  }
}
