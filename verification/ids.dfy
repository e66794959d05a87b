/** Typed 64-bit identifiers.

    `Id<D>` wraps one unsigned 64-bit value; the type parameter `D` is a
    domain tag that carries no data and only keeps identifiers of different
    domains apart, as the distinct newtypes `ReplicaId`, `ClientId` and
    `RequestId` do. The operations are those every identifier type offers:
    the first identifier, construction from a raw value, reading the value
    and writing it through a mutable reference. */
module Ids {
  import opened U64

  /** Domain tags: one marker type per identifier domain. */
  datatype Replica = Replica
  datatype Client = Client
  datatype Request = Request

  /** An identifier of domain `D`; equality is equality of the wrapped value. */
  datatype Id<D> = Id(v: u64) {

    /** Reads the wrapped value; the value alone determines the identifier. */
    function AsU64(): (r: u64)
      ensures Id(r) == this
    {
      v
    }

    /** The identifier after writing `w` through the mutable reference to
        its value. */
    function WithU64(w: u64): (r: Id<D>)
      ensures r.AsU64() == w
    {
      Id(w)
    }
  }

  type ReplicaId = Id<Replica>
  type ClientId = Id<Client>
  type RequestId = Id<Request>

  /** The first identifier of a domain. */
  function First<D>(): (r: Id<D>)
    ensures r.AsU64() == 0
  {
    Id(0)
  }

  /** Builds an identifier from any raw 64-bit value; never fails. */
  function FromU64<D>(x: u64): (r: Id<D>)
    ensures r.AsU64() == x
  {
    Id(x)
  }

  /** Every identifier is rebuilt from its own value. */
  lemma FromU64OfAsU64<D>(id: Id<D>)
    ensures FromU64<D>(id.AsU64()) == id
  {
  }

  /** Every raw value, 0 and `MAX` included, is read back from the identifier
      built from it. */
  lemma AsU64OfFromU64<D>(x: u64)
    ensures FromU64<D>(x).AsU64() == x
  {
  }

  /** Writing through the mutable reference behaves like a single stored
      value: a read returns the last write, writing back what was read
      changes nothing, and a second write replaces the first. */
  lemma WriteThroughMut<D>(id: Id<D>, w: u64, w': u64)
    ensures id.WithU64(w).AsU64() == w
    ensures id.WithU64(id.AsU64()) == id
    ensures id.WithU64(w).WithU64(w') == id.WithU64(w')
  {
  }

  /** Two identifiers of one domain are equal exactly when their values are. */
  lemma EqualityIsValueEquality<D>(a: Id<D>, b: Id<D>)
    ensures a == b <==> a.AsU64() == b.AsU64()
  {
  }

  /** Construction is injective: distinct raw values give distinct identifiers. */
  lemma FromU64Injective<D>(x: u64, y: u64)
    ensures FromU64<D>(x) == FromU64<D>(y) <==> x == y
  {
  }
}
