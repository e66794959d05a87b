# shared-ids in Dafny

A model of the `shared-ids` crate: strongly typed 64-bit identifiers for a
replicated system, and the generator that hands them out.

- `U64` (`u64.dfy`): the unsigned 64-bit range as a subset type of `int`, and
  `checked_add`, which returns `None` instead of wrapping around.
- `Ids` (`ids.dfy`): `Id<D>`, one wrapped `u64` tagged with a domain type `D`.
  The data-free tags `Replica`, `Client` and `Request` give the three
  identifier types `ReplicaId`, `ClientId` and `RequestId`. The operations are
  those of the `AnyId` trait as the `impl_id!` macro implements them: `First`
  (the `FIRST` constant), `FromU64`, `AsU64`, and `WithU64`. `WithU64` models
  writing a value through the reference that `as_mut_u64` returns. Equality is
  the datatype's structural equality, so it is equality of the wrapped value,
  as the derived `PartialEq` is.
- `RequestOrder` (`request_order.dfy`): the derived `Ord` of `RequestId`, which
  is the only ordered identifier type. It also models the standard ordering of
  `Option<RequestId>`, which the crate's ordering test uses.
- `IdIters` (`id_iter.dfy`): `IdIter<D>`, whose state is one cursor. `Default`
  is `Default::default`. `Next` is `Iterator::next` as a pure step function that
  returns the item and the new state. `Draw` performs `n` successive steps.

The generator's edge case is modelled exactly as the code has it. When the
cursor is `u64::MAX`, `checked_add(1)` fails, so `next()` returns `None` and
leaves the cursor unchanged. The value `u64::MAX` is therefore never handed
out: a fresh generator yields 0, 1, …, 2^64 − 2 and then `None` forever.

## Model

| member | source | states |
|---|---|---|
| U64.CheckedAdd | src/lib.rs:70 | `checked_add` returns `Some` exactly when the exact sum fits in 64 bits, and then it returns that sum |
| U64.CheckedIncrement | src/lib.rs:70-75 | adding 1 with `checked_add` fails exactly when the value is `u64::MAX`; otherwise it returns the value plus one |
| Ids.First | src/lib.rs:17 | the `FIRST` identifier of every domain wraps the value 0 |
| Ids.FromU64 | src/lib.rs:19-21 | construction from any raw `u64` is total and keeps the value |
| Ids.Id.AsU64 | src/lib.rs:23-25 | the value read out determines the identifier: rewrapping it gives back the same identifier |
| Ids.Id.WithU64 | src/lib.rs:27-29 | after writing `w` through `as_mut_u64`, the identifier reads back `w` |
| Ids.FromU64OfAsU64 | src/lib.rs:19-25 | `from_u64(x.as_u64()) == x` for every identifier |
| Ids.AsU64OfFromU64 | src/lib.rs:19-25 | `from_u64(v).as_u64() == v` for every `u64`, including 0 and `u64::MAX` |
| Ids.WriteThroughMut | src/lib.rs:27-29 | after writing `w` through `as_mut_u64`, `as_u64` returns `w`; writing back the value just read changes nothing; a second write replaces the first |
| Ids.EqualityIsValueEquality | src/lib.rs:34-49 | two identifiers of one domain are equal iff their wrapped values are equal |
| Ids.FromU64Injective | src/lib.rs:19-21 | distinct raw values build distinct identifiers, and equal values build equal ones |
| RequestOrder.Cmp | src/lib.rs:46 | the derived `Ord` of `RequestId`: Less, Equal or Greater exactly as the wrapped values compare; Equal exactly on equal identifiers |
| RequestOrder.CmpOption | tests/request_id.rs:14 | `Option<RequestId>` order: `None` below every `Some`; two `Some`s are Less exactly when their values are; Equal exactly on equal options |
| RequestOrder.CmpAgreesWithValues | src/lib.rs:46-49 | `RequestId` compares Less, Equal or Greater exactly as the wrapped `u64` values do; Equal exactly when the identifiers are equal |
| RequestOrder.CmpIsTotalOrder | src/lib.rs:46 | the `RequestId` order is total: swapping the arguments reverses it, and strict less-than is irreflexive, transitive and relates any two distinct identifiers |
| RequestOrder.CmpOptionOrder | src/lib.rs:46 | under `Option` ordering, `None` is below every `Some`; two `Some`s compare as their values; Equal exactly on equal options; swapping reverses the result |
| RequestOrder.OrderedSamples | tests/request_id.rs:5-10 | the test's fixture: `None`, then ids with values 0, 1 and `u64::MAX` |
| RequestOrder.SamplesOrderedByPosition | tests/request_id.rs:5-16 | in `[None, Some(0), Some(1), Some(u64::MAX)]`, comparing any two entries gives the same result as comparing their indices |
| RequestOrder.MaxIsGreatest | tests/request_id.rs:9 | the identifier with value `u64::MAX` is above every other `RequestId` |
| IdIters.Default | src/lib.rs:56-60 | a fresh generator's cursor is the first identifier, value 0 |
| IdIters.Next | src/lib.rs:65-76 | below `u64::MAX`, a step returns `Some(cursor)` and advances the cursor by one; at `u64::MAX` it returns `None` and leaves the generator unchanged; an item it returns is never `u64::MAX` |
| IdIters.Draw | src/lib.rs:65-76 | `n` successive calls of `next()` produce exactly `n` items; their contents are given by `IdIters.DrawFromCursor` |
| IdIters.DrawFromCursor | src/lib.rs:65-76 | starting from cursor `c`, step `i` of `n` returns `c + i` while that is below `u64::MAX` and `None` after that; the cursor ends at `min(c + n, u64::MAX)` |
| IdIters.FirstStepIsFirst | src/lib.rs:56-72 | the first step of a fresh generator returns `Some` of the identifier with value 0 |
| IdIters.FreshDrawIsPrefix | src/lib.rs:56-76 | from a fresh generator, `n <= 2^64 - 1` steps return exactly `0, 1, …, n - 1` and leave the cursor at `n` |
| IdIters.ExhaustedStaysExhausted | src/lib.rs:70-75 | once the cursor is `u64::MAX`, every later step returns `None` and the generator never changes |
| IdIters.DrawnIdsIncreaseAndStop | src/lib.rs:65-76 | the items of any run of steps are below `u64::MAX` and strictly increasing; once a `None` appears, every later item is `None`, so no identifier repeats |
| IdIters.FreshGeneratorRunsOut | src/lib.rs:56-76 | a fresh generator returns `2^64 - 2` as its `2^64 - 1`-th item and `None` as the item after it |

## Left out

- Serde `Serialize`/`Deserialize` and `#[serde(transparent)]` are left out because they are library code. The transparent encoding of an identifier is its bare `u64`, so it is `AsU64`, and decoding is `FromU64`. `Ids.FromU64OfAsU64` and `Ids.AsU64OfFromU64` state their round trip.
- The derived `Hash` and `Debug` implementations are left out because they are library-generated, with no logic of the crate behind them.
- `#[repr(transparent)]` is left out because it is a memory-layout attribute with no behaviour.
- Compile-time separation of the identifier domains is a property of Rust's type system. Here it is mirrored by the phantom tag parameter of `Id<D>`, not proved.
- The `Iterator` adapters beyond `next()` (`take`, `collect`, …) are left out because they are standard-library code. `Draw` stands for `n` calls of `next()`.
- Ids.Id.WithU64: the mutable borrow returned by `as_mut_u64` is modelled functionally, as the identifier after a write through it. Aliasing and borrow lifetimes are not modelled.
- IdIters.Next: `&mut self` is modelled as a pure step that returns the new state alongside the item, not as in-place mutation.
