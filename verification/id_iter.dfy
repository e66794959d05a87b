/** The identifier generator.

    An `IdIter<D>` holds one cursor, the identifier it hands out next. A
    fresh generator starts at the domain's first identifier. Each step hands
    out the cursor and advances it by one with an overflow-checked addition;
    when the cursor is the maximum 64-bit value the addition fails, the step
    hands out nothing and the cursor stays put, so the maximum value itself
    is never handed out and every later step hands out nothing too. */
module IdIters {
  import opened U64
  import opened Wrappers
  import opened Ids

  datatype IdIter<D> = IdIter(next: Id<D>)

  /** What one step produces: the item handed out and the generator after it. */
  datatype Step<D> = Step(item: Option<Id<D>>, rest: IdIter<D>)

  /** What `n` successive steps produce: the items, in order, and the
      generator after the last one. */
  datatype Drawn<D> = Drawn(items: seq<Option<Id<D>>>, rest: IdIter<D>)

  /** A fresh generator. */
  function Default<D>(): (it: IdIter<D>)
    ensures it.next.AsU64() == 0
  {
    IdIter(First())
  }

  /** One step of the generator. */
  function Next<D>(it: IdIter<D>): (r: Step<D>)
    ensures it.next.AsU64() < MAX ==>
      r.item == Some(it.next) && r.rest.next.AsU64() == it.next.AsU64() + 1
    ensures it.next.AsU64() == MAX ==> r.item == None && r.rest == it
    ensures r.item.Some? ==> r.item.value.AsU64() < MAX
  {
    var ret := it.next;
    match CheckedAdd(it.next.AsU64(), 1)
    case Some(next) => Step(Some(ret), IdIter(it.next.WithU64(next)))
    case None => Step(None, it)
  }

  /** `n` successive steps of the generator. */
  function Draw<D>(it: IdIter<D>, n: nat): (r: Drawn<D>)
    ensures |r.items| == n
    decreases n
  {
    if n == 0 then Drawn([], it)
    else
      var step := Next(it);
      var tail := Draw(step.rest, n - 1);
      Drawn([step.item] + tail.items, tail.rest)
  }

  /** The item that the `i`-th step (counting from 0) hands out when the
      cursor starts at `c`: `c + i` while that is below the maximum, and
      nothing from then on. */
  function Expected<D>(c: u64, i: nat): (r: Option<Id<D>>) {
    if c + i < MAX then Some(FromU64(c + i)) else None
  }

  /** The reference description of `n` steps from cursor `c`: the `i`-th item
      is `Expected(c, i)`, and the cursor ends at `c + n`, or at the maximum
      if that is passed. */
  lemma {:induction false} DrawFromCursor<D>(it: IdIter<D>, n: nat)
    ensures forall i :: 0 <= i < n ==>
      Draw(it, n).items[i] == Expected<D>(it.next.AsU64(), i)
    ensures Draw(it, n).rest.next.AsU64() ==
      if it.next.AsU64() + n <= MAX then it.next.AsU64() + n else MAX
    decreases n
  {
    if n > 0 {
      var c := it.next.AsU64();
      var step := Next(it);
      DrawFromCursor(step.rest, n - 1);
      var d := Draw(it, n);
      var tail := Draw(step.rest, n - 1);
      assert d.items == [step.item] + tail.items;
      if c < MAX {
        forall i | 0 <= i < n
          ensures d.items[i] == Expected<D>(c, i)
        {
          if i > 0 {
            assert d.items[i] == tail.items[i - 1];
            assert c + 1 + (i - 1) == c + i;
          }
        }
      } else {
        assert step.rest == it;
        forall i | 0 <= i < n
          ensures d.items[i] == Expected<D>(c, i)
        {
          if i > 0 {
            assert d.items[i] == tail.items[i - 1];
          }
        }
      }
    }
  }

  /** From a fresh generator, `n` steps with `n <= 2^64 - 1` hand out exactly
      the identifiers 0, 1, ..., n - 1, and leave the cursor at `n`. */
  lemma FreshDrawIsPrefix<D>(n: nat)
    requires n <= MAX
    ensures forall i :: 0 <= i < n ==> Draw(Default<D>(), n).items[i] == Some(FromU64(i))
    ensures Draw(Default<D>(), n).rest.next.AsU64() == n
  {
    DrawFromCursor(Default<D>(), n);
  }

  /** A fresh generator hands out the first identifier on its first step. */
  lemma FirstStepIsFirst<D>()
    ensures Next(Default<D>()).item == Some(First())
    ensures Next(Default<D>()).item.value.AsU64() == 0
  {
  }

  /** Once the cursor is the maximum value the generator is exhausted: every
      further step hands out nothing and the cursor never moves. */
  lemma ExhaustedStaysExhausted<D>(it: IdIter<D>, n: nat)
    requires it.next.AsU64() == MAX
    ensures forall i :: 0 <= i < n ==> Draw(it, n).items[i] == None
    ensures Draw(it, n).rest == it
  {
    DrawFromCursor(it, n);
  }

  /** The items handed out by any run of steps are never the maximum value,
      strictly increase, and once an item is missing all later ones are too;
      in particular no identifier is handed out twice. */
  lemma DrawnIdsIncreaseAndStop<D>(it: IdIter<D>, n: nat)
    ensures forall i :: 0 <= i < n && Draw(it, n).items[i].Some? ==>
      Draw(it, n).items[i].value.AsU64() < MAX
    ensures forall i, j :: 0 <= i < j < n && Draw(it, n).items[j].Some? ==>
      Draw(it, n).items[i].Some? &&
      Draw(it, n).items[i].value.AsU64() < Draw(it, n).items[j].value.AsU64()
  {
    DrawFromCursor(it, n);
  }

  /** A fresh generator hands out exactly 2^64 - 1 identifiers: the step
      after those hands out nothing. */
  lemma FreshGeneratorRunsOut<D>()
    ensures Draw(Default<D>(), MAX + 1).items[MAX - 1] == Some(FromU64(MAX - 1))
    ensures Draw(Default<D>(), MAX + 1).items[MAX] == None
  {
    DrawFromCursor(Default<D>(), MAX + 1);
  }
}
