/** client/filtered_iterator.go and client/ckb_iterator.go: the iterators the transaction builder draws from. */
module CellIterators {
  import opened Words
  import opened Wrappers
  import opened Cells
  import opened TransactionBuilding

  type Stream = CellStream

  /** collector.CellIterator: a live-cell query of the SDK. It may yield nil, and yields nil once exhausted. */
  class CellIterator {
    var rest: Stream

    constructor (cells: Stream)
      ensures rest == cells
    {
      rest := cells;
    }

    method HasNext() returns (more: bool)
      ensures more <==> rest != []
    {
      more := rest != [];
    }

    method Next() returns (cell: Option<TransactionInput>)
      modifies this
      ensures old(rest) == [] ==> cell == None && rest == []
      ensures old(rest) != [] ==> cell == old(rest)[0] && rest == old(rest)[1..]
    {
      if rest == [] {
        return None;
      }
      cell, rest := rest[0], rest[1..];
    }
  }

  // ---------- FilteredCellIterator ----------

  /** The cells of a stream that pass the filter, in order; nil cells are skipped. */
  function Filter(filter: CellOutput -> bool, stream: Stream): seq<TransactionInput> {
    if stream == [] then []
    else if stream[0].Some? && filter(stream[0].value.cell.output) then [stream[0].value] + Filter(filter, stream[1..])
    else Filter(filter, stream[1..])
  }

  /** What passes the filter is yielded in its place, and nothing else is. */
  lemma {:induction false} FilterYields(filter: CellOutput -> bool, before: Stream, c: Option<TransactionInput>,
                                        after: Stream)
    ensures Filter(filter, before + [c] + after) ==
            Filter(filter, before) + (if c.Some? && filter(c.value.cell.output) then [c.value] else []) +
            Filter(filter, after)
    decreases |before|
  {
    var all := before + [c] + after;
    if before == [] {
      assert all == [c] + after && all[1..] == after;
    } else {
      FilterYields(filter, before[1..], c, after);
      assert all[1..] == before[1..] + [c] + after;
    }
  }

  class FilteredCellIterator {
    const base: CellIterator
    const filter: CellOutput -> bool
    var nextInput: Option<TransactionInput>
    var loaded: bool

    constructor (base: CellIterator, filter: CellOutput -> bool)
      ensures this.base == base && this.filter == filter && Valid()
      ensures Remaining() == Filter(filter, base.rest)
    {
      this.base, this.filter := base, filter;
      nextInput, loaded := None, false;
    }

    ghost predicate Valid()
      reads this
    {
      loaded ==> nextInput.Some?
    }

    /** What is still to come: the looked-ahead cell, then the filtered rest of the base. */
    ghost function Remaining(): seq<TransactionInput>
      requires Valid()
      reads this, base
    {
      (if loaded then [nextInput.value] else []) + Filter(filter, base.rest)
    }

    /** Looks ahead, but loses nothing: asking again gives the same answer. */
    method HasNext() returns (more: bool)
      requires Valid()
      modifies this, base
      ensures Valid() && Remaining() == old(Remaining()) && (more <==> Remaining() != [])
      ensures more ==> loaded
    {
      if loaded {
        return true;
      }
      var available := base.HasNext();
      while available
        invariant available <==> base.rest != []
        invariant !loaded && Filter(filter, base.rest) == old(Filter(filter, base.rest))
        decreases |base.rest|
      {
        var candidate := base.Next();
        if candidate.Some? && filter(candidate.value.cell.output) {
          nextInput, loaded := candidate, true;
          return true;
        }
        available := base.HasNext();
      }
      more := false;
    }

    method Next() returns (cell: Option<TransactionInput>)
      requires Valid()
      modifies this, base
      ensures Valid()
      ensures old(Remaining()) == [] ==> cell == None && Remaining() == []
      ensures old(Remaining()) != [] ==> cell == Some(old(Remaining())[0]) && Remaining() == old(Remaining())[1..]
    {
      if !loaded {
        var more := HasNext();
        if !more {
          return None;
        }
      }
      loaded := false;
      cell := nextInput;
    }
  }

  datatype Call = AskHasNext | AskNext
  datatype Answer = More(more: bool) | Yield(cell: Option<TransactionInput>)

  /** How an iterator over a plain sequence answers one call, and what it then has left. */
  function Reply(cells: seq<TransactionInput>, call: Call): Answer {
    match call
    case AskHasNext => More(cells != [])
    case AskNext => Yield(if cells == [] then None else Some(cells[0]))
  }

  function Left(cells: seq<TransactionInput>, call: Call): seq<TransactionInput> {
    if call.AskHasNext? || cells == [] then cells else cells[1..]
  }

  function Replies(cells: seq<TransactionInput>, calls: seq<Call>): seq<Answer> {
    if calls == [] then [] else [Reply(cells, calls[0])] + Replies(Left(cells, calls[0]), calls[1..])
  }

  /** Any mix of HasNext and Next cannot tell a filtered iterator from the filtered sequence. */
  method Drive(it: FilteredCellIterator, calls: seq<Call>) returns (answers: seq<Answer>)
    requires it.Valid()
    modifies it, it.base
    ensures it.Valid() && answers == Replies(old(it.Remaining()), calls)
  {
    answers := [];
    for i := 0 to |calls|
      invariant it.Valid()
      invariant answers + Replies(it.Remaining(), calls[i..]) == Replies(old(it.Remaining()), calls)
    {
      RepliesStep(answers, it.Remaining(), calls, i);
      hide Filter, Replies;
      match calls[i] {
        case AskHasNext =>
          var more := it.HasNext();
          answers := answers + [More(more)];
        case AskNext =>
          var cell := it.Next();
          answers := answers + [Yield(cell)];
      }
    }
    assert Replies(it.Remaining(), calls[|calls|..]) == [];
  }

  lemma {:induction false} RepliesStep(answers: seq<Answer>, cells: seq<TransactionInput>, calls: seq<Call>, i: nat)
    requires i < |calls|
    ensures answers + Replies(cells, calls[i..]) ==
            answers + [Reply(cells, calls[i])] + Replies(Left(cells, calls[i]), calls[i + 1..])
  {
    assert calls[i..][1..] == calls[i + 1..];
  }

  // ---------- CKBOnlyIterator ----------

  predicate Typed(cell: Option<TransactionInput>) {
    cell.Some? && cell.value.cell.output.typ.Some?
  }

  /** The stream without the cells that carry a type script. */
  function TypeFree(stream: Stream): Stream {
    if stream == [] then []
    else (if Typed(stream[0]) then [] else [stream[0]]) + TypeFree(stream[1..])
  }

  lemma {:induction false} TypeFreeYields(before: Stream, c: Option<TransactionInput>, after: Stream)
    ensures TypeFree(before + [c] + after) ==
            TypeFree(before) + (if c == None || c.value.cell.output.typ == None then [c] else []) + TypeFree(after)
  {
    TypeFreeOne(c);
    hide Typed, TypeFree;
    TypeFreeConcat(before + [c], after);
    TypeFreeConcat(before, [c]);
  }

  lemma {:induction false} TypeFreeOne(c: Option<TransactionInput>)
    ensures TypeFree([c]) == if c == None || c.value.cell.output.typ == None then [c] else []
  {}

  lemma {:induction false} TypeFreeConcat(a: Stream, b: Stream)
    ensures TypeFree(a + b) == TypeFree(a) + TypeFree(b)
    decreases |a|
  {
    hide Typed;
    if a == [] {
      assert a + b == b;
    } else {
      TypeFreeConcat(a[1..], b);
      assert (a + b)[1..] == a[1..] + b;
    }
  }

  class CKBOnlyIterator {
    const base: CellIterator

    constructor (base: CellIterator)
      ensures this.base == base
    {
      this.base := base;
    }

    /** Only asks the base: it may promise a cell although all that are left carry type scripts. */
    method HasNext() returns (more: bool)
      ensures more <==> base.rest != []
      ensures !more ==> TypeFree(base.rest) == []
    {
      more := base.HasNext();
    }

    method Next() returns (cell: Option<TransactionInput>)
      modifies base
      ensures cell == None || cell.value.cell.output.typ == None
      ensures old(TypeFree(base.rest)) == [] ==> cell == None && base.rest == []
      ensures old(TypeFree(base.rest)) != [] ==>
                cell == old(TypeFree(base.rest))[0] && TypeFree(base.rest) == old(TypeFree(base.rest))[1..]
      ensures old(base.rest) != [] ==>
              |base.rest| < old(|base.rest|) && Seen(old(base.rest)) == [cell] + Seen(base.rest)
    {
      ghost var stream := base.rest;
      cell := base.Next();
      while cell != None && Typed(cell)
        invariant Typed(cell) ==>
                    TypeFree(base.rest) == TypeFree(stream) && Seen(stream) ==
                      if base.rest == [] then [None] else Seen(base.rest)
        invariant !Typed(cell) ==>
                    && (if TypeFree(stream) == [] then cell == None && base.rest == []
                        else cell == TypeFree(stream)[0] && TypeFree(base.rest) == TypeFree(stream)[1..])
                    && (stream != [] ==> Seen(stream) == [cell] + Seen(base.rest))
        invariant |base.rest| <= |stream| && (stream != [] ==> |base.rest| < |stream|)
        decreases |base.rest|, cell != None
      {
        cell := base.Next();
      }
    }
  }

  /** What a loop `for iter.HasNext() { iter.Next() }` gets to see. */
  function Seen(stream: Stream): Stream {
    if stream == [] then []
    else if !Typed(stream[0]) then [stream[0]] + Seen(stream[1..])
    else if |stream| == 1 then [None]
    else Seen(stream[1..])
  }

  /** It sees exactly the type-free cells; if a cell with a type script comes last, one nil follows that HasNext
      had promised to be a cell. */
  lemma {:induction false} SeenIsTypeFree(stream: Stream)
    ensures Seen(stream) == TypeFree(stream) + if stream != [] && Typed(stream[|stream| - 1]) then [None] else []
  {
    hide Typed;
    if |stream| > 1 {
      var c, rest := stream[0], stream[1..];
      SeenIsTypeFree(rest);
      assert rest[|rest| - 1] == stream[|stream| - 1];
      var tail: Stream := if Typed(rest[|rest| - 1]) then [None] else [];
      assert [c] + (TypeFree(rest) + tail) == [c] + TypeFree(rest) + tail;
      assert [] + TypeFree(rest) == TypeFree(rest);
    } else if |stream| == 1 {
      assert TypeFree(stream[1..]) == [] && Seen(stream[1..]) == [];
    }
  }

  /** The funding loop over a CKBOnlyIterator, as the transaction builder runs it. */
  method Collect(it: CKBOnlyIterator) returns (seen: Stream)
    modifies it.base
    ensures seen == Seen(old(it.base.rest)) && it.base.rest == []
  {
    seen := [];
    var more := it.HasNext();
    while more
      invariant more <==> it.base.rest != []
      invariant seen + Seen(it.base.rest) == Seen(old(it.base.rest))
      decreases |it.base.rest|
    {
      var cell := it.Next();
      seen := seen + [cell];
      more := it.HasNext();
    }
  }

  lemma {:induction false} TypeFreeHasNoNil(stream: Stream)
    requires None !in stream
    ensures None !in TypeFree(stream)
  {
    if stream != [] {
      assert stream[0] in stream;
      assert forall t :: t in stream[1..] ==> t in stream;
      TypeFreeHasNoNil(stream[1..]);
    }
  }

  lemma {:induction false} NoNilNoEnd(stream: Stream)
    requires None !in stream
    ensures StreamOf(PerunTransactionBuilder.BeforeNil(stream)) == stream
  {
    if stream != [] {
      assert stream[0] in stream;
      assert forall t :: t in stream[1..] ==> t in stream;
      NoNilNoEnd(stream[1..]);
      StreamOfFirst(stream[0].value, PerunTransactionBuilder.BeforeNil(stream[1..]));
      assert stream == [stream[0]] + stream[1..];
    }
  }

  lemma {:induction false} StreamOfFirst(first: TransactionInput, taken: seq<TransactionInput>)
    ensures StreamOf([first] + taken) == [Some(first)] + StreamOf(taken)
  {
    if taken == [] {
      assert [first] + taken == [first] && [first][..0] == [];
    } else {
      StreamOfFirst(first, taken[..|taken| - 1]);
      assert ([first] + taken)[..|taken|] == [first] + taken[..|taken| - 1];
    }
  }

  /** When the builder, asking a CKBOnlyIterator for `need`, dereferences nil: exactly if the last cell of the base
      carries a type script and all its type-free cells together, and every prefix of them, fall short. */
  lemma {:induction false} CkbFundingPanics(known: set<Script>, base: Stream, need: uint64)
    requires None !in base
    ensures StreamOf(PerunTransactionBuilder.BeforeNil(TypeFree(base))) == TypeFree(base)
    ensures PerunTransactionBuilder.StuckAtNil(known, ZERO_HASH, Seen(base), need) <==>
            base != [] && Typed(base[|base| - 1]) &&
            PerunTransactionBuilder.AllShort(known, ZERO_HASH, PerunTransactionBuilder.BeforeNil(TypeFree(base)), need)
  {
    var all := PerunTransactionBuilder.BeforeNil(TypeFree(base));
    var tail := if base != [] && Typed(base[|base| - 1]) then [None] else [];
    SeenIsTypeFree(base);
    TypeFreeHasNoNil(base);
    NoNilNoEnd(TypeFree(base));
    PerunTransactionBuilder.BeforeNilStarts(all, tail);
    assert PerunTransactionBuilder.BeforeNil(tail) == [] && all + [] == all;
  }
}
