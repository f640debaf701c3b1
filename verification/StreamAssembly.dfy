/** Assembling streamed tool calls: fragments arrive in any interleaving of their indexes; the result
    depends only on each index's own fragments, in order. */
module StreamAssembly {
  import opened JsonValues
  import opened Sorting

  /** A fragment with its missing entries read as empty strings. */
  datatype Fragment = Fragment(index: int, id: string, name: string, arguments: string)

  datatype ToolCall = ToolCall(id: string, name: string, arguments: string)

  type Slots = map<int, ToolCall>

  const EMPTY_CALL := ToolCall("", "", "")

  /** One iteration of `_merge_stream_tool_call_fragment`. */
  function MergeOne(slots: Slots, f: Fragment): Slots {
    var slot := if f.index in slots then slots[f.index] else EMPTY_CALL;
    slots[f.index := ToolCall(if slot.id == "" then f.id else slot.id, if slot.name == "" then f.name else slot.name,
                              slot.arguments + f.arguments)]
  }

  function Merge(slots: Slots, fragments: seq<Fragment>): Slots {
    if fragments == [] then slots
    else MergeOne(Merge(slots, fragments[..|fragments| - 1]), fragments[|fragments| - 1])
  }

  function Calls(slots: Slots, indexes: seq<int>): seq<ToolCall>
    requires forall i | 0 <= i < |indexes| :: indexes[i] in slots
  {
    seq(|indexes|, i requires 0 <= i < |indexes| => slots[indexes[i]])
  }

  /** `_finalize_stream_tool_calls`. */
  function Finalize(slots: Slots): Option<seq<ToolCall>> {
    if slots == map[] then None
    else
      SortedKeysIs(slots.Keys);
      Some(Calls(slots, SortedKeys(slots.Keys)))
  }

  class ToolCallAccumulator {
    var slots: Slots

    constructor ()
      ensures slots == map[]
    {
      slots := map[];
    }

    method MergeFragments(fragments: seq<Fragment>)
      modifies this
      ensures slots == Merge(old(slots), fragments)
    {
      for i := 0 to |fragments|
        invariant slots == Merge(old(slots), fragments[..i])
      {
        var f := fragments[i];
        assert fragments[..i + 1][..i] == fragments[..i];
        ghost var slot := if f.index in slots then slots[f.index] else EMPTY_CALL;
        assert f.arguments == "" ==> slot.arguments + f.arguments == slot.arguments;
        if f.index !in slots {
          slots := slots[f.index := EMPTY_CALL];
        }
        if f.id != "" && slots[f.index].id == "" {
          slots := slots[f.index := slots[f.index].(id := f.id)];
        }
        if f.name != "" && slots[f.index].name == "" {
          slots := slots[f.index := slots[f.index].(name := f.name)];
        }
        if f.arguments != "" {
          slots := slots[f.index := slots[f.index].(arguments := slots[f.index].arguments + f.arguments)];
        }
        assert slots == MergeOne(Merge(old(slots), fragments[..i]), f);
      }
      assert fragments[..|fragments|] == fragments;
    }
  }

  // ---------- What an index's fragments say ----------

  function Of(fragments: seq<Fragment>, index: int): seq<Fragment> {
    if fragments == [] then []
    else
      var last := fragments[|fragments| - 1];
      Of(fragments[..|fragments| - 1], index) + if last.index == index then [last] else []
  }

  function FirstId(fragments: seq<Fragment>): string {
    if fragments == [] then "" else if fragments[0].id != "" then fragments[0].id else FirstId(fragments[1..])
  }

  function FirstName(fragments: seq<Fragment>): string {
    if fragments == [] then "" else if fragments[0].name != "" then fragments[0].name else FirstName(fragments[1..])
  }

  function Concatenated(fragments: seq<Fragment>): string {
    if fragments == [] then "" else fragments[0].arguments + Concatenated(fragments[1..])
  }

  lemma {:induction false} Append(fragments: seq<Fragment>, f: Fragment)
    ensures FirstId(fragments + [f]) == if FirstId(fragments) == "" then f.id else FirstId(fragments)
    ensures FirstName(fragments + [f]) == if FirstName(fragments) == "" then f.name else FirstName(fragments)
    ensures Concatenated(fragments + [f]) == Concatenated(fragments) + f.arguments
  {
    if fragments == [] {
      assert fragments + [f] == [f];
    } else {
      assert (fragments + [f])[1..] == fragments[1..] + [f];
      Append(fragments[1..], f);
    }
  }

  /** The first non-empty id and name, and all arguments in order. */
  function Summary(own: seq<Fragment>): ToolCall {
    ToolCall(FirstId(own), FirstName(own), Concatenated(own))
  }

  /** Each slot is the summary of its own index's fragments; indexes without fragments have none. */
  lemma {:induction false} SlotsAre(fragments: seq<Fragment>, index: int)
    ensures index in Merge(map[], fragments) <==> Of(fragments, index) != []
    ensures index in Merge(map[], fragments) ==> Merge(map[], fragments)[index] == Summary(Of(fragments, index))
  {
    if fragments != [] {
      var before, last := fragments[..|fragments| - 1], fragments[|fragments| - 1];
      var own := Of(before, index);
      SlotsAre(before, index);
      Append(own, last);
      assert Of(fragments, index) == if last.index == index then own + [last] else own;
      assert Summary([]) == EMPTY_CALL;
    }
  }

  /** Fragment lists that say the same of each index assemble to the same calls. */
  lemma SameSummaries(a: seq<Fragment>, b: seq<Fragment>)
    requires forall i :: (Of(a, i) == [] <==> Of(b, i) == []) && Summary(Of(a, i)) == Summary(Of(b, i))
    ensures Finalize(Merge(map[], a)) == Finalize(Merge(map[], b))
  {
    forall i ensures (i in Merge(map[], a) <==> i in Merge(map[], b))
                     && (i in Merge(map[], a) ==> Merge(map[], a)[i] == Merge(map[], b)[i])
    {
      SlotsAre(a, i);
      SlotsAre(b, i);
      assert Summary(Of(a, i)) == Summary(Of(b, i));
    }
    assert Merge(map[], a) == Merge(map[], b);
  }

  /** Any interleaving that keeps each index's own order gives the same list. */
  lemma Confluent(a: seq<Fragment>, b: seq<Fragment>)
    requires forall i :: Of(a, i) == Of(b, i)
    ensures Finalize(Merge(map[], a)) == Finalize(Merge(map[], b))
  {
    forall i ensures (Of(a, i) == [] <==> Of(b, i) == []) && Summary(Of(a, i)) == Summary(Of(b, i)) {
      assert Of(a, i) == Of(b, i);
    }
    SameSummaries(a, b);
  }

  lemma {:induction false} OfConcat(a: seq<Fragment>, b: seq<Fragment>, index: int)
    ensures Of(a + b, index) == Of(a, index) + Of(b, index)
  {
    if b == [] {
      assert a + b == a;
    } else {
      assert (a + b)[..|a + b| - 1] == a + b[..|b| - 1];
      OfConcat(a, b[..|b| - 1], index);
    }
  }

  lemma {:induction false} SummaryConcat(a: seq<Fragment>, b: seq<Fragment>)
    ensures FirstId(a + b) == if FirstId(a) == "" then FirstId(b) else FirstId(a)
    ensures FirstName(a + b) == if FirstName(a) == "" then FirstName(b) else FirstName(a)
    ensures Concatenated(a + b) == Concatenated(a) + Concatenated(b)
  {
    if a == [] {
      assert a + b == b;
    } else {
      assert (a + b)[1..] == a[1..] + b;
      SummaryConcat(a[1..], b);
    }
  }

  /** A part of the stream may be replaced by any other fragments that say the same of each index:
      arguments strings may be cut anywhere. */
  lemma Resplit(before: seq<Fragment>, a: seq<Fragment>, b: seq<Fragment>, after: seq<Fragment>)
    requires forall i :: (Of(a, i) == [] <==> Of(b, i) == []) && Summary(Of(a, i)) == Summary(Of(b, i))
    ensures Finalize(Merge(map[], before + a + after)) == Finalize(Merge(map[], before + b + after))
  {
    var left, right := before + a + after, before + b + after;
    forall i ensures (Of(left, i) == [] <==> Of(right, i) == []) && Summary(Of(left, i)) == Summary(Of(right, i)) {
      assert (Of(a, i) == [] <==> Of(b, i) == []) && Summary(Of(a, i)) == Summary(Of(b, i));
      OfConcat(before, a, i);
      OfConcat(before + a, after, i);
      OfConcat(before, b, i);
      OfConcat(before + b, after, i);
      SummaryConcat(Of(before, i), Of(a, i));
      SummaryConcat(Of(before, i), Of(b, i));
      SummaryConcat(Of(before, i) + Of(a, i), Of(after, i));
      SummaryConcat(Of(before, i) + Of(b, i), Of(after, i));
    }
    SameSummaries(left, right);
  }

  /** One fragment and the same fragment with its arguments cut in two. */
  lemma CutInTwo(before: seq<Fragment>, f: Fragment, head: string, tail: string, after: seq<Fragment>)
    requires f.arguments == head + tail
    ensures Finalize(Merge(map[], before + [f] + after))
            == Finalize(Merge(map[], before + ([f.(arguments := head)] + [Fragment(f.index, "", "", tail)]) + after))
  {
    var a, b := f.(arguments := head), Fragment(f.index, "", "", tail);
    forall i ensures (Of([f], i) == [] <==> Of([a] + [b], i) == []) && Summary(Of([f], i)) == Summary(Of([a] + [b], i)) {
      OfConcat([a], [b], i);
      Single(f, i);
      Single(a, i);
      Single(b, i);
      SummaryConcat([a], [b]);
      assert i != f.index ==> Of([a] + [b], i) == [];
    }
    Resplit(before, [f], [a] + [b], after);
  }

  lemma Single(f: Fragment, index: int)
    ensures Of([f], index) == if f.index == index then [f] else []
    ensures Summary([f]) == ToolCall(f.id, f.name, f.arguments)
  {
    assert [f][..0] == [] && [f][1..] == [];
    assert FirstId([]) == FirstName([]) == Concatenated([]) == "";
    assert Concatenated([f]) == f.arguments + "" == f.arguments;
  }

  /** However the stream is cut into deltas, merging them one after the other is merging them all. */
  lemma {:induction false} MergeConcat(slots: Slots, a: seq<Fragment>, b: seq<Fragment>)
    ensures Merge(Merge(slots, a), b) == Merge(slots, a + b)
  {
    if b == [] {
      assert a + b == a;
    } else {
      assert (a + b)[..|a + b| - 1] == a + b[..|b| - 1];
      MergeConcat(slots, a, b[..|b| - 1]);
    }
  }

  /** The finished list: one call for each index, by ascending index, each its index's summary. */
  lemma FinishedList(fragments: seq<Fragment>) returns (indexes: seq<int>)
    requires fragments != []
    ensures forall i, j | 0 <= i < j < |indexes| :: indexes[i] < indexes[j]
    ensures forall k :: k in indexes <==> Of(fragments, k) != []
    ensures var out := Finalize(Merge(map[], fragments));
            && out.Some? && |out.value| == |indexes|
            && forall i | 0 <= i < |indexes| :: out.value[i] == Summary(Of(fragments, indexes[i]))
  {
    var slots := Merge(map[], fragments);
    indexes := SortedKeys(slots.Keys);
    SortedKeysIs(slots.Keys);
    SlotsAre(fragments, fragments[|fragments| - 1].index);
    forall k ensures k in indexes <==> Of(fragments, k) != [] {
      SlotsAre(fragments, k);
    }
    var calls := Finalize(slots).value;
    forall i | 0 <= i < |indexes| ensures calls[i] == Summary(Of(fragments, indexes[i])) {
      SlotsAre(fragments, indexes[i]);
    }
  }
}
