/**
 * Reassembly of streamed tool-call fragments. The dictionary `tool_calls`
 * maps a position index to a builder `{id, name, arguments}`; a Python
 * dictionary remembers the order in which its keys were inserted, so the
 * state is a map together with the indices in first-seen order.
 */
module ToolCalls {

  /** One entry of `delta.tool_calls`; an absent id or function field reads as "". */
  datatype ToolDelta = ToolDelta(index: int, id: string, name: string, arguments: string)

  /** A builder while the stream runs, a finished call afterwards. */
  datatype ToolCall = ToolCall(id: string, name: string, arguments: string)

  datatype Table = Table(calls: map<int, ToolCall>, order: seq<int>)

  const EmptyTable := Table(map[], [])

  /** The keys are exactly the recorded indices, each recorded once. */
  ghost predicate WellFormed(t: Table) {
    (forall k :: 0 <= k < |t.order| ==> t.order[k] in t.calls) &&
    (forall i :: i in t.calls ==> i in t.order) &&
    (forall j, k :: 0 <= j < k < |t.order| ==> t.order[j] != t.order[k])
  }

  /** Appends the fragments of one delta to a builder. */
  function Extend(b: ToolCall, d: ToolDelta): ToolCall {
    ToolCall(b.id + d.id, b.name + d.name, b.arguments + d.arguments)
  }

  ghost predicate Extends(older: ToolCall, newer: ToolCall) {
    older.id <= newer.id && older.name <= newer.name && older.arguments <= newer.arguments
  }

  /** One delta: create an empty builder for an unseen index, then append the fragments. */
  function Apply(t: Table, d: ToolDelta): (t': Table)
    ensures WellFormed(t) ==> WellFormed(t')
  {
    var b := if d.index in t.calls then t.calls[d.index] else ToolCall("", "", "");
    var order := if d.index in t.calls then t.order else t.order + [d.index];
    Table(t.calls[d.index := Extend(b, d)], order)
  }

  /** An entry is created, empty, only for an index not yet present, and is then extended by the
      fragments; a present entry is only appended to; other entries are untouched. */
  lemma ApplyShape(t: Table, d: ToolDelta)
    ensures Apply(t, d).calls.Keys == t.calls.Keys + {d.index}
    ensures d.index in t.calls ==> Apply(t, d).order == t.order && Extends(t.calls[d.index], Apply(t, d).calls[d.index])
    ensures d.index !in t.calls ==>
      Apply(t, d).order == t.order + [d.index] && Apply(t, d).calls[d.index] == ToolCall(d.id, d.name, d.arguments)
    ensures forall j :: j in t.calls && j != d.index ==> Apply(t, d).calls[j] == t.calls[j]
  {
  }

  /** The table after a whole sequence of deltas, applied in order. */
  function Accumulate(ds: seq<ToolDelta>): (t: Table)
    ensures WellFormed(t)
  {
    if ds == [] then EmptyTable else Apply(Accumulate(ds[..|ds| - 1]), ds[|ds| - 1])
  }

  lemma AccumulateSnoc(ds: seq<ToolDelta>, d: ToolDelta)
    ensures Accumulate(ds + [d]) == Apply(Accumulate(ds), d)
  {
    assert (ds + [d])[..|ds|] == ds;
  }

  /** The finished calls, in the dictionary's order. */
  function Values(t: Table): (cs: seq<ToolCall>)
    requires WellFormed(t)
    ensures |cs| == |t.order| == |t.calls|
    ensures forall k :: 0 <= k < |t.order| ==> cs[k] == t.calls[t.order[k]]
  {
    assert t.calls.Keys == set i | i in t.order by {
      forall i | i in t.order ensures i in t.calls {
        var k :| 0 <= k < |t.order| && t.order[k] == i;
      }
      forall i | i in t.calls.Keys ensures i in t.order {
        assert i in t.calls;
      }
    }
    DistinctCount(t.order);
    seq(|t.order|, k requires 0 <= k < |t.order| => t.calls[t.order[k]])
  }

  /** A sequence without repetitions has as many distinct elements as entries. */
  lemma {:induction false} DistinctCount(s: seq<int>)
    requires forall j, k :: 0 <= j < k < |s| ==> s[j] != s[k]
    ensures |set i | i in s| == |s|
  {
    if s != [] {
      var p, x := s[..|s| - 1], s[|s| - 1];
      DistinctCount(p);
      assert (set i | i in s) == (set i | i in p) + {x};
      assert x !in (set i | i in p);
    }
  }

  datatype Field = Id | Name | Arguments

  function Pick(d: ToolDelta, f: Field): string {
    match f
    case Id => d.id
    case Name => d.name
    case Arguments => d.arguments
  }

  /** The in-order concatenation of one field of the deltas for index i. */
  function Fragments(ds: seq<ToolDelta>, i: int, f: Field): string {
    if ds == [] then ""
    else Fragments(ds[..|ds| - 1], i, f) + (if ds[|ds| - 1].index == i then Pick(ds[|ds| - 1], f) else "")
  }

  ghost predicate Seen(ds: seq<ToolDelta>, i: int) {
    exists k :: 0 <= k < |ds| && ds[k].index == i
  }

  /** Every index that occurs gets an entry, and its id, name and arguments are the
      in-order concatenations of that index's fragments: nothing is overwritten or reset. */
  lemma {:induction false} AccumulateFragments(ds: seq<ToolDelta>, i: int)
    ensures i in Accumulate(ds).calls <==> Seen(ds, i)
    ensures i in Accumulate(ds).calls ==>
      Accumulate(ds).calls[i] == ToolCall(Fragments(ds, i, Id), Fragments(ds, i, Name), Fragments(ds, i, Arguments))
  {
    if ds != [] {
      var p, d := ds[..|ds| - 1], ds[|ds| - 1];
      assert ds == p + [d];
      AccumulateFragments(p, i);
      SeenSnoc(p, d, i);
      ApplyShape(Accumulate(p), d);
      if d.index == i && i !in Accumulate(p).calls {
        FragmentsUnseen(p, i, Id);
        FragmentsUnseen(p, i, Name);
        FragmentsUnseen(p, i, Arguments);
      }
    }
  }

  /** The finished calls, in dictionary order, are the concatenated fragments of their indices. */
  lemma ValuesAreFragments(ds: seq<ToolDelta>)
    ensures forall k :: 0 <= k < |Values(Accumulate(ds))| ==>
      var i := Accumulate(ds).order[k];
      Seen(ds, i) &&
      Values(Accumulate(ds))[k] == ToolCall(Fragments(ds, i, Id), Fragments(ds, i, Name), Fragments(ds, i, Arguments))
  {
    forall k | 0 <= k < |Values(Accumulate(ds))|
      ensures var i := Accumulate(ds).order[k];
        Seen(ds, i) &&
        Values(Accumulate(ds))[k] == ToolCall(Fragments(ds, i, Id), Fragments(ds, i, Name), Fragments(ds, i, Arguments))
    {
      AccumulateFragments(ds, Accumulate(ds).order[k]);
    }
  }

  lemma SeenSnoc(p: seq<ToolDelta>, d: ToolDelta, i: int)
    ensures Seen(p + [d], i) <==> Seen(p, i) || d.index == i
  {
    var ds := p + [d];
    if Seen(ds, i) {
      var k :| 0 <= k < |ds| && ds[k].index == i;
      if k < |p| { assert p[k].index == i; }
    }
    if Seen(p, i) {
      var k :| 0 <= k < |p| && p[k].index == i;
      assert ds[k].index == i;
    }
    if d.index == i {
      assert ds[|p|].index == i;
    }
  }

  lemma {:induction false} FragmentsUnseen(ds: seq<ToolDelta>, i: int, f: Field)
    requires !Seen(ds, i)
    ensures Fragments(ds, i, f) == ""
  {
    if ds != [] {
      var p, d := ds[..|ds| - 1], ds[|ds| - 1];
      assert ds == p + [d];
      SeenSnoc(p, d, i);
      FragmentsUnseen(p, i, f);
    }
  }

  /** Later deltas only extend what earlier ones built: each entry of the table after a prefix
      of the deltas is still there afterwards, its fields prefixes of the final ones, and the
      order after the prefix is a prefix of the final order. */
  lemma {:induction false} AccumulateMonotone(ds: seq<ToolDelta>, n: nat)
    requires n <= |ds|
    ensures Accumulate(ds[..n]).order <= Accumulate(ds).order
    ensures forall i :: i in Accumulate(ds[..n]).calls ==>
      i in Accumulate(ds).calls && Extends(Accumulate(ds[..n]).calls[i], Accumulate(ds).calls[i])
  {
    if n < |ds| {
      var p := ds[..|ds| - 1];
      assert ds[..n] == p[..n];
      AccumulateMonotone(p, n);
      ApplyShape(Accumulate(p), ds[|ds| - 1]);
    } else {
      assert ds[..n] == ds;
    }
  }

  /** Index a occurs in the deltas before index b first occurs. */
  ghost predicate SeenBefore(ds: seq<ToolDelta>, a: int, b: int) {
    exists m :: 0 <= m < |ds| && ds[m].index == a && forall m' :: 0 <= m' <= m ==> ds[m'].index != b
  }

  /** The dictionary's order is first-seen order: every earlier key was seen before any later
      key first appeared. */
  lemma {:induction false} AccumulateOrder(ds: seq<ToolDelta>)
    ensures forall j, k :: 0 <= j < k < |Accumulate(ds).order| ==>
      SeenBefore(ds, Accumulate(ds).order[j], Accumulate(ds).order[k])
  {
    if ds != [] {
      var p, d := ds[..|ds| - 1], ds[|ds| - 1];
      assert ds == p + [d];
      AccumulateOrder(p);
      ApplyShape(Accumulate(p), d);
      var o, o' := Accumulate(p).order, Accumulate(ds).order;
      forall j, k | 0 <= j < k < |o'| ensures SeenBefore(ds, o'[j], o'[k]) {
        if k < |o| {
          SeenBeforeSnoc(p, d, o[j], o[k]);
        } else {
          AccumulateFragments(p, o[j]);
          AccumulateFragments(p, d.index);
          SeenBeforeNew(p, d, o[j]);
        }
      }
    }
  }

  lemma SeenBeforeSnoc(p: seq<ToolDelta>, d: ToolDelta, a: int, b: int)
    requires SeenBefore(p, a, b)
    ensures SeenBefore(p + [d], a, b)
  {
    var ds := p + [d];
    var m :| 0 <= m < |p| && p[m].index == a && forall m' :: 0 <= m' <= m ==> p[m'].index != b;
    assert ds[m].index == a;
    forall m' | 0 <= m' <= m ensures ds[m'].index != b {
      assert ds[m'] == p[m'];
    }
  }

  lemma SeenBeforeNew(p: seq<ToolDelta>, d: ToolDelta, a: int)
    requires Seen(p, a) && !Seen(p, d.index)
    ensures SeenBefore(p + [d], a, d.index)
  {
    var ds := p + [d];
    var m :| 0 <= m < |p| && p[m].index == a;
    assert ds[m].index == a;
    forall m' | 0 <= m' <= m ensures ds[m'].index != d.index {
      assert ds[m'] == p[m'];
    }
  }

  /** The dictionary is empty exactly when no delta arrived. */
  lemma EmptyIffNoDeltas(ds: seq<ToolDelta>)
    ensures Accumulate(ds).order == [] <==> ds == []
  {
    if ds != [] {
      AccumulateFragments(ds, ds[|ds| - 1].index);
      ApplyShape(Accumulate(ds[..|ds| - 1]), ds[|ds| - 1]);
    }
  }

  /** The `tool_calls` dictionary of the stream loop. */
  class Accumulator {
    var calls: map<int, ToolCall>
    var order: seq<int>

    function State(): Table
      reads this
    {
      Table(calls, order)
    }

    ghost predicate Valid()
      reads this
    {
      WellFormed(State())
    }

    constructor ()
      ensures Valid() && State() == EmptyTable
    {
      calls := map[];
      order := [];
    }

    /** The body of the inner `for tc in delta.tool_calls` loop, apart from the event. */
    method Add(d: ToolDelta)
      requires Valid()
      modifies this
      ensures Valid()
      ensures State() == Apply(old(State()), d)
    {
      if d.index !in calls {
        calls := calls[d.index := ToolCall("", "", "")];
        order := order + [d.index];
      }
      var b := calls[d.index];
      ghost var built := b;
      if d.id != "" {
        b := b.(id := b.id + d.id);
      }
      if d.name != "" {
        b := b.(name := b.name + d.name);
      }
      if d.arguments != "" {
        b := b.(arguments := b.arguments + d.arguments);
      }
      assert b == Extend(built, d) by {
        assert built.id + "" == built.id && built.name + "" == built.name;
        assert built.arguments + "" == built.arguments;
      }
      calls := calls[d.index := b];
      assert State() == Apply(old(State()), d);
    }
  }

}
