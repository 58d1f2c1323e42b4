/**
 * The selector: an order-preserving filter of a transaction sequence by an
 * optional closed time range and an optional kind.
 */
module Filter {
  import opened Wrappers
  import opened Model
  import Sequences

  /** The kinds a requested kind stands for: a withdrawal request also covers full withdrawals. */
  predicate InFamily(k: TransactionType, kind: TransactionType) {
    k == kind || (kind == Withdrawal && k == FullWithdrawal)
  }

  /** `isTransactionOfType`. */
  predicate IsOfType(t: Transaction, kind: TransactionType) {
    if kind == Withdrawal then t.kind == Withdrawal || t.kind == FullWithdrawal
    else t.kind == kind
  }

  /** `isTransactionInTimeRange`: "equal or after" the start and "equal or before" the end. */
  predicate InTimeRange(t: Transaction, start: Time, end: Time) {
    (t.date == start || t.date > start) && (t.date == end || t.date < end)
  }

  /** The stream filter on the time range. */
  function FilterByTimeRange(ts: seq<Transaction>, start: Time, end: Time): seq<Transaction>
  {
    if ts == [] then []
    else (if InTimeRange(ts[0], start, end) then [ts[0]] else []) + FilterByTimeRange(ts[1..], start, end)
  }

  /** The stream filter on the kind. */
  function FilterByType(ts: seq<Transaction>, kind: TransactionType): seq<Transaction>
  {
    if ts == [] then []
    else (if IsOfType(ts[0], kind) then [ts[0]] else []) + FilterByType(ts[1..], kind)
  }

  /** `filterTransactionsByTimeRangeAndType`: the range applies only when both bounds are given. */
  function FilterByTimeRangeAndType(ts: seq<Transaction>, start: Option<Time>, end: Option<Time>,
                                    kind: Option<TransactionType>): seq<Transaction>
  {
    var ranged := if start.Some? && end.Some? then FilterByTimeRange(ts, start.value, end.value) else ts;
    if kind.Some? then FilterByType(ranged, kind.value) else ranged
  }

  /** Every supplied criterion holds of `t`, stated without the filter's own predicates. */
  predicate Matches(t: Transaction, start: Option<Time>, end: Option<Time>, kind: Option<TransactionType>) {
    (start.Some? && end.Some? ==> start.value <= t.date <= end.value) &&
    (kind.Some? ==> InFamily(t.kind, kind.value))
  }

  /** Reference definition: one left-to-right pass keeping the matching entries. */
  function Selection(ts: seq<Transaction>, start: Option<Time>, end: Option<Time>,
                     kind: Option<TransactionType>): seq<Transaction>
  {
    if ts == [] then [] else Kept(ts[0], start, end, kind) + Selection(ts[1..], start, end, kind)
  }

  /** The one-entry part of the reference selection. */
  function Kept(t: Transaction, start: Option<Time>, end: Option<Time>, kind: Option<TransactionType>): seq<Transaction> {
    if Matches(t, start, end, kind) then [t] else []
  }

  /** `a` is `b` with some entries dropped and the rest kept in order. */
  predicate IsSubsequence(a: seq<Transaction>, b: seq<Transaction>)
    decreases |b|
  {
    if a == [] then true
    else if b == [] then false
    else if a[0] == b[0] then IsSubsequence(a[1..], b[1..])
    else IsSubsequence(a, b[1..])
  }

  lemma IsOfTypeFamily(t: Transaction, kind: TransactionType)
    ensures IsOfType(t, kind) <==> InFamily(t.kind, kind)
  {
  }

  lemma {:induction false} FilterByTimeRangeAppend(a: seq<Transaction>, b: seq<Transaction>, start: Time, end: Time)
    ensures FilterByTimeRange(a + b, start, end) == FilterByTimeRange(a, start, end) + FilterByTimeRange(b, start, end)
  {
    if a == [] {
      assert a + b == b;
    } else {
      Sequences.TailOfAppend(a, b);
      FilterByTimeRangeAppend(a[1..], b, start, end);
      Sequences.AppendAssociative(if InTimeRange(a[0], start, end) then [a[0]] else [],
                                  FilterByTimeRange(a[1..], start, end), FilterByTimeRange(b, start, end));
    }
  }

  lemma {:induction false} FilterByTypeAppend(a: seq<Transaction>, b: seq<Transaction>, kind: TransactionType)
    ensures FilterByType(a + b, kind) == FilterByType(a, kind) + FilterByType(b, kind)
  {
    if a == [] {
      assert a + b == b;
    } else {
      Sequences.TailOfAppend(a, b);
      FilterByTypeAppend(a[1..], b, kind);
      Sequences.AppendAssociative(if IsOfType(a[0], kind) then [a[0]] else [], FilterByType(a[1..], kind),
                                  FilterByType(b, kind));
    }
  }

  /** Filtering by kind alone is the reference selection without a range. */
  lemma {:induction false} FilterByTypeIsSelection(ts: seq<Transaction>, kind: TransactionType, start: Option<Time>,
                                                   end: Option<Time>)
    requires !(start.Some? && end.Some?)
    ensures FilterByType(ts, kind) == Selection(ts, start, end, Some(kind))
  {
    if ts != [] {
      IsOfTypeFamily(ts[0], kind);
      FilterByTypeIsSelection(ts[1..], kind, start, end);
    }
  }

  /** Filtering by range and then by kind is the one-pass reference selection. */
  lemma {:induction false} RangeThenTypeIsSelection(ts: seq<Transaction>, start: Time, end: Time,
                                                    kind: Option<TransactionType>)
    ensures (if kind.Some? then FilterByType(FilterByTimeRange(ts, start, end), kind.value)
             else FilterByTimeRange(ts, start, end)) == Selection(ts, Some(start), Some(end), kind)
  {
    if ts != [] {
      var head := if InTimeRange(ts[0], start, end) then [ts[0]] else [];
      var rest := FilterByTimeRange(ts[1..], start, end);
      RangeThenTypeIsSelection(ts[1..], start, end, kind);
      if kind.Some? {
        FilterByTypeAppend(head, rest, kind.value);
        IsOfTypeFamily(ts[0], kind.value);
      }
    }
  }

  lemma {:induction false} UnfilteredIsSelection(ts: seq<Transaction>, start: Option<Time>, end: Option<Time>)
    requires !(start.Some? && end.Some?)
    ensures ts == Selection(ts, start, end, None)
  {
    if ts != [] {
      UnfilteredIsSelection(ts[1..], start, end);
    }
  }

  /** The filter computes the reference selection, for every combination of criteria. */
  lemma FilterIsSelection(ts: seq<Transaction>, start: Option<Time>, end: Option<Time>, kind: Option<TransactionType>)
    ensures FilterByTimeRangeAndType(ts, start, end, kind) == Selection(ts, start, end, kind)
  {
    if start.Some? && end.Some? {
      RangeThenTypeIsSelection(ts, start.value, end.value, kind);
    } else if kind.Some? {
      FilterByTypeIsSelection(ts, kind.value, start, end);
    } else {
      UnfilteredIsSelection(ts, start, end);
    }
  }

  /** With no bounds and no kind the input comes back unchanged. */
  lemma FilterWithoutCriteria(ts: seq<Transaction>)
    ensures FilterByTimeRangeAndType(ts, None, None, None) == ts
  {
  }

  /** A single bound is ignored: the range applies only when both are given. */
  lemma FilterIgnoresLoneBound(ts: seq<Transaction>, start: Option<Time>, end: Option<Time>,
                               kind: Option<TransactionType>)
    requires !(start.Some? && end.Some?)
    ensures FilterByTimeRangeAndType(ts, start, end, kind) == FilterByTimeRangeAndType(ts, None, None, kind)
  {
  }

  /** Single entries: an entry is kept exactly when it matches every supplied criterion. */
  lemma FilterSingleton(t: Transaction, start: Option<Time>, end: Option<Time>, kind: Option<TransactionType>)
    ensures FilterByTimeRangeAndType([t], start, end, kind) == if Matches(t, start, end, kind) then [t] else []
  {
    FilterIsSelection([t], start, end, kind);
    assert [t][1..] == [];
  }

  /** Order preservation: filtering distributes over concatenation. */
  lemma FilterAppend(a: seq<Transaction>, b: seq<Transaction>, start: Option<Time>, end: Option<Time>,
                     kind: Option<TransactionType>)
    ensures FilterByTimeRangeAndType(a + b, start, end, kind)
         == FilterByTimeRangeAndType(a, start, end, kind) + FilterByTimeRangeAndType(b, start, end, kind)
  {
    var ra, rb := a, b;
    if start.Some? && end.Some? {
      FilterByTimeRangeAppend(a, b, start.value, end.value);
      ra, rb := FilterByTimeRange(a, start.value, end.value), FilterByTimeRange(b, start.value, end.value);
    }
    if kind.Some? {
      FilterByTypeAppend(ra, rb, kind.value);
    }
  }

  lemma {:induction false} SelectionMembership(ts: seq<Transaction>, start: Option<Time>, end: Option<Time>,
                                               kind: Option<TransactionType>, t: Transaction)
    ensures t in Selection(ts, start, end, kind) <==> t in ts && Matches(t, start, end, kind)
  {
    if ts != [] {
      SelectionMembership(ts[1..], start, end, kind, t);
      assert ts == [ts[0]] + ts[1..];
    }
  }

  /** Soundness and completeness: the result holds exactly the matching input entries. */
  lemma FilterMembership(ts: seq<Transaction>, start: Option<Time>, end: Option<Time>,
                         kind: Option<TransactionType>, t: Transaction)
    ensures t in FilterByTimeRangeAndType(ts, start, end, kind) <==> t in ts && Matches(t, start, end, kind)
  {
    FilterIsSelection(ts, start, end, kind);
    SelectionMembership(ts, start, end, kind, t);
  }

  lemma {:induction false} SelectionIsSubsequence(ts: seq<Transaction>, start: Option<Time>, end: Option<Time>,
                                                  kind: Option<TransactionType>)
    ensures IsSubsequence(Selection(ts, start, end, kind), ts)
  {
    if ts != [] {
      var rest := Selection(ts[1..], start, end, kind);
      SelectionIsSubsequence(ts[1..], start, end, kind);
      if Matches(ts[0], start, end, kind) {
        assert Selection(ts, start, end, kind) == [ts[0]] + rest;
        assert ([ts[0]] + rest)[1..] == rest;
      } else {
        assert Selection(ts, start, end, kind) == rest;
        SubsequenceOfTail(rest, ts);
      }
    }
  }

  lemma {:induction false} SubsequenceOfTail(a: seq<Transaction>, b: seq<Transaction>)
    requires b != [] && IsSubsequence(a, b[1..])
    ensures IsSubsequence(a, b)
    decreases |b|, 0
  {
    if a != [] && a[0] == b[0] {
      // the greedy match takes b[0]; a[1..] is still a subsequence of b[1..]
      SubsequenceDropHead(a, b[1..]);
    }
  }

  lemma {:induction false} SubsequenceDropHead(a: seq<Transaction>, b: seq<Transaction>)
    requires a != [] && IsSubsequence(a, b)
    ensures IsSubsequence(a[1..], b)
    decreases |b|, 1
  {
    if a[0] != b[0] {
      SubsequenceDropHead(a, b[1..]);
      SubsequenceOfTail(a[1..], b);
    } else {
      SubsequenceOfTail(a[1..], b);
    }
  }

  /** The result is the input with some entries dropped, in the input's order. */
  lemma FilterIsSubsequence(ts: seq<Transaction>, start: Option<Time>, end: Option<Time>,
                            kind: Option<TransactionType>)
    ensures IsSubsequence(FilterByTimeRangeAndType(ts, start, end, kind), ts)
  {
    FilterIsSelection(ts, start, end, kind);
    SelectionIsSubsequence(ts, start, end, kind);
  }

  lemma {:induction false} SelectionIdempotent(ts: seq<Transaction>, start: Option<Time>, end: Option<Time>,
                                               kind: Option<TransactionType>)
    ensures Selection(Selection(ts, start, end, kind), start, end, kind) == Selection(ts, start, end, kind)
  {
    if ts != [] {
      var rest := Selection(ts[1..], start, end, kind);
      SelectionIdempotent(ts[1..], start, end, kind);
      if Matches(ts[0], start, end, kind) {
        assert Selection(ts, start, end, kind) == [ts[0]] + rest;
        assert ([ts[0]] + rest)[1..] == rest;
      } else {
        assert Selection(ts, start, end, kind) == rest;
      }
    }
  }

  /** Filtering the filter's own output with the same criteria changes nothing. */
  lemma FilterIdempotent(ts: seq<Transaction>, start: Option<Time>, end: Option<Time>,
                         kind: Option<TransactionType>)
    ensures FilterByTimeRangeAndType(FilterByTimeRangeAndType(ts, start, end, kind), start, end, kind)
         == FilterByTimeRangeAndType(ts, start, end, kind)
  {
    FilterIsSelection(ts, start, end, kind);
    FilterIsSelection(Selection(ts, start, end, kind), start, end, kind);
    SelectionIdempotent(ts, start, end, kind);
  }

  /** The type filter on its own, applied twice, keeps what it kept the first time. */
  lemma FilterByTypeIdempotent(ts: seq<Transaction>, kind: TransactionType)
    ensures FilterByType(FilterByType(ts, kind), kind) == FilterByType(ts, kind)
  {
    FilterIdempotent(ts, None, None, Some(kind));
  }

  /** When nothing matches the result is the empty sequence. */
  lemma FilterNothingMatches(ts: seq<Transaction>, start: Option<Time>, end: Option<Time>,
                             kind: Option<TransactionType>)
    requires forall t | t in ts :: !Matches(t, start, end, kind)
    ensures FilterByTimeRangeAndType(ts, start, end, kind) == []
  {
    var r := FilterByTimeRangeAndType(ts, start, end, kind);
    if r != [] {
      FilterMembership(ts, start, end, kind, r[0]);
    }
  }

  /** A withdrawal request returns both the plain and the full withdrawals, and nothing else. */
  lemma WithdrawalFamily(ts: seq<Transaction>, t: Transaction)
    ensures t in FilterByTimeRangeAndType(ts, None, None, Some(Withdrawal))
        <==> t in ts && (t.kind == Withdrawal || t.kind == FullWithdrawal)
  {
    FilterMembership(ts, None, None, Some(Withdrawal), t);
  }

  /** A deposit or full-withdrawal request returns exactly that kind. */
  lemma ExactKind(ts: seq<Transaction>, kind: TransactionType, t: Transaction)
    requires kind != Withdrawal
    ensures t in FilterByTimeRangeAndType(ts, None, None, Some(kind)) <==> t in ts && t.kind == kind
  {
    FilterMembership(ts, None, None, Some(kind), t);
  }
}
