/** Fill and position accounting: daemon.py's `_update_protected_size`. */
module Fills {
  import opened Prelude
  import opened Models
  import opened Trailing
  import opened Json
  import opened DaemonState

  predicate IsMatch(rule: Rule, fill: Fill)
    requires Attached(rule)
  {
    fill.coin == rule.coin && fill.side == rule.side && fill.orderId == rule.attachedOrderId.value
  }

  /** The key under which a fill is remembered across ticks and rules. */
  function FillKey(fill: Fill): string {
    if fill.fillId.Some? && fill.fillId.value != "" then fill.fillId.value
    else fill.orderId + ":" + fill.coin + ":" + SideName(fill.side) + ":" + fill.sizeText
  }

  function OrderKey(rule: Rule): string
    requires Attached(rule)
  {
    rule.id + ":" + rule.attachedOrderId.value
  }

  predicate Seen(seen: map<string, Json>, key: string) {
    key in seen && Truthy(seen[key])
  }

  /** Sizes of the fills that belong to the rule's opening order. */
  function MatchingSizes(rule: Rule, fills: seq<Fill>): seq<real>
    requires Attached(rule)
  {
    if fills == [] then []
    else
      var before, last := MatchingSizes(rule, fills[..|fills| - 1]), fills[|fills| - 1];
      if IsMatch(rule, last) then before + [last.size] else before
  }

  function MatchedTotal(rule: Rule, fills: seq<Fill>): real
    requires Attached(rule)
  {
    Sum(MatchingSizes(rule, fills))
  }

  /** The incremental side of the loop: the running size and the seen map. */
  datatype Tally = Tally(protectedSize: real, seen: map<string, Json>)

  function TallyFill(rule: Rule, tally: Tally, fill: Fill): Tally
    requires Attached(rule)
  {
    if !IsMatch(rule, fill) || Seen(tally.seen, FillKey(fill)) then tally
    else Tally(
      if fill.size <= 0.0 then tally.protectedSize else Min(rule.size, tally.protectedSize + fill.size),
      tally.seen[FillKey(fill) := JString(rule.id)])
  }

  function TallyFills(rule: Rule, tally: Tally, fills: seq<Fill>): Tally
    requires Attached(rule)
  {
    if fills == [] then tally
    else TallyFill(rule, TallyFills(rule, tally, fills[..|fills| - 1]), fills[|fills| - 1])
  }

  function FirstPosition(rule: Rule, positions: seq<Position>): Option<Position> {
    if positions == [] then None
    else if positions[0].coin == rule.coin && positions[0].side == rule.side then Some(positions[0])
    else FirstPosition(rule, positions[1..])
  }

  /** What accounting reads and writes: one rule's protected size, and the two
      maps that all rules share. */
  datatype Books = Books(size: real, seen: map<string, Json>, filled: map<string, real>)

  /** The high-water mark stored for the rule's order. */
  function HighWater(filled: map<string, real>, rule: Rule): real {
    if Attached(rule) && OrderKey(rule) in filled then filled[OrderKey(rule)] else 0.0
  }

  function Booked(rule: Rule, books: Books, account: Account): Books {
    if Attached(rule) then
      var tally := TallyFills(rule, Tally(books.size, books.seen), account.fills);
      var total := MatchedTotal(rule, account.fills);
      if total > 0.0 then
        var high := Max(HighWater(books.filled, rule), total);
        Books(Min(rule.size, high), tally.seen, books.filled[OrderKey(rule) := high])
      else Books(tally.protectedSize, tally.seen, books.filled)
    else
      match FirstPosition(rule, account.positions)
      case Some(position) => books.(size := Min(rule.size, position.size))
      case None => books.(size := 0.0)
  }

  function BooksOf(s: State, id: string): Books
    requires id in s.runtimes
  {
    Books(s.runtimes[id].protectedSize, s.seenFills, s.filledSize)
  }

  /** The state after `_update_protected_size` for one rule. */
  function UpdateProtected(s: State, id: string, account: Account): State
    requires id in s.runtimes
  {
    var books := Booked(s.runtimes[id].rule, BooksOf(s, id), account);
    s.(runtimes := s.runtimes[id := s.runtimes[id].(protectedSize := books.size)],
       seenFills := books.seen, filledSize := books.filled)
  }

  // ---------------------------------------------------------------------
  // The one-line specification
  // ---------------------------------------------------------------------

  /** The protected size as the documentation describes it: the matching
      position, or the most the opening order was ever seen filled, capped at
      the configured close size. */
  function ProtectedSpec(rule: Rule, before: real, high: real, account: Account): real {
    if !Attached(rule) then
      match FirstPosition(rule, account.positions)
      case Some(position) => Min(rule.size, position.size)
      case None => 0.0
    else if MatchedTotal(rule, account.fills) > 0.0 then
      Min(rule.size, Max(high, MatchedTotal(rule, account.fills)))
    else before
  }

  function HighWaterSpec(rule: Rule, high: real, account: Account): real {
    if Attached(rule) && MatchedTotal(rule, account.fills) > 0.0
    then Max(high, MatchedTotal(rule, account.fills)) else high
  }

  predicate FillsNonNegative(fills: seq<Fill>) {
    forall i :: 0 <= i < |fills| ==> fills[i].size >= 0.0
  }

  /** A matching fill with a positive size whose key is neither remembered nor
      carried by an earlier matching fill of the same list. */
  predicate CountsAt(rule: Rule, seen: map<string, Json>, fills: seq<Fill>, i: nat)
    requires Attached(rule) && i < |fills|
  {
    && IsMatch(rule, fills[i]) && fills[i].size > 0.0
    && !Seen(seen, FillKey(fills[i]))
    && forall j :: 0 <= j < i && IsMatch(rule, fills[j]) ==> FillKey(fills[j]) != FillKey(fills[i])
  }

  predicate SomethingCounts(rule: Rule, seen: map<string, Json>, fills: seq<Fill>)
    requires Attached(rule)
  {
    exists i :: 0 <= i < |fills| && CountsAt(rule, seen, fills, i)
  }

  /** After the loop a key is remembered if it was before or if some matching
      fill carries it; nothing else is forgotten or added. */
  lemma {:induction false} SeenAfterLoop(rule: Rule, tally: Tally, fills: seq<Fill>, key: string)
    requires Attached(rule) && rule.id != ""
    ensures Seen(TallyFills(rule, tally, fills).seen, key) <==> Seen(tally.seen, key) || Carried(rule, fills, key)
    ensures key in tally.seen ==> key in TallyFills(rule, tally, fills).seen
  {
    if fills != [] {
      var n := |fills| - 1;
      SeenAfterLoop(rule, tally, fills[..n], key);
      SeenAfterLoop(rule, tally, fills[..n], FillKey(fills[n]));
      CarriedSnoc(rule, fills, key);
    }
  }

  lemma CarriedSnoc(rule: Rule, fills: seq<Fill>, key: string)
    requires Attached(rule) && fills != []
    ensures var n := |fills| - 1;
      Carried(rule, fills, key)
      <==> Carried(rule, fills[..n], key) || (IsMatch(rule, fills[n]) && FillKey(fills[n]) == key)
  {
    var n := |fills| - 1;
    assert forall i :: 0 <= i < n ==> fills[..n][i] == fills[i];
  }

  lemma CountsPrefix(rule: Rule, seen: map<string, Json>, fills: seq<Fill>, n: nat)
    requires Attached(rule) && n <= |fills|
    ensures forall i :: 0 <= i < n ==> (CountsAt(rule, seen, fills[..n], i) <==> CountsAt(rule, seen, fills, i))
  {
  }

  lemma SomethingCountsSnoc(rule: Rule, seen: map<string, Json>, fills: seq<Fill>)
    requires Attached(rule) && fills != []
    ensures SomethingCounts(rule, seen, fills)
       <==> SomethingCounts(rule, seen, fills[..|fills| - 1]) || CountsAt(rule, seen, fills, |fills| - 1)
  {
    CountsPrefix(rule, seen, fills, |fills| - 1);
  }

  /** Some matching fill of the list carries the key. */
  predicate Carried(rule: Rule, fills: seq<Fill>, key: string)
    requires Attached(rule)
  {
    exists i :: 0 <= i < |fills| && IsMatch(rule, fills[i]) && FillKey(fills[i]) == key
  }

  lemma LastCountsUnlessCarried(rule: Rule, seen: map<string, Json>, fills: seq<Fill>)
    requires Attached(rule) && fills != []
    ensures var n := |fills| - 1;
      CountsAt(rule, seen, fills, n) <==>
        && IsMatch(rule, fills[n]) && fills[n].size > 0.0
        && !Seen(seen, FillKey(fills[n])) && !Carried(rule, fills[..n], FillKey(fills[n]))
  {
    assert forall i :: 0 <= i < |fills| - 1 ==> fills[..|fills| - 1][i] == fills[i];
  }

  /** The last fill counts exactly when the loop reaches it with its key unseen. */
  lemma LastCountsExactlyWhen(rule: Rule, tally: Tally, fills: seq<Fill>)
    requires Attached(rule) && rule.id != "" && fills != []
    ensures var n := |fills| - 1;
      CountsAt(rule, tally.seen, fills, n) <==>
        && IsMatch(rule, fills[n]) && fills[n].size > 0.0
        && !Seen(TallyFills(rule, tally, fills[..n]).seen, FillKey(fills[n]))
  {
    var n := |fills| - 1;
    SeenAfterLoop(rule, tally, fills[..n], FillKey(fills[n]));
    LastCountsUnlessCarried(rule, tally.seen, fills);
  }

  /** The de-duplicating loop alone grows the size exactly when there is room
      and something counts; it never shrinks it or passes the cap. */
  lemma {:induction false} LoopGrowsExactlyWhen(rule: Rule, tally: Tally, fills: seq<Fill>)
    requires Attached(rule) && rule.id != "" && tally.protectedSize <= rule.size
    ensures tally.protectedSize <= TallyFills(rule, tally, fills).protectedSize <= rule.size
    ensures TallyFills(rule, tally, fills).protectedSize == tally.protectedSize
       <==> tally.protectedSize == rule.size || !SomethingCounts(rule, tally.seen, fills)
  {
    if fills != [] {
      var n := |fills| - 1;
      LoopGrowsExactlyWhen(rule, tally, fills[..n]);
      SomethingCountsSnoc(rule, tally.seen, fills);
      LastCountsExactlyWhen(rule, tally, fills);
    }
  }

  /** Sizes of the fills that count. */
  function CountedSizes(rule: Rule, seen: map<string, Json>, fills: seq<Fill>): seq<real>
    requires Attached(rule)
  {
    if fills == [] then []
    else
      var n := |fills| - 1;
      var before := CountedSizes(rule, seen, fills[..n]);
      if CountsAt(rule, seen, fills, n) then before + [fills[n].size] else before
  }

  /** One fill of the loop: a counting one is added, any other is not. */
  lemma TallyFillAdds(rule: Rule, tally: Tally, fill: Fill, sum: real, counts: bool)
    requires Attached(rule) && tally.protectedSize == Min(rule.size, sum)
    requires counts <==> IsMatch(rule, fill) && fill.size > 0.0 && !Seen(tally.seen, FillKey(fill))
    ensures TallyFill(rule, tally, fill).protectedSize == Min(rule.size, if counts then sum + fill.size else sum)
  {
  }

  lemma CountedSnoc(rule: Rule, seen: map<string, Json>, fills: seq<Fill>)
    requires Attached(rule) && fills != []
    ensures var n := |fills| - 1;
      Sum(CountedSizes(rule, seen, fills))
      == Sum(CountedSizes(rule, seen, fills[..n])) + if CountsAt(rule, seen, fills, n) then fills[n].size else 0.0
  {
    SumSnoc(CountedSizes(rule, seen, fills[..|fills| - 1]), fills[|fills| - 1].size);
  }

  /** What the loop adds is exactly what counts, capped. */
  lemma {:induction false} LoopAddsWhatCounts(rule: Rule, tally: Tally, fills: seq<Fill>)
    requires Attached(rule) && rule.id != "" && tally.protectedSize <= rule.size
    ensures TallyFills(rule, tally, fills).protectedSize
         == Min(rule.size, tally.protectedSize + Sum(CountedSizes(rule, tally.seen, fills)))
  {
    if fills != [] {
      var n := |fills| - 1;
      LoopAddsWhatCounts(rule, tally, fills[..n]);
      LastCountsExactlyWhen(rule, tally, fills);
      CountedSnoc(rule, tally.seen, fills);
      TallyFillAdds(rule, TallyFills(rule, tally, fills[..n]), fills[n],
                    tally.protectedSize + Sum(CountedSizes(rule, tally.seen, fills[..n])),
                    CountsAt(rule, tally.seen, fills, n));
    }
  }

  lemma {:induction false} NonNegativeTotal(rule: Rule, fills: seq<Fill>)
    requires Attached(rule) && FillsNonNegative(fills)
    ensures MatchedTotal(rule, fills) >= 0.0
    ensures forall i :: 0 <= i < |fills| && IsMatch(rule, fills[i]) ==> fills[i].size <= MatchedTotal(rule, fills)
  {
    if fills != [] {
      var n := |fills| - 1;
      NonNegativeTotal(rule, fills[..n]);
      SumSnoc(MatchingSizes(rule, fills[..n]), fills[n].size);
      assert forall i :: 0 <= i < n ==> fills[..n][i] == fills[i];
    }
  }

  /** The condition under which the loop's own size survives the tick. */
  predicate LoopSizeShows(rule: Rule, before: real, seen: map<string, Json>, account: Account) {
    && Attached(rule)
    && MatchedTotal(rule, account.fills) <= 0.0
    && before < rule.size
    && SomethingCounts(rule, seen, account.fills)
  }

  /** For any fills, negative ones included, the accounting meets its one-line
      specification exactly unless matching fills cancel out while one of them
      still counts. The high-water mark always meets its own. */
  lemma AccountingExactlyWhen(rule: Rule, books: Books, account: Account)
    requires rule.id != "" && books.size <= rule.size
    ensures Booked(rule, books, account).size == ProtectedSpec(rule, books.size, HighWater(books.filled, rule), account)
       <==> !LoopSizeShows(rule, books.size, books.seen, account)
    ensures LoopSizeShows(rule, books.size, books.seen, account) ==>
      Booked(rule, books, account).size
      == Min(rule.size, books.size + Sum(CountedSizes(rule, books.seen, account.fills)))
    ensures HighWater(Booked(rule, books, account).filled, rule)
         == HighWaterSpec(rule, HighWater(books.filled, rule), account)
  {
    if Attached(rule) {
      LoopAddsWhatCounts(rule, Tally(books.size, books.seen), account.fills);
      LoopGrowsExactlyWhen(rule, Tally(books.size, books.seen), account.fills);
    }
  }

  /** Without that condition rules do interfere: two rules on one opening order
      whose fills cancel out, and only the rule handled first gets a size. */
  lemma CancellingFillsInterfere(a: Rule, b: Rule, gain: Fill, loss: Fill, filled: map<string, real>)
    requires Attached(a) && a.id != "" && b == a.(id := b.id) && b.id != "" && a.size > 0.0
    requires IsMatch(a, gain) && gain.size > 0.0 && loss == gain.(size := -gain.size, fillId := loss.fillId)
    ensures var account, empty := Account([], [gain, loss]), Books(0.0, map[], filled);
      && Booked(b, empty, account).size == Min(a.size, gain.size) > 0.0
      && Booked(b, empty.(seen := Booked(a, empty, account).seen), account).size == 0.0
  {
    var account := Account([], [gain, loss]);
    assert account.fills[..1] == [gain] && [gain][..0] == [];
    assert MatchingSizes(b, [gain]) == [gain.size];
    assert MatchingSizes(b, account.fills) == [gain.size, -gain.size];
    assert MatchedTotal(b, account.fills) == 0.0 == MatchedTotal(a, account.fills) by {
      assert MatchingSizes(a, [gain]) == [gain.size];
      SumSnoc([], gain.size);
      SumSnoc([gain.size], -gain.size);
    }
    assert TallyFills(b, Tally(0.0, map[]), [gain]).protectedSize == Min(a.size, gain.size);
    var seen := TallyFills(a, Tally(0.0, map[]), account.fills).seen;
    SeenAfterLoop(a, Tally(0.0, map[]), account.fills, FillKey(gain));
    SeenAfterLoop(a, Tally(0.0, map[]), account.fills, FillKey(loss));
    assert account.fills[0] == gain && account.fills[1] == loss;
    assert TallyFills(b, Tally(0.0, seen), [gain]) == Tally(0.0, seen);
  }

  /** With the non-negative sizes that exchanges report, it always does. */
  lemma AccountingMeetsSpec(rule: Rule, books: Books, account: Account)
    requires rule.id != "" && books.size <= rule.size && FillsNonNegative(account.fills)
    ensures Booked(rule, books, account).size == ProtectedSpec(rule, books.size, HighWater(books.filled, rule), account)
  {
    AccountingExactlyWhen(rule, books, account);
    if Attached(rule) {
      NonNegativeTotal(rule, account.fills);
    }
  }

  /** Only the rule's own high-water mark moves. */
  lemma OtherMarksStay(rule: Rule, books: Books, account: Account, other: Rule)
    requires NoColon(rule.id) && NoColon(other.id) && rule.id != other.id
    ensures HighWater(Booked(rule, books, account).filled, other) == HighWater(books.filled, other)
  {
    if Attached(rule) && Attached(other) {
      OrderKeysDiffer(rule, other);
    }
  }

  /** Sizes never exceed the configured close size, and what an unattached rule
      protects is covered by a matching position of the same snapshot; with
      non-negative positions sizes never become negative either. */
  lemma AccountingStaysInRange(rule: Rule, books: Books, account: Account)
    requires rule.id != "" && rule.size > 0.0 && books.size <= rule.size
    ensures Booked(rule, books, account).size <= rule.size
    ensures !Attached(rule) && Booked(rule, books, account).size > 0.0 ==>
      Covered(rule, Booked(rule, books, account).size, account.positions)
    ensures (forall p :: p in account.positions ==> p.size >= 0.0) && books.size >= 0.0 ==>
      Booked(rule, books, account).size >= 0.0
  {
    if Attached(rule) {
      LoopGrowsExactlyWhen(rule, Tally(books.size, books.seen), account.fills);
    } else {
      FirstPositionIsOne(rule, account.positions);
    }
  }

  /** Some position for the rule's coin and side is at least `size`. */
  predicate Covered(rule: Rule, size: real, positions: seq<Position>) {
    exists p :: p in positions && p.coin == rule.coin && p.side == rule.side && size <= p.size
  }

  lemma {:induction false} FirstPositionIsOne(rule: Rule, positions: seq<Position>)
    ensures var p := FirstPosition(rule, positions);
      && (p.Some? ==> exists i :: FirstFor(rule, positions, i) && positions[i] == p.value)
      && (p.None? ==> forall q :: q in positions ==> !IsFor(rule, q))
  {
    if positions != [] {
      var rest := positions[1..];
      FirstPositionIsOne(rule, rest);
      assert positions == [positions[0]] + rest;
      if IsFor(rule, positions[0]) {
        assert FirstFor(rule, positions, 0);
      } else if FirstPosition(rule, rest).Some? {
        var i :| FirstFor(rule, rest, i) && rest[i] == FirstPosition(rule, rest).value;
        assert FirstFor(rule, positions, i + 1);
      }
    }
  }

  predicate IsFor(rule: Rule, position: Position) {
    position.coin == rule.coin && position.side == rule.side
  }

  predicate FirstFor(rule: Rule, positions: seq<Position>, i: int) {
    0 <= i < |positions| && IsFor(rule, positions[i]) && forall j :: 0 <= j < i ==> !IsFor(rule, positions[j])
  }

  // ---------------------------------------------------------------------
  // Order keys and the fill history
  // ---------------------------------------------------------------------

  predicate NoColon(id: string) {
    ':' !in id
  }

  /** Two rules never share a high-water mark: ids carry no colon. */
  lemma OrderKeysDiffer(a: Rule, b: Rule)
    requires Attached(a) && Attached(b) && NoColon(a.id) && NoColon(b.id)
    ensures OrderKey(a) == OrderKey(b) <==> a.id == b.id && a.attachedOrderId == b.attachedOrderId
  {
    var x, y := OrderKey(a), OrderKey(b);
    assert x[|a.id|] == ':' && y[|b.id|] == ':';
    assert forall i :: 0 <= i < |a.id| ==> x[i] == a.id[i] && x[i] != ':';
    assert forall i :: 0 <= i < |b.id| ==> y[i] == b.id[i] && y[i] != ':';
    if x == y {
      assert |a.id| == |b.id|;
      assert a.id == x[..|a.id|] == y[..|b.id|] == b.id;
      assert x[|a.id| + 1..] == a.attachedOrderId.value;
      assert y[|b.id| + 1..] == b.attachedOrderId.value;
    }
  }

  lemma TotalInsert(rule: Rule, a: seq<Fill>, fill: Fill, b: seq<Fill>)
    requires Attached(rule)
    ensures MatchedTotal(rule, a + [fill] + b)
         == MatchedTotal(rule, a + b) + if IsMatch(rule, fill) then fill.size else 0.0
  {
    TotalSnoc(rule, a, fill);
    TotalAppend(rule, a + [fill], b);
    TotalAppend(rule, a, b);
  }

  /** Taking the same fill out of two permuted lists leaves permuted lists. */
  lemma LastIsInOther(a: seq<Fill>, b: seq<Fill>) returns (k: nat)
    requires a != [] && multiset(a) == multiset(b)
    ensures k < |b| && a == a[..|a| - 1] + [a[|a| - 1]] && b == b[..k] + [a[|a| - 1]] + b[k + 1..]
    ensures multiset(a[..|a| - 1]) == multiset(b[..k] + b[k + 1..])
  {
    var last := a[|a| - 1];
    assert last in multiset(a);
    assert last in b;
    k :| 0 <= k < |b| && b[k] == last;
    assert a == a[..|a| - 1] + [last];
    assert b == b[..k] + [last] + b[k + 1..];
    assert multiset(b) == multiset(b[..k] + b[k + 1..]) + multiset{last};
    assert multiset(a[..|a| - 1]) == multiset(a) - multiset{last} == multiset(b[..k] + b[k + 1..]);
  }

  /** Totals depend on which fills are reported, not on their order. */
  lemma {:induction false} TotalIgnoresOrder(rule: Rule, a: seq<Fill>, b: seq<Fill>)
    requires Attached(rule) && multiset(a) == multiset(b)
    ensures MatchedTotal(rule, a) == MatchedTotal(rule, b)
  {
    if a != [] {
      var n := |a| - 1;
      var k := LastIsInOther(a, b);
      TotalIgnoresOrder(rule, a[..n], b[..k] + b[k + 1..]);
      TotalSnoc(rule, a[..n], a[n]);
      TotalInsert(rule, b[..k], a[n], b[k + 1..]);
    } else {
      assert |multiset(a)| == 0 && |multiset(b)| == |b|;
    }
  }

  lemma TotalSnoc(rule: Rule, fills: seq<Fill>, fill: Fill)
    requires Attached(rule)
    ensures MatchedTotal(rule, fills + [fill])
         == MatchedTotal(rule, fills) + if IsMatch(rule, fill) then fill.size else 0.0
  {
    assert (fills + [fill])[..|fills|] == fills;
    SumSnoc(MatchingSizes(rule, fills), fill.size);
  }

  lemma {:induction false} TotalAppend(rule: Rule, a: seq<Fill>, b: seq<Fill>)
    requires Attached(rule)
    ensures MatchedTotal(rule, a + b) == MatchedTotal(rule, a) + MatchedTotal(rule, b)
  {
    if b == [] {
      assert a + b == a;
    } else {
      var n := |b| - 1;
      TotalAppend(rule, a, b[..n]);
      TotalSnoc(rule, a + b[..n], b[n]);
      TotalSnoc(rule, b[..n], b[n]);
      assert a + b == a + b[..n] + [b[n]] && b == b[..n] + [b[n]];
    }
  }

  /** A report that lacks some fills of another totals no more. */
  lemma TruncationTotalsLess(rule: Rule, kept: seq<Fill>, dropped: seq<Fill>, all: seq<Fill>)
    requires Attached(rule) && multiset(kept + dropped) == multiset(all) && FillsNonNegative(dropped)
    ensures MatchedTotal(rule, kept) <= MatchedTotal(rule, all)
  {
    TotalIgnoresOrder(rule, kept + dropped, all);
    TotalAppend(rule, kept, dropped);
    NonNegativeTotal(rule, dropped);
  }

  /** The books after sizing one rule by each snapshot of a history. */
  function BookedAll(rule: Rule, books: Books, history: seq<Account>): Books {
    if history == [] then books
    else Booked(rule, BookedAll(rule, books, history[..|history| - 1]), history[|history| - 1])
  }

  /** The size is the high-water mark, capped: so it starts, at zero. */
  predicate SizedByMark(rule: Rule, size: real, high: real) {
    high >= 0.0 && size == Min(rule.size, high)
  }

  /** `high` is the largest of `before` and all totals of the history. */
  predicate LargestTotal(rule: Rule, before: real, high: real, history: seq<Account>)
    requires Attached(rule)
  {
    && before <= high
    && (forall i :: 0 <= i < |history| ==> MatchedTotal(rule, history[i].fills) <= high)
    && (high == before || exists i :: 0 <= i < |history| && MatchedTotal(rule, history[i].fills) == high)
  }

  lemma LargestTotalSnoc(rule: Rule, before: real, high: real, history: seq<Account>, account: Account)
    requires Attached(rule) && before >= 0.0 && LargestTotal(rule, before, high, history)
    ensures LargestTotal(rule, before, HighWaterSpec(rule, high, account), history + [account])
  {
    var all := history + [account];
    assert all[|history|] == account && forall i :: 0 <= i < |history| ==> all[i] == history[i];
    var after := HighWaterSpec(rule, high, account);
    if after != high {
      assert MatchedTotal(rule, all[|history|].fills) == after;
    } else if high != before {
      var i :| 0 <= i < |history| && MatchedTotal(rule, history[i].fills) == high;
      assert MatchedTotal(rule, all[i].fills) == after;
    }
  }

  /** Over any history the accounting loop leaves as high-water mark the largest
      total ever reported, and protects that, capped. */
  lemma {:induction false} HighWaterIsRunningMaximum(rule: Rule, books: Books, history: seq<Account>)
    requires Attached(rule) && rule.id != "" && rule.size > 0.0
    requires SizedByMark(rule, books.size, HighWater(books.filled, rule))
    requires forall i :: 0 <= i < |history| ==> FillsNonNegative(history[i].fills)
    ensures var after := BookedAll(rule, books, history);
      var high := HighWater(after.filled, rule);
      && LargestTotal(rule, HighWater(books.filled, rule), high, history)
      && SizedByMark(rule, after.size, high)
  {
    if history != [] {
      var n := |history| - 1;
      HighWaterIsRunningMaximum(rule, books, history[..n]);
      var before := BookedAll(rule, books, history[..n]);
      AccountingExactlyWhen(rule, before, history[n]);
      AccountingMeetsSpec(rule, before, history[n]);
      assert history == history[..n] + [history[n]];
      LargestTotalSnoc(rule, HighWater(books.filled, rule), HighWater(before.filled, rule), history[..n], history[n]);
    }
  }

  /** The fills of a truncated report are among those of the full one. */
  lemma KeptFillsNonNegative(kept: seq<Fill>, dropped: seq<Fill>, all: seq<Fill>)
    requires multiset(kept + dropped) == multiset(all) && FillsNonNegative(all)
    ensures FillsNonNegative(kept) && FillsNonNegative(dropped)
  {
    forall fill | fill in kept + dropped ensures fill.size >= 0.0 {
      assert fill in multiset(all);
      assert fill in all;
    }
    assert forall i :: 0 <= i < |kept| ==> kept[i] in kept + dropped;
    assert forall i :: 0 <= i < |dropped| ==> dropped[i] in kept + dropped;
  }

  /** A report that repeats, permutes or truncates one already taken in. */
  predicate IsStale(history: seq<Account>, kept: seq<Fill>, i: nat, dropped: seq<Fill>) {
    i < |history| && multiset(kept + dropped) == multiset(history[i].fills)
  }

  lemma StaleTotal(rule: Rule, before: real, high: real, history: seq<Account>, kept: seq<Fill>, i: nat,
                   dropped: seq<Fill>)
    requires Attached(rule) && LargestTotal(rule, before, high, history) && IsStale(history, kept, i, dropped)
    requires FillsNonNegative(history[i].fills)
    ensures FillsNonNegative(kept) && MatchedTotal(rule, kept) <= high
  {
    KeptFillsNonNegative(kept, dropped, history[i].fills);
    TruncationTotalsLess(rule, kept, dropped, history[i].fills);
  }

  /** Replaying, permuting or truncating an earlier report changes nothing. */
  lemma StaleReportsChangeNothing(rule: Rule, books: Books, history: seq<Account>, kept: seq<Fill>, i: nat,
                                  dropped: seq<Fill>, positions: seq<Position>)
    requires Attached(rule) && rule.id != "" && rule.size > 0.0
    requires SizedByMark(rule, books.size, HighWater(books.filled, rule))
    requires forall i :: 0 <= i < |history| ==> FillsNonNegative(history[i].fills)
    requires IsStale(history, kept, i, dropped)
    ensures var after := BookedAll(rule, books, history);
      var again := Booked(rule, after, Account(positions, kept));
      again.size == after.size && HighWater(again.filled, rule) == HighWater(after.filled, rule)
  {
    var after := BookedAll(rule, books, history);
    HighWaterIsRunningMaximum(rule, books, history);
    StaleTotal(rule, HighWater(books.filled, rule), HighWater(after.filled, rule), history, kept, i, dropped);
    AccountingExactlyWhen(rule, after, Account(positions, kept));
    AccountingMeetsSpec(rule, after, Account(positions, kept));
  }

  // ---------------------------------------------------------------------
  // Which fills and positions matter
  // ---------------------------------------------------------------------

  lemma {:induction false} TallySkips(rule: Rule, tally: Tally, a: seq<Fill>, fill: Fill, b: seq<Fill>)
    requires Attached(rule) && !IsMatch(rule, fill)
    ensures TallyFills(rule, tally, a + [fill] + b) == TallyFills(rule, tally, a + b)
  {
    if b == [] {
      assert a + [fill] + b == a + [fill] && a + b == a && (a + [fill])[..|a|] == a;
    } else {
      var n := |b| - 1;
      TallySkips(rule, tally, a, fill, b[..n]);
      var long, short := a + [fill] + b, a + b;
      assert long[..|long| - 1] == a + [fill] + b[..n] && long[|long| - 1] == b[n];
      assert short[..|short| - 1] == a + b[..n] && short[|short| - 1] == b[n];
    }
  }

  /** A fill of another coin, side or order can be left out of a report: size,
      high-water marks and remembered fills come out the same. */
  lemma OtherFillIsIgnored(rule: Rule, books: Books, positions: seq<Position>, a: seq<Fill>, fill: Fill, b: seq<Fill>)
    requires fill.coin != rule.coin || fill.side != rule.side || rule.attachedOrderId != Some(fill.orderId)
    ensures Booked(rule, books, Account(positions, a + [fill] + b)) == Booked(rule, books, Account(positions, a + b))
  {
    if Attached(rule) {
      TallySkips(rule, Tally(books.size, books.seen), a, fill, b);
      TotalInsert(rule, a, fill, b);
    }
  }

  /** A report with no fill of an attached rule's own order changes nothing. */
  lemma {:induction false} NoOwnFillChangesNothing(rule: Rule, books: Books, account: Account)
    requires rule.attachedOrderId.Some? && rule.attachedOrderId.value != ""
    requires forall fill :: fill in account.fills ==>
      fill.coin != rule.coin || fill.side != rule.side || fill.orderId != rule.attachedOrderId.value
    ensures Booked(rule, books, account) == books
    decreases |account.fills|
  {
    var fills := account.fills;
    if fills != [] {
      var n := |fills| - 1;
      assert fills == fills[..n] + [fills[n]] + [] && fills[..n] + [] == fills[..n];
      assert fills[n] in fills;
      NoOwnFillChangesNothing(rule, books, Account(account.positions, fills[..n]));
      OtherFillIsIgnored(rule, books, account.positions, fills[..n], fills[n], []);
      assert account == Account(account.positions, fills);
    }
  }

  /** A fill of the rule's own coin, side and order raises the total by exactly
      its size, wherever it stands. */
  lemma OwnFillCounts(rule: Rule, a: seq<Fill>, fill: Fill, b: seq<Fill>)
    requires Attached(rule)
    requires fill.coin == rule.coin && fill.side == rule.side && Some(fill.orderId) == rule.attachedOrderId
    ensures MatchedTotal(rule, a + [fill] + b) == MatchedTotal(rule, a + b) + fill.size
  {
    TotalInsert(rule, a, fill, b);
  }

  /** The first fill of an order: it is protected, capped, and becomes the mark. */
  lemma FirstOwnFill(rule: Rule, books: Books, fill: Fill)
    requires Attached(rule) && fill.size > 0.0 && OrderKey(rule) !in books.filled
    requires fill.coin == rule.coin && fill.side == rule.side && Some(fill.orderId) == rule.attachedOrderId
    ensures var after := Booked(rule, books, Account([], [fill]));
      && after.size == (if fill.size <= rule.size then fill.size else rule.size)
      && after.filled == books.filled[OrderKey(rule) := fill.size]
  {
    OwnFillCounts(rule, [], fill, []);
    assert [] + [fill] + [] == [fill];
  }

  /** Only an order id that is a text of its own attaches a rule: otherwise the
      fills do not matter at all, and with one the positions do not. */
  lemma AttachmentDecides(rule: Rule, books: Books, account: Account)
    ensures rule.attachedOrderId == None || rule.attachedOrderId == Some("") ==>
      && Booked(rule, books, account) == Booked(rule, books, Account(account.positions, []))
      && Booked(rule, books, account).seen == books.seen && Booked(rule, books, account).filled == books.filled
    ensures rule.attachedOrderId != None && rule.attachedOrderId != Some("") ==>
      Booked(rule, books, account) == Booked(rule, books, Account([], account.fills))
  {
  }

  lemma {:induction false} FirstPositionSkips(rule: Rule, a: seq<Position>, position: Position, b: seq<Position>)
    requires position.coin != rule.coin || position.side != rule.side
    ensures FirstPosition(rule, a + [position] + b) == FirstPosition(rule, a + b)
  {
    if a == [] {
      assert a + [position] + b == [position] + b && a + b == b;
      assert ([position] + b)[1..] == b;
    } else {
      FirstPositionSkips(rule, a[1..], position, b);
      assert (a + [position] + b)[1..] == a[1..] + [position] + b && (a + b)[1..] == a[1..] + b;
    }
  }

  /** A position of another coin or side can be left out of a snapshot. */
  lemma OtherPositionIsIgnored(rule: Rule, books: Books, a: seq<Position>, position: Position, b: seq<Position>,
                               fills: seq<Fill>)
    requires position.coin != rule.coin || position.side != rule.side
    ensures Booked(rule, books, Account(a + [position] + b, fills)) == Booked(rule, books, Account(a + b, fills))
  {
    FirstPositionSkips(rule, a, position, b);
  }

  // ---------------------------------------------------------------------
  // What is remembered of a fill
  // ---------------------------------------------------------------------

  /** A remembered value counts unless it is null, false, zero or empty. */
  lemma SeenUnlessFalsy(seen: map<string, Json>, key: string)
    ensures Seen(seen, key) <==> key in seen && !IsFalsy(seen[key])
  {
  }

  /** The loop remembers new fills under its rule's id and leaves all others. */
  lemma {:induction false} LoopRemembersItsRule(rule: Rule, tally: Tally, fills: seq<Fill>, key: string)
    requires Attached(rule) && rule.id != ""
    ensures var after := TallyFills(rule, tally, fills).seen;
      key in after <==> key in tally.seen || (Carried(rule, fills, key) && !Seen(tally.seen, key))
    ensures var after := TallyFills(rule, tally, fills).seen;
      key in after ==>
        after[key] == if Carried(rule, fills, key) && !Seen(tally.seen, key) then JString(rule.id) else tally.seen[key]
  {
    if fills != [] {
      var n := |fills| - 1;
      LoopRemembersItsRule(rule, tally, fills[..n], key);
      SeenAfterLoop(rule, tally, fills[..n], key);
      CarriedSnoc(rule, fills, key);
    }
  }

  lemma SplitAtLastColon(x: string, u: string, y: string, v: string)
    requires x + ":" + u == y + ":" + v && NoColon(u) && NoColon(v)
    ensures x == y && u == v
  {
    var whole := x + ":" + u;
    assert whole[|x|] == ':' && whole[|y|] == ':';
    assert forall i :: |x| < i < |whole| ==> whole[i] == u[i - |x| - 1] && whole[i] in u;
    assert forall i :: |y| < i < |whole| ==> whole[i] == v[i - |y| - 1] && whole[i] in v;
    assert |x| == |y|;
    assert x == whole[..|x|] && y == whole[..|y|];
    assert u == whole[|x| + 1..] && v == whole[|y| + 1..];
  }

  predicate HasFillId(fill: Fill) {
    fill.fillId.Some? && fill.fillId.value != ""
  }

  /** A fill is remembered by its id; without one, by its order, coin, side and
      size, and two such fills share a key exactly when they agree on all four. */
  lemma FillKeysTellFillsApart(a: Fill, b: Fill)
    ensures HasFillId(a) ==> FillKey(a) == a.fillId.value
    ensures !HasFillId(a) && !HasFillId(b)
            && NoColon(a.coin) && NoColon(b.coin) && NoColon(a.sizeText) && NoColon(b.sizeText) ==>
      (FillKey(a) == FillKey(b)
       <==> a.orderId == b.orderId && a.coin == b.coin && a.side == b.side && a.sizeText == b.sizeText)
  {
    if !HasFillId(a) && !HasFillId(b) && FillKey(a) == FillKey(b)
       && NoColon(a.coin) && NoColon(b.coin) && NoColon(a.sizeText) && NoColon(b.sizeText) {
      SplitAtLastColon(a.orderId + ":" + a.coin + ":" + SideName(a.side), a.sizeText,
                       b.orderId + ":" + b.coin + ":" + SideName(b.side), b.sizeText);
      SplitAtLastColon(a.orderId + ":" + a.coin, SideName(a.side), b.orderId + ":" + b.coin, SideName(b.side));
      SplitAtLastColon(a.orderId, a.coin, b.orderId, b.coin);
    }
  }

  // ---------------------------------------------------------------------
  // The loop itself
  // ---------------------------------------------------------------------

  method TallyLoop(state: LocalDaemonState, runtime: TrailingStopState, fills: seq<Fill>)
    returns (totalFilled: real)
    requires Attached(runtime.rule)
    modifies state`seenFills, runtime`protectedSize
    ensures totalFilled == MatchedTotal(runtime.rule, fills)
    ensures Tally(runtime.protectedSize, state.seenFills)
         == TallyFills(runtime.rule, old(Tally(runtime.protectedSize, state.seenFills)), fills)
  {
    var rule := runtime.rule;
    ghost var start := Tally(runtime.protectedSize, state.seenFills);
    totalFilled := 0.0;
    for i := 0 to |fills|
      invariant totalFilled == MatchedTotal(rule, fills[..i])
      invariant Tally(runtime.protectedSize, state.seenFills) == TallyFills(rule, start, fills[..i])
      invariant runtime.rule == rule
    {
      assert fills[..i + 1] == fills[..i] + [fills[i]] && fills[..i + 1][..i] == fills[..i];
      TotalSnoc(rule, fills[..i], fills[i]);
      if !IsMatch(rule, fills[i]) {
        continue;
      }
      totalFilled := totalFilled + fills[i].size;
      var fillKey := FillKey(fills[i]);
      if Seen(state.seenFills, fillKey) {
        continue;
      }
      ghost var before := runtime.Value();
      runtime.IncreaseProtectedSize(fills[i].size);
      assert runtime.Value().protectedSize == Increased(before, fills[i].size).protectedSize;
      state.seenFills := state.seenFills[fillKey := JString(rule.id)];
    }
    assert fills[..|fills|] == fills;
  }

  method PositionSize(rule: Rule, positions: seq<Position>) returns (size: real)
    ensures size == match FirstPosition(rule, positions) case Some(p) => Min(rule.size, p.size) case None => 0.0
  {
    var i := 0;
    while i < |positions|
      invariant 0 <= i <= |positions|
      invariant FirstPosition(rule, positions) == FirstPosition(rule, positions[i..])
    {
      if positions[i].coin == rule.coin && positions[i].side == rule.side {
        return Min(rule.size, positions[i].size);
      }
      assert positions[i..][1..] == positions[i + 1..];
      i := i + 1;
    }
    return 0.0;
  }

  method UpdateProtectedSize(state: LocalDaemonState, id: string, positions: seq<Position>, fills: seq<Fill>)
    requires id in state.runtimes
    modifies state
    ensures state.Value() == UpdateProtected(old(state.Value()), id, Account(positions, fills))
  {
    var runtime := new TrailingStopState(state.runtimes[id]);
    var rule := runtime.rule;
    if rule.attachedOrderId.Some? && rule.attachedOrderId.value != "" {
      var totalFilled := TallyLoop(state, runtime, fills);
      if totalFilled > 0.0 {
        var orderKey := OrderKey(rule);
        var previousTotal := if orderKey in state.filledSize then state.filledSize[orderKey] else 0.0;
        var cumulativeTotal := Max(previousTotal, totalFilled);
        runtime.protectedSize := Min(rule.size, cumulativeTotal);
        state.filledSize := state.filledSize[orderKey := cumulativeTotal];
      }
    } else {
      runtime.protectedSize := PositionSize(rule, positions);
    }
    var value := runtime.Read();
    state.runtimes := state.runtimes[id := value];
  }
}
