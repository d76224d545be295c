/**
 * The position watcher (src/watcher.py): on every pass of `_run` each open
 * position's high-water mark is raised to the last price, its stop is
 * recomputed from it, and a limit sell at the stop closes the position once
 * the price has fallen to the stop. Ticker fetches and the sell are inputs;
 * the store calls are recorded.
 */
module Watcher {
  import opened Wrappers
  import opened Decimal
  import opened Exchange

  datatype Status = Open | Closed

  /** A stored position as `get_open_positions` returns it. */
  datatype Position = Position(
    symbol: string,
    amount: real,
    trailingPct: real,
    highestPrice: real,
    stopPrice: real,
    status: Status)

  /** The calls a pass makes: `db.update_position(pos)` with the position as it then is, and the sell. */
  datatype Call = UpdatePosition(snapshot: Position) | LimitSell(symbol: string, amount: real, price: real)

  /** What the pass meets for one position: the `last` ticker field and whether the sell raised. */
  datatype Reading = Reading(last: Quote, sell: Outcome<string>)

  function Max(a: real, b: real): (m: real)
    ensures m >= a && m >= b && (m == a || m == b)
  {
    if a > b then a else b
  }

  /** The stop is the high-water mark less the trailing percentage. */
  predicate Tracking(p: Position) {
    p.stopPrice == Product(p.highestPrice, 1.0 - p.trailingPct)
  }

  /** Lines 29-31: raise the high-water mark to `last`, recompute the stop from it. */
  function Observe(p: Position, last: real): (q: Position)
    ensures q == p.(highestPrice := q.highestPrice, stopPrice := q.stopPrice)
    ensures q.highestPrice == Max(p.highestPrice, last)
    ensures Tracking(q)
  {
    var highest := if last > p.highestPrice then last else p.highestPrice;
    p.(highestPrice := highest, stopPrice := Product(highest, 1.0 - p.trailingPct))
  }

  /** With a percentage of at most 1 the stop of a tracking position never falls. */
  lemma StopRatchets(p: Position, last: real)
    requires Tracking(p) && p.trailingPct <= 1.0
    ensures Observe(p, last).stopPrice >= p.stopPrice
  {
    var q := Observe(p, last);
    ProductCommutes(p.highestPrice, 1.0 - p.trailingPct);
    ProductCommutes(q.highestPrice, 1.0 - p.trailingPct);
    ProductMonotone(1.0 - p.trailingPct, p.highestPrice, q.highestPrice);
  }

  /** The position after observing `lasts` one after another. */
  function Track(p: Position, lasts: seq<real>): Position
    decreases |lasts|
  {
    if lasts == [] then p else Observe(Track(p, lasts[..|lasts| - 1]), lasts[|lasts| - 1])
  }

  /** Across any number of ticks the stop never falls and the high-water mark is never lowered. */
  lemma {:induction false} StopNeverFalls(p: Position, lasts: seq<real>)
    requires Tracking(p) && p.trailingPct <= 1.0
    ensures Track(p, lasts).stopPrice >= p.stopPrice
    ensures Track(p, lasts).highestPrice >= p.highestPrice
    ensures Track(p, lasts).trailingPct == p.trailingPct && Tracking(Track(p, lasts))
    decreases |lasts|
  {
    if lasts != [] {
      var prev := Track(p, lasts[..|lasts| - 1]);
      StopNeverFalls(p, lasts[..|lasts| - 1]);
      StopRatchets(prev, lasts[|lasts| - 1]);
    }
  }

  /** At 2 % a high of 100 gives a stop of 98, and a rise to 110 lifts it to 107.8. */
  lemma TwoPercentExample()
    ensures
      var p := Position("BTCEUR", 1.0, 0.02, 100.0, 98.0, Open);
      && Tracking(p)
      && Observe(p, 110.0).stopPrice == 107.8
      && Observe(p, 90.0).stopPrice == 98.0
  {
  }

  /** One position's part of a pass: its new value, the calls made, and whether the pass goes on. */
  datatype Visited = Visited(position: Position, calls: seq<Call>, ok: bool)

  /** Lines 27-46 for one position. A failed fetch or a sell that raises ends the pass. */
  function Visit(p: Position, reading: Reading): (v: Visited)
    ensures reading.last.QuoteError? ==> v == Visited(p, [], false)
    ensures reading.last.Quote? ==> (
      var q := Observe(p, reading.last.price);
      var hit := reading.last.price <= q.stopPrice;
      && |v.calls| >= 1 && v.calls[0] == UpdatePosition(q)
      && (hit <==> |v.calls| >= 2)
      && (hit ==> v.calls[1] == LimitSell(p.symbol, p.amount, q.stopPrice))
      && (v.position.status == Closed <==> p.status == Closed || (hit && reading.sell.Pass?))
      && v.position == q.(status := v.position.status)
      && (|v.calls| == 3 <==> hit && reading.sell.Pass?)
      && (|v.calls| == 3 ==> v.calls[2] == UpdatePosition(v.position) && v.position.status == Closed)
      && (!v.ok <==> hit && reading.sell.Fail?))
    ensures |v.calls| <= 3
  {
    match reading.last
    case QuoteError(_) => Visited(p, [], false)
    case Quote(last) =>
      var q := Observe(p, last);
      if last <= q.stopPrice then
        var sell := LimitSell(q.symbol, q.amount, q.stopPrice);
        if reading.sell.Fail? then Visited(q, [UpdatePosition(q), sell], false)
        else
          var closed := q.(status := Closed);
          Visited(closed, [UpdatePosition(q), sell, UpdatePosition(closed)], true)
      else Visited(q, [UpdatePosition(q)], true)
  }

  /** `b` is `a` after a pass: same holding, a high-water mark not lowered, a closed position left closed. */
  predicate Follows(a: Position, b: Position) {
    && b.symbol == a.symbol && b.amount == a.amount && b.trailingPct == a.trailingPct
    && b.highestPrice >= a.highestPrice
    && (a.status == Closed ==> b.status == Closed)
  }

  /** The result of one pass of the `for` loop. */
  datatype Swept = Swept(positions: seq<Position>, calls: seq<Call>, completed: bool)

  /** One pass of the `for` loop at lines 26-46 over `ps`, stopping at the first exception. */
  function Sweep(ps: seq<Position>, rs: seq<Reading>): (r: Swept)
    requires |ps| == |rs|
    ensures |r.positions| == |ps|
    ensures |r.calls| <= 3 * |ps|
    ensures r.completed ==> |r.calls| >= |ps|
    decreases |ps|
  {
    if ps == [] then Swept([], [], true)
    else
      var v := Visit(ps[0], rs[0]);
      if !v.ok then Swept([v.position] + ps[1..], v.calls, false)
      else
        var rest := Sweep(ps[1..], rs[1..]);
        Swept([v.position] + rest.positions, v.calls + rest.calls, rest.completed)
  }

  /** The pass from position `i` on is the visit of `ps[i]` followed, if it went on, by the pass from `i + 1`. */
  lemma {:induction false} SweepFrom(ps: seq<Position>, rs: seq<Reading>, i: nat)
    requires |ps| == |rs| && i < |ps|
    ensures
      var v := Visit(ps[i], rs[i]);
      var rest := Sweep(ps[i + 1..], rs[i + 1..]);
      && (!v.ok ==> Sweep(ps[i..], rs[i..]) == Swept([v.position] + ps[i + 1..], v.calls, false))
      && (v.ok ==> (
        && Sweep(ps[i..], rs[i..]).positions == [v.position] + rest.positions
        && Sweep(ps[i..], rs[i..]).calls == v.calls + rest.calls
        && Sweep(ps[i..], rs[i..]).completed == rest.completed))
  {
    assert ps[i..][0] == ps[i] && ps[i..][1..] == ps[i + 1..];
    assert rs[i..][0] == rs[i] && rs[i..][1..] == rs[i + 1..];
  }

  /** What is left of a pass after position `i`, given what it did before `i`. */
  lemma {:induction false} SweepAdvance(ps: seq<Position>, rs: seq<Reading>, i: nat, prefix: seq<Position>, done: seq<Call>)
    requires |ps| == |rs| && i < |ps| && |prefix| == i
    requires
      var rest := Sweep(ps[i..], rs[i..]);
      Sweep(ps, rs) == Swept(prefix + rest.positions, done + rest.calls, rest.completed)
    ensures
      var v := Visit(ps[i], rs[i]);
      var rest := Sweep(ps[i + 1..], rs[i + 1..]);
      && (v.ok ==> Sweep(ps, rs) == Swept((prefix + [v.position]) + rest.positions, (done + v.calls) + rest.calls, rest.completed))
      && (!v.ok ==> Sweep(ps, rs) == Swept((prefix + [v.position]) + ps[i + 1..], done + v.calls, false))
  {
    SweepFrom(ps, rs, i);
    Advance(Sweep(ps, rs), Sweep(ps[i..], rs[i..]), Visit(ps[i], rs[i]), Sweep(ps[i + 1..], rs[i + 1..]), ps[i + 1..], prefix, done);
  }

  /** The bookkeeping of `SweepAdvance` on the values alone. */
  lemma {:induction false} Advance(
    whole: Swept, here: Swept, v: Visited, rest: Swept, tail: seq<Position>, prefix: seq<Position>, done: seq<Call>)
    requires whole == Swept(prefix + here.positions, done + here.calls, here.completed)
    requires !v.ok ==> here == Swept([v.position] + tail, v.calls, false)
    requires v.ok ==> here == Swept([v.position] + rest.positions, v.calls + rest.calls, rest.completed)
    ensures v.ok ==> whole == Swept((prefix + [v.position]) + rest.positions, (done + v.calls) + rest.calls, rest.completed)
    ensures !v.ok ==> whole == Swept((prefix + [v.position]) + tail, done + v.calls, false)
  {
    if v.ok {
      assert prefix + here.positions == (prefix + [v.position]) + rest.positions;
      assert done + here.calls == (done + v.calls) + rest.calls;
    } else {
      assert prefix + here.positions == (prefix + [v.position]) + tail;
    }
  }

  /**
   * A pass keeps every holding and never lowers a high-water mark; a pass
   * that completes has observed every price, left every stop tracking its
   * high-water mark, and closed exactly the positions whose price reached
   * the stop.
   */
  lemma {:induction false} SweepKeepsPositions(ps: seq<Position>, rs: seq<Reading>)
    requires |ps| == |rs|
    ensures forall i :: 0 <= i < |ps| ==> Follows(ps[i], Sweep(ps, rs).positions[i])
    ensures Sweep(ps, rs).completed ==> forall i :: 0 <= i < |ps| ==> rs[i].last.Quote?
    ensures Sweep(ps, rs).completed ==> forall i :: 0 <= i < |ps| ==> (
      && Sweep(ps, rs).positions[i].highestPrice == Max(ps[i].highestPrice, rs[i].last.price)
      && Tracking(Sweep(ps, rs).positions[i]))
    ensures Sweep(ps, rs).completed ==> forall i :: 0 <= i < |ps| ==> (
      Sweep(ps, rs).positions[i].status == Closed
      <==> ps[i].status == Closed || rs[i].last.price <= Sweep(ps, rs).positions[i].stopPrice)
    decreases |ps|
  {
    if ps != [] {
      SweepKeepsPositions(ps[1..], rs[1..]);
      var r := Sweep(ps, rs);
      forall i | 1 <= i < |ps|
        ensures ps[1..][i - 1] == ps[i] && rs[1..][i - 1] == rs[i]
      {
      }
    }
  }

  /** Every sell issued in a pass is at the stop of a position whose price reached it. */
  lemma {:induction false} SellsAreAtStops(ps: seq<Position>, rs: seq<Reading>, k: nat)
    requires |ps| == |rs| && k < |Sweep(ps, rs).calls| && Sweep(ps, rs).calls[k].LimitSell?
    ensures exists i :: (
      && 0 <= i < |ps| && rs[i].last.Quote?
      && Sweep(ps, rs).calls[k] == LimitSell(ps[i].symbol, ps[i].amount, Observe(ps[i], rs[i].last.price).stopPrice)
      && rs[i].last.price <= Observe(ps[i], rs[i].last.price).stopPrice)
    decreases |ps|
  {
    var v := Visit(ps[0], rs[0]);
    if k < |v.calls| {
      assert rs[0].last.Quote? && k == 1;
    } else {
      var rest := Sweep(ps[1..], rs[1..]);
      assert Sweep(ps, rs).calls == v.calls + rest.calls;
      SellsAreAtStops(ps[1..], rs[1..], k - |v.calls|);
      var j :| 0 <= j < |ps[1..]| && rs[1..][j].last.Quote?
        && rest.calls[k - |v.calls|]
           == LimitSell(ps[1..][j].symbol, ps[1..][j].amount, Observe(ps[1..][j], rs[1..][j].last.price).stopPrice)
        && rs[1..][j].last.price <= Observe(ps[1..][j], rs[1..][j].last.price).stopPrice;
      assert ps[1..][j] == ps[j + 1] && rs[1..][j] == rs[j + 1];
    }
  }

  /** Writing `p` at `i` into `done + rest[i..]` extends `done` by `p`. */
  lemma {:induction false} Splice(done: seq<Position>, rest: seq<Position>, i: nat, p: Position)
    requires |done| == i < |rest|
    ensures (done + rest[i..])[i := p] == (done + [p]) + rest[i + 1..]
  {
    assert rest[i..] == [rest[i]] + rest[i + 1..];
  }

  /** Lines 27-46 on `ps[i]` in place: the calls made and whether the pass goes on. */
  method VisitAt(ps: array<Position>, i: nat, reading: Reading) returns (made: seq<Call>, ok: bool)
    requires i < ps.Length
    modifies ps
    ensures ps[..] == old(ps[..])[i := Visit(old(ps[i]), reading).position]
    ensures made == Visit(old(ps[i]), reading).calls
    ensures ok == Visit(old(ps[i]), reading).ok
  {
    made := [];
    if reading.last.QuoteError? {
      return [], false;
    }
    var last := reading.last.price;
    if last > ps[i].highestPrice {
      ps[i] := ps[i].(highestPrice := last);
    }
    ps[i] := ps[i].(stopPrice := Product(ps[i].highestPrice, 1.0 - ps[i].trailingPct));
    made := made + [UpdatePosition(ps[i])];
    if last <= ps[i].stopPrice {
      made := made + [LimitSell(ps[i].symbol, ps[i].amount, ps[i].stopPrice)];
      if reading.sell.Fail? {
        return made, false;
      }
      ps[i] := ps[i].(status := Closed);
      made := made + [UpdatePosition(ps[i])];
    }
    ok := true;
  }

  /**
   * One pass of `_run` over the positions `get_open_positions` returned:
   * updates each in place until a fetch fails or a sell raises, and returns
   * the calls made; `completed` is false when the pass ended early.
   */
  method RunOnce(ps: array<Position>, readings: seq<Reading>) returns (calls: seq<Call>, completed: bool)
    requires ps.Length == |readings|
    modifies ps
    ensures ps[..] == Sweep(old(ps[..]), readings).positions
    ensures calls == Sweep(old(ps[..]), readings).calls
    ensures completed == Sweep(old(ps[..]), readings).completed
  {
    ghost var original := ps[..];
    ghost var done: seq<Position> := [];
    var i := 0;
    calls, completed := [], true;
    while i < ps.Length && completed
      invariant 0 <= i <= ps.Length && |done| == i
      invariant ps[..] == done + original[i..]
      invariant completed ==> (
        var rest := Sweep(original[i..], readings[i..]);
        Sweep(original, readings) == Swept(done + rest.positions, calls + rest.calls, rest.completed))
      invariant !completed ==> Sweep(original, readings) == Swept(done + original[i..], calls, false)
      decreases ps.Length - i
    {
      SweepAdvance(original, readings, i, done, calls);
      ghost var v := Visit(original[i], readings[i]);
      assert ps[i] == original[i];
      var made, ok := VisitAt(ps, i, readings[i]);
      Splice(done, original, i, v.position);
      done := done + [v.position];
      calls := calls + made;
      if !ok {
        completed := false;
      }
      i := i + 1;
    }
    if completed {
      assert original[i..] == [] && readings[i..] == [];
    }
  }
}
