/**
 The pass that settles due requests against the least collateralized positions, up to a share of the
 supply for each maintenance interval (libraries/chain/db_update.cpp, libraries/chain/asset_object.cpp,
 libraries/chain/db_market.cpp).
 */
module ForcedSettlement {
  import opened Options
  import opened Sums
  import opened Money
  import opened SmartCoin
  import opened SettlementPool
  import opened MarginCalls

  /** max_force_settlement_volume */
  function MaxVolume(c: Coin, t: Terms): nat
  {
    if t.maxVolume == 0 then 0
    else if t.maxVolume == FULL_PERCENT then c.supply + c.volume
    else (c.supply + c.volume) * t.maxVolume / FULL_PERCENT
  }

  /** The cap is the share of what was out at the last maintenance, rounded down. */
  lemma MaxVolumeIs(c: Coin, t: Terms)
    ensures FULL_PERCENT * MaxVolume(c, t) <= (c.supply + c.volume) * t.maxVolume < FULL_PERCENT * (MaxVolume(c, t) + 1)
  {
    FloorBounds((c.supply + c.volume) * t.maxVolume, FULL_PERCENT);
  }

  /** While there is room for settling, there is something left to settle. */
  lemma CapWithinSupply(c: Coin, t: Terms)
    requires t.Ok()
    ensures MaxVolume(c, t) <= c.supply + c.volume
  {
    MulMonotone(c.supply + c.volume, t.maxVolume, FULL_PERCENT);
    FloorMonotone((c.supply + c.volume) * t.maxVolume, (c.supply + c.volume) * FULL_PERCENT, FULL_PERCENT);
  }

  // ----------------------------------------------------------- the first position

  /** The index by collateral is searched from the smallest price on. */
  predicate Eligible(k: Call) { Collateralization(k).AtLeast(Price(1, MAX_SHARES)) }

  /** The position the search finds: the least collateralized of those, the oldest of equal ones. */
  function Front(calls: seq<Call>): (r: Option<nat>)
    ensures r.Some? ==> r.value < |calls| && Eligible(calls[r.value])
    ensures r.None? ==> forall i | 0 <= i < |calls| :: !Eligible(calls[i])
  {
    if calls == [] then None
    else
      var n := |calls| - 1;
      var r := Front(calls[..n]);
      if !Eligible(calls[n]) || (r.Some? && Collateralization(calls[n]).AtLeast(Collateralization(calls[r.value]))) then r else Some(n)
  }

  /** No position that could be found is less collateralized. */
  lemma {:induction false} FrontIsLeast(calls: seq<Call>, j: nat)
    requires j < |calls| && Eligible(calls[j]) && forall i | 0 <= i < |calls| :: calls[i].debt > 0
    ensures Front(calls).Some? && Collateralization(calls[j]).AtLeast(Collateralization(calls[Front(calls).value]))
  {
    var n := |calls| - 1;
    var front := calls[..n];
    assert forall i | 0 <= i < n :: front[i] == calls[i];
    var r := Front(front);
    if j < n {
      FrontIsLeast(front, j);
      if Front(calls) == Some(n) { PriceTransitive(Collateralization(calls[j]), Collateralization(calls[r.value]), Collateralization(calls[n])); }
    }
  }

  /** Of equal ones it is the oldest: every earlier one that could be found is better collateralized. */
  lemma {:induction false} FrontIsOldest(calls: seq<Call>, j: nat)
    requires Front(calls).Some? && j < Front(calls).value && Eligible(calls[j]) && forall i | 0 <= i < |calls| :: calls[i].debt > 0
    ensures !Collateralization(calls[Front(calls).value]).AtLeast(Collateralization(calls[j]))
  {
    var n := |calls| - 1;
    var front := calls[..n];
    assert forall i | 0 <= i < n :: front[i] == calls[i];
    var r := Front(front);
    if Front(calls) == r {
      FrontIsOldest(front, j);
    } else {
      FrontIsLeast(front, j);
      var last, first := Collateralization(calls[n]), Collateralization(calls[r.value]);
      if last.AtLeast(Collateralization(calls[j])) { PriceTransitive(last, Collateralization(calls[j]), first); }
    }
  }

  /** A position with collateral is passed over exactly when its debt is too large, which takes a supply above the largest amount. */
  lemma NoneSkipped(c: Coin, i: nat)
    requires Solid(c) && c.swan.None? && Secured(c) && i < |c.calls|
    ensures Eligible(c.calls[i]) <==> c.calls[i].debt <= MAX_SHARES * c.calls[i].collateral
    ensures c.supply <= MAX_SHARES ==> Eligible(c.calls[i])
  {
    DebtsAreOwed(c, i);
    MulMonotone(MAX_SHARES, 1, c.calls[i].collateral);
  }

  // ------------------------------------------------------------------- one match

  function Min(a: nat, b: nat): nat { if a <= b then a else b }

  /** How much of the first request position `i` takes. */
  function Taken(c: Coin, i: nat, room: nat): (n: nat)
    requires c.settles != [] && i < |c.calls|
    ensures n <= c.settles[0].balance && n <= c.calls[i].debt && n <= room
    ensures c.settles[0].balance > 0 && c.calls[i].debt > 0 && room > 0 ==> n > 0
  {
    Min(Min(c.settles[0].balance, room), c.calls[i].debt)
  }

  /** match for a position and a request; None when the position could not pay without giving up everything. */
  function MatchSettle(c: Coin, i: nat, price: Price, room: nat, t: Terms): Option<Coin>
    requires t.Ok() && c.settles != [] && i < |c.calls| && price.base > 0 && c.calls[i].debt <= c.supply
  {
    var n := Taken(c, i, room);
    var pays := Times(n, price);
    if pays >= c.calls[i].collateral then None
    else Some(FillSettle(FillCall(c, i, pays, n), 0, n, pays, t))
  }

  lemma MatchBooks(c: Coin, i: nat, price: Price, room: nat, t: Terms)
    requires Solid(c) && c.swan.None? && Secured(c) && t.Ok() && c.settles != [] && i < |c.calls| && price.base > 0
    ensures c.calls[i].debt <= c.supply
    ensures MatchSettle(c, i, price, room, t).Some? ==>
              (var r := MatchSettle(c, i, price, room, t).value;
               && Solid(r) && r.swan.None? && Secured(r) && Backing(r) == Backing(c)
               && r.supply == c.supply - Taken(c, i, room) && r.feed == c.feed && r.volume == c.volume && r.bids == c.bids && r.limits == c.limits
               && r.settles == if Taken(c, i, room) < c.settles[0].balance
                               then c.settles[0 := c.settles[0].(balance := c.settles[0].balance - Taken(c, i, room))] else c.settles[1..])
  {
    hide Sum, Total, Credit, MarketFee, Times, NonNegative;
    DebtsAreOwed(c, i);
    var n := Taken(c, i, room);
    var pays := Times(n, price);
    if pays < c.calls[i].collateral {
      FillCallBooks(c, i, pays, n);
      FillSettleBooks(FillCall(c, i, pays, n), 0, n, pays, t);
      assert c.settles[..0] + c.settles[1..] == c.settles[1..];
    }
  }

  // ------------------------------------------------------------------ one request

  /** What every step of the pass keeps, with `settled` units settled so far. */
  ghost predicate Passing(c0: Coin, c: Coin, settled: nat, t: Terms)
  {
    && Solid(c) && Secured(c) && Backing(c) == Backing(c0) && c.swan == c0.swan && c.feed == c0.feed && c.bids == c0.bids && c.limits == c0.limits
    && c.supply + settled == c0.supply + c0.volume && c0.volume <= settled
    && (settled == c0.volume || settled <= MaxVolume(c0, t))
    && (InDateOrder(c0.settles) ==> InDateOrder(c.settles))
  }

  /** The request in front is still there, perhaps smaller; everything behind it is untouched. */
  ghost predicate Behind(c0: Coin, c: Coin)
  {
    && c0.settles != []
    && (c.settles == c0.settles[1..]
        || (c.settles != [] && c.settles[1..] == c0.settles[1..] && c.settles[0] == c0.settles[0].(balance := c.settles[0].balance)))
  }

  /** There is always a position to settle against: the cap leaves room only while something is owed. */
  lemma AlwaysACall(c: Coin, t: Terms)
    requires Solid(c) && Secured(c) && t.Ok() && c.swan.None? && c.volume < MaxVolume(c, t)
    ensures c.supply > 0 && c.calls != []
    ensures c.supply <= MAX_SHARES ==> Front(c.calls).Some?
  {
    hide MaxVolume, Held, Backing, NonNegative, Eligible;
    CapWithinSupply(c, t);
    if c.supply <= MAX_SHARES { NoneSkipped(c, 0); }
  }

  lemma Cancels(c0: Coin, c: Coin, settled: nat, t: Terms)
    requires Passing(c0, c, settled, t) && c.settles != []
    ensures var r := CancelSettle(c, 0);
            Passing(c0, r, settled, t) && r.settles == c.settles[1..] && r.volume == c.volume && r.calls == c.calls && MaxVolume(r, t) == MaxVolume(c, t)
  {
    hide Solid, Backing;
    CancelSettleBooks(c, 0);
    assert c.settles[..0] + c.settles[1..] == c.settles[1..];
  }

  /** How a pass ends: it goes through, it throws, or a search for a position comes back empty-handed. */
  datatype Passage = Through(coin: Coin) | Aborted | Starved

  /** The inner loop for the request in front: the position found takes what it owes of it, or what the cap still allows,
      until the request is gone or the cap is reached.  A request is given up when it is empty, or when that position could not
      pay for it. */
  ghost function Serve(c: Coin, price: Price, cap: nat, t: Terms): Passage
    requires Solid(c) && Secured(c) && c.swan.None? && t.Ok() && c.settles != [] && (c.settles[0].balance > 0 ==> price.base > 0)
    decreases cap - c.volume
  {
    if c.volume >= cap then Through(c)
    else if c.settles[0].balance == 0 then Through(CancelSettle(c, 0))
    else if Front(c.calls).None? then Starved
    else
      var i, room := Front(c.calls).value, cap - c.volume;
      MatchBooks(c, i, price, room, t);
      var r, n := MatchSettle(c, i, price, room, t), Taken(c, i, room);
      if r.None? then Through(CancelSettle(c, 0))
      else
        VolumeAside(r.value, c.volume + n);
        if n == c.settles[0].balance then Through(r.value.(volume := c.volume + n))
        else Serve(r.value.(volume := c.volume + n), price, cap, t)
  }

  lemma VolumeAside(c: Coin, volume: nat)
    ensures Solid(c.(volume := volume)) == Solid(c) && Secured(c.(volume := volume)) == Secured(c) && Backing(c.(volume := volume)) == Backing(c)
  {
  }

  lemma ServeStep(c: Coin, price: Price, cap: nat, t: Terms)
    requires Solid(c) && Secured(c) && c.swan.None? && t.Ok() && c.settles != [] && c.settles[0].balance > 0 && price.base > 0
    requires c.volume < cap && Front(c.calls).Some?
    ensures var i, room := Front(c.calls).value, cap - c.volume;
            && c.calls[i].debt <= c.supply
            && (MatchSettle(c, i, price, room, t).None? ==> Serve(c, price, cap, t) == Through(CancelSettle(c, 0)))
            && (MatchSettle(c, i, price, room, t).Some? ==>
                (var n := Taken(c, i, room);
                 var r := MatchSettle(c, i, price, room, t).value.(volume := c.volume + n);
                 && Solid(r) && Secured(r) && r.swan.None? && n > 0 && (n < c.settles[0].balance ==> r.settles != [])
                 && Serve(c, price, cap, t) == if n == c.settles[0].balance then Through(r) else Serve(r, price, cap, t)))
  {
    hide Solid, Secured, MatchSettle, CancelSettle, Backing, Front;
    var i := Front(c.calls).value;
    MatchBooks(c, i, price, cap - c.volume, t);
    Owes(c, i);
    if MatchSettle(c, i, price, cap - c.volume, t).Some? {
      VolumeAside(MatchSettle(c, i, price, cap - c.volume, t).value, c.volume + Taken(c, i, cap - c.volume));
    }
  }

  lemma Owes(c: Coin, i: nat)
    requires Solid(c) && i < |c.calls|
    ensures c.calls[i].debt > 0
  {
  }

  /** Some single debt is above the largest amount. */
  predicate Huge(calls: seq<Call>) { exists i | 0 <= i < |calls| :: calls[i].debt > MAX_SHARES }

  lemma Matches(c: Coin, i: nat, price: Price, cap: nat, t: Terms)
    requires Solid(c) && Secured(c) && c.swan.None? && t.Ok() && c.settles != [] && c.settles[0].balance > 0 && price.base > 0
    requires cap == MaxVolume(c, t) && c.volume < cap && i < |c.calls| && c.calls[i].debt <= c.supply
    requires MatchSettle(c, i, price, cap - c.volume, t).Some?
    ensures var n := Taken(c, i, cap - c.volume);
            var r := MatchSettle(c, i, price, cap - c.volume, t).value.(volume := c.volume + n);
            && Passing(c, r, r.volume, t) && MaxVolume(r, t) == cap
            && r.settles == if n < c.settles[0].balance then c.settles[0 := c.settles[0].(balance := c.settles[0].balance - n)] else c.settles[1..]
  {
    hide Solid, Backing, MatchSettle, Secured;
    MatchBooks(c, i, price, cap - c.volume, t);
    var n := Taken(c, i, cap - c.volume);
    VolumeAside(MatchSettle(c, i, price, cap - c.volume, t).value, c.volume + n);
  }

  /** Serving keeps the books and the cap and touches no other request; it ends with the request gone or the cap reached. */
  lemma {:induction false} ServeKeeps(c: Coin, price: Price, cap: nat, t: Terms)
    requires Solid(c) && Secured(c) && c.swan.None? && t.Ok() && c.settles != [] && (c.settles[0].balance > 0 ==> price.base > 0)
    requires cap == MaxVolume(c, t)
    ensures var p := Serve(c, price, cap, t);
            && !p.Aborted? && (p.Starved? ==> Huge(c.calls))
            && (p.Through? ==> Passing(c, p.coin, p.coin.volume, t) && Behind(c, p.coin) && (p.coin.settles == c.settles[1..] || p.coin.volume >= cap))
            && (p.Through? && Huge(p.coin.calls) ==> Huge(c.calls))
    decreases cap - c.volume
  {
    hide Solid, Secured, Backing, InDateOrder, MatchSettle, Front, CancelSettle, MaxVolume, Eligible, Serve, Huge;
    Unmoved(c, t);
    if c.volume < cap && c.settles[0].balance > 0 && Front(c.calls).Some? {
      var i := Front(c.calls).value;
      ServeStep(c, price, cap, t);
      if MatchSettle(c, i, price, cap - c.volume, t).None? {
        Cancels(c, c, c.volume, t);
      } else {
        var n := Taken(c, i, cap - c.volume);
        var r := MatchSettle(c, i, price, cap - c.volume, t).value.(volume := c.volume + n);
        Matches(c, i, price, cap, t);
        if Huge(r.calls) { NoNewDebt(c, i, price, cap - c.volume, t); }
        if n < c.settles[0].balance {
          ServeKeeps(r, price, cap, t);
          if Serve(r, price, cap, t).Through? { PassingChains(c, r, Serve(r, price, cap, t).coin, t); }
        }
      }
    } else {
      ServeStops(c, price, cap, t);
      if c.volume < cap && c.settles[0].balance == 0 { Cancels(c, c, c.volume, t); }
      if c.volume < cap && c.settles[0].balance > 0 {
        AlwaysACall(c, t);
        NoneSkipped(c, 0);
        Skipped(c, 0);
      }
    }
  }

  lemma ServeStops(c: Coin, price: Price, cap: nat, t: Terms)
    requires Solid(c) && Secured(c) && c.swan.None? && t.Ok() && c.settles != [] && (c.settles[0].balance > 0 ==> price.base > 0)
    requires c.volume >= cap || c.settles[0].balance == 0 || Front(c.calls).None?
    ensures Serve(c, price, cap, t) == if c.volume >= cap then Through(c) else if c.settles[0].balance == 0 then Through(CancelSettle(c, 0)) else Starved
  {
    hide Solid, Secured, MatchSettle, CancelSettle, Backing, Front;
  }

  lemma Unmoved(c: Coin, t: Terms)
    requires Solid(c) && Secured(c)
    ensures Passing(c, c, c.volume, t)
  {
  }

  lemma Skipped(c: Coin, i: nat)
    requires Secured(c) && i < |c.calls| && !Eligible(c.calls[i])
    ensures Huge(c.calls)
  {
    MulMonotone(MAX_SHARES, 1, c.calls[i].collateral);
  }

  /** No debt grows by a match. */
  lemma NoNewDebt(c: Coin, i: nat, price: Price, room: nat, t: Terms)
    requires t.Ok() && c.settles != [] && i < |c.calls| && price.base > 0 && c.calls[i].debt <= c.supply
    requires MatchSettle(c, i, price, room, t).Some? && Huge(MatchSettle(c, i, price, room, t).value.calls)
    ensures Huge(c.calls)
  {
    hide Times, Credit, MarketFee;
    var r := MatchSettle(c, i, price, room, t).value;
    var j :| 0 <= j < |r.calls| && r.calls[j].debt > MAX_SHARES;
    var k := if |r.calls| == |c.calls| || j < i then j else j + 1;
    assert c.calls[k].debt > MAX_SHARES;
  }

  // --------------------------------------------------------------- the inner loop

  /** Matching and cancelling do not look at the settled volume. */
  lemma MatchAside(c: Coin, i: nat, price: Price, room: nat, volume: nat, t: Terms)
    requires t.Ok() && c.settles != [] && i < |c.calls| && price.base > 0 && c.calls[i].debt <= c.supply
    ensures var v := c.(volume := volume);
            && Taken(v, i, room) == Taken(c, i, room)
            && (MatchSettle(c, i, price, room, t).None? <==> MatchSettle(v, i, price, room, t).None?)
            && (MatchSettle(c, i, price, room, t).Some? ==>
                MatchSettle(v, i, price, room, t) == Some(MatchSettle(c, i, price, room, t).value.(volume := volume)))
  {
    hide Times, FillCall, FillSettle;
    var n := Taken(c, i, room);
    var pays := Times(n, price);
    if pays < c.calls[i].collateral {
      FillsAside(c, i, pays, n, volume);
      SettlesAside(FillCall(c, i, pays, n), n, pays, volume, t);
    }
  }

  lemma FillsAside(c: Coin, i: nat, pays: nat, receives: nat, volume: nat)
    requires i < |c.calls| && pays <= c.calls[i].collateral && receives <= c.calls[i].debt && receives <= c.supply
    ensures var r := FillCall(c, i, pays, receives);
            FillCall(c.(volume := volume), i, pays, receives) == r.(volume := volume) && r.settles == c.settles
  {
    hide Credit;
  }

  lemma SettlesAside(c: Coin, pays: nat, receives: nat, volume: nat, t: Terms)
    requires t.Ok() && c.settles != [] && pays <= c.settles[0].balance
    ensures FillSettle(c.(volume := volume), 0, pays, receives, t) == FillSettle(c, 0, pays, receives, t).(volume := volume)
  {
    hide Credit, MarketFee;
  }

  lemma CancelAside(c: Coin, volume: nat)
    requires c.settles != []
    ensures CancelSettle(c.(volume := volume), 0) == CancelSettle(c, 0).(volume := volume)
  {
    hide Credit;
  }

  /** The inner loop of clear_expired_orders; the settled volume is written back only at its end. */
  method SettleRequest(c0: Coin, price: Price, cap: nat, t: Terms) returns (p: Passage)
    requires Solid(c0) && Secured(c0) && c0.swan.None? && t.Ok() && c0.settles != [] && (c0.settles[0].balance > 0 ==> price.base > 0)
    ensures p == Serve(c0, price, cap, t)
  {
    hide Solid, Secured, CancelSettle, MatchSettle, Front, Serve, Taken;
    var c, settled, gone := c0, c0.volume, false;
    assert c.(volume := settled) == c0;
    while settled < cap && !gone
      invariant gone ==> Serve(c0, price, cap, t) == Through(c.(volume := settled))
      invariant !gone ==> Solid(c.(volume := settled)) && Secured(c.(volume := settled)) && c.swan.None?
      invariant !gone ==> c.settles != [] && (c.settles[0].balance > 0 ==> price.base > 0)
      invariant !gone ==> Serve(c.(volume := settled), price, cap, t) == Serve(c0, price, cap, t)
      decreases cap - settled, !gone
    {
      ghost var v := c.(volume := settled);
      var found := Front(c.calls);
      if c.settles[0].balance == 0 {
        ServeStops(v, price, cap, t);
        CancelAside(c, settled);
        c, gone := CancelSettle(c, 0), true;
      } else if found.None? {
        ServeStops(v, price, cap, t);
        return Starved;
      } else {
        var i := found.value;
        ServeStep(v, price, cap, t);
        MatchAside(c, i, price, cap - settled, settled, t);
        var next := MatchSettle(c, i, price, cap - settled, t);
        if next.None? {
          CancelAside(c, settled);
          c, gone := CancelSettle(c, 0), true;
        } else {
          var n := Taken(c, i, cap - settled);
          gone := n == c.settles[0].balance;
          settled := settled + n;
          c := next.value;
        }
      }
    }
    if !gone { ServeStops(c.(volume := settled), price, cap, t); }
    p := Through(c.(volume := settled));
  }

  // ----------------------------------------------------------------- the whole pass

  /** What the request in front is worth at the feed, less the offset. */
  function Worth(c: Coin, t: Terms): nat
    requires c.settles != [] && c.feed.Feed? && c.feed.price.base > 0 && t.Ok()
  {
    Times(c.settles[0].balance, c.feed.price) * (FULL_PERCENT - t.offset) / FULL_PERCENT
  }

  /** Where the pass leaves a coin: no request, none due, or no room for more. */
  predicate Finished(c: Coin, now: nat, t: Terms)
  {
    c.settles == [] || (c.swan.None? && (c.settles[0].date > now || (c.feed.Feed? && c.volume >= MaxVolume(c, t))))
  }

  /** Settling moves the supply into the settled volume, so the cap taken at the start stays the cap. */
  lemma SameCap(c0: Coin, c: Coin, t: Terms)
    requires Passing(c0, c, c.volume, t)
    ensures MaxVolume(c, t) == MaxVolume(c0, t)
  {
    hide Solid, Secured, Backing, InDateOrder;
  }

  /** When the whole supply's worth is an amount, no request is too dear. */
  lemma WorthFits(c: Coin, now: nat)
    requires Solid(c) && (c.feed.Feed? ==> c.feed.price.base > 0 && Times(c.supply, c.feed.price) <= MAX_SHARES)
    ensures !DueTooDear(c, now)
  {
    hide Sum, Total, Backing;
    HoldingsWithinSupply(c, 0);
    if c.feed.Feed? {
      forall i | 0 <= i < |c.settles| ensures Times(c.settles[i].balance, c.feed.price) <= MAX_SHARES {
        MulMonotone(c.feed.price.quote, c.settles[i].balance, c.supply);
        FloorMonotone(c.settles[i].balance * c.feed.price.quote, c.supply * c.feed.price.quote, c.feed.price.base);
      }
    }
  }

  lemma SmallDebts(c: Coin)
    requires Solid(c) && c.swan.None? && c.supply <= MAX_SHARES
    ensures !Huge(c.calls)
  {
    forall i | 0 <= i < |c.calls| ensures c.calls[i].debt <= MAX_SHARES { DebtsAreOwed(c, i); }
  }

  lemma PassingChains(c0: Coin, c: Coin, r: Coin, t: Terms)
    requires Passing(c0, c, c.volume, t) && Passing(c, r, r.volume, t) && MaxVolume(c, t) == MaxVolume(c0, t)
    ensures Passing(c0, r, r.volume, t)
  {
    hide Solid, Secured, Backing, InDateOrder, MaxVolume;
  }

  /** The pass over one coin's requests.  The one in front is given back after a black swan; left alone until due; given back
      when there is no feed; otherwise served at the feed price less the offset, while there is room under the cap. */
  ghost function Pass(c: Coin, now: nat, t: Terms): Passage
    requires Solid(c) && Secured(c) && t.Ok()
    decreases |c.settles|, c.volume < MaxVolume(c, t)
  {
    if Finished(c, now, t) then Through(c)
    else if c.swan.Some? || c.feed.NoFeed? then
      Cancels(c, c, c.volume, t);
      Pass(CancelSettle(c, 0), now, t)
    else if TooDear(c) then Aborted
    else
      var p := Attended(c, t);
      AttendKeeps(c, t);
      if p.Through? then Pass(p.coin, now, t) else p
  }

  /** What the request in front asks for is more than the largest amount. */
  predicate TooDear(c: Coin)
    requires c.settles != [] && c.feed.Feed?
  {
    c.feed.price.base > 0 && Times(c.settles[0].balance, c.feed.price) > MAX_SHARES
  }

  ghost function Attended(c: Coin, t: Terms): Passage
    requires Solid(c) && Secured(c) && t.Ok() && c.settles != [] && c.swan.None? && c.feed.Feed?
  {
    Serve(c, Price(c.settles[0].balance, Worth(c, t)), MaxVolume(c, t), t)
  }

  lemma AttendKeeps(c: Coin, t: Terms)
    requires Solid(c) && Secured(c) && t.Ok() && c.settles != [] && c.swan.None? && c.feed.Feed?
    ensures var p := Attended(c, t);
            && !p.Aborted? && (p.Starved? ==> Huge(c.calls))
            && (p.Through? ==>
                && Passing(c, p.coin, p.coin.volume, t) && Behind(c, p.coin) && MaxVolume(p.coin, t) == MaxVolume(c, t)
                && (p.coin.settles == c.settles[1..] || p.coin.volume >= MaxVolume(c, t)) && (Huge(p.coin.calls) ==> Huge(c.calls)))
  {
    hide Solid, Secured, Backing, InDateOrder, Serve, MaxVolume, Worth, Huge;
    Priced(c);
    ServeKeeps(c, Price(c.settles[0].balance, Worth(c, t)), MaxVolume(c, t), t);
    if Attended(c, t).Through? { SameCap(c, Attended(c, t).coin, t); }
  }

  lemma Priced(c: Coin)
    requires Solid(c)
    ensures c.feed.Feed? ==> c.feed.price.base > 0
  {
  }

  /** Some due request asks for more than the largest amount. */
  ghost predicate DueTooDear(c: Coin, now: nat)
  {
    c.swan.None? && c.feed.Feed? && c.feed.price.base > 0
    && exists i | 0 <= i < |c.settles| :: c.settles[i].date <= now && Times(c.settles[i].balance, c.feed.price) > MAX_SHARES
  }

  /** One step of the pass, on the request in front. */
  ghost function Next(c: Coin, now: nat, t: Terms): Option<Coin>
    requires Solid(c) && Secured(c) && t.Ok()
  {
    if Finished(c, now, t) then None
    else if c.swan.Some? || c.feed.NoFeed? then Some(CancelSettle(c, 0))
    else if !TooDear(c) && Attended(c, t).Through? then Some(Attended(c, t).coin)
    else None
  }

  ghost predicate PassStep(c: Coin, r: Coin, now: nat, t: Terms) { Solid(c) && Secured(c) && t.Ok() && Next(c, now, t) == Some(r) }

  /** Every step keeps the books, the cap and the other requests, and brings the end nearer. */
  lemma StepKeeps(c: Coin, r: Coin, now: nat, t: Terms)
    requires PassStep(c, r, now, t)
    ensures Solid(r) && Secured(r) && c.settles != [] && Passing(c, r, r.volume, t) && MaxVolume(r, t) == MaxVolume(c, t)
    ensures Pass(c, now, t) == Pass(r, now, t)
    ensures r.settles == c.settles[1..] || (c.volume < MaxVolume(c, t) <= r.volume && |r.settles| == |c.settles| && Finished(r, now, t))
    ensures Huge(r.calls) ==> Huge(c.calls)
  {
    hide Solid, Secured, Backing, InDateOrder, Attended, MaxVolume, Huge, CancelSettle;
    if c.swan.Some? || c.feed.NoFeed? { Unmoved(c, t); Cancels(c, c, c.volume, t); } else { AttendKeeps(c, t); }
  }

  lemma PassEnds(c: Coin, now: nat, t: Terms)
    requires Solid(c) && Secured(c) && t.Ok() && Next(c, now, t).None?
    ensures Finished(c, now, t) ==> Pass(c, now, t) == Through(c)
    ensures !Finished(c, now, t) ==> c.settles != [] && c.swan.None? && c.feed.Feed? && c.settles[0].date <= now
    ensures !Finished(c, now, t) ==> Pass(c, now, t) == if TooDear(c) then Aborted else Starved
    ensures Pass(c, now, t).Starved? ==> Huge(c.calls)
  {
    hide Solid, Secured, Backing, InDateOrder, Attended, MaxVolume, Huge, CancelSettle, Times;
    if !Finished(c, now, t) && !TooDear(c) { AttendKeeps(c, t); }
  }

  /** The whole pass over one coin: it keeps the books and never passes the cap; it ends with nothing left, nothing due or no
      room; it throws only over a due request that is too dear, and starves only over a debt above the largest amount. */
  lemma {:induction false} PassKeeps(c: Coin, now: nat, t: Terms)
    requires Solid(c) && Secured(c) && t.Ok()
    ensures var p := Pass(c, now, t);
            && (p.Through? ==> Passing(c, p.coin, p.coin.volume, t) && MaxVolume(p.coin, t) == MaxVolume(c, t) && Finished(p.coin, now, t))
            && (p.Aborted? ==> DueTooDear(c, now)) && (p.Starved? ==> Huge(c.calls))
    decreases |c.settles|, c.volume < MaxVolume(c, t)
  {
    hide Solid, Secured, Backing, InDateOrder, Next, MaxVolume, Huge, Pass, Times, Passing, Finished;
    if Next(c, now, t).Some? {
      var r := Next(c, now, t).value;
      StepKeeps(c, r, now, t);
      PassKeeps(r, now, t);
      var p := Pass(r, now, t);
      if p.Through? { PassingChains(c, r, p.coin, t); }
      if p.Aborted? && r.settles == c.settles[1..] { StillDear(c, r, now, t); }
      if p.Aborted? && Finished(r, now, t) { Rests(r, now, t); }
    } else {
      Unmoved(c, t);
      PassEnds(c, now, t);
    }
  }

  lemma Rests(c: Coin, now: nat, t: Terms)
    requires Solid(c) && Secured(c) && t.Ok() && Finished(c, now, t)
    ensures Pass(c, now, t) == Through(c)
  {
  }

  lemma StillDear(c: Coin, r: Coin, now: nat, t: Terms)
    requires Passing(c, r, r.volume, t) && DueTooDear(r, now) && c.settles != [] && r.settles == c.settles[1..]
    ensures DueTooDear(c, now)
  {
    hide Times;
    var i :| 0 <= i < |r.settles| && r.settles[i].date <= now && Times(r.settles[i].balance, r.feed.price) > MAX_SHARES;
    assert c.settles[i + 1] == r.settles[i];
  }

  // ---------------------------------------------------------------- who is paid what

  /** One match of a request: the position as it was, how much of the request it takes, what it pays, and the fee on that. */
  datatype Match = Match(position: Call, taken: nat, pays: nat, fee: nat)

  function TakenIn(m: Match): int { m.taken }
  function FeeIn(m: Match): int { m.fee }
  function PaidIn(m: Match): int { m.pays - m.fee }
  function PaidBy(who: Account): Match -> int { (m: Match) => if m.position.borrower == who then m.pays else 0 }
  function CoveredFor(who: Account): Match -> int { (m: Match) => if m.position.borrower == who then m.taken else 0 }

  /** A position whose whole debt is taken gives back what it did not pay. */
  function FreedFor(who: Account): Match -> int
  {
    (m: Match) => if m.position.borrower == who && m.taken == m.position.debt then m.position.collateral - m.pays else 0
  }

  /** The match is made at this price, rounded down. */
  ghost predicate AtPrice(m: Match, price: Price, t: Terms)
  {
    && price.base * m.pays <= m.taken * price.quote < price.base * (m.pays + 1)
    && IsFee(t.backFee, m.pays, m.fee) && m.pays < m.position.collateral && 0 < m.taken <= m.position.debt
  }

  /** From `c` to `r` the request's owner gives up what is taken and gets what is paid, less the fees; every borrower pays for
      what is taken off their debt, and gets back what is left when all of it is; nobody else is touched. */
  ghost predicate Moves(c: Coin, r: Coin, matches: seq<Match>, owner: Account, who: Account)
  {
    && At(r.backBal, who) == At(c.backBal, who) + Sum(FreedFor(who), matches) + (if owner == who then Sum(PaidIn, matches) else 0)
    && Owns(r, who) == Owns(c, who) - Sum(PaidBy(who), matches) + (if owner == who then Sum(PaidIn, matches) else 0)
    && Holds(r, who) == Holds(c, who) - (if owner == who then Sum(TakenIn, matches) else 0)
    && Owing(r, who) == Owing(c, who) - Sum(CoveredFor(who), matches)
    && r.backFees == c.backFees + Sum(FeeIn, matches)
    && r.volume == c.volume + Sum(TakenIn, matches) && r.supply == c.supply - Sum(TakenIn, matches)
  }

  /** So for every account. */
  ghost predicate AllMove(c: Coin, r: Coin, matches: seq<Match>, owner: Account) { forall who: Account :: Moves(c, r, matches, owner, who) }

  lemma NoMatches(c: Coin, r: Coin, owner: Account, who: Account)
    requires At(r.backBal, who) == At(c.backBal, who) && Owns(r, who) == Owns(c, who) && Holds(r, who) == Holds(c, who) && Owing(r, who) == Owing(c, who)
    requires r.backFees == c.backFees && r.volume == c.volume && r.supply == c.supply
    ensures Moves(c, r, [], owner, who)
  {
  }

  lemma OneMatch(c: Coin, r: Coin, m: Match, owner: Account, who: Account)
    requires m.pays <= m.position.collateral
    requires var mine := m.position.borrower == who;
             && At(r.backBal, who) == At(c.backBal, who) + (if mine && m.taken == m.position.debt then m.position.collateral - m.pays else 0)
                                      + (if owner == who then m.pays - m.fee else 0)
             && Owns(r, who) == Owns(c, who) - (if mine then m.pays else 0) + (if owner == who then m.pays - m.fee else 0)
             && Holds(r, who) == Holds(c, who) - (if owner == who then m.taken else 0)
             && Owing(r, who) == Owing(c, who) - (if mine then m.taken else 0)
    requires r.backFees == c.backFees + m.fee && r.volume == c.volume + m.taken && r.supply == c.supply - m.taken
    ensures Moves(c, r, [m], owner, who)
  {
    hide Owns, Holds, Owing, At, Sum;
    SumOne(FreedFor(who), m);
    SumOne(PaidIn, m);
    SumOne(PaidBy(who), m);
    SumOne(TakenIn, m);
    SumOne(CoveredFor(who), m);
    SumOne(FeeIn, m);
  }

  lemma MovesChain(c: Coin, d: Coin, r: Coin, first: seq<Match>, rest: seq<Match>, owner: Account, who: Account)
    requires Moves(c, d, first, owner, who) && Moves(d, r, rest, owner, who)
    ensures Moves(c, r, first + rest, owner, who)
  {
    hide Owns, Holds, Owing, At, Sum;
    SumConcat(FreedFor(who), first, rest);
    SumConcat(PaidIn, first, rest);
    SumConcat(PaidBy(who), first, rest);
    SumConcat(TakenIn, first, rest);
    SumConcat(CoveredFor(who), first, rest);
    SumConcat(FeeIn, first, rest);
  }

  ghost function MatchOf(c: Coin, i: nat, price: Price, room: nat, t: Terms): Match
    requires c.settles != [] && i < |c.calls| && price.base > 0
  {
    var pays := Times(Taken(c, i, room), price);
    Match(c.calls[i], Taken(c, i, room), pays, MarketFee(t.backFee, pays))
  }

  lemma MatchMoves(c: Coin, i: nat, price: Price, room: nat, t: Terms)
    requires t.Ok() && c.settles != [] && i < |c.calls| && price.base > 0 && c.calls[i].debt <= c.supply && Taken(c, i, room) > 0
    requires MatchSettle(c, i, price, room, t).Some?
    ensures var m := MatchOf(c, i, price, room, t);
            && m.position == c.calls[i] && m.taken == Taken(c, i, room) && AtPrice(m, price, t)
            && AllMove(c, MatchSettle(c, i, price, room, t).value.(volume := c.volume + m.taken), [m], c.settles[0].owner)
  {
    hide Times, MarketFee, IsFee, MatchSettle, Moves;
    var m := MatchOf(c, i, price, room, t);
    TimesIsGreatest(m.taken, price, m.pays);
    TimesIsGreatest(m.taken, price, m.pays + 1);
    FeeIsGreatest(t.backFee, m.pays);
    Matchable(c, i, price, room, t);
    var r := MatchSettle(c, i, price, room, t).value.(volume := c.volume + m.taken);
    forall who: Account ensures Moves(c, r, [m], c.settles[0].owner, who) {
      MatchMovesFor(c, i, price, room, t, who);
    }
  }

  lemma Matchable(c: Coin, i: nat, price: Price, room: nat, t: Terms)
    requires t.Ok() && c.settles != [] && i < |c.calls| && price.base > 0 && c.calls[i].debt <= c.supply
    requires MatchSettle(c, i, price, room, t).Some?
    ensures Times(Taken(c, i, room), price) < c.calls[i].collateral
  {
  }

  lemma MatchMovesFor(c: Coin, i: nat, price: Price, room: nat, t: Terms, who: Account)
    requires t.Ok() && c.settles != [] && i < |c.calls| && price.base > 0 && c.calls[i].debt <= c.supply
    requires MatchSettle(c, i, price, room, t).Some?
    ensures var m := MatchOf(c, i, price, room, t);
            Moves(c, MatchSettle(c, i, price, room, t).value.(volume := c.volume + m.taken), [m], c.settles[0].owner, who)
  {
    hide Times, MarketFee, FillSettle, FillCall, Owns, Holds, Owing, At, Sum;
    var m := MatchOf(c, i, price, room, t);
    var n, pays := m.taken, m.pays;
    var d := FillCall(c, i, pays, n);
    FillsAside(c, i, pays, n, c.volume);
    FillCallAccounts(c, i, pays, n, who);
    FillSettleAccounts(d, 0, n, pays, t, who);
    Supplies(c, i, n, pays, t);
    VolumeApart(FillSettle(d, 0, n, pays, t), c.volume + n, who);
    OneMatch(c, FillSettle(d, 0, n, pays, t).(volume := c.volume + n), m, c.settles[0].owner, who);
  }

  lemma Supplies(c: Coin, i: nat, n: nat, pays: nat, t: Terms)
    requires t.Ok() && c.settles != [] && i < |c.calls| && pays <= c.calls[i].collateral && n <= c.calls[i].debt && n <= c.supply && n <= c.settles[0].balance
    ensures var d := FillCall(c, i, pays, n);
            d.settles == c.settles && FillSettle(d, 0, n, pays, t).supply == c.supply - n
  {
  }

  lemma VolumeApart(c: Coin, volume: nat, who: Account)
    ensures var v := c.(volume := volume);
            Owns(v, who) == Owns(c, who) && Holds(v, who) == Holds(c, who) && Owing(v, who) == Owing(c, who)
  {
  }

  /** Serving a request, match by match. */
  lemma {:induction false} ServeMoves(c: Coin, price: Price, cap: nat, t: Terms) returns (matches: seq<Match>)
    requires Servable(c, price, t) && Serve(c, price, cap, t).Through?
    ensures AllMove(c, Serve(c, price, cap, t).coin, matches, c.settles[0].owner)
    ensures forall m <- matches :: AtPrice(m, price, t) && m.taken <= c.settles[0].balance
    decreases cap - c.volume
  {
    hide Solid, Secured, MatchSettle, CancelSettle, Serve, AllMove, AtPrice, Front, MatchOf;
    matches := [];
    if c.volume < cap && c.settles[0].balance > 0 && Front(c.calls).Some? {
      var i, room := Front(c.calls).value, cap - c.volume;
      ServeStep(c, price, cap, t);
      if MatchSettle(c, i, price, room, t).None? {
        CancelMoves(c);
      } else {
        MatchMoves(c, i, price, room, t);
        var m := MatchOf(c, i, price, room, t);
        var r := MatchSettle(c, i, price, room, t).value.(volume := c.volume + m.taken);
        matches := [m];
        if m.taken < c.settles[0].balance {
          MatchBooks(c, i, price, room, t);
          var rest := ServeMoves(r, price, cap, t);
          AllMoveChain(c, r, Serve(r, price, cap, t).coin, [m], rest, c.settles[0].owner);
          matches := [m] + rest;
        }
      }
    } else {
      ServeStops(c, price, cap, t);
      if c.volume >= cap { NothingMoves(c, c.settles[0].owner); } else { CancelMoves(c); }
    }
  }

  lemma AllMoveChain(c: Coin, d: Coin, r: Coin, first: seq<Match>, rest: seq<Match>, owner: Account)
    requires AllMove(c, d, first, owner) && AllMove(d, r, rest, owner)
    ensures AllMove(c, r, first + rest, owner)
  {
    hide Moves;
    forall who: Account ensures Moves(c, r, first + rest, owner, who) { MovesChain(c, d, r, first, rest, owner, who); }
  }

  lemma NothingMoves(c: Coin, owner: Account)
    ensures AllMove(c, c, [], owner)
  {
    hide Moves;
    forall who: Account ensures Moves(c, c, [], owner, who) { NoMatches(c, c, owner, who); }
  }

  lemma CancelMoves(c: Coin)
    requires c.settles != []
    ensures AllMove(c, CancelSettle(c, 0), [], c.settles[0].owner)
  {
    hide Owns, Holds, Owing, At, Moves;
    forall who: Account ensures Moves(c, CancelSettle(c, 0), [], c.settles[0].owner, who) {
      CancelSettleAccounts(c, 0, who);
      NoMatches(c, CancelSettle(c, 0), c.settles[0].owner, who);
    }
  }

  /** Settling leaves everybody at most one position. */
  lemma {:induction false} ServeKeepsOne(c: Coin, price: Price, cap: nat, t: Terms)
    requires Servable(c, price, t) && Serve(c, price, cap, t).Through? && OnePositionEach(c)
    ensures OnePositionEach(Serve(c, price, cap, t).coin)
    decreases cap - c.volume
  {
    hide Solid, Secured, MatchSettle, CancelSettle, Serve, Front, OnePositionEach;
    CancelKeepsOne(c);
    if c.volume < cap && c.settles[0].balance > 0 && Front(c.calls).Some? {
      var i, room := Front(c.calls).value, cap - c.volume;
      ServeStep(c, price, cap, t);
      if MatchSettle(c, i, price, room, t).Some? {
        var r := MatchSettle(c, i, price, room, t).value.(volume := c.volume + Taken(c, i, room));
        MatchKeepsOne(c, i, price, room, c.volume + Taken(c, i, room), t);
        if Taken(c, i, room) < c.settles[0].balance {
          MatchBooks(c, i, price, room, t);
          ServeKeepsOne(r, price, cap, t);
        }
      }
    } else {
      ServeStops(c, price, cap, t);
    }
  }

  lemma CancelKeepsOne(c: Coin)
    requires c.settles != [] && OnePositionEach(c)
    ensures OnePositionEach(CancelSettle(c, 0))
  {
    hide Credit;
  }

  lemma MatchKeepsOne(c: Coin, i: nat, price: Price, room: nat, volume: nat, t: Terms)
    requires t.Ok() && c.settles != [] && i < |c.calls| && price.base > 0 && c.calls[i].debt <= c.supply && OnePositionEach(c)
    requires MatchSettle(c, i, price, room, t).Some?
    ensures OnePositionEach(MatchSettle(c, i, price, room, t).value.(volume := volume))
  {
    hide Times, FillCall, Credit, MarketFee;
    var n := Taken(c, i, room);
    FillsAside(c, i, Times(n, price), n, c.volume);
    FillCallKeepsOne(c, i, Times(n, price), n);
  }

  lemma {:induction false} PassKeepsOne(c: Coin, now: nat, t: Terms)
    requires Solid(c) && Secured(c) && t.Ok() && Pass(c, now, t).Through? && OnePositionEach(c)
    ensures OnePositionEach(Pass(c, now, t).coin)
    decreases |c.settles|, c.volume < MaxVolume(c, t)
  {
    hide Solid, Secured, Pass, MaxVolume, Finished, Serve, OnePositionEach, Times, CancelSettle;
    if Next(c, now, t).Some? {
      var r := Next(c, now, t).value;
      StepKeeps(c, r, now, t);
      if c.swan.Some? || c.feed.NoFeed? {
        CancelKeepsOne(c);
      } else {
        Priced(c);
        ServeKeepsOne(c, Price(c.settles[0].balance, Worth(c, t)), MaxVolume(c, t), t);
      }
      PassKeepsOne(r, now, t);
    } else {
      PassEnds(c, now, t);
    }
  }

  /** What a request is worth at the feed less the offset, with both roundings. */
  lemma WorthBounds(n: nat, feed: Price, offset: nat)
    requires feed.base > 0 && offset <= FULL_PERCENT
    ensures var w, left := Times(n, feed) * (FULL_PERCENT - offset) / FULL_PERCENT, FULL_PERCENT - offset;
            FULL_PERCENT * feed.base * w <= n * feed.quote * left < feed.base * (FULL_PERCENT * (w + 1) + left)
  {
    var x, left := Times(n, feed), FULL_PERCENT - offset;
    FloorBounds(n * feed.quote, feed.base);
    FloorBounds(x * left, FULL_PERCENT);
    Rounded(n * feed.quote, feed.base, x, left, FULL_PERCENT, x * left / FULL_PERCENT);
  }

  lemma Rounded(v: nat, b: nat, x: nat, left: nat, full: nat, w: nat)
    requires b * x <= v < b * x + b && full * w <= x * left < full * w + full && b > 0
    ensures full * b * w <= v * left < b * (full * (w + 1) + left)
  {
    MulMonotone(b, full * w, x * left);
    MulMonotone(left, b * x, v);
    MulMonotone(left, v, b * x + b);
    MulMonotone(b, x * left + 1, full * (w + 1));
    MulSwap(left, b, x);
    Spread(left, b * x, b);
    Spread(b, x * left, 1);
    Spread(b, full * (w + 1), left);
    Spread(full, w, 1);
    assert full * b * w == b * (full * w);
  }

  /** The feed price less the offset, for a match that takes `m.taken` of the request; what is lost to rounding is less than
      three units, and less than two when it takes the whole request. */
  ghost predicate AtFeed(m: Match, whole: nat, feed: Price, t: Terms)
  {
    var left := FULL_PERCENT - t.offset;
    && FULL_PERCENT * feed.base * m.pays <= m.taken * feed.quote * left < feed.base * (FULL_PERCENT * (m.pays + 2) + left)
    && (m.taken == whole ==> m.taken * feed.quote * left < feed.base * (FULL_PERCENT * (m.pays + 1) + left))
  }

  lemma MatchAtFeed(m: Match, whole: nat, worth: nat, feed: Price, t: Terms)
    requires feed.base > 0 && t.Ok() && 0 < m.taken <= whole && AtPrice(m, Price(whole, worth), t)
    requires worth == Times(whole, feed) * (FULL_PERCENT - t.offset) / FULL_PERCENT
    ensures AtFeed(m, whole, feed, t)
  {
    hide IsFee, Times;
    var left, b, k := FULL_PERCENT - t.offset, FULL_PERCENT * feed.base, m.taken;
    WorthBounds(whole, feed, t.offset);
    Share(whole, k, worth, m.pays, b, whole * feed.quote * left, feed.base * (FULL_PERCENT + left));
    assert k * (whole * feed.quote * left) == whole * (k * feed.quote * left);
    CancelFactor(whole, b * m.pays, k * feed.quote * left);
    var above := b * (m.pays + 1) + feed.base * (FULL_PERCENT + left);
    if above <= k * feed.quote * left { MulMonotone(whole, above, k * feed.quote * left); assert false; }
    assert above == feed.base * (FULL_PERCENT * (m.pays + 2) + left);
    if k == whole {
      if m.pays < worth { MulMonotone(whole, m.pays + 1, worth); assert false; }
      MulMonotone(feed.base, FULL_PERCENT * (worth + 1) + left, FULL_PERCENT * (m.pays + 1) + left);
    }
  }

  /** A share `k` of `n` that pays `p` of `w`, where `b` times `w` is `v` up to `slack`. */
  lemma Share(n: nat, k: nat, w: nat, p: nat, b: nat, v: nat, slack: nat)
    requires 0 < k <= n && n * p <= k * w < n * (p + 1) && b > 0
    requires b * w <= v < b * w + slack
    ensures n * (b * p) <= k * v < n * (b * (p + 1) + slack)
  {
    MulMonotone(b, n * p, k * w);
    MulMonotone(b, k * w + 1, n * (p + 1));
    MulMonotone(k, b * w, v);
    MulMonotone(k, v, b * w + slack);
    MulMonotone(slack, k, n);
    MulSwap(n, b, p);
    MulSwap(k, b, w);
    MulSwap(n, b, p + 1);
    Spread(k, b * w, slack);
    Spread(n, b * (p + 1), slack);
    Spread(b, k * w, 1);
  }

  lemma Spread(x: nat, y: nat, z: nat)
    ensures x * (y + z) == x * y + x * z
  {
  }

  /** One step of the pass over a due request: its owner is paid the feed price less the offset, match by match. */
  lemma StepMoves(c: Coin, r: Coin, now: nat, t: Terms) returns (matches: seq<Match>)
    requires PassStep(c, r, now, t) && c.settles != []
    ensures AllMove(c, r, matches, c.settles[0].owner)
    ensures c.swan.Some? || c.feed.NoFeed? ==> matches == []
    ensures c.feed.Feed? ==> forall m <- matches :: AtFeed(m, c.settles[0].balance, c.feed.price, t)
    ensures forall m <- matches :: 0 < m.taken <= c.settles[0].balance && IsFee(t.backFee, m.pays, m.fee)
  {
    hide Solid, Secured, Serve, AllMove, IsFee, AtFeed, Times, CancelSettle;
    if c.swan.Some? || c.feed.NoFeed? {
      CancelMoves(c);
      matches := [];
    } else {
      Priced(c);
      var n, worth := c.settles[0].balance, Worth(c, t);
      matches := ServeMoves(c, Price(n, worth), MaxVolume(c, t), t);
      forall m <- matches ensures AtFeed(m, n, c.feed.price, t) { MatchAtFeed(m, n, worth, c.feed.price, t); }
    }
  }

  // ------------------------------------------------------------- when it fails, exactly

  /** The request in front can be served at `price`. */
  ghost predicate Servable(c: Coin, price: Price, t: Terms)
  {
    Solid(c) && Secured(c) && c.swan.None? && t.Ok() && c.settles != [] && (c.settles[0].balance > 0 ==> price.base > 0)
  }

  /** A match that leaves something of the request in front. */
  ghost predicate PartMatch(c: Coin, r: Coin, price: Price, cap: nat, t: Terms)
  {
    && Servable(c, price, t) && c.volume < cap && c.settles[0].balance > 0 && Front(c.calls).Some?
    && var i, room := Front(c.calls).value, cap - c.volume;
       && c.calls[i].debt <= c.supply && Taken(c, i, room) < c.settles[0].balance && MatchSettle(c, i, price, room, t).Some?
       && r == MatchSettle(c, i, price, room, t).value.(volume := c.volume + Taken(c, i, room))
  }

  /** There is room and a request, but every position owes more than the search can reach. */
  ghost predicate BeyondSearch(c: Coin, cap: nat)
  {
    && c.settles != [] && c.volume < cap && c.settles[0].balance > 0
    && forall i | 0 <= i < |c.calls| :: c.calls[i].debt > MAX_SHARES * c.calls[i].collateral
  }

  /** Matches of the request in front lead to such a coin. */
  ghost predicate RunsDry(c: Coin, trace: seq<Coin>, price: Price, cap: nat, t: Terms)
  {
    && trace != [] && trace[0] == c && BeyondSearch(trace[|trace| - 1], cap)
    && forall i | 0 <= i < |trace| - 1 :: PartMatch(trace[i], trace[i + 1], price, cap, t)
  }

  lemma PartKeeps(c: Coin, r: Coin, price: Price, cap: nat, t: Terms)
    requires PartMatch(c, r, price, cap, t)
    ensures Servable(r, price, t) && c.volume < r.volume && c.volume < cap && Serve(c, price, cap, t) == Serve(r, price, cap, t) && !BeyondSearch(c, cap)
  {
    hide Solid, Secured, MatchSettle, CancelSettle, Front, Serve;
    ServeStep(c, price, cap, t);
    Reach(c);
  }

  lemma Reach(c: Coin)
    requires Solid(c) && c.swan.None? && Secured(c)
    ensures Front(c.calls).None? <==> forall i | 0 <= i < |c.calls| :: c.calls[i].debt > MAX_SHARES * c.calls[i].collateral
  {
    hide Solid, Secured, Eligible, Front;
    forall i | 0 <= i < |c.calls| ensures Eligible(c.calls[i]) <==> c.calls[i].debt <= MAX_SHARES * c.calls[i].collateral { NoneSkipped(c, i); }
  }

  lemma OnlyParts(c: Coin, r: Coin, price: Price, cap: nat, t: Terms)
    requires Servable(c, price, t) && c.volume < cap && c.settles[0].balance > 0 && Front(c.calls).Some?
    requires var i, room := Front(c.calls).value, cap - c.volume;
             && c.calls[i].debt <= c.supply && Taken(c, i, room) < c.settles[0].balance && MatchSettle(c, i, price, room, t).Some?
             && r == MatchSettle(c, i, price, room, t).value.(volume := c.volume + Taken(c, i, room))
    ensures PartMatch(c, r, price, cap, t)
  {
  }

  lemma FirstPart(c: Coin, trace: seq<Coin>, price: Price, cap: nat, t: Terms)
    requires RunsDry(c, trace, price, cap, t)
    ensures if |trace| == 1 then BeyondSearch(c, cap) else PartMatch(c, trace[1], price, cap, t)
  {
    hide PartMatch, BeyondSearch;
  }

  lemma NoPart(c: Coin, price: Price, cap: nat, t: Terms)
    requires Servable(c, price, t) && forall r :: !PartMatch(c, r, price, cap, t)
    ensures Serve(c, price, cap, t).Starved? <==> BeyondSearch(c, cap)
  {
    hide Solid, Secured, MatchSettle, Serve, Front;
    Reach(c);
    if c.volume < cap && c.settles[0].balance > 0 && Front(c.calls).Some? {
      ServeStep(c, price, cap, t);
      var i, room := Front(c.calls).value, cap - c.volume;
      var m, n := MatchSettle(c, i, price, room, t), Taken(c, i, room);
      if m.Some? && n < c.settles[0].balance { OnlyParts(c, m.value.(volume := c.volume + n), price, cap, t); assert false; }
    } else {
      ServeStops(c, price, cap, t);
    }
  }

  /** Serving a request finds no position exactly then. */
  lemma {:induction false} ServeStarves(c: Coin, price: Price, cap: nat, t: Terms)
    requires Servable(c, price, t)
    ensures Serve(c, price, cap, t).Starved? <==> exists trace :: RunsDry(c, trace, price, cap, t)
    decreases cap - c.volume
  {
    hide Servable, PartMatch, BeyondSearch, Serve;
    if r :| PartMatch(c, r, price, cap, t) {
      PartKeeps(c, r, price, cap, t);
      Servability(r, price, t);
      ServeStarves(r, price, cap, t);
      if trace :| RunsDry(r, trace, price, cap, t) { assert RunsDry(c, [c] + trace, price, cap, t); }
      if trace :| RunsDry(c, trace, price, cap, t) {
        OneWay(c, r, trace[1], price, cap, t);
        assert RunsDry(r, trace[1..], price, cap, t);
      }
    } else {
      NoPart(c, price, cap, t);
      if BeyondSearch(c, cap) { assert RunsDry(c, [c], price, cap, t); }
      if trace :| RunsDry(c, trace, price, cap, t) { FirstPart(c, trace, price, cap, t); }
    }
  }

  lemma Servability(c: Coin, price: Price, t: Terms)
    requires Servable(c, price, t)
    ensures Solid(c) && Secured(c) && c.swan.None? && t.Ok() && c.settles != [] && (c.settles[0].balance > 0 ==> price.base > 0)
  {
  }

  lemma OneWay(c: Coin, r: Coin, r': Coin, price: Price, cap: nat, t: Terms)
    requires PartMatch(c, r, price, cap, t) && PartMatch(c, r', price, cap, t)
    ensures r == r'
  {
  }

  /** The request in front is due and there is room, and what it asks for is out of range. */
  ghost predicate FailsDear(c: Coin, now: nat, t: Terms)
  {
    Solid(c) && Secured(c) && t.Ok() && !Finished(c, now, t) && c.swan.None? && c.feed.Feed? && TooDear(c)
  }

  /** It is in range, and runs out of positions. */
  ghost predicate FailsDry(c: Coin, now: nat, t: Terms)
  {
    && Solid(c) && Secured(c) && t.Ok() && !Finished(c, now, t) && c.swan.None? && c.feed.Feed? && !TooDear(c) && c.feed.price.base > 0
    && exists trace :: RunsDry(c, trace, Price(c.settles[0].balance, Worth(c, t)), MaxVolume(c, t), t)
  }

  /** Steps of the pass lead from `c` to `d`. */
  ghost predicate Passed(c: Coin, d: Coin, trace: seq<Coin>, now: nat, t: Terms)
  {
    && trace != [] && trace[0] == c && trace[|trace| - 1] == d
    && forall i | 0 <= i < |trace| - 1 :: PassStep(trace[i], trace[i + 1], now, t)
  }

  /** The pass over one coin throws, or finds no position, exactly when that happens at some request it comes to. */
  lemma {:induction false} PassFails(c: Coin, now: nat, t: Terms)
    requires Solid(c) && Secured(c) && t.Ok()
    ensures Pass(c, now, t).Aborted? <==> exists d, trace :: Passed(c, d, trace, now, t) && FailsDear(d, now, t)
    ensures Pass(c, now, t).Starved? <==> exists d, trace :: Passed(c, d, trace, now, t) && FailsDry(d, now, t)
    decreases |c.settles|, c.volume < MaxVolume(c, t)
  {
    hide Solid, Secured, Pass, MaxVolume, PassStep, FailsDear, FailsDry, Passing, Finished, Huge, InDateOrder;
    if Next(c, now, t).Some? {
      var r := Next(c, now, t).value;
      NextIsStep(c, r, now, t);
      StepKeeps(c, r, now, t);
      PassFails(r, now, t);
      Goes(c, r, now, t);
      if d, trace :| Passed(r, d, trace, now, t) && FailsDear(d, now, t) { assert Passed(c, d, [c] + trace, now, t); }
      if d, trace :| Passed(r, d, trace, now, t) && FailsDry(d, now, t) { assert Passed(c, d, [c] + trace, now, t); }
      if d, trace :| Passed(c, d, trace, now, t) && FailsDear(d, now, t) { Shorter(c, r, d, trace, now, t); }
      if d, trace :| Passed(c, d, trace, now, t) && FailsDry(d, now, t) { Shorter(c, r, d, trace, now, t); }
    } else {
      Stays(c, now, t);
      assert Passed(c, c, [c], now, t);
    }
  }

  lemma NextIsStep(c: Coin, r: Coin, now: nat, t: Terms)
    requires Solid(c) && Secured(c) && t.Ok() && Next(c, now, t) == Some(r)
    ensures PassStep(c, r, now, t)
  {
  }

  lemma Shorter(c: Coin, r: Coin, d: Coin, trace: seq<Coin>, now: nat, t: Terms)
    requires PassStep(c, r, now, t) && Passed(c, d, trace, now, t) && d != c
    ensures Passed(r, d, trace[1..], now, t)
  {
    hide Solid, Secured, Next;
    assert PassStep(trace[0], trace[1], now, t);
  }

  lemma Goes(c: Coin, r: Coin, now: nat, t: Terms)
    requires PassStep(c, r, now, t)
    ensures !FailsDear(c, now, t) && !FailsDry(c, now, t)
  {
    hide Solid, Secured, MaxVolume, Times, RunsDry, Serve;
    Priced(c);
    if c.settles != [] && c.swan.None? && c.feed.Feed? { ServeStarves(c, Price(c.settles[0].balance, Worth(c, t)), MaxVolume(c, t), t); }
  }

  lemma FirstPass(c: Coin, d: Coin, trace: seq<Coin>, now: nat, t: Terms)
    requires Passed(c, d, trace, now, t)
    ensures d == c || (Solid(c) && Secured(c) && t.Ok() && Next(c, now, t).Some?)
  {
    hide Solid, Secured, Next;
    assert |trace| > 1 ==> PassStep(trace[0], trace[1], now, t);
  }

  lemma Stays(c: Coin, now: nat, t: Terms)
    requires Solid(c) && Secured(c) && t.Ok() && Next(c, now, t).None?
    ensures Pass(c, now, t).Aborted? <==> FailsDear(c, now, t)
    ensures Pass(c, now, t).Starved? <==> FailsDry(c, now, t)
    ensures forall d, trace :: Passed(c, d, trace, now, t) ==> d == c
  {
    hide Solid, Secured, MaxVolume, Times, RunsDry, Serve, Pass, Huge;
    Priced(c);
    PassEnds(c, now, t);
    if !Finished(c, now, t) {
      AttendKeeps(c, t);
      ServeStarves(c, Price(c.settles[0].balance, Worth(c, t)), MaxVolume(c, t), t);
    }
    forall d, trace | Passed(c, d, trace, now, t) ensures d == c { FirstPass(c, d, trace, now, t); }
  }

  /** A request for two coins, each worth the largest amount: the pass throws. */
  lemma DearRequest(t: Terms)
    requires t.Ok() && t.maxVolume == FULL_PERCENT
    ensures var c := Coin([Call(1, 1, 5, 2, Price(1, 1))], [], [Settle(2, 2, 2, 0)], [], map[], map[], 0, 0, 2, None, 0, 0,
                          Feed(Price(1, MAX_SHARES), Price(1, 1), DEFAULT_RATIO), 3);
            Solid(c) && Secured(c) && Pass(c, 1, t) == Aborted
  {
    hide Pass;
    var c := Coin([Call(1, 1, 5, 2, Price(1, 1))], [], [Settle(2, 2, 2, 0)], [], map[], map[], 0, 0, 2, None, 0, 0,
                  Feed(Price(1, MAX_SHARES), Price(1, 1), DEFAULT_RATIO), 3);
    OneCall(c.calls[0]);
    OneRequest(c.settles[0]);
    Stays(c, 1, t);
  }

  /** A position that owes more than the largest amount against a single unit is never found: a request comes away empty-handed. */
  lemma DryRequest(t: Terms)
    requires t.Ok() && t.maxVolume == FULL_PERCENT
    ensures var c := Coin([Call(1, 1, 1, MAX_SHARES + 1, Price(1, 1))], [], [Settle(2, 2, MAX_SHARES + 1, 0)], [], map[], map[], 0, 0, MAX_SHARES + 1, None, 0, 0,
                          Feed(Price(2, 1), Price(1, 1), DEFAULT_RATIO), 3);
            Solid(c) && Secured(c) && Pass(c, 1, t) == Starved
  {
    hide Pass;
    var c := Coin([Call(1, 1, 1, MAX_SHARES + 1, Price(1, 1))], [], [Settle(2, 2, MAX_SHARES + 1, 0)], [], map[], map[], 0, 0, MAX_SHARES + 1, None, 0, 0,
                  Feed(Price(2, 1), Price(1, 1), DEFAULT_RATIO), 3);
    OneCall(c.calls[0]);
    OneRequest(c.settles[0]);
    Dry(c, t);
    assert Passed(c, c, [c], 1, t);
    PassFails(c, 1, t);
  }

  lemma OneRequest(s: Settle)
    ensures Sum(Balance, [s]) == s.balance
  {
    assert [s][..0] == [];
  }

  lemma Dry(c: Coin, t: Terms)
    requires Solid(c) && Secured(c) && t.Ok() && t.maxVolume == FULL_PERCENT && c.swan.None? && c.feed.Feed? && c.volume == 0
    requires |c.calls| == 1 && c.calls[0].debt == MAX_SHARES + 1 && c.calls[0].collateral == 1 && c.supply > 0
    requires c.settles != [] && c.settles[0].balance > 0 && c.settles[0].date <= 1 && c.feed.price.base > 0 && !TooDear(c)
    ensures FailsDry(c, 1, t)
  {
    hide Solid, Secured, Worth;
    assert RunsDry(c, [c], Price(c.settles[0].balance, Worth(c, t)), MaxVolume(c, t), t);
  }

  // ------------------------------------------------------------- all coins, one queue

  /** A request in the queue of all coins, which stand in the order of their asset ids. */
  datatype Entry = Entry(asset: nat, request: Settle)

  function Tagged(asset: nat, settles: seq<Settle>): (q: seq<Entry>)
    ensures |q| == |settles| && forall j | 0 <= j < |q| :: q[j] == Entry(asset, settles[j])
  {
    seq(|settles|, j requires 0 <= j < |settles| => Entry(asset, settles[j]))
  }

  /** The index by expiration: asset by asset, each with its requests in order. */
  function Index(coins: seq<Coin>): seq<Entry>
  {
    if coins == [] then [] else Index(coins[..|coins| - 1]) + Tagged(|coins| - 1, coins[|coins| - 1].settles)
  }

  /** The first place at or after an asset. */
  function LowerBound(queue: seq<Entry>, asset: nat): (i: nat)
    ensures i <= |queue| && (i < |queue| ==> queue[i].asset >= asset) && forall j | 0 <= j < i :: queue[j].asset < asset
  {
    if queue == [] || queue[0].asset >= asset then 0 else 1 + LowerBound(queue[1..], asset)
  }

  /** The queue is ordered by asset, then by date. */
  lemma {:induction false} IndexIsOrdered(coins: seq<Coin>, i: nat, j: nat)
    requires i < j < |Index(coins)| && forall a | 0 <= a < |coins| :: InDateOrder(coins[a].settles)
    ensures var q := Index(coins);
            q[i].asset < q[j].asset < |coins| || (q[i].asset == q[j].asset < |coins| && q[i].request.date <= q[j].request.date)
  {
    var n := |coins| - 1;
    var front := Index(coins[..n]);
    if j < |front| { IndexIsOrdered(coins[..n], i, j); }
    else if i < |front| { BelowLast(coins[..n], i); }
  }

  lemma {:induction false} BelowLast(coins: seq<Coin>, i: nat)
    requires i < |Index(coins)|
    ensures Index(coins)[i].asset < |coins|
  {
    var n := |coins| - 1;
    if i < |Index(coins[..n])| { BelowLast(coins[..n], i); }
  }

  /** What a search from `asset` finds is the first request of the first coin from there that has any. */
  lemma {:induction false} IndexFinds(coins: seq<Coin>, asset: nat)
    ensures var q := Index(coins);
            var i := LowerBound(q, asset);
            if i == |q| then forall b | asset <= b < |coins| :: coins[b].settles == []
            else
              && asset <= q[i].asset < |coins| && coins[q[i].asset].settles != [] && q[i].request == coins[q[i].asset].settles[0]
              && forall b | asset <= b < q[i].asset :: coins[b].settles == []
  {
    if coins != [] {
      var n := |coins| - 1;
      var front, last := Index(coins[..n]), Tagged(n, coins[n].settles);
      IndexFinds(coins[..n], asset);
      Concatenated(front, last, asset);
      assert forall b | 0 <= b < n :: coins[..n][b] == coins[b];
    }
  }

  lemma {:induction false} Concatenated(q: seq<Entry>, r: seq<Entry>, asset: nat)
    ensures LowerBound(q + r, asset) == if LowerBound(q, asset) < |q| then LowerBound(q, asset) else |q| + LowerBound(r, asset)
  {
    if q == [] { assert q + r == r; }
    else if q[0].asset < asset {
      assert (q + r)[1..] == q[1..] + r;
      Concatenated(q[1..], r, asset);
    }
  }

  lemma {:induction false} IndexLength(coins: seq<Coin>, a: nat, c: Coin)
    requires a < |coins|
    ensures |Index(coins[a := c])| == |Index(coins)| - |coins[a].settles| + |c.settles|
  {
    var n := |coins| - 1;
    if a < n {
      assert coins[a := c][..n] == coins[..n][a := c];
      IndexLength(coins[..n], a, c);
    } else {
      assert coins[a := c][..n] == coins[..n];
    }
  }

  ghost predicate Coins(coins: seq<Coin>, terms: seq<Terms>)
  {
    |terms| == |coins| && forall a | 0 <= a < |coins| :: Solid(coins[a]) && Secured(coins[a]) && terms[a].Ok()
  }

  /** The same passes lie ahead of every coin. */
  ghost predicate SamePasses(coins0: seq<Coin>, coins: seq<Coin>, now: nat, terms: seq<Terms>)
    requires Coins(coins0, terms) && Coins(coins, terms)
  {
    forall a | 0 <= a < |coins| :: Pass(coins[a], now, terms[a]) == Pass(coins0[a], now, terms[a])
  }

  ghost predicate AllThrough(coins0: seq<Coin>, coins: seq<Coin>, n: nat, now: nat, terms: seq<Terms>)
    requires Coins(coins0, terms) && |coins| == |coins0| && n <= |coins|
  {
    forall a | 0 <= a < n :: Pass(coins0[a], now, terms[a]) == Through(coins[a])
  }

  predicate FinishedUpTo(coins: seq<Coin>, n: nat, now: nat, terms: seq<Terms>)
    requires |terms| == |coins| && n <= |coins|
  {
    forall a | 0 <= a < n :: Finished(coins[a], now, terms[a])
  }

  /** One step on the first coin that is not finished. */
  ghost predicate QueueStep(coins: seq<Coin>, next: seq<Coin>, now: nat, terms: seq<Terms>)
  {
    |terms| == |coins| == |next| && exists a | 0 <= a < |coins| ::
      PassStep(coins[a], next[a], now, terms[a]) && next == coins[a := next[a]] && FinishedUpTo(coins, a, now, terms)
  }

  ghost predicate QueueTrace(coins0: seq<Coin>, coins: seq<Coin>, trace: seq<seq<Coin>>, now: nat, terms: seq<Terms>)
  {
    && trace != [] && trace[0] == coins0 && trace[|trace| - 1] == coins
    && forall i | 0 <= i < |trace| - 1 :: QueueStep(trace[i], trace[i + 1], now, terms)
  }

  lemma QueueMoves(coins0: seq<Coin>, coins: seq<Coin>, trace: seq<seq<Coin>>, a: nat, r: Coin, now: nat, terms: seq<Terms>)
    requires Coins(coins0, terms) && Coins(coins, terms) && SamePasses(coins0, coins, now, terms) && QueueTrace(coins0, coins, trace, now, terms)
    requires a < |coins| && FinishedUpTo(coins, a, now, terms) && PassStep(coins[a], r, now, terms[a])
    ensures var next := coins[a := r];
            && Coins(next, terms) && SamePasses(coins0, next, now, terms) && FinishedUpTo(next, a, now, terms)
            && QueueTrace(coins0, next, trace + [next], now, terms)
            && MaxVolume(r, terms[a]) == MaxVolume(coins[a], terms[a])
            && (|Index(next)| < |Index(coins)|
                || (|Index(next)| == |Index(coins)| && coins[a].volume < MaxVolume(coins[a], terms[a]) <= r.volume))
  {
    hide Solid, Secured, PassStep, Pass, MaxVolume, Index, Passing, Finished, Huge;
    StepKeeps(coins[a], r, now, terms[a]);
    IndexLength(coins, a, r);
    var next := coins[a := r];
    assert next[a] == r;
    assert QueueStep(coins, next, now, terms);
  }

  lemma AllFinished(coins0: seq<Coin>, coins: seq<Coin>, n: nat, now: nat, terms: seq<Terms>)
    requires Coins(coins0, terms) && Coins(coins, terms) && |coins0| == |coins| && SamePasses(coins0, coins, now, terms)
    requires n <= |coins| && FinishedUpTo(coins, n, now, terms)
    ensures AllThrough(coins0, coins, n, now, terms)
  {
    hide Solid, Secured, Pass, MaxVolume, Finished;
    forall a | 0 <= a < n ensures Pass(coins0[a], now, terms[a]) == Through(coins[a]) { Rests(coins[a], now, terms[a]); }
  }

  datatype Cleared = Cleared(coins: seq<Coin>) | Failed(asset: nat) | Lost(asset: nat)

  /** clear_expired_orders: each round consumes the request found, fills the room under its coin's cap, or moves on to the next
      asset; the cap is computed once for each asset. */
  method ClearExpired(coins0: seq<Coin>, now: nat, terms: seq<Terms>) returns (out: Cleared, ghost trace: seq<seq<Coin>>)
    requires Coins(coins0, terms)
    ensures out.Cleared? ==> |out.coins| == |coins0| && AllThrough(coins0, out.coins, |coins0|, now, terms)
    ensures out.Cleared? ==> QueueTrace(coins0, out.coins, trace, now, terms)
    ensures !out.Cleared? ==> out.asset < |coins0| && Pass(coins0[out.asset], now, terms[out.asset]) == (if out.Failed? then Aborted else Starved)
    ensures !out.Cleared? ==> forall a | 0 <= a < out.asset :: Pass(coins0[a], now, terms[a]).Through?
  {
    hide Solid, Secured, Pass, MaxVolume, Index, LowerBound, PassStep, CancelSettle, Worth, Attended, Huge, Times;
    hide QueueTrace, Coins, SamePasses, FinishedUpTo, AllThrough, Serve, Finished, TooDear;
    var coins := coins0;
    trace := [coins0];
    var queue := Index(coins);
    var current: nat := if queue == [] then 0 else queue[0].asset;
    var cap: nat, capOf: Option<nat> := 0, None;
    Starts(coins0, now, terms);
    while true
      invariant |coins| == |coins0| == |terms| && current <= |coins| && queue == Index(coins)
      invariant Coins(coins, terms) && SamePasses(coins0, coins, now, terms) && FinishedUpTo(coins, current, now, terms)
      invariant QueueTrace(coins0, coins, trace, now, terms)
      invariant capOf.Some? ==> capOf.value <= current
      invariant capOf == Some(current) && current < |coins| ==> cap == MaxVolume(coins[current], terms[current])
      decreases |queue|, |coins| - current, current < |coins| && coins[current].volume < MaxVolume(coins[current], terms[current])
    {
      IndexFinds(coins, current);
      var itr := LowerBound(queue, current);
      if itr == |queue| {
        SkipsEmpty(coins, current, |coins|, now, terms);
        AllFinished(coins0, coins, |coins|, now, terms);
        return Cleared(coins), trace;
      }
      SkipsEmpty(coins, current, queue[itr].asset, now, terms);
      current := queue[itr].asset;
      var c, t := coins[current], terms[current];
      ThisOne(coins, current, terms);
      if c.swan.Some? {
        Steps(c, now, t);
        QueueMoves(coins0, coins, trace, current, CancelSettle(c, 0), now, terms);
        coins := coins[current := CancelSettle(c, 0)];
      } else if queue[itr].request.date > now {
        var bound := LowerBound(queue, current + 1);
        Leaves(coins, current, now, terms);
        IndexFinds(coins, current + 1);
        if bound == |queue| {
          SkipsEmpty(coins, current + 1, |coins|, now, terms);
          AllFinished(coins0, coins, |coins|, now, terms);
          return Cleared(coins), trace;
        }
        SkipsEmpty(coins, current + 1, queue[bound].asset, now, terms);
        current := queue[bound].asset;
        continue;
      } else if c.feed.NoFeed? {
        Steps(c, now, t);
        QueueMoves(coins0, coins, trace, current, CancelSettle(c, 0), now, terms);
        coins := coins[current := CancelSettle(c, 0)];
      } else {
        if capOf != Some(current) { cap, capOf := MaxVolume(c, t), Some(current); }
        if c.volume >= cap {
          var bound := LowerBound(queue, current + 1);
          Leaves(coins, current, now, terms);
          IndexFinds(coins, current + 1);
          if bound == |queue| {
            SkipsEmpty(coins, current + 1, |coins|, now, terms);
            AllFinished(coins0, coins, |coins|, now, terms);
            return Cleared(coins), trace;
          }
          SkipsEmpty(coins, current + 1, queue[bound].asset, now, terms);
          current := queue[bound].asset;
          continue;
        }
        Steps(c, now, t);
        AllFinished(coins0, coins, current, now, terms);
        SamePass(coins0, coins, current, now, terms);
        if Times(c.settles[0].balance, c.feed.price) > MAX_SHARES { return Failed(current), trace; }
        var p := SettleRequest(c, Price(c.settles[0].balance, Worth(c, t)), cap, t);
        if p.Starved? { return Lost(current), trace; }
        QueueMoves(coins0, coins, trace, current, p.coin, now, terms);
        coins := coins[current := p.coin];
      }
      queue := Index(coins);
      trace := trace + [coins];
    }
  }

  lemma Starts(coins: seq<Coin>, now: nat, terms: seq<Terms>)
    requires Coins(coins, terms)
    ensures |terms| == |coins| && SamePasses(coins, coins, now, terms) && QueueTrace(coins, coins, [coins], now, terms)
    ensures var q := Index(coins);
            var first := if q == [] then 0 else q[0].asset; first <= |coins| && FinishedUpTo(coins, first, now, terms)
  {
    IndexFinds(coins, 0);
  }

  lemma SkipsEmpty(coins: seq<Coin>, from: nat, to: nat, now: nat, terms: seq<Terms>)
    requires |terms| == |coins| && from <= to <= |coins| && FinishedUpTo(coins, from, now, terms)
    requires forall b | from <= b < to :: coins[b].settles == []
    ensures FinishedUpTo(coins, to, now, terms)
  {
  }

  lemma ThisOne(coins: seq<Coin>, a: nat, terms: seq<Terms>)
    requires Coins(coins, terms) && a < |coins|
    ensures Solid(coins[a]) && Secured(coins[a]) && terms[a].Ok() && (coins[a].feed.Feed? ==> coins[a].feed.price.base > 0)
  {
  }

  lemma SamePass(coins0: seq<Coin>, coins: seq<Coin>, a: nat, now: nat, terms: seq<Terms>)
    requires Coins(coins0, terms) && Coins(coins, terms) && SamePasses(coins0, coins, now, terms) && a < |coins| == |coins0|
    requires AllThrough(coins0, coins, a, now, terms)
    ensures Solid(coins0[a]) && Secured(coins0[a]) && terms[a].Ok() && Solid(coins[a]) && Secured(coins[a])
    ensures Pass(coins[a], now, terms[a]) == Pass(coins0[a], now, terms[a])
    ensures forall b | 0 <= b < a :: Pass(coins0[b], now, terms[b]).Through?
  {
    hide Pass;
  }

  lemma Leaves(coins: seq<Coin>, a: nat, now: nat, terms: seq<Terms>)
    requires |terms| == |coins| && a < |coins| && FinishedUpTo(coins, a, now, terms) && coins[a].settles != [] && coins[a].swan.None?
    requires coins[a].settles[0].date > now || (coins[a].feed.Feed? && coins[a].volume >= MaxVolume(coins[a], terms[a]))
    ensures FinishedUpTo(coins, a + 1, now, terms)
  {
  }

  /** What a round does with the request in front when its coin is not finished. */
  lemma Steps(c: Coin, now: nat, t: Terms)
    requires Solid(c) && Secured(c) && t.Ok() && c.settles != []
    requires c.swan.Some? || (c.settles[0].date <= now && (c.feed.NoFeed? || c.volume < MaxVolume(c, t)))
    ensures c.swan.Some? || c.feed.NoFeed? ==> PassStep(c, CancelSettle(c, 0), now, t)
    ensures c.swan.None? && c.feed.Feed? ==>
              && c.feed.price.base > 0 && (Times(c.settles[0].balance, c.feed.price) > MAX_SHARES ==> Pass(c, now, t) == Aborted)
              && (Times(c.settles[0].balance, c.feed.price) <= MAX_SHARES ==>
                  var p := Serve(c, Price(c.settles[0].balance, Worth(c, t)), MaxVolume(c, t), t);
                  && !p.Aborted? && (p.Starved? ==> Pass(c, now, t) == Starved) && (p.Through? ==> PassStep(c, p.coin, now, t)))
  {
    hide Solid, Secured, MaxVolume, Times, Worth, Serve, Huge, CancelSettle;
    Priced(c);
    if c.swan.None? && c.feed.Feed? { AttendKeeps(c, t); }
  }
}
