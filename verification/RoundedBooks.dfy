/** Booking on stored rows: the code books each fill on the rows it reads back, the replay on its
    own unrounded ones. They stay in step exactly as long as nothing is rounded. */
module RoundedBooks {
  import opened Prelude
  import opened Execution
  import opened Costs
  import opened Ledger
  import opened StorageGrid

  /** Books a fill on the rows read back and stores the result: nothing if the ledger refuses,
      or if the stored rows no longer pass their validators. */
  function Persist(pf: Portfolio, e: FillEvent): (r: Option<Portfolio>)
    requires ValidPortfolio(pf) && ValidFillEvent(e)
    ensures r.Some? ==> ValidPortfolio(r.value)
  {
    var position, balance := Get(pf.positions, e.fill.symbol), Get(pf.balances, e.cost.currency);
    var u := ApplyFill(e, position, balance);
    if u.Error? then None
    else
      ApplyFillKeepsPositionsValid(e, position, balance);
      var p, b := StoredPosition(u.value.position), StoredBalance(u.value.balance);
      if !ValidPosition(p) || !ValidBalance(b) then None
      else Some(Portfolio(pf.positions[p.symbol := p], pf.balances[b.asset := b]))
  }

  /** The persisted account after a sequence of fills. */
  function PersistAll(pf: Portfolio, es: seq<FillEvent>): (r: Option<Portfolio>)
    requires ValidPortfolio(pf) && ValidFillEvents(es)
    ensures r.Some? ==> ValidPortfolio(r.value)
  {
    if es == [] then Some(pf)
    else
      var before := PersistAll(pf, es[..|es| - 1]);
      if before.None? then None else Persist(before.value, es[|es| - 1])
  }

  /** Nothing the last fill leaves has more than ten decimals: neither its row, nor the position
      and the balance as the replay books them. */
  predicate StorableBooking(after: Portfolio, e: FillEvent) {
    && StorableFill(e.fill)
    && (e.fill.symbol in after.positions ==> StorablePosition(after.positions[e.fill.symbol]))
    && (e.cost.currency in after.balances ==> StorableBalance(after.balances[e.cost.currency]))
  }

  predicate LastStorable(pf: Portfolio, es: seq<FillEvent>)
    requires ValidPortfolio(pf) && ValidFillEvents(es)
  {
    es != [] && BookAll(pf, es).Ok? ==> StorableBooking(BookAll(pf, es).value, es[|es| - 1])
  }

  /** The last fill's row is what was booked, and the persisted account is the replayed one. */
  predicate LastInStep(pf: Portfolio, es: seq<FillEvent>)
    requires ValidPortfolio(pf) && ValidFillEvents(es)
  {
    es != [] && BookAll(pf, es).Ok? ==>
      StoredFill(es[|es| - 1].fill) == es[|es| - 1].fill && PersistAll(pf, es) == Some(BookAll(pf, es).value)
  }

  lemma {:induction false} BookWritesItsKeys(pf: Portfolio, e: FillEvent)
    requires ValidPortfolio(pf) && ValidFillEvent(e) && Book(pf, e).Ok?
    ensures
      var u := ApplyFill(e, Get(pf.positions, e.fill.symbol), Get(pf.balances, e.cost.currency));
      && u.Ok? && u.value.position.symbol == e.fill.symbol && u.value.balance.asset == e.cost.currency
      && ValidPosition(u.value.position) && ValidBalance(u.value.balance)
      && Book(pf, e).value == Portfolio(pf.positions[e.fill.symbol := u.value.position],
                                        pf.balances[e.cost.currency := u.value.balance])
  {
    var position, balance := Get(pf.positions, e.fill.symbol), Get(pf.balances, e.cost.currency);
    ApplyFillKeepsPositionsValid(e, position, balance);
    ApplyFillMovesCash(e, position, balance);
  }

  lemma {:induction false} SameRowSameTable<K, V>(rows: map<K, V>, k: K, v: V, w: V)
    ensures rows[k := v] == rows[k := w] <==> v == w
  {
    assert rows[k := v][k] == v && rows[k := w][k] == w;
  }

  /** One fill, on the same rows: stored and replayed are the same exactly if nothing is rounded. */
  lemma {:induction false} PersistIsBookIffStorable(pf: Portfolio, e: FillEvent)
    requires ValidPortfolio(pf) && ValidFillEvent(e) && Book(pf, e).Ok?
    ensures StoredFill(e.fill) == e.fill && Persist(pf, e) == Some(Book(pf, e).value)
      <==> StorableBooking(Book(pf, e).value, e)
  {
    BookWritesItsKeys(pf, e);
    var u := ApplyFill(e, Get(pf.positions, e.fill.symbol), Get(pf.balances, e.cost.currency)).value;
    StoredFillIsExact(e.fill);
    StoredPositionIsExact(u.position);
    StoredBalanceIsExact(u.balance);
    SameRowSameTable(pf.positions, e.fill.symbol, StoredPosition(u.position), u.position);
    SameRowSameTable(pf.balances, e.cost.currency, StoredBalance(u.balance), u.balance);
  }

  lemma {:induction false} PrefixOfFront<T>(s: seq<T>, n: nat)
    requires s != [] && n < |s|
    ensures s[..|s| - 1][..n] == s[..n]
  {
  }

  lemma {:induction false} WholePrefix<T>(s: seq<T>)
    ensures s[..|s|] == s && s[..0] == []
  {
  }

  /** A step from accounts that are in step. */
  lemma {:induction false} NextInStepIffStorable(pf: Portfolio, es: seq<FillEvent>)
    requires ValidPortfolio(pf) && ValidFillEvents(es) && es != []
    requires LastInStep(pf, es[..|es| - 1])
    ensures LastInStep(pf, es) <==> LastStorable(pf, es)
  {
    var front, e := es[..|es| - 1], es[|es| - 1];
    if BookAll(pf, es).Ok? {
      var before := BookAll(pf, front).value;
      assert PersistAll(pf, front) == Some(before);
      PersistIsBookIffStorable(before, e);
    }
  }

  /** The exact condition. After each of the fills the persisted account is the one the replay
      gives, if and only if no number of any of the replayed bookings has more than ten decimals. */
  lemma {:induction false} InStepIffStorable(pf: Portfolio, es: seq<FillEvent>)
    requires ValidPortfolio(pf) && ValidFillEvents(es)
    ensures (forall n :: 0 <= n <= |es| ==> LastInStep(pf, es[..n]))
      <==> (forall n :: 0 <= n <= |es| ==> LastStorable(pf, es[..n]))
  {
    WholePrefix(es);
    if es != [] {
      var front := es[..|es| - 1];
      InStepIffStorable(pf, front);
      forall n | 0 <= n <= |front| ensures front[..n] == es[..n] { PrefixOfFront(es, n); }
      WholePrefix(front);
      if LastInStep(pf, front) { NextInStepIffStorable(pf, es); }
      FrontAndWhole(pf, es);
    }
  }

  lemma {:induction false} FrontAndWhole(pf: Portfolio, es: seq<FillEvent>)
    requires ValidPortfolio(pf) && ValidFillEvents(es) && es != []
    ensures (forall n :: 0 <= n <= |es| ==> LastInStep(pf, es[..n]))
      <==> LastInStep(pf, es) && (forall n :: 0 <= n < |es| ==> LastInStep(pf, es[..n]))
    ensures (forall n :: 0 <= n <= |es| ==> LastStorable(pf, es[..n]))
      <==> LastStorable(pf, es) && (forall n :: 0 <= n < |es| ==> LastStorable(pf, es[..n]))
  {
    WholePrefix(es);
  }
}
