/** What the transactions of the backend do to balances: nothing is lost, the ledger reconciles,
    and what is locked is what the orders say is locked. */
module Funds {
  import opened Wrappers
  import opened BookSpec
  import opened EngineSpec
  import opened Ledger
  import opened BackendSpec

  function AvailableOf(a: Accounts, w: WalletId): real {
    if w in a.wallets then a.wallets[w].available else 0.0
  }

  function LockedOf(a: Accounts, w: WalletId): real {
    if w in a.wallets then a.wallets[w].locked else 0.0
  }

  /** The ledger reconciles with the wallets, and no balance is negative. */
  ghost predicate Sound(initial: Wallets, a: Accounts) {
    Reconciled(initial, a) && NotNegative(a)
  }

  /** From a to b, the two balances of one wallet change by this, and with them the total of its
      asset; no other balance and no other total changes. */
  ghost predicate Moves(a: Accounts, b: Accounts, id: WalletId, available: real, locked: real) {
    && (forall x :: TotalOf(b, x) == TotalOf(a, x) + if x == id.asset then available + locked else 0.0)
    && (forall w :: AvailableOf(b, w) == AvailableOf(a, w) + if w == id then available else 0.0)
    && (forall w :: LockedOf(b, w) == LockedOf(a, w) + if w == id then locked else 0.0)
    && a.wallets.Keys <= b.wallets.Keys
  }

  lemma PostMoves(initial: Wallets, a: Accounts, id: WalletId, b: Balance, kind: EntryType, delta: real, ref: Reference)
    requires Reconciled(initial, a) && id in a.wallets
    ensures var after := Post(a, id, b, kind, delta, ref);
      Reconciled(initial, after)
      && if b == Available then Moves(a, after, id, delta, 0.0) else Moves(a, after, id, 0.0, delta)
  {
    hide Reconciled, TotalOf;
    var after := Post(a, id, b, kind, delta, ref);
    PostReconciles(initial, a, id, b, kind, delta, ref);
    forall x ensures TotalOf(after, x) == TotalOf(a, x) + if x == id.asset then delta else 0.0 {
      PostTotals(a, id, b, kind, delta, ref, x);
    }
  }

  lemma MovesTwice(a: Accounts, b: Accounts, c: Accounts, id: WalletId, available: real, locked: real)
    requires Moves(a, b, id, available, 0.0) && Moves(b, c, id, 0.0, locked)
    ensures Moves(a, c, id, available, locked)
  {
    hide TotalOf, AvailableOf, LockedOf;
  }

  lemma LockingMoves(initial: Wallets, a: Accounts, id: WalletId, amount: real, ref: Reference)
    requires Sound(initial, a) && MoveAvailableToLocked(a, id, amount, ref).Ok?
    ensures var b := MoveAvailableToLocked(a, id, amount, ref).value;
      Sound(initial, b) && Moves(a, b, id, -amount, amount)
  {
    hide Reconciled, Moves;
    var mid := Post(a, id, Available, OrderLock, -amount, ref);
    PostMoves(initial, a, id, Available, OrderLock, -amount, ref);
    PostMoves(initial, mid, id, Locked, OrderLock, amount, ref);
    MovesTwice(a, mid, Post(mid, id, Locked, OrderLock, amount, ref), id, -amount, amount);
  }

  lemma UnlockingMoves(initial: Wallets, a: Accounts, id: WalletId, amount: real, ref: Reference)
    requires Sound(initial, a) && MoveLockedToAvailable(a, id, amount, ref).Ok?
    ensures var b := MoveLockedToAvailable(a, id, amount, ref).value;
      Sound(initial, b) && Moves(a, b, id, amount, -amount)
  {
    hide Reconciled, Moves;
    var mid := Post(a, id, Available, OrderUnlock, amount, ref);
    PostMoves(initial, a, id, Available, OrderUnlock, amount, ref);
    PostMoves(initial, mid, id, Locked, OrderUnlock, -amount, ref);
    MovesTwice(a, mid, Post(mid, id, Locked, OrderUnlock, -amount, ref), id, amount, -amount);
  }

  lemma CreditMoves(initial: Wallets, a: Accounts, id: WalletId, amount: real, kind: EntryType, ref: Reference)
    requires Sound(initial, a) && CreditAvailable(a, id, amount, kind, ref).Ok?
    ensures var b := CreditAvailable(a, id, amount, kind, ref).value;
      Sound(initial, b) && Moves(a, b, id, amount, 0.0)
  {
    hide Reconciled, Moves;
    PostMoves(initial, a, id, Available, kind, amount, ref);
  }

  lemma DebitMoves(initial: Wallets, a: Accounts, id: WalletId, amount: real, ref: Reference)
    requires Sound(initial, a) && DebitLocked(a, id, amount, ref).Ok?
    ensures var b := DebitLocked(a, id, amount, ref).value;
      Sound(initial, b) && Moves(a, b, id, 0.0, -amount)
  {
    hide Reconciled, Moves;
    PostMoves(initial, a, id, Locked, TradeSettlement, -amount, ref);
  }

  /** Withdrawals, which no transaction uses yet. */
  lemma WithdrawalMoves(initial: Wallets, a: Accounts, id: WalletId, amount: real, kind: EntryType, ref: Reference)
    requires Sound(initial, a) && DebitAvailable(a, id, amount, kind, ref).Ok?
    ensures var b := DebitAvailable(a, id, amount, kind, ref).value;
      Sound(initial, b) && Moves(a, b, id, -amount, 0.0)
  {
    hide Reconciled, Moves;
    PostMoves(initial, a, id, Available, kind, -amount, ref);
  }

  /** A fee above zero is paid to the treasury, whether or not it had a wallet for the asset. */
  lemma FeeMoves(initial: Wallets, a: Accounts, treasury: Option<UserId>, asset: AssetId, fee: real, ref: Reference)
    requires Sound(initial, a) && CollectFee(a, treasury, asset, fee, ref).Ok?
    ensures var b := CollectFee(a, treasury, asset, fee, ref).value;
      && Sound(initial, b)
      && if fee > 0.0 then treasury.Some? && Moves(a, b, WalletId(treasury.value, asset), fee, 0.0) else b == a
  {
    hide Reconciled, TotalOf;
    if fee > 0.0 {
      var w := WalletId(treasury.value, asset);
      EnsuredReconciles(initial, a, w);
      CreditMoves(initial, Ensured(a, w), w, fee, TradingFee, ref);
      EnsuredMoves(a, w);
    }
  }

  lemma EnsuredMoves(a: Accounts, id: WalletId)
    ensures Moves(a, Ensured(a, id), id, 0.0, 0.0)
  {
    hide TotalOf;
    forall x ensures TotalOf(Ensured(a, id), x) == TotalOf(a, x) {
      EnsuredTotals(a, id, x);
    }
  }

  // ---- the transfer of a trade ------------------------------------------------------------------

  /** A negative fee is paid to the trader but taken from nobody. */
  function Unfunded(fee: real): real {
    if fee < 0.0 then -fee else 0.0
  }

  /** What the treasury collects into a wallet. */
  function Collected(treasury: Option<UserId>, w: WalletId, asset: AssetId, fee: real): real {
    if fee > 0.0 && treasury == Some(w.user) && w.asset == asset then fee else 0.0
  }

  /** What a settlement pays into the available balance of a wallet. */
  function Received(s: Settlement, treasury: Option<UserId>, w: WalletId): real {
    (if w == WalletId(s.buyer, s.base) then s.quantity - s.buyerFee else 0.0)
    + (if w == WalletId(s.seller, s.quote) then s.quoteAmount - s.sellerFee else 0.0)
    + Collected(treasury, w, s.base, s.buyerFee) + Collected(treasury, w, s.quote, s.sellerFee)
  }

  /** What it takes out of the locked balance of a wallet. */
  function Paid(s: Settlement, w: WalletId): real {
    (if w == WalletId(s.buyer, s.quote) then s.quoteAmount else 0.0)
    + (if w == WalletId(s.seller, s.base) then s.quantity else 0.0)
  }

  /** The accounts after the payments between buyer and seller, before the fees. */
  ghost predicate Exchanged(a: Accounts, b: Accounts, s: Settlement) {
    && a.wallets.Keys <= b.wallets.Keys
    && (forall x :: TotalOf(b, x) == TotalOf(a, x) - (if x == s.base then s.buyerFee else 0.0)
                                                  - (if x == s.quote then s.sellerFee else 0.0))
    && (forall w :: LockedOf(b, w) == LockedOf(a, w) - Paid(s, w))
    && (forall w :: AvailableOf(b, w) == AvailableOf(a, w) + Received(s, None, w))
  }

  lemma SumOfMoves(a: Accounts, a1: Accounts, a2: Accounts, a3: Accounts, a4: Accounts, s: Settlement)
    requires Moves(a, a1, WalletId(s.buyer, s.quote), 0.0, -s.quoteAmount)
    requires Moves(a1, a2, WalletId(s.buyer, s.base), s.quantity - s.buyerFee, 0.0)
    requires Moves(a2, a3, WalletId(s.seller, s.base), 0.0, -s.quantity)
    requires Moves(a3, a4, WalletId(s.seller, s.quote), s.quoteAmount - s.sellerFee, 0.0)
    ensures Exchanged(a, a4, s)
  {
    hide TotalOf, LockedOf, AvailableOf;
  }

  lemma SumOfFees(a: Accounts, a4: Accounts, a5: Accounts, b: Accounts, s: Settlement, treasury: Option<UserId>)
    requires Exchanged(a, a4, s)
    requires if s.buyerFee > 0.0 then treasury.Some? && Moves(a4, a5, WalletId(treasury.value, s.base), s.buyerFee, 0.0)
             else a5 == a4
    requires if s.sellerFee > 0.0 then treasury.Some? && Moves(a5, b, WalletId(treasury.value, s.quote), s.sellerFee, 0.0)
             else b == a5
    ensures a.wallets.Keys <= b.wallets.Keys
    ensures forall x :: TotalOf(b, x) == TotalOf(a, x) + (if x == s.base then Unfunded(s.buyerFee) else 0.0)
                                                      + (if x == s.quote then Unfunded(s.sellerFee) else 0.0)
    ensures forall w :: LockedOf(b, w) == LockedOf(a, w) - Paid(s, w)
    ensures forall w :: AvailableOf(b, w) == AvailableOf(a, w) + Received(s, treasury, w)
  {
    hide TotalOf, LockedOf, AvailableOf, Paid;
  }

  /** Whoever the parties are, even if buyer, seller and treasury share wallets: a transfer keeps
      the total of every asset, unless a fee is negative, takes exactly the two amounts out of the
      locked balances, and pays the buyer the base, the seller the quote and the treasury the fees. */
  lemma TransferMoves(initial: Wallets, a: Accounts, s: Settlement, treasury: Option<UserId>)
    requires Sound(initial, a) && Transfer(a, s, treasury).Ok?
    ensures var b := Transfer(a, s, treasury).value;
      && Sound(initial, b) && a.wallets.Keys <= b.wallets.Keys
      && (forall x :: TotalOf(b, x) == TotalOf(a, x) + (if x == s.base then Unfunded(s.buyerFee) else 0.0)
                                                    + (if x == s.quote then Unfunded(s.sellerFee) else 0.0))
      && (forall w :: LockedOf(b, w) == LockedOf(a, w) - Paid(s, w))
      && (forall w :: AvailableOf(b, w) == AvailableOf(a, w) + Received(s, treasury, w))
  {
    hide Sound, Moves, TotalOf, LockedOf, AvailableOf, DebitLocked, CreditAvailable, CollectFee, Received, Paid, Unfunded;
    var ref := OfTrade(s.reference);
    var buyerQuote, buyerBase := WalletId(s.buyer, s.quote), WalletId(s.buyer, s.base);
    var sellerBase, sellerQuote := WalletId(s.seller, s.base), WalletId(s.seller, s.quote);
    var a1 := Pay(a, buyerQuote, s.quoteAmount, ref).value;
    DebitMoves(initial, a, buyerQuote, s.quoteAmount, ref);
    var a2 := Receive(a1, buyerBase, s.quantity - s.buyerFee, ref).value;
    CreditMoves(initial, a1, buyerBase, s.quantity - s.buyerFee, TradeSettlement, ref);
    var a3 := Pay(a2, sellerBase, s.quantity, ref).value;
    DebitMoves(initial, a2, sellerBase, s.quantity, ref);
    var a4 := Receive(a3, sellerQuote, s.quoteAmount - s.sellerFee, ref).value;
    CreditMoves(initial, a3, sellerQuote, s.quoteAmount - s.sellerFee, TradeSettlement, ref);
    var a5 := CollectFee(a4, treasury, s.base, s.buyerFee, ref).value;
    FeeMoves(initial, a4, treasury, s.base, s.buyerFee, ref);
    FeeMoves(initial, a5, treasury, s.quote, s.sellerFee, ref);
    SumOfMoves(a, a1, a2, a3, a4, s);
    SumOfFees(a, a4, a5, CollectFee(a5, treasury, s.quote, s.sellerFee, ref).value, s, treasury);
  }

  /** When a transfer goes through, in terms of the balances before it. */
  predicate Payable(a: Accounts, s: Settlement, treasury: Option<UserId>) {
    && WalletId(s.buyer, s.quote) in a.wallets && WalletId(s.buyer, s.base) in a.wallets
    && WalletId(s.seller, s.quote) in a.wallets && WalletId(s.seller, s.base) in a.wallets
    && 0.0 < s.quoteAmount <= LockedOf(a, WalletId(s.buyer, s.quote))
    && 0.0 < s.quantity <= LockedOf(a, WalletId(s.seller, s.base))
                           - (if s.buyer == s.seller && s.base == s.quote then s.quoteAmount else 0.0)
    && s.buyerFee < s.quantity && s.sellerFee < s.quoteAmount
    && (s.buyerFee > 0.0 || s.sellerFee > 0.0 ==> treasury.Some?)
  }

  lemma TransferSucceeds(a: Accounts, s: Settlement, treasury: Option<UserId>)
    ensures Transfer(a, s, treasury).Ok? <==> Payable(a, s, treasury)
  {
    var ref := OfTrade(s.reference);
    var first := Pay(a, WalletId(s.buyer, s.quote), s.quoteAmount, ref);
    if first.Ok? {
      var second := Receive(first.value, WalletId(s.buyer, s.base), s.quantity - s.buyerFee, ref);
      if second.Ok? {
        var third := Pay(second.value, WalletId(s.seller, s.base), s.quantity, ref);
        assert LockedOf(second.value, WalletId(s.seller, s.base))
               == LockedOf(a, WalletId(s.seller, s.base))
                  - (if s.buyer == s.seller && s.base == s.quote then s.quoteAmount else 0.0);
      }
    }
  }

  /** The stored taker rate is the one the buyer was charged, the stored maker rate the one the
      seller was charged: so they are the rates of taker and maker only if the taker bought, or
      if both rates are the same. */
  lemma StoredRates(p: PairRow, pair: PairId, t: Trade, buyer: UserId, seller: UserId, msg: MessageId)
    requires t.quantity > 0 && t.price > 0
    ensures var s := SettlementOf(p, t, buyer, seller); var row := TradeRowOf(p, pair, t, s, msg);
      && row.buyerFee == FeeOn(Amount(t.quantity), row.takerRate)
      && row.sellerFee == FeeOn(row.quoteAmount, row.makerRate)
      && (row.makerRate == p.makerFee && row.takerRate == p.takerFee <==>
            t.takerSide == Buy || p.makerFee == p.takerFee)
  {
  }

  // ---- what the orders have locked ----------------------------------------------------------------

  ghost function Locks(orders: Orders, w: WalletId): map<OrderId, real> {
    map o | o in orders && orders[o].user == w.user && orders[o].lockedAsset == w.asset :: orders[o].remainingLocked
  }

  /** What the orders of a user still have locked of an asset. */
  ghost function LockedFor(orders: Orders, w: WalletId): real {
    Sum(Locks(orders, w))
  }

  function WalletOf(row: OrderRow): WalletId {
    WalletId(row.user, row.lockedAsset)
  }

  function LockIn(orders: Orders, o: OrderId, w: WalletId): real {
    if o in orders && WalletOf(orders[o]) == w then orders[o].remainingLocked else 0.0
  }

  lemma LockedForUpdate(orders: Orders, o: OrderId, row: OrderRow, w: WalletId)
    requires o in orders ==> WalletOf(row) == WalletOf(orders[o])
    ensures LockedFor(orders[o := row], w)
            == LockedFor(orders, w) + LockIn(orders[o := row], o, w) - LockIn(orders, o, w)
  {
    hide Sum;
    var before, after := Locks(orders, w), Locks(orders[o := row], w);
    if WalletOf(row) == w {
      assert after == before[o := row.remainingLocked];
      SumWith(before, o, row.remainingLocked);
    } else {
      assert after == before;
    }
  }

  lemma {:induction false} SumAtLeast<K>(m: map<K, real>, k: K)
    requires k in m && forall j :: j in m ==> m[j] >= 0.0
    ensures Sum(m) >= m[k]
  {
    SumWithout(m, k);
    SumNotNegative(m - {k});
  }

  /** The checks of the table of orders hold in every row. */
  ghost predicate RowsAllowed(orders: Orders) {
    forall o :: o in orders ==> RowAllowed(orders[o])
  }

  lemma LocksCover(orders: Orders, o: OrderId)
    requires RowsAllowed(orders) && o in orders
    ensures orders[o].remainingLocked <= LockedFor(orders, WalletOf(orders[o]))
  {
    hide Sum;
    SumAtLeast(Locks(orders, WalletOf(orders[o])), o);
  }

  /** What is locked in a wallet beyond what the orders have locked. */
  ghost function Spare(db: Db, w: WalletId): real {
    LockedOf(db.accounts, w) - LockedFor(db.orders, w)
  }
}
