/** Wallet balances and the ledger that records every change of them. */
module Ledger {
  import opened Wrappers
  import opened BookSpec
  import opened EngineSpec

  datatype AssetId = AssetId(text: string)

  /** A wallet is the one of a user for an asset. */
  datatype WalletId = WalletId(user: UserId, asset: AssetId)
  datatype Wallet = Wallet(available: real, locked: real)

  datatype Balance = Available | Locked
  datatype EntryType = OrderLock | OrderUnlock | TradeSettlement | TradingFee | Deposit
  datatype Reference = OfOrder(order: OrderId) | OfTrade(trade: MatchId)

  datatype LedgerEntry = LedgerEntry(wallet: WalletId, balance: Balance, kind: EntryType,
                                     amount: real, before: real, after: real, reference: Reference)

  datatype Accounts = Accounts(wallets: map<WalletId, Wallet>, ledger: seq<LedgerEntry>)

  datatype Error =
    | InvalidAmount | WalletNotFound | InsufficientBalance
    | MarketNotFound | MarketSuspended | MarketIsNotReady | Validation | IdempotencyConflict
    | OrderIsNotFound | OrderNotCancellable | RecordNotFound | ConstraintViolated | TreasuryNotSet

  function BalanceOf(w: Wallet, b: Balance): real {
    if b == Available then w.available else w.locked
  }

  function Changed(w: Wallet, b: Balance, delta: real): Wallet {
    if b == Available then w.(available := w.available + delta) else w.(locked := w.locked + delta)
  }

  /** One change of one balance, with its ledger entry. */
  function Post(a: Accounts, id: WalletId, b: Balance, kind: EntryType, delta: real, ref: Reference): Accounts
    requires id in a.wallets
  {
    var before := BalanceOf(a.wallets[id], b);
    Accounts(a.wallets[id := Changed(a.wallets[id], b, delta)],
             a.ledger + [LedgerEntry(id, b, kind, delta, before, before + delta, ref)])
  }

  // ---- the five changes -------------------------------------------------------------------

  function MoveAvailableToLocked(a: Accounts, id: WalletId, amount: real, ref: Reference): Result<Accounts, Error> {
    if amount <= 0.0 then Err(InvalidAmount)
    else if id !in a.wallets then Err(WalletNotFound)
    else if a.wallets[id].available < amount then Err(InsufficientBalance)
    else Ok(Post(Post(a, id, Available, OrderLock, -amount, ref), id, Locked, OrderLock, amount, ref))
  }

  function MoveLockedToAvailable(a: Accounts, id: WalletId, amount: real, ref: Reference): Result<Accounts, Error> {
    if amount <= 0.0 then Err(InvalidAmount)
    else if id !in a.wallets then Err(WalletNotFound)
    else if a.wallets[id].locked < amount then Err(InsufficientBalance)
    else Ok(Post(Post(a, id, Available, OrderUnlock, amount, ref), id, Locked, OrderUnlock, -amount, ref))
  }

  function CreditAvailable(a: Accounts, id: WalletId, amount: real, kind: EntryType, ref: Reference)
    : Result<Accounts, Error>
  {
    if amount <= 0.0 then Err(InvalidAmount)
    else if id !in a.wallets then Err(WalletNotFound)
    else Ok(Post(a, id, Available, kind, amount, ref))
  }

  function DebitLocked(a: Accounts, id: WalletId, amount: real, ref: Reference): Result<Accounts, Error> {
    if amount <= 0.0 then Err(InvalidAmount)
    else if id !in a.wallets then Err(WalletNotFound)
    else if a.wallets[id].locked < amount then Err(InsufficientBalance)
    else Ok(Post(a, id, Locked, TradeSettlement, -amount, ref))
  }

  function DebitAvailable(a: Accounts, id: WalletId, amount: real, kind: EntryType, ref: Reference)
    : Result<Accounts, Error>
  {
    if amount <= 0.0 then Err(InvalidAmount)
    else if id !in a.wallets then Err(WalletNotFound)
    else if a.wallets[id].available < amount then Err(InsufficientBalance)
    else Ok(Post(a, id, Available, kind, -amount, ref))
  }

  /** A wallet that does not exist yet starts empty. */
  function Ensured(a: Accounts, id: WalletId): (b: Accounts)
    ensures id in b.wallets
  {
    if id in a.wallets then a else a.(wallets := a.wallets[id := Wallet(0.0, 0.0)])
  }

  // ---- reconciliation ---------------------------------------------------------------------

  type Wallets = map<WalletId, Wallet>

  function InitialBalance(initial: Wallets, id: WalletId, b: Balance): real {
    if id in initial then BalanceOf(initial[id], b) else 0.0
  }

  /** The balance that the ledger leaves: what the last entry for it says, or the initial one. */
  function LedgerBalance(initial: Wallets, ledger: seq<LedgerEntry>, id: WalletId, b: Balance): real {
    if ledger == [] then InitialBalance(initial, id, b)
    else
      var last := ledger[|ledger| - 1];
      if last.wallet == id && last.balance == b then last.after
      else LedgerBalance(initial, ledger[..|ledger| - 1], id, b)
  }

  function SumOfAmounts(ledger: seq<LedgerEntry>, id: WalletId, b: Balance): real {
    if ledger == [] then 0.0
    else
      var last := ledger[|ledger| - 1];
      SumOfAmounts(ledger[..|ledger| - 1], id, b)
      + (if last.wallet == id && last.balance == b then last.amount else 0.0)
  }

  /** Every entry goes on from where the one before it for the same balance stopped. */
  ghost predicate Chained(initial: Wallets, ledger: seq<LedgerEntry>) {
    forall i :: 0 <= i < |ledger| ==>
      && ledger[i].before == LedgerBalance(initial, ledger[..i], ledger[i].wallet, ledger[i].balance)
      && ledger[i].after == ledger[i].before + ledger[i].amount
  }

  /** The ledger is a chain that ends in the balances of the wallets. */
  ghost predicate Reconciled(initial: Wallets, a: Accounts) {
    && Chained(initial, a.ledger)
    && initial.Keys <= a.wallets.Keys
    && (forall i :: 0 <= i < |a.ledger| ==> a.ledger[i].wallet in a.wallets)
    && forall id, b :: id in a.wallets ==> BalanceOf(a.wallets[id], b) == LedgerBalance(initial, a.ledger, id, b)
  }

  lemma {:induction false} ChainSums(initial: Wallets, ledger: seq<LedgerEntry>, id: WalletId, b: Balance)
    requires Chained(initial, ledger)
    ensures LedgerBalance(initial, ledger, id, b) == InitialBalance(initial, id, b) + SumOfAmounts(ledger, id, b)
  {
    if ledger != [] {
      var n := |ledger| - 1;
      var shorter := ledger[..n];
      assert forall i :: 0 <= i < n ==> shorter[..i] == ledger[..i];
      ChainSums(initial, shorter, id, b);
      assert ledger[n].before == LedgerBalance(initial, ledger[..n], ledger[n].wallet, ledger[n].balance);
    }
  }

  /** Every balance is its initial value and the amounts of its entries. */
  lemma ReconciledSums(initial: Wallets, a: Accounts, id: WalletId, b: Balance)
    requires Reconciled(initial, a) && id in a.wallets
    ensures BalanceOf(a.wallets[id], b) == InitialBalance(initial, id, b) + SumOfAmounts(a.ledger, id, b)
  {
    ChainSums(initial, a.ledger, id, b);
  }

  lemma PostReconciles(initial: Wallets, a: Accounts, id: WalletId, b: Balance, kind: EntryType, delta: real, ref: Reference)
    requires Reconciled(initial, a) && id in a.wallets
    ensures Reconciled(initial, Post(a, id, b, kind, delta, ref))
  {
    var after := Post(a, id, b, kind, delta, ref);
    var n := |a.ledger|;
    assert after.ledger[..n] == a.ledger;
    forall i | 0 <= i < |after.ledger|
      ensures after.ledger[i].before
              == LedgerBalance(initial, after.ledger[..i], after.ledger[i].wallet, after.ledger[i].balance)
      ensures after.ledger[i].after == after.ledger[i].before + after.ledger[i].amount
    {
      if i < n {
        assert after.ledger[..i] == a.ledger[..i] && after.ledger[i] == a.ledger[i];
      }
    }
    forall w, c | w in after.wallets
      ensures BalanceOf(after.wallets[w], c) == LedgerBalance(initial, after.ledger, w, c)
    {
      assert BalanceOf(a.wallets[w], c) == LedgerBalance(initial, a.ledger, w, c);
    }
  }

  lemma {:induction false} UntouchedBalance(initial: Wallets, ledger: seq<LedgerEntry>, id: WalletId, b: Balance)
    requires forall i :: 0 <= i < |ledger| ==> ledger[i].wallet != id
    ensures LedgerBalance(initial, ledger, id, b) == InitialBalance(initial, id, b)
  {
    if ledger != [] {
      UntouchedBalance(initial, ledger[..|ledger| - 1], id, b);
    }
  }

  lemma EnsuredReconciles(initial: Wallets, a: Accounts, id: WalletId)
    requires Reconciled(initial, a)
    ensures Reconciled(initial, Ensured(a, id))
  {
    if id !in a.wallets {
      UntouchedBalance(initial, a.ledger, id, Available);
      UntouchedBalance(initial, a.ledger, id, Locked);
    }
  }

  // ---- sums over maps -----------------------------------------------------------------------

  ghost function Sum<K>(m: map<K, real>): real
    decreases |m|
  {
    if m == map[] then 0.0
    else
      var k := Pick(m.Keys);
      SmallerMap(m, k);
      m[k] + Sum(m - {k})
  }

  lemma SmallerMap<K, V>(m: map<K, V>, k: K)
    requires k in m
    ensures |m - {k}| == |m| - 1
  {
    assert (m - {k}).Keys == m.Keys - {k};
  }

  lemma {:induction false} SumWithout<K>(m: map<K, real>, k: K)
    requires k in m
    ensures Sum(m) == m[k] + Sum(m - {k})
    decreases |m|
  {
    var j := Pick(m.Keys);
    SmallerMap(m, j);
    if j != k {
      SmallerMap(m, k);
      SumWithout(m - {j}, k);
      SumWithout(m - {k}, j);
      assert m - {j} - {k} == m - {k} - {j};
    }
  }

  lemma SumWith<K>(m: map<K, real>, k: K, v: real)
    ensures Sum(m[k := v]) == Sum(m) + v - (if k in m then m[k] else 0.0)
  {
    SumWithout(m[k := v], k);
    assert m[k := v] - {k} == m - {k};
    if k in m {
      SumWithout(m, k);
    } else {
      assert m - {k} == m;
    }
  }

  lemma {:induction false} SumNotNegative<K>(m: map<K, real>)
    requires forall k :: k in m ==> m[k] >= 0.0
    ensures Sum(m) >= 0.0
    decreases |m|
  {
    if m != map[] {
      var k := Pick(m.Keys);
      SmallerMap(m, k);
      SumNotNegative(m - {k});
    }
  }

  // ---- conservation -------------------------------------------------------------------------

  ghost function Holdings(wallets: Wallets, asset: AssetId): map<WalletId, real> {
    map id | id in wallets && id.asset == asset :: wallets[id].available + wallets[id].locked
  }

  /** All of an asset that there is, available or locked, in all wallets. */
  ghost function TotalOf(a: Accounts, asset: AssetId): real {
    Sum(Holdings(a.wallets, asset))
  }

  lemma PostTotals(a: Accounts, id: WalletId, b: Balance, kind: EntryType, delta: real, ref: Reference, asset: AssetId)
    requires id in a.wallets
    ensures TotalOf(Post(a, id, b, kind, delta, ref), asset)
            == TotalOf(a, asset) + if id.asset == asset then delta else 0.0
  {
    var after := Post(a, id, b, kind, delta, ref);
    var h := Holdings(a.wallets, asset);
    if id.asset == asset {
      assert Holdings(after.wallets, asset) == h[id := h[id] + delta];
      SumWith(h, id, h[id] + delta);
    } else {
      assert Holdings(after.wallets, asset) == h;
    }
  }

  lemma EnsuredTotals(a: Accounts, id: WalletId, asset: AssetId)
    ensures TotalOf(Ensured(a, id), asset) == TotalOf(a, asset)
  {
    if id !in a.wallets {
      var h := Holdings(a.wallets, asset);
      if id.asset == asset {
        assert Holdings(Ensured(a, id).wallets, asset) == h[id := 0.0];
        SumWith(h, id, 0.0);
      } else {
        assert Holdings(Ensured(a, id).wallets, asset) == h;
      }
    }
  }

  ghost predicate NotNegative(a: Accounts) {
    forall id :: id in a.wallets ==> a.wallets[id].available >= 0.0 && a.wallets[id].locked >= 0.0
  }
}
