/** The payments manager: for each token contract it keeps apart the part of
    its own token balance promised to specific parties ("stored", split into
    per-party "pending" amounts) from the rest ("available"), which can be
    promised to a party or skimmed to any recipient. */
module PaymentsManager {
  import opened Outcomes

  /** Account and token-contract addresses. */
  type Address = nat
  type Token = Address

  datatype PaymentError =
    | ArithmeticUnderflow       // checked subtraction below zero
    | ExceedsAvailable          // a skim larger than the available amount

  /** Sum of the amounts of a map. */
  ghost function Total(m: map<Address, nat>): nat
    decreases |m|
  {
    if m.Keys == {} then 0
    else
      var k :| k in m.Keys;
      assert (m - {k}).Keys == m.Keys - {k};
      m[k] + Total(m - {k})
  }

  /** Any one entry can be taken out of the sum first. */
  lemma TotalRemove(m: map<Address, nat>, k: Address)
    requires k in m
    ensures Total(m) == m[k] + Total(m - {k})
    decreases |m|
  {
    var j :| j in m.Keys && Total(m) == m[j] + Total(m - {j});
    if j != k {
      assert (m - {j}).Keys == m.Keys - {j};
      assert (m - {k}).Keys == m.Keys - {k};
      TotalRemove(m - {j}, k);
      TotalRemove(m - {k}, j);
      assert m - {j} - {k} == m - {k} - {j};
    }
  }

  function Get(m: map<Address, nat>, k: Address): nat
  {
    if k in m then m[k] else 0
  }

  /** Changing one entry changes the sum by the difference. */
  lemma TotalUpdate(m: map<Address, nat>, k: Address, v: nat)
    ensures Total(m[k := v]) + Get(m, k) == Total(m) + v
  {
    TotalRemove(m[k := v], k);
    if k in m {
      TotalRemove(m, k);
      assert m[k := v] - {k} == m - {k};
    } else {
      assert m[k := v] - {k} == m;
    }
  }

  /** No single entry exceeds the sum. */
  lemma TotalBoundsEntry(m: map<Address, nat>, k: Address)
    ensures Get(m, k) <= Total(m)
  {
    if k in m {
      TotalRemove(m, k);
    }
  }

  class Manager {
    /** The manager's own address in the token contracts' ledgers. */
    const self: Address
    /** The token contracts' ledgers: balance of each (token, holder). */
    var tokenBalances: map<(Token, Address), nat>
    /** Per token, the total promised to parties. */
    var stored: map<Token, nat>
    /** Per token and party, the amount promised and not yet released. */
    var pending: map<Token, map<Address, nat>>

    function BalanceOf(t: Token, holder: Address): nat
      reads this`tokenBalances
    {
      if (t, holder) in tokenBalances then tokenBalances[(t, holder)] else 0
    }

    /** Total promised for t; a token never assigned reads 0. */
    function StoredBalanceOf(t: Token): (r: nat)
      reads this`stored
      ensures t !in stored ==> r == 0
      ensures t in stored ==> r == stored[t]
    {
      if t in stored then stored[t] else 0
    }

    function PendingOf(t: Token): map<Address, nat>
      reads this`pending
    {
      if t in pending then pending[t] else map[]
    }

    /** Amount of t promised to `party`; only a party with an entry has
        anything pending. */
    function PendingBalanceOf(t: Token, party: Address): (r: nat)
      reads this`pending
      ensures t in pending && party in pending[t] ==> r == pending[t][party]
      ensures r > 0 ==> t in pending && party in pending[t] && pending[t][party] == r
    {
      Get(PendingOf(t), party)
    }

    /** Conservation: for every token, the stored total is the sum of the
        pending amounts of all parties. */
    ghost predicate Valid()
      reads this`stored, this`pending
    {
      forall t :: StoredBalanceOf(t) == Total(PendingOf(t))
    }

    /** No party has more pending than is stored for the token. */
    lemma PendingWithinStored(t: Token, party: Address)
      requires Valid()
      ensures PendingBalanceOf(t, party) <= StoredBalanceOf(t)
    {
      TotalBoundsEntry(PendingOf(t), party);
    }

    /** The manager holds at least what it has promised for token t. */
    predicate Solvent(t: Token)
      reads this`stored, this`tokenBalances
    {
      StoredBalanceOf(t) <= BalanceOf(t, self)
    }

    constructor(self: Address)
      ensures Valid() && this.self == self && tokenBalances == map[]
      ensures forall t :: StoredBalanceOf(t) == 0
      ensures forall t, p :: PendingBalanceOf(t, p) == 0
    {
      this.self := self;
      tokenBalances := map[];
      stored := map[];
      pending := map[];
    }

    /** The part of the manager's balance of t not promised to anyone; the
        subtraction reverts when more is stored than held. */
    function GetAvailable(t: Token): (r: Result<nat, PaymentError>)
      reads this`stored, this`tokenBalances
      ensures r.Ok? <==> Solvent(t)
      ensures r.Ok? ==> r.value + StoredBalanceOf(t) == BalanceOf(t, self)
      ensures r.Err? ==> r.error == ArithmeticUnderflow
    {
      if StoredBalanceOf(t) <= BalanceOf(t, self)
      then Ok(BalanceOf(t, self) - StoredBalanceOf(t))
      else Err(ArithmeticUnderflow)
    }

    /** The token contract's transfer of `amount` of t from the manager to
        `to`, which must not exceed the manager's balance. */
    function Transferred(t: Token, to: Address, amount: nat): (ledger: map<(Token, Address), nat>)
      reads this`tokenBalances
      requires amount <= BalanceOf(t, self)
    {
      var after := tokenBalances[(t, self) := BalanceOf(t, self) - amount];
      var held := if (t, to) in after then after[(t, to)] else 0;
      after[(t, to) := held + amount]
    }

    /** Tokens of t arriving from outside (a mint or a transfer to the manager). */
    method Receive(t: Token, amount: nat)
      requires Valid()
      modifies this
      ensures Valid()
      ensures tokenBalances == old(tokenBalances)[(t, self) := old(BalanceOf(t, self)) + amount]
      ensures stored == old(stored) && pending == old(pending)
      ensures old(GetAvailable(t)).Ok? ==> GetAvailable(t) == Ok(old(GetAvailable(t)).value + amount)
    {
      tokenBalances := tokenBalances[(t, self) := BalanceOf(t, self) + amount];
    }

    /** Promise `amount` of t to `party`. The available amount is not checked
        here: a caller that assigns more than is available makes the manager
        insolvent for t. */
    method AssignAvailableTo(t: Token, amount: nat, party: Address)
      requires Valid()
      modifies this
      ensures Valid()
      ensures PendingBalanceOf(t, party) == old(PendingBalanceOf(t, party)) + amount
      ensures StoredBalanceOf(t) == old(StoredBalanceOf(t)) + amount
      ensures forall p | p != party :: PendingBalanceOf(t, p) == old(PendingBalanceOf(t, p))
      ensures forall u | u != t :: StoredBalanceOf(u) == old(StoredBalanceOf(u)) && PendingOf(u) == old(PendingOf(u))
      ensures tokenBalances == old(tokenBalances)
      ensures old(GetAvailable(t)).Ok? && amount <= old(GetAvailable(t)).value ==>
                GetAvailable(t) == Ok(old(GetAvailable(t)).value - amount)
    {
      var m := PendingOf(t);
      assert StoredBalanceOf(t) == Total(m);
      TotalUpdate(m, party, Get(m, party) + amount);
      pending := pending[t := m[party := Get(m, party) + amount]];
      stored := stored[t := StoredBalanceOf(t) + amount];
      forall u ensures StoredBalanceOf(u) == Total(PendingOf(u)) {
        if u != t {
          assert StoredBalanceOf(u) == old(StoredBalanceOf(u)) && PendingOf(u) == old(PendingOf(u));
        }
      }
    }

    /** Release `amount` of what is pending for `party`: the promise and the
        stored total shrink by it, so it counts as available again. The
        manager's token balance is left as it is. */
    method ReleasePendingBalance(t: Token, party: Address, amount: nat) returns (r: Result<(), PaymentError>)
      requires Valid()
      modifies this
      ensures Valid()
      ensures r.Ok? <==> amount <= old(PendingBalanceOf(t, party))
      ensures r.Err? ==> r.error == ArithmeticUnderflow && stored == old(stored) && pending == old(pending)
      ensures r.Ok? ==>
                && PendingBalanceOf(t, party) == old(PendingBalanceOf(t, party)) - amount
                && StoredBalanceOf(t) == old(StoredBalanceOf(t)) - amount
      ensures r.Ok? && old(Solvent(t)) ==> GetAvailable(t) == Ok(old(GetAvailable(t)).value + amount)
      ensures r.Ok? ==> forall p | p != party :: PendingBalanceOf(t, p) == old(PendingBalanceOf(t, p))
      ensures tokenBalances == old(tokenBalances)
      ensures forall u | u != t :: StoredBalanceOf(u) == old(StoredBalanceOf(u)) && PendingOf(u) == old(PendingOf(u))
    {
      var m := PendingOf(t);
      if amount > Get(m, party) {
        return Err(ArithmeticUnderflow);
      }
      TotalUpdate(m, party, Get(m, party) - amount);
      TotalBoundsEntry(m, party);
      pending := pending[t := m[party := Get(m, party) - amount]];
      stored := stored[t := StoredBalanceOf(t) - amount];
      forall u ensures StoredBalanceOf(u) == Total(PendingOf(u)) {
        if u != t {
          assert StoredBalanceOf(u) == old(StoredBalanceOf(u)) && PendingOf(u) == old(PendingOf(u));
        }
      }
      r := Ok(());
    }

    /** Send `amount` of the available part of t to `recipient`. */
    method SkimTo(t: Token, amount: nat, recipient: Address) returns (r: Result<(), PaymentError>)
      requires Valid()
      modifies this
      ensures Valid()
      ensures r.Ok? <==> old(GetAvailable(t)).Ok? && amount <= old(GetAvailable(t)).value
      ensures r.Ok? ==> tokenBalances == old(Transferred(t, recipient, amount))
      ensures r.Ok? && recipient != self ==> GetAvailable(t) == Ok(old(GetAvailable(t)).value - amount)
      ensures r.Err? ==> tokenBalances == old(tokenBalances)
      ensures stored == old(stored) && pending == old(pending)
    {
      var available := GetAvailable(t);
      if available.Err? {
        return Err(available.error);
      }
      if amount > available.value {
        return Err(ExceedsAvailable);
      }
      tokenBalances := Transferred(t, recipient, amount);
      r := Ok(());
    }

    /** Send the whole available part of t to `recipient`; returns the amount sent. */
    method SkimAllTo(t: Token, recipient: Address) returns (r: Result<nat, PaymentError>)
      requires Valid()
      modifies this
      ensures Valid()
      ensures r.Ok? <==> old(Solvent(t))
      ensures r.Ok? ==> r == old(GetAvailable(t)) && tokenBalances == old(Transferred(t, recipient, r.value))
      ensures r.Ok? && recipient != self ==> GetAvailable(t) == Ok(0)
      ensures r.Err? ==> tokenBalances == old(tokenBalances)
      ensures stored == old(stored) && pending == old(pending)
    {
      var available := GetAvailable(t);
      if available.Err? {
        return Err(available.error);
      }
      tokenBalances := Transferred(t, recipient, available.value);
      r := available;
    }
  }

  /** Promising and releasing keep the books apart: with 24 units received,
      assigning 8 to a party leaves 16 available; releasing 3 of them makes
      them available again (19); skimming 7 leaves 12; skimming the rest
      leaves 0, with the 5 still pending untouched. */
  method BooksStayApart(self: Address, t: Token, party: Address, sink: Address)
    requires sink != self
  {
    var pm := new Manager(self);
    assert pm.GetAvailable(t) == Ok(0);
    pm.Receive(t, 24);
    assert pm.GetAvailable(t) == Ok(24);
    pm.AssignAvailableTo(t, 8, party);
    assert pm.PendingBalanceOf(t, party) == 8 && pm.GetAvailable(t) == Ok(16);
    var released := pm.ReleasePendingBalance(t, party, 3);
    assert released.Ok?;
    assert pm.StoredBalanceOf(t) == 5 && pm.GetAvailable(t) == Ok(19);
    var skimmed := pm.SkimTo(t, 7, sink);
    assert skimmed.Ok?;
    assert pm.GetAvailable(t) == Ok(12);
    var rest := pm.SkimAllTo(t, sink);
    assert rest == Ok(12) && pm.GetAvailable(t) == Ok(0) && pm.StoredBalanceOf(t) == 5;
  }
}
