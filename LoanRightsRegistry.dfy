/** The loan rights registry: the lender and borrower positions of loan i are
    two transferable ownership tokens, 2i for the lender and 2i + 1 for the
    borrower. Only the loan tracker mints and burns them; owners transfer
    them and approve operators who may act for them. */
module LoanRightsRegistry {
  import opened Outcomes

  /** Account addresses; 0 is the zero address. */
  type Address = nat
  type TokenId = nat
  type LoanId = nat

  datatype RightsError =
    | NotLoanTracker
    | NonexistentToken          // owner query for a token that does not exist
    | OperatorQueryNonexistent  // operator query for a token that does not exist
    | BalanceOfZeroAddress
    | MintToZeroAddress
    | TransferToZeroAddress
    | NotOwnerNorApproved
    | NotOwnToken
    | ApproveToCaller

  /** The revert reason each failure produces on chain. */
  function Reason(e: RightsError): string
  {
    match e
    case NotLoanTracker => "LLR: Not LoanTracker"
    case NonexistentToken => "ERC721: owner query for nonexistent token"
    case OperatorQueryNonexistent => "ERC721: operator query for nonexistent token"
    case BalanceOfZeroAddress => "ERC721: balance query for the zero address"
    case MintToZeroAddress => "ERC721: mint to the zero address"
    case TransferToZeroAddress => "ERC721: transfer to the zero address"
    case NotOwnerNorApproved => "ERC721: transfer caller is not owner nor approved"
    case NotOwnToken => "ERC721: transfer of token that is not own"
    case ApproveToCaller => "ERC721: approve to caller"
  }

  function LenderToken(id: LoanId): TokenId { 2 * id }
  function BorrowerToken(id: LoanId): TokenId { 2 * id + 1 }

  /** The tokens a given address owns in an owner table. */
  ghost function TokensOf(owners: map<TokenId, Address>, a: Address): set<TokenId>
  {
    set t | t in owners && owners[t] == a
  }

  /** Minting a token that does not exist yet adds one to its owner's count. */
  lemma CountAfterMint(owners: map<TokenId, Address>, t: TokenId, to: Address, a: Address)
    requires t !in owners
    ensures |TokensOf(owners[t := to], a)| == |TokensOf(owners, a)| + (if a == to then 1 else 0)
  {
    if a == to {
      assert TokensOf(owners[t := to], a) == TokensOf(owners, a) + {t};
    } else {
      assert TokensOf(owners[t := to], a) == TokensOf(owners, a);
    }
  }

  /** Moving a token from one owner to another moves one unit of count. */
  lemma CountAfterTransfer(owners: map<TokenId, Address>, t: TokenId, from: Address, to: Address, a: Address)
    requires t in owners && owners[t] == from
    ensures |TokensOf(owners[t := to], a)|
         == |TokensOf(owners, a)| - (if a == from then 1 else 0) + (if a == to then 1 else 0)
  {
    if a == to && a == from {
      assert TokensOf(owners[t := to], a) == TokensOf(owners, a);
    } else if a == to {
      assert TokensOf(owners[t := to], a) == TokensOf(owners, a) + {t};
    } else if a == from {
      assert t in TokensOf(owners, a);
      assert TokensOf(owners[t := to], a) == TokensOf(owners, a) - {t};
    } else {
      assert TokensOf(owners[t := to], a) == TokensOf(owners, a);
    }
  }

  /** Burning a token takes one off its owner's count. */
  lemma CountAfterBurn(owners: map<TokenId, Address>, t: TokenId, a: Address)
    requires t in owners
    ensures |TokensOf(owners - {t}, a)| == |TokensOf(owners, a)| - (if a == owners[t] then 1 else 0)
  {
    if a == owners[t] {
      assert t in TokensOf(owners, a);
      assert TokensOf(owners - {t}, a) == TokensOf(owners, a) - {t};
    } else {
      assert TokensOf(owners - {t}, a) == TokensOf(owners, a);
    }
  }

  class Registry {
    /** The only caller allowed to register loans and burn rights. */
    const loanTracker: Address
    /** Current owner of each existing token. */
    var owners: map<TokenId, Address>
    /** Number of tokens each address owns; a missing entry reads as 0. */
    var balances: map<Address, nat>
    /** (owner, operator) pairs: the operator may act for all of the owner's tokens. */
    var operators: set<(Address, Address)>
    /** Tokens minted so far, burned ones included. */
    var totalTokensIssued: nat

    function Balance(a: Address): nat
      reads this
    {
      if a in balances then balances[a] else 0
    }

    /** Tokens are minted in pairs and never to the zero address, every
        existing token was minted, and each balance counts the tokens its
        address owns. */
    ghost predicate Valid()
      reads this
    {
      && totalTokensIssued % 2 == 0
      && (forall t | t in owners :: t < totalTokensIssued && owners[t] != 0)
      && (forall a :: Balance(a) == |TokensOf(owners, a)|)
    }

    constructor(loanTracker: Address)
      ensures Valid()
      ensures this.loanTracker == loanTracker && totalTokensIssued == 0
      ensures owners == map[] && operators == {}
      ensures forall a :: Balance(a) == 0
    {
      this.loanTracker := loanTracker;
      owners := map[];
      balances := map[];
      operators := {};
      totalTokensIssued := 0;
      forall a ensures TokensOf(map[], a) == {} { }
    }

    /** ERC721 ownerOf. */
    function OwnerOf(t: TokenId): (r: Result<Address, RightsError>)
      reads this
      ensures r.Ok? <==> t in owners
      ensures r.Ok? ==> r.value == owners[t]
      ensures r.Err? ==> r.error == NonexistentToken
    {
      if t in owners then Ok(owners[t]) else Err(NonexistentToken)
    }

    /** ERC721 balanceOf: undefined for the zero address. */
    function BalanceOf(a: Address): (r: Result<nat, RightsError>)
      reads this
      requires Valid()
      ensures a == 0 ==> r == Err(BalanceOfZeroAddress)
      ensures a != 0 ==> r.Ok? && r.value == |TokensOf(owners, a)|
    {
      if a == 0 then Err(BalanceOfZeroAddress) else Ok(Balance(a))
    }

    /** ERC721 isApprovedForAll: whether `owner` made `operator` an operator. */
    function IsApprovedForAll(owner: Address, operator: Address): (r: bool)
      reads this
      ensures r <==> (owner, operator) in operators
    {
      (owner, operator) in operators
    }

    /** Whether `spender` may act for token t: its owner, or an operator the
        owner approved. */
    function IsApprovedOrOwner(spender: Address, t: TokenId): (r: Result<bool, RightsError>)
      reads this
      ensures r.Err? <==> t !in owners
      ensures r.Err? ==> r.error == OperatorQueryNonexistent
      ensures r.Ok? ==> (r.value <==> spender == owners[t] || (owners[t], spender) in operators)
    {
      if t !in owners then Err(OperatorQueryNonexistent)
      else Ok(spender == owners[t] || IsApprovedForAll(owners[t], spender))
    }

    function LenderOf(id: LoanId): (r: Result<Address, RightsError>)
      reads this
      ensures r == OwnerOf(2 * id)
    {
      OwnerOf(LenderToken(id))
    }

    function BorrowerOf(id: LoanId): (r: Result<Address, RightsError>)
      reads this
      ensures r == OwnerOf(2 * id + 1)
    {
      OwnerOf(BorrowerToken(id))
    }

    function IsLenderOf(id: LoanId, a: Address): (r: Result<bool, RightsError>)
      reads this
      ensures 2 * id in owners ==>
                r == Ok(a == owners[2 * id] || (owners[2 * id], a) in operators)
      ensures 2 * id !in owners ==> r == Err(OperatorQueryNonexistent)
    {
      IsApprovedOrOwner(a, LenderToken(id))
    }

    function IsBorrowerOf(id: LoanId, a: Address): (r: Result<bool, RightsError>)
      reads this
      ensures 2 * id + 1 in owners ==>
                r == Ok(a == owners[2 * id + 1] || (owners[2 * id + 1], a) in operators)
      ensures 2 * id + 1 !in owners ==> r == Err(OperatorQueryNonexistent)
    {
      IsApprovedOrOwner(a, BorrowerToken(id))
    }

    /** Mint a fresh token to `to`. */
    method Mint(to: Address, t: TokenId)
      requires Valid() && to != 0 && t !in owners
      requires t < totalTokensIssued
      modifies this
      ensures Valid()
      ensures owners == old(owners)[t := to]
      ensures balances == old(balances)[to := old(Balance(to)) + 1]
      ensures operators == old(operators) && totalTokensIssued == old(totalTokensIssued)
    {
      ghost var before := owners;
      owners := owners[t := to];
      balances := balances[to := Balance(to) + 1];
      forall a ensures Balance(a) == |TokensOf(owners, a)| {
        CountAfterMint(before, t, to, a);
      }
    }

    /** The loan tracker registers a loan: the next loan id, the lender token
        to the lender and the borrower token to the borrower. */
    method Register(caller: Address, lender: Address, borrower: Address) returns (r: Result<LoanId, RightsError>)
      requires Valid()
      modifies this
      ensures Valid()
      ensures caller != loanTracker ==> r == Err(NotLoanTracker)
      ensures r.Ok? <==> caller == loanTracker && lender != 0 && borrower != 0
      ensures r.Ok? ==>
                && r.value == old(totalTokensIssued) / 2
                && totalTokensIssued == old(totalTokensIssued) + 2
                && 2 * r.value !in old(owners) && 2 * r.value + 1 !in old(owners)
                && owners == old(owners)[2 * r.value := lender][2 * r.value + 1 := borrower]
                && LenderOf(r.value) == Ok(lender) && BorrowerOf(r.value) == Ok(borrower)
      ensures r.Ok? ==> forall a :: Balance(a) == old(Balance(a)) + (if a == lender then 1 else 0)
                                                                 + (if a == borrower then 1 else 0)
      ensures r.Err? ==> owners == old(owners) && balances == old(balances)
                         && totalTokensIssued == old(totalTokensIssued)
      ensures operators == old(operators)
    {
      if caller != loanTracker {
        return Err(NotLoanTracker);
      }
      if lender == 0 || borrower == 0 {
        return Err(MintToZeroAddress);
      }
      var id := totalTokensIssued / 2;
      totalTokensIssued := totalTokensIssued + 2;
      Mint(lender, 2 * id);
      Mint(borrower, 2 * id + 1);
      r := Ok(id);
    }

    /** ERC721 setApprovalForAll, called by the owner for an operator. */
    method SetApprovalForAll(caller: Address, operator: Address, approved: bool) returns (r: Result<(), RightsError>)
      requires Valid()
      modifies this
      ensures Valid()
      ensures r.Err? <==> operator == caller
      ensures r.Err? ==> r.error == ApproveToCaller && operators == old(operators)
      ensures r.Ok? ==> operators == if approved then old(operators) + {(caller, operator)}
                                      else old(operators) - {(caller, operator)}
      ensures owners == old(owners) && balances == old(balances) && totalTokensIssued == old(totalTokensIssued)
    {
      if operator == caller {
        return Err(ApproveToCaller);
      }
      operators := if approved then operators + {(caller, operator)} else operators - {(caller, operator)};
      r := Ok(());
    }

    /** ERC721 transferFrom: the owner or an operator of the owner moves a
        token from its owner to a nonzero address. */
    method TransferFrom(caller: Address, from: Address, to: Address, t: TokenId) returns (r: Result<(), RightsError>)
      requires Valid()
      modifies this
      ensures Valid()
      ensures t !in old(owners) ==> r == Err(OperatorQueryNonexistent)
      ensures r.Ok? <==>
                && t in old(owners)
                && (caller == old(owners)[t] || (old(owners)[t], caller) in old(operators))
                && old(owners)[t] == from && to != 0
      ensures r.Ok? ==> owners == old(owners)[t := to]
      ensures r.Ok? ==> forall a :: Balance(a) == |TokensOf(owners, a)|
      ensures r.Err? ==> owners == old(owners) && balances == old(balances)
      ensures operators == old(operators) && totalTokensIssued == old(totalTokensIssued)
    {
      var allowed := IsApprovedOrOwner(caller, t);
      if allowed.Err? {
        return Err(allowed.error);
      }
      if !allowed.value {
        return Err(NotOwnerNorApproved);
      }
      if owners[t] != from {
        return Err(NotOwnToken);
      }
      if to == 0 {
        return Err(TransferToZeroAddress);
      }
      ghost var before := owners;
      assert t in TokensOf(before, from);
      balances := balances[from := Balance(from) - 1];
      balances := balances[to := Balance(to) + 1];
      owners := owners[t := to];
      forall a ensures Balance(a) == |TokensOf(owners, a)| {
        CountAfterTransfer(before, t, from, to, a);
      }
      r := Ok(());
    }

    /** Burn an existing token. */
    method Burn(t: TokenId) returns (r: Result<(), RightsError>)
      requires Valid()
      modifies this
      ensures Valid()
      ensures r.Ok? <==> t in old(owners)
      ensures r.Err? ==> r.error == NonexistentToken && owners == old(owners) && balances == old(balances)
      ensures r.Ok? ==> owners == old(owners) - {t}
      ensures operators == old(operators) && totalTokensIssued == old(totalTokensIssued)
    {
      if t !in owners {
        return Err(NonexistentToken);
      }
      ghost var before := owners;
      var owner := owners[t];
      CountAfterBurn(before, t, owner);
      balances := balances[owner := Balance(owner) - 1];
      owners := owners - {t};
      forall a ensures Balance(a) == |TokensOf(owners, a)| {
        CountAfterBurn(before, t, a);
      }
      r := Ok(());
    }

    /** The loan tracker burns the lender token of a loan. */
    method DeleteLenderOf(caller: Address, id: LoanId) returns (r: Result<(), RightsError>)
      requires Valid()
      modifies this
      ensures Valid()
      ensures caller != loanTracker ==> r == Err(NotLoanTracker)
      ensures r.Ok? <==> caller == loanTracker && 2 * id in old(owners)
      ensures r.Ok? ==> owners == old(owners) - {2 * id} && LenderOf(id) == Err(NonexistentToken)
      ensures r.Err? ==> owners == old(owners) && balances == old(balances)
      ensures operators == old(operators) && totalTokensIssued == old(totalTokensIssued)
    {
      if caller != loanTracker {
        return Err(NotLoanTracker);
      }
      r := Burn(LenderToken(id));
    }

    /** The loan tracker burns the borrower token of a loan. */
    method DeleteBorrowerOf(caller: Address, id: LoanId) returns (r: Result<(), RightsError>)
      requires Valid()
      modifies this
      ensures Valid()
      ensures caller != loanTracker ==> r == Err(NotLoanTracker)
      ensures r.Ok? <==> caller == loanTracker && 2 * id + 1 in old(owners)
      ensures r.Ok? ==> owners == old(owners) - {2 * id + 1} && BorrowerOf(id) == Err(NonexistentToken)
      ensures r.Err? ==> owners == old(owners) && balances == old(balances)
      ensures operators == old(operators) && totalTokensIssued == old(totalTokensIssued)
    {
      if caller != loanTracker {
        return Err(NotLoanTracker);
      }
      r := Burn(BorrowerToken(id));
    }
  }

  /** Roles follow the tokens: after the borrower token moves to a third
      party, that party is the borrower and the original borrower is not; an
      operator approved by the lender acts as lender until the token moves. */
  method RolesFollowTransfers(tracker: Address, lender: Address, borrower: Address, other: Address, operator: Address)
    requires tracker != 0 && lender != 0 && borrower != 0 && other != 0 && operator != 0
    requires lender != borrower && other != borrower && other != lender
    requires operator != lender && operator != borrower && operator != other
  {
    var reg := new Registry(tracker);
    var r := reg.Register(tracker, lender, borrower);
    assert r == Ok(0) && reg.totalTokensIssued == 2;
    var moved := reg.TransferFrom(borrower, borrower, other, 1);
    assert moved.Ok?;
    assert reg.BorrowerOf(0) == Ok(other);
    assert reg.IsBorrowerOf(0, borrower) == Ok(false);
    assert reg.IsLenderOf(0, operator) == Ok(false);
    var approved := reg.SetApprovalForAll(lender, operator, true);
    assert reg.IsLenderOf(0, operator) == Ok(true);
    var lent := reg.TransferFrom(lender, lender, other, 0);
    assert lent.Ok?;
    assert reg.IsLenderOf(0, lender) == Ok(false) && reg.IsLenderOf(0, operator) == Ok(false);
    var deleted := reg.DeleteBorrowerOf(tracker, 0);
    assert deleted.Ok? && reg.BorrowerOf(0) == Err(NonexistentToken);
  }
}
