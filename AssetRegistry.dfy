/** The asset registry: gives every piece of collateral a sequential id,
    remembers which registrar holds it, lets the loan tracker reserve it, and
    releases it through the registrar's release hook. */
module AssetRegistry {
  import opened Outcomes

  /** Account addresses; 0 is the zero address. */
  type Address = nat
  type AssetId = nat

  datatype AssetError = NotLoanTracker | AlreadyReserved | InvalidAsset

  /** The revert reason each failure produces on chain. */
  function Reason(e: AssetError): string
  {
    match e
    case NotLoanTracker => "AssetRegistry: Not LoanTracker"
    case AlreadyReserved => "AssetRegistry: Already reserved"
    case InvalidAsset => "AssetRegistry: Invalid asset"
  }

  /** One call of a registrar's release hook `onRelease(assetId, recipient)`. */
  datatype ReleaseCall = ReleaseCall(registrar: Address, assetId: AssetId, recipient: Address)

  class Registry {
    /** The only caller allowed to reserve, and to release reserved assets. */
    const loanTracker: Address
    /** Registrar of each registered asset; a missing entry reads as 0. */
    var registrars: map<AssetId, Address>
    var reservedAssets: set<AssetId>
    var totalAssets: nat
    /** The release hooks invoked so far, oldest first. */
    var hookCalls: seq<ReleaseCall>

    /** The registrar of an asset, 0 for an id not registered or released. */
    function RegistrarOf(id: AssetId): (r: Address)
      reads this
      ensures id !in registrars ==> r == 0
      ensures id in registrars ==> r == registrars[id]
    {
      if id in registrars then registrars[id] else 0
    }

    /** Whether the loan tracker holds the asset; in a valid registry only a
        registered asset can be. */
    predicate Reserved(id: AssetId): (b: bool)
      reads this
      ensures b <==> id in reservedAssets
      ensures b && Valid() ==> RegistrarOf(id) != 0
    {
      id in reservedAssets
    }

    /** Every registry entry has an id already handed out, and only assets
        with a registrar can be reserved. */
    ghost predicate Valid()
      reads this
    {
      && (forall id | id in registrars :: id < totalAssets)
      && (forall id | id in reservedAssets :: RegistrarOf(id) != 0)
    }

    constructor(loanTracker: Address)
      ensures Valid()
      ensures this.loanTracker == loanTracker && totalAssets == 0 && hookCalls == []
      ensures forall id :: RegistrarOf(id) == 0 && !Reserved(id)
    {
      this.loanTracker := loanTracker;
      registrars := map[];
      reservedAssets := {};
      totalAssets := 0;
      hookCalls := [];
    }

    /** Anyone may register an asset; the caller becomes its registrar and it
        gets the next id, one that no asset has had before. */
    method RegisterAsset(caller: Address) returns (id: AssetId)
      requires Valid()
      modifies this
      ensures Valid()
      ensures id == old(totalAssets) && totalAssets == old(totalAssets) + 1
      ensures id !in old(registrars) && id !in old(reservedAssets)
      ensures registrars == old(registrars)[id := caller]
      ensures reservedAssets == old(reservedAssets) && hookCalls == old(hookCalls)
    {
      id := totalAssets;
      registrars := registrars[id := caller];
      totalAssets := totalAssets + 1;
    }

    /** The loan tracker reserves a registered, unreserved asset. */
    method Reserve(caller: Address, id: AssetId) returns (r: Result<(), AssetError>)
      requires Valid()
      modifies this
      ensures Valid()
      ensures caller != loanTracker ==> r == Err(NotLoanTracker)
      ensures caller == loanTracker && old(RegistrarOf(id)) == 0 ==> r == Err(InvalidAsset)
      ensures caller == loanTracker && old(RegistrarOf(id)) != 0 && old(Reserved(id)) ==> r == Err(AlreadyReserved)
      ensures r.Ok? <==> caller == loanTracker && old(RegistrarOf(id)) != 0 && !old(Reserved(id))
      ensures reservedAssets == if r.Ok? then old(reservedAssets) + {id} else old(reservedAssets)
      ensures registrars == old(registrars) && totalAssets == old(totalAssets) && hookCalls == old(hookCalls)
    {
      if caller != loanTracker {
        r := Err(NotLoanTracker);
      } else if RegistrarOf(id) == 0 {
        r := Err(InvalidAsset);
      } else if Reserved(id) {
        r := Err(AlreadyReserved);
      } else {
        reservedAssets := reservedAssets + {id};
        r := Ok(());
      }
    }

    /** Release an asset to `recipient`: anyone may release an unreserved
        asset, only the loan tracker a reserved one. The entry is deleted and
        the registrar's hook is called with the id and the recipient. */
    method ReleaseAssetTo(caller: Address, id: AssetId, recipient: Address) returns (r: Result<(), AssetError>)
      requires Valid()
      modifies this
      ensures Valid()
      ensures old(RegistrarOf(id)) == 0 ==> r == Err(InvalidAsset)
      ensures old(Reserved(id)) && caller != loanTracker ==> r == Err(NotLoanTracker)
      ensures r.Ok? <==> old(RegistrarOf(id)) != 0 && (!old(Reserved(id)) || caller == loanTracker)
      ensures r.Ok? ==>
                && registrars == old(registrars) - {id}
                && reservedAssets == old(reservedAssets) - {id}
                && hookCalls == old(hookCalls) + [ReleaseCall(old(RegistrarOf(id)), id, recipient)]
      ensures r.Ok? ==> RegistrarOf(id) == 0 && !Reserved(id)
      ensures r.Err? ==> registrars == old(registrars) && reservedAssets == old(reservedAssets)
                         && hookCalls == old(hookCalls)
      ensures totalAssets == old(totalAssets)
    {
      var registrar := RegistrarOf(id);
      if registrar == 0 {
        r := Err(InvalidAsset);
      } else if Reserved(id) && caller != loanTracker {
        r := Err(NotLoanTracker);
      } else {
        registrars := registrars - {id};
        reservedAssets := reservedAssets - {id};
        hookCalls := hookCalls + [ReleaseCall(registrar, id, recipient)];
        r := Ok(());
      }
    }
  }

  /** Released ids are not handed out again: after three registrations,
      reserving and releasing asset 2, the next registration gets id 3, and a
      second release or reservation of asset 2 fails. */
  method ReleasedIdsAreNotReused(tracker: Address, alice: Address, bob: Address, registrar: Address)
    requires tracker != alice && alice != 0 && bob != 0 && registrar != 0
  {
    var reg := new Registry(tracker);
    var a0 := reg.RegisterAsset(alice);
    var a1 := reg.RegisterAsset(bob);
    var a2 := reg.RegisterAsset(registrar);
    assert a0 == 0 && a1 == 1 && a2 == 2 && reg.totalAssets == 3;
    var ok := reg.Reserve(tracker, 2);
    assert ok.Ok?;
    var denied := reg.ReleaseAssetTo(alice, 2, alice);
    assert denied == Err(NotLoanTracker);
    var released := reg.ReleaseAssetTo(tracker, 2, bob);
    assert released.Ok? && reg.hookCalls == [ReleaseCall(registrar, 2, bob)];
    var again := reg.ReleaseAssetTo(tracker, 2, bob);
    assert again == Err(InvalidAsset);
    var reserveAgain := reg.Reserve(tracker, 2);
    assert reserveAgain == Err(InvalidAsset);
    var a3 := reg.RegisterAsset(registrar);
    assert a3 == 3;
  }
}
