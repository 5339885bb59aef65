/** The `TrustMeBro` application of `contract.py`: two global-state fields,
    `assetid` and `unitaryprice`, and four ABI methods guarded by assertions.
    A failed assertion aborts the application call, and the whole call is
    rolled back, so a method either passes every guard and takes all of its
    effects or changes nothing. The ledger's asset opt-ins appear as a set of
    (account, asset) pairs, and the inner transactions an approved call
    submits are recorded in order. */
module TrustMeBroContract {

  /** The AVM's 64-bit unsigned integers. */
  const UInt64Limit: int := 0x1_0000_0000_0000_0000

  type UInt64 = x: int | 0 <= x < UInt64Limit

  type Address = string

  /** The grouped payment of `opt_in_to_asset`, as far as the guards look. */
  datatype Payment = Payment(receiver: Address, amount: UInt64)

  /** An inner asset transfer submitted by an approved call. */
  datatype AssetTransfer = AssetTransfer(xferAsset: UInt64, assetReceiver: Address, assetAmount: UInt64)

  /** The guards of `opt_in_to_asset`, in order: the creator calls, the
      application is not yet opted in to the asset, the payment goes to the
      application, and it covers the two minimum balances exactly. Adding the
      two balances is itself checked, and aborts if the sum overflows. */
  predicate OptInToAssetGuard(
    creator: Address, appAddress: Address, assetid: UInt64, optedIn: set<(Address, UInt64)>,
    sender: Address, mbrpay: Payment, minBalance: UInt64, assetOptInMinBalance: UInt64)
    ensures OptInToAssetGuard(creator, appAddress, assetid, optedIn, sender, mbrpay, minBalance, assetOptInMinBalance) ==>
      minBalance <= mbrpay.amount && assetOptInMinBalance <= mbrpay.amount
  {
    && sender == creator
    && (appAddress, assetid) !in optedIn
    && mbrpay.receiver == appAddress
    && minBalance + assetOptInMinBalance < UInt64Limit
    && mbrpay.amount == minBalance + assetOptInMinBalance
  }

  /** Once the application is opted in to its asset, the guard refuses every
      further opt-in, whoever sends it and whatever it pays. */
  lemma SecondOptInRefused(
    creator: Address, appAddress: Address, assetid: UInt64, optedIn: set<(Address, UInt64)>,
    sender: Address, mbrpay: Payment, minBalance: UInt64, assetOptInMinBalance: UInt64)
    requires (appAddress, assetid) in optedIn
    ensures !OptInToAssetGuard(creator, appAddress, assetid, optedIn, sender, mbrpay, minBalance, assetOptInMinBalance)
  {
  }

  /** The guard accepts exactly one payment amount, and none when the
      minimum balances do not fit in 64 bits. */
  lemma {:induction false} OptInAmountIsExact(
    creator: Address, appAddress: Address, assetid: UInt64, optedIn: set<(Address, UInt64)>,
    sender: Address, p1: Payment, p2: Payment, minBalance: UInt64, assetOptInMinBalance: UInt64)
    requires OptInToAssetGuard(creator, appAddress, assetid, optedIn, sender, p1, minBalance, assetOptInMinBalance)
    requires OptInToAssetGuard(creator, appAddress, assetid, optedIn, sender, p2, minBalance, assetOptInMinBalance)
    ensures p1 == p2
    ensures minBalance + assetOptInMinBalance < UInt64Limit
  {
    assert p1.receiver == appAddress == p2.receiver;
    assert p1.amount == minBalance + assetOptInMinBalance == p2.amount;
  }

  class TrustMeBro {
    /** `Global.creator_address`. */
    const creator: Address
    /** `Global.current_application_address`. */
    const appAddress: Address
    var assetid: UInt64
    var unitaryprice: UInt64
    /** The (account, asset) pairs the ledger records as opted in. */
    var optedIn: set<(Address, UInt64)>
    /** The inner transactions submitted so far. */
    var innerTransfers: seq<AssetTransfer>

    /** `create_application`: the asset's id and the price are stored. */
    constructor CreateApplication(
      creator: Address, appAddress: Address, optedIn: set<(Address, UInt64)>,
      assetId: UInt64, unitaryPrice: UInt64)
      ensures this.creator == creator && this.appAddress == appAddress
      ensures assetid == assetId && unitaryprice == unitaryPrice
      ensures this.optedIn == optedIn && innerTransfers == []
    {
      this.creator := creator;
      this.appAddress := appAddress;
      this.optedIn := optedIn;
      assetid := assetId;
      unitaryprice := unitaryPrice;
      innerTransfers := [];
    }

    /** `set_price`: only the creator may change the price, and nothing but
        the price changes. */
    method SetPrice(sender: Address, unitaryPrice: UInt64) returns (approved: bool)
      modifies this
      ensures approved <==> sender == creator
      ensures approved ==> unitaryprice == unitaryPrice
      ensures !approved ==> unitaryprice == old(unitaryprice)
      ensures assetid == old(assetid) && optedIn == old(optedIn) && innerTransfers == old(innerTransfers)
    {
      if sender != creator {
        return false;
      }
      unitaryprice := unitaryPrice;
      approved := true;
    }

    /** `opt_in_to_asset`: when every guard passes, the application sends
        itself zero units of its asset, which opts it in; when one fails the
        call aborts and nothing changes. The global fields never change. */
    method OptInToAsset(sender: Address, mbrpay: Payment, minBalance: UInt64, assetOptInMinBalance: UInt64)
      returns (approved: bool)
      modifies this
      ensures approved <==>
        OptInToAssetGuard(creator, appAddress, old(assetid), old(optedIn), sender, mbrpay, minBalance, assetOptInMinBalance)
      ensures approved ==>
        && optedIn == old(optedIn) + {(appAddress, assetid)}
        && innerTransfers == old(innerTransfers) + [AssetTransfer(assetid, appAddress, 0)]
      ensures !approved ==> optedIn == old(optedIn) && innerTransfers == old(innerTransfers)
      ensures assetid == old(assetid) && unitaryprice == old(unitaryprice)
    {
      if sender != creator || (appAddress, assetid) in optedIn || mbrpay.receiver != appAddress {
        return false;
      }
      if minBalance + assetOptInMinBalance >= UInt64Limit {
        return false;
      }
      var required: UInt64 := minBalance + assetOptInMinBalance;
      if mbrpay.amount != required {
        return false;
      }
      innerTransfers := innerTransfers + [AssetTransfer(assetid, appAddress, 0)];
      optedIn := optedIn + {(appAddress, assetid)};
      approved := true;
    }

    /** `user_opt_in`: unguarded; it submits a zero-unit transfer of the
        asset from the application to the caller and writes no global field. */
    method UserOptIn(sender: Address)
      modifies this
      ensures innerTransfers == old(innerTransfers) + [AssetTransfer(assetid, sender, 0)]
      ensures assetid == old(assetid) && unitaryprice == old(unitaryprice) && optedIn == old(optedIn)
    {
      innerTransfers := innerTransfers + [AssetTransfer(assetid, sender, 0)];
    }
  }

  /** A session against a fresh application: the creator opts it in once, a
      second opt-in is refused, only the creator can reprice, and the asset
      id stays the one given at creation throughout. */
  method LifecycleScenario(creator: Address, appAddress: Address, other: Address)
    requires other != creator
  {
    var app := new TrustMeBro.CreateApplication(creator, appAddress, {}, 1234, 5);
    var pay := Payment(appAddress, 200000);
    var first := app.OptInToAsset(creator, pay, 100000, 100000);
    assert first && (appAddress, 1234) in app.optedIn;
    var second := app.OptInToAsset(creator, pay, 100000, 100000);
    assert !second;
    var refused := app.SetPrice(other, 1);
    assert !refused && app.unitaryprice == 5;
    var repriced := app.SetPrice(creator, 7);
    assert repriced && app.unitaryprice == 7;
    app.UserOptIn(other);
    assert app.assetid == 1234;
    assert app.innerTransfers == [AssetTransfer(1234, appAddress, 0), AssetTransfer(1234, other, 0)];
  }
}
