/** The `Money` resource (src/resources/mod.rs) and the pig trade of src/plugins/pig.rs and
    src/systems/pig.rs, which both charge 10 for a pig bought with Space and pay 15 for a pig
    whose lifetime runs out. */
module Wallet {

  /** `Money::default()` */
  const DefaultMoney: real := 100.0
  /** `pig_cost` */
  const PigCost: real := 10.0
  /** What a pig fetches when its lifetime runs out. */
  const PigPrice: real := 15.0

  /** The `Money` resource. */
  class Money {
    var amount: real

    constructor ()
      ensures amount == DefaultMoney
    {
      amount := DefaultMoney;
    }
  }

  /** The purchase step of `spawn_pig`: whether a pig is bought, and the money left.  Nothing
      happens unless Space was just pressed, nor when the money is short of the cost; otherwise
      the cost is paid. */
  function Purchase(spaceJustPressed: bool, money: real): (r: (bool, real))
    ensures r.0 <==> spaceJustPressed && money >= PigCost
    ensures r.0 ==> r.1 == money - PigCost
    ensures !r.0 ==> r.1 == money
    ensures money >= 0.0 ==> r.1 >= 0.0
  {
    if !spaceJustPressed then (false, money)
    else if money < PigCost then (false, money)
    else (true, money - PigCost)
  }

  /** Buying one pig and selling it when its lifetime runs out leaves 5 more than before. */
  lemma BuyThenSellNetsFive(money: real)
    requires money >= PigCost
    ensures Purchase(true, money).0 && Purchase(true, money).1 + PigPrice == money + 5.0
  {
  }

  /** The pigs bought and the money left after one purchase attempt per frame, frame `i`
      pressing Space when `presses[i]` holds, with no sales in between. */
  function PurchaseRun(money: real, presses: seq<bool>): (r: (nat, real))
    requires money >= 0.0
    ensures r.0 as real * PigCost + r.1 == money
    ensures r.1 >= 0.0
    decreases |presses|
  {
    if presses == [] then (0, money)
    else
      var p := Purchase(presses[0], money);
      var rest := PurchaseRun(p.1, presses[1..]);
      (rest.0 + (if p.0 then 1 else 0), rest.1)
  }

  /** Starting from the default money and selling nothing, at most ten pigs can be bought. */
  lemma {:induction false} AtMostTenPigsOnTheStartingMoney(presses: seq<bool>)
    ensures PurchaseRun(DefaultMoney, presses).0 <= 10
  {
    var r := PurchaseRun(DefaultMoney, presses);
    assert r.0 as real * 10.0 <= 100.0;
  }
}
