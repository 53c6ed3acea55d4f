/**
 * The family-circle screen's permission panel: six independent boolean
 * switches, each flipped by its own row.
 */
module PermissionPanel {

  datatype PermissionKey = Balance | Transactions | Transfer | Bills | Cards | Investment

  datatype Permissions = Permissions(
    balance: bool,
    transactions: bool,
    transfer: bool,
    bills: bool,
    cards: bool,
    investment: bool)

  /** The switches when the screen mounts: balance and transactions on, the rest off. */
  function Default(): (p: Permissions)
    ensures Get(p, Balance) && Get(p, Transactions)
    ensures forall k :: k != Balance && k != Transactions ==> !Get(p, k)
  {
    Permissions(true, true, false, false, false, false)
  }

  /** `permissions[key]`. */
  function Get(p: Permissions, k: PermissionKey): bool {
    match k
    case Balance => p.balance
    case Transactions => p.transactions
    case Transfer => p.transfer
    case Bills => p.bills
    case Cards => p.cards
    case Investment => p.investment
  }

  /** `togglePermission(key)`: `{ ...prev, [key]: !prev[key] }`. */
  function Toggle(p: Permissions, k: PermissionKey): (r: Permissions)
    ensures Get(r, k) == !Get(p, k)
    ensures forall j :: j != k ==> Get(r, j) == Get(p, j)
  {
    Permissions(
      if k == Balance then !p.balance else p.balance,
      if k == Transactions then !p.transactions else p.transactions,
      if k == Transfer then !p.transfer else p.transfer,
      if k == Bills then !p.bills else p.bills,
      if k == Cards then !p.cards else p.cards,
      if k == Investment then !p.investment else p.investment)
  }

  /** Two switches are the same panel state only if every key reads the same. */
  lemma {:induction false} SameSwitches(p: Permissions, q: Permissions)
    requires forall k :: Get(p, k) == Get(q, k)
    ensures p == q
  {
    assert Get(p, Balance) == Get(q, Balance);
    assert Get(p, Transactions) == Get(q, Transactions);
    assert Get(p, Transfer) == Get(q, Transfer);
    assert Get(p, Bills) == Get(q, Bills);
    assert Get(p, Cards) == Get(q, Cards);
    assert Get(p, Investment) == Get(q, Investment);
  }

  /** Flipping the same switch twice restores the panel. */
  lemma ToggleTwiceRestores(p: Permissions, k: PermissionKey)
    ensures Toggle(Toggle(p, k), k) == p
  {
  }

  /** Flipping two switches gives the same panel in either order. */
  lemma TogglesCommute(p: Permissions, j: PermissionKey, k: PermissionKey)
    ensures Toggle(Toggle(p, j), k) == Toggle(Toggle(p, k), j)
  {
  }
}
