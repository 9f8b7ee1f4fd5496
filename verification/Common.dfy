/** Types shared by the payment, inventory and login models. */
module Common {

  datatype Option<+T> = None | Some(value: T)

  /** One entry of a product's reward list (the `Args` text is carried along and never read). */
  datatype Reward = Reward(itemTypeId: int, count: int, expireDurationSec: int, expireTimeUnix: int, args: string)

  /** Entries of a reward list may be nil. */
  type RewardList = seq<Option<Reward>>
}

/** Decimal rendering of identifiers, as the `%d` verb prints them into nonces and task IDs. */
module Decimal {

  function Digit(d: nat): char
    requires d < 10
  {
    '0' + d as char
  }

  function Show(n: nat): (text: string)
    ensures text != []
  {
    if n < 10 then [Digit(n)] else Show(n / 10) + [Digit(n % 10)]
  }

  /** Two numbers with the same decimal text are the same number. */
  lemma {:induction false} ShowInjective(a: nat, b: nat)
    requires Show(a) == Show(b)
    ensures a == b
  {
    var s, t := Show(a), Show(b);
    assert s[|s| - 1] == t[|t| - 1];
    assert Digit(a % 10) == s[|s| - 1] && Digit(b % 10) == t[|t| - 1];
    if a >= 10 && b >= 10 {
      assert s[..|s| - 1] == Show(a / 10) && t[..|t| - 1] == Show(b / 10);
      ShowInjective(a / 10, b / 10);
    }
  }

  /** A fixed prefix in front of the number keeps the rendering injective. */
  lemma PrefixedInjective(prefix: string, a: nat, b: nat)
    requires prefix + Show(a) == prefix + Show(b)
    ensures a == b
  {
    assert (prefix + Show(a))[|prefix|..] == Show(a);
    assert (prefix + Show(b))[|prefix|..] == Show(b);
    ShowInjective(a, b);
  }
}
