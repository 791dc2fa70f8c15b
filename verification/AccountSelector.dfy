/** Choosing an account for a request: an in-place eligibility filter, then the session's account or
    the next round-robin ticket (internal/core/account_selector.go). */
module AccountSelector {
  import opened Arithmetic
  import opened Wrappers
  import opened SessionRouter

  const UINT64 := 0x1_0000_0000_0000_0000

  function Eligible(accounts: seq<Account>, eligible: Account -> bool): seq<Account> {
    if accounts == [] then []
    else
      var last := accounts[|accounts| - 1];
      Eligible(accounts[..|accounts| - 1], eligible) + if eligible(last) then [last] else []
  }

  lemma {:induction false} EligibleFacts(accounts: seq<Account>, eligible: Account -> bool)
    ensures |Eligible(accounts, eligible)| <= |accounts|
    ensures forall a :: a in Eligible(accounts, eligible) <==> a in accounts && eligible(a)
    ensures Distinct(accounts) ==> Distinct(Eligible(accounts, eligible))
  {
    if accounts != [] {
      var front, last := accounts[..|accounts| - 1], accounts[|accounts| - 1];
      EligibleFacts(front, eligible);
      assert accounts == front + [last];
      var kept := Eligible(front, eligible);
      if Distinct(accounts) && eligible(last) {
        forall i | 0 <= i < |kept| ensures kept[i].id != last.id {
          assert kept[i] in front;
        }
      }
    }
  }

  /** The ticket's account when no session decides. */
  function Turn(ticket: nat, n: nat): nat
    requires n > 0
  {
    ticket % n
  }

  class AccountSelector {
    const node: Hash
    const nodes: nat
    var counter: nat  // a uint64: it wraps

    ghost predicate Valid()
      reads this
    {
      Hashes(node) && nodes > 0 && counter < UINT64
    }

    constructor (node: Hash, nodes: nat)
      requires Hashes(node) && nodes > 0
      ensures Valid() && counter == 0 && this.node == node && this.nodes == nodes
    {
      this.node, this.nodes, counter := node, nodes, 0;
    }

    /** Keeps the eligible accounts of the slice, in order, in the front of its own backing array. */
    method Filter(active: array<Account>, eligible: Account -> bool) returns (n: nat)
      modifies active
      ensures n <= active.Length && active[..n] == Eligible(old(active[..]), eligible)
    {
      n := 0;
      for i := 0 to active.Length
        invariant n <= i && active[..n] == Eligible(old(active[..])[..i], eligible)
        invariant forall k :: i <= k < active.Length ==> active[k] == old(active[k])
      {
        var acct := active[i];
        assert old(active[..])[..i + 1][..i] == old(active[..])[..i];
        assert old(active[..])[..i + 1][i] == acct;
        if eligible(acct) {
          active[n] := acct;
          n := n + 1;
        }
      }
      assert old(active[..])[..active.Length] == old(active[..]);
    }

    /** key: the session key's hash, None without a session. A session gets the owner of its key among
        the eligible accounts and takes no ticket; a request without one takes the next ticket; with
        no eligible account there is no capacity and no ticket is taken. */
    method Pick(active: array<Account>, eligible: Account -> bool, key: Option<int>) returns (r: Option<Account>)
      requires Valid() && Distinct(active[..]) && (key.Some? ==> 0 <= key.value < RING)
      modifies this, active
      ensures Valid()
      ensures r.None? <==> forall a :: a in old(active[..]) ==> !eligible(a)
      ensures r.Some? ==> r.value in old(active[..]) && eligible(r.value)
      ensures r.Some? && key.Some? ==>
                Owns(node, nodes, Ids(Eligible(old(active[..]), eligible)), key.value, r.value.id)
      ensures r.Some? && key.None? ==>
                var kept := Eligible(old(active[..]), eligible);
                |kept| > 0 && r.value == kept[Turn(old(counter), |kept|)]
      ensures counter == if r.Some? && key.None? then (old(counter) + 1) % UINT64 else old(counter)
    {
      EligibleFacts(active[..], eligible);
      ghost var kept := Eligible(active[..], eligible);
      var n := Filter(active, eligible);
      if n == 0 {
        assert forall a :: a in old(active[..]) && eligible(a) ==> a in kept;
        return None;
      }
      assert kept[0] in kept;
      if key.Some? {
        r := Route(key.value, active[..n], node, nodes);
      } else {
        counter := (counter + 1) % UINT64;
        var ticket := (counter + UINT64 - 1) % UINT64;
        assert ticket == old(counter);
        r := Some(active[..n][ticket % n]);
      }
    }
  }

  /** Sticky sessions: whatever else becomes ineligible or is removed, and in whatever order the
      accounts are listed, a session keeps its account while that account stays eligible. */
  lemma SessionsStick(node: Hash, nodes: nat, before: seq<Account>, wasEligible: Account -> bool,
                      after: seq<Account>, eligible: Account -> bool, key: int, a: Account, b: Account)
    requires Hashes(node) && NoTies(node, nodes, Ids(Eligible(after, eligible))) && 0 <= key < RING
    requires forall x :: x in after && eligible(x) ==> x in before && wasEligible(x)
    requires a in after && eligible(a)
    requires Owns(node, nodes, Ids(Eligible(before, wasEligible)), key, a.id)
    requires Owns(node, nodes, Ids(Eligible(after, eligible)), key, b.id)
    ensures a.id == b.id
  {
    EligibleFacts(before, wasEligible);
    EligibleFacts(after, eligible);
    KeepsAccount(node, nodes, Eligible(before, wasEligible), Eligible(after, eligible), key, a.id, b.id);
  }

  /** Round robin: n successive tickets choose every one of n accounts exactly once, as long as the
      counter does not wrap in between. */
  lemma RoundRobinIsFair(first: nat, n: nat, i: nat)
    requires n > 0 && first + n <= UINT64 && i < n
    ensures exists ticket: nat :: first <= ticket < first + n && Turn(ticket, n) == i
              && forall other: nat :: first <= other < first + n && Turn(other, n) == i ==> other == ticket
  {
    var start := first % n;
    var ticket: nat := if start <= i then first + (i - start) else first + (i - start) + n;
    ModAdd(first, ticket - first, n);
    assert Turn(ticket, n) == i;
    forall other: nat | first <= other < first + n && Turn(other, n) == i ensures other == ticket {
      ModAdd(first, other - first, n);
    }
  }

  lemma ModAdd(a: nat, d: nat, n: nat)
    requires n > 0 && d < n
    ensures (a + d) % n == if a % n + d < n then a % n + d else a % n + d - n
  {
    var q, r := a / n, a % n;
    assert a == n * q + r;
    if r + d < n {
      DivUnique(a + d, n, q, r + d);
    } else {
      assert n * (q + 1) == n * q + n;
      DivUnique(a + d, n, q + 1, r + d - n);
    }
  }

  /** The k-th ticket from first on; the counter wraps. */
  function Ticket(first: nat, k: nat): nat { (first + k) % UINT64 }

  /** Account i gets one of n successive tickets, the counter wrapping as it may. */
  ghost predicate Served(first: nat, n: nat, i: nat)
    requires n > 0
  {
    exists k: nat :: k < n && Turn(Ticket(first, k), n) == i
  }

  /** The wrap of the counter is harmless exactly when the number of accounts divides 2^64: otherwise
      the n tickets from the largest counter on leave the last account out. */
  lemma FairAcrossWrapExactly(n: nat)
    requires 0 < n < UINT64
    ensures (forall first: nat, i: nat :: first < UINT64 && i < n ==> Served(first, n, i)) <==> UINT64 % n == 0
  {
    if UINT64 % n == 0 {
      forall first: nat, i: nat | first < UINT64 && i < n ensures Served(first, n, i) {
        var start := first % n;
        var k: nat := if start <= i then i - start else i - start + n;
        ModAdd(first, k, n);
        assert (first + k) % n == i;
        WrapKeepsTurn(first + k, n);
        assert Turn(Ticket(first, k), n) == i;
      }
    } else {
      LastIsLeftOut(n);
      assert !Served(UINT64 - 1, n, n - 1);
    }
  }

  lemma WrapKeepsTurn(x: nat, n: nat)
    requires n > 0 && UINT64 % n == 0 && x < 2 * UINT64
    ensures (x % UINT64) % n == x % n
  {
    if x >= UINT64 {
      var q, r := (x - UINT64) / n, (x - UINT64) % n;
      assert UINT64 == n * (UINT64 / n) && x - UINT64 == n * q + r;
      assert n * (q + UINT64 / n) == n * q + n * (UINT64 / n);
      DivUnique(x, n, q + UINT64 / n, r);
      assert x % UINT64 == x - UINT64;
    }
  }

  lemma LastIsLeftOut(n: nat)
    requires 0 < n < UINT64 && UINT64 % n != 0
    ensures !Served(UINT64 - 1, n, n - 1)
  {
    var first := UINT64 - 1;
    forall k: nat | k < n ensures Turn(Ticket(first, k), n) != n - 1 {
      if k == 0 {
        var q, r := UINT64 / n, UINT64 % n;
        assert UINT64 - 1 == n * q + (r - 1);
        DivUnique(UINT64 - 1, n, q, r - 1);
      } else {
        assert Ticket(first, k) == k - 1;
        DivUnique(k - 1, n, 0, k - 1);
      }
    }
  }
}
