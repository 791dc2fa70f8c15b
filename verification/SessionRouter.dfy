/** Consistent-hash routing of sessions to accounts (internal/core/session_router.go). */
module SessionRouter {
  import opened Wrappers

  /** An account; rest stands for every column the router does not look at. */
  datatype Account = Account(id: int, rest: string)

  datatype HashEntry = HashEntry(hash: int, accountID: int)

  const RING := 0x1_0000_0000

  /** The hash function is a parameter: node(id, i) is the hash of "id#i". Every hash has 32 bits. */
  type Hash = (int, nat) -> int

  ghost predicate Hashes(node: Hash) { forall id, i :: 0 <= node(id, i) < RING }

  /** No two of these accounts share a ring position, so the order an unstable sort leaves ties in is
      moot. */
  ghost predicate NoTies(node: Hash, nodes: nat, ids: set<int>) {
    forall a, b, i: nat, j: nat :: a in ids && b in ids && a != b && i < nodes && j < nodes ==> node(a, i) != node(b, j)
  }

  /** How far clockwise from the key a ring position lies. */
  function Distance(hash: int, key: int): int {
    if hash >= key then hash - key else hash - key + RING
  }

  /** Node i of account a is the first one at or after the key, wrapping, among all accounts' nodes. */
  ghost predicate First(node: Hash, nodes: nat, ids: set<int>, key: int, a: int, i: nat) {
    && a in ids && i < nodes
    && forall b, j: nat :: b in ids && j < nodes ==> Distance(node(a, i), key) <= Distance(node(b, j), key)
  }

  ghost predicate Owns(node: Hash, nodes: nat, ids: set<int>, key: int, a: int) {
    exists i: nat :: First(node, nodes, ids, key, a, i)
  }

  function Ids(accounts: seq<Account>): set<int> { set a | a in accounts :: a.id }

  predicate Distinct(accounts: seq<Account>) {
    forall i, j :: 0 <= i < j < |accounts| ==> accounts[i].id != accounts[j].id
  }

  // ---------------------------------------------------------------- the ring

  predicate Sorted(ring: seq<HashEntry>) {
    forall i, j :: 0 <= i < j < |ring| ==> ring[i].hash <= ring[j].hash
  }

  /** Where the next entry goes in a sorted ring. */
  method Place(sorted: seq<HashEntry>, e: HashEntry) returns (k: nat)
    ensures k <= |sorted|
    ensures forall i :: 0 <= i < k ==> sorted[i].hash < e.hash
    ensures k < |sorted| ==> e.hash <= sorted[k].hash
  {
    k := 0;
    while k < |sorted| && sorted[k].hash < e.hash
      invariant k <= |sorted| && forall i :: 0 <= i < k ==> sorted[i].hash < e.hash
    {
      k := k + 1;
    }
  }

  lemma PutInSorted(sorted: seq<HashEntry>, e: HashEntry, k: nat)
    requires Sorted(sorted) && k <= |sorted|
    requires (forall i :: 0 <= i < k ==> sorted[i].hash < e.hash) && (k < |sorted| ==> e.hash <= sorted[k].hash)
    ensures Sorted(sorted[..k] + [e] + sorted[k..])
  {
    var r := sorted[..k] + [e] + sorted[k..];
    assert |r| == |sorted| + 1;
    forall i, j | 0 <= i < j < |r| ensures r[i].hash <= r[j].hash {
      assert r[i] == if i < k then sorted[i] else if i == k then e else sorted[i - 1];
      assert r[j] == if j < k then sorted[j] else if j == k then e else sorted[j - 1];
    }
  }

  lemma PutInSame(sorted: seq<HashEntry>, e: HashEntry, k: nat)
    requires k <= |sorted|
    ensures multiset(sorted[..k] + [e] + sorted[k..]) == multiset(sorted) + multiset{e}
  {
    assert sorted == sorted[..k] + sorted[k..];
  }

  /** sort.Slice by hash; entries of equal hash may come in any order. */
  method SortRing(ring: seq<HashEntry>) returns (sorted: seq<HashEntry>)
    ensures Sorted(sorted) && multiset(sorted) == multiset(ring)
  {
    sorted := [];
    for n := 0 to |ring|
      invariant Sorted(sorted) && multiset(sorted) == multiset(ring[..n])
    {
      hide Sorted;
      var k := Place(sorted, ring[n]);
      PutInSorted(sorted, ring[n], k);
      PutInSame(sorted, ring[n], k);
      assert ring[..n + 1] == ring[..n] + [ring[n]];
      sorted := sorted[..k] + [ring[n]] + sorted[k..];
    }
    assert ring[..|ring|] == ring;
  }

  /** sort.Search for the first entry whose hash is at least the key. */
  method Search(ring: seq<HashEntry>, key: int) returns (idx: nat)
    requires Sorted(ring)
    ensures idx <= |ring|
    ensures forall k :: 0 <= k < idx ==> ring[k].hash < key
    ensures forall k :: idx <= k < |ring| ==> ring[k].hash >= key
  {
    var i, j := 0, |ring|;
    while i < j
      invariant 0 <= i <= j <= |ring|
      invariant forall k :: 0 <= k < i ==> ring[k].hash < key
      invariant forall k :: j <= k < |ring| ==> ring[k].hash >= key
    {
      var h := i + (j - i) / 2;
      if ring[h].hash < key { i := h + 1; } else { j := h; }
    }
    return i;
  }

  /** The ring holds exactly the nodes of these accounts. */
  ghost predicate RingOf(ring: seq<HashEntry>, node: Hash, nodes: nat, ids: set<int>) {
    && (forall e :: e in ring ==> exists i: nat :: Places(e, node, nodes, ids, i))
    && (forall b, j: nat :: b in ids && j < nodes ==> HashEntry(node(b, j), b) in ring)
  }

  ghost predicate Places(e: HashEntry, node: Hash, nodes: nat, ids: set<int>, i: nat) {
    e.accountID in ids && i < nodes && e.hash == node(e.accountID, i)
  }

  method BuildRing(accounts: seq<Account>, node: Hash, nodes: nat)
    returns (ring: seq<HashEntry>, byID: map<int, Account>)
    requires Distinct(accounts)
    ensures RingOf(ring, node, nodes, Ids(accounts))
    ensures byID.Keys == Ids(accounts) && forall a :: a in accounts ==> byID[a.id] == a
  {
    ring, byID := [], map[];
    for n := 0 to |accounts|
      invariant RingOf(ring, node, nodes, Ids(accounts[..n]))
      invariant byID.Keys == Ids(accounts[..n]) && forall a :: a in accounts[..n] ==> byID[a.id] == a
    {
      var acct := accounts[n];
      byID := byID[acct.id := acct];
      ghost var before := ring;
      for i := 0 to nodes
        invariant before <= ring && |ring| == |before| + i
        invariant forall k :: 0 <= k < i ==> ring[|before| + k] == HashEntry(node(acct.id, k), acct.id)
      {
        ring := ring + [HashEntry(node(acct.id, i), acct.id)];
      }
      assert accounts[..n + 1] == accounts[..n] + [acct];
      RingGrows(before, ring, accounts[..n], acct, node, nodes);
    }
    assert accounts[..|accounts|] == accounts;
  }

  lemma RingGrows(before: seq<HashEntry>, ring: seq<HashEntry>, accounts: seq<Account>, acct: Account, node: Hash, nodes: nat)
    requires RingOf(before, node, nodes, Ids(accounts)) && before <= ring && |ring| == |before| + nodes
    requires forall k :: 0 <= k < nodes ==> ring[|before| + k] == HashEntry(node(acct.id, k), acct.id)
    ensures RingOf(ring, node, nodes, Ids(accounts + [acct]))
  {
    var ids, more := Ids(accounts), Ids(accounts + [acct]);
    assert more == ids + {acct.id} by {
      assert forall a :: a in accounts + [acct] <==> a in accounts || a == acct;
    }
    forall e | e in ring ensures exists i: nat :: Places(e, node, nodes, more, i) {
      var k :| 0 <= k < |ring| && ring[k] == e;
      if k < |before| {
        assert e in before;
        var i: nat :| Places(e, node, nodes, ids, i);
        assert Places(e, node, nodes, more, i);
      } else {
        var j: nat := k - |before|;
        assert ring[|before| + j] == HashEntry(node(acct.id, j), acct.id);
        assert Places(e, node, nodes, more, j);
      }
    }
    forall b, j: nat | b in more && j < nodes ensures HashEntry(node(b, j), b) in ring {
      if b == acct.id { assert ring[|before| + j] == HashEntry(node(b, j), b); }
      else { assert HashEntry(node(b, j), b) in before; }
    }
  }

  // ---------------------------------------------------------------- Route

  /** The entry the search finds, wrapping to the first, is the first one at or after the key. */
  lemma FoundIsFirst(ring: seq<HashEntry>, node: Hash, nodes: nat, ids: set<int>, key: int, idx: nat)
    requires Hashes(node) && RingOf(ring, node, nodes, ids) && Sorted(ring) && ring != [] && idx <= |ring| && 0 <= key < RING
    requires forall k :: 0 <= k < idx ==> ring[k].hash < key
    requires forall k :: idx <= k < |ring| ==> ring[k].hash >= key
    ensures var e := ring[if idx == |ring| then 0 else idx];
            e.accountID in ids && Owns(node, nodes, ids, key, e.accountID)
  {
    var at := if idx == |ring| then 0 else idx;
    var e := ring[at];
    assert e in ring;
    var i: nat :| Places(e, node, nodes, ids, i);
    forall b, j: nat | b in ids && j < nodes
      ensures Distance(node(e.accountID, i), key) <= Distance(node(b, j), key)
    {
      assert HashEntry(node(b, j), b) in ring;
      var k :| 0 <= k < |ring| && ring[k] == HashEntry(node(b, j), b);
      assert 0 <= node(b, j) < RING && 0 <= e.hash < RING;
    }
    assert First(node, nodes, ids, key, e.accountID, i);
  }

  lemma SameRing(ring: seq<HashEntry>, sorted: seq<HashEntry>, node: Hash, nodes: nat, ids: set<int>)
    requires RingOf(ring, node, nodes, ids) && multiset(ring) == multiset(sorted)
    ensures RingOf(sorted, node, nodes, ids)
  {
    assert forall e :: e in sorted <==> e in multiset(sorted);
    assert forall e :: e in ring <==> e in multiset(ring);
  }

  /** One account always owns every key. */
  lemma {:induction false} OnlyAccountOwns(node: Hash, nodes: nat, id: int, key: int)
    requires nodes > 0
    ensures Owns(node, nodes, {id}, key, id)
  {
    if nodes == 1 {
      assert First(node, 1, {id}, key, id, 0);
    } else {
      OnlyAccountOwns(node, nodes - 1, id, key);
      var i: nat :| First(node, nodes - 1, {id}, key, id, i);
      var best: nat := if Distance(node(id, i), key) <= Distance(node(id, nodes - 1), key) then i else nodes - 1;
      assert First(node, nodes, {id}, key, id, best);
    }
  }

  /** Routes a session to the account that owns its key on the ring; with no account there is no
      capacity. The shortcut for one account makes no difference. */
  method Route(key: int, accounts: seq<Account>, node: Hash, nodes: nat) returns (r: Option<Account>)
    requires Hashes(node) && nodes > 0 && 0 <= key < RING && Distinct(accounts)
    ensures r.None? <==> accounts == []
    ensures r.Some? ==> r.value in accounts && Owns(node, nodes, Ids(accounts), key, r.value.id)
  {
    if |accounts| == 0 { return None; }
    if |accounts| == 1 {
      OnlyAccountOwns(node, nodes, accounts[0].id, key);
      assert Ids(accounts) == {accounts[0].id};
      return Some(accounts[0]);
    }
    var ring, byID := BuildRing(accounts, node, nodes);
    var sorted := SortRing(ring);
    SameRing(ring, sorted, node, nodes, Ids(accounts));
    var idx := Search(sorted, key);
    assert HashEntry(node(accounts[0].id, 0), accounts[0].id) in sorted;
    FoundIsFirst(sorted, node, nodes, Ids(accounts), key, idx);
    if idx >= |sorted| { idx := 0; }
    return Some(byID[sorted[idx].accountID]);
  }

  // ---------------------------------------------------------------- what the ring is for

  /** Hash functions without ties exist: 150 nodes for each of two accounts, interleaved on the ring. */
  lemma TieFreeHashExists()
    ensures exists node: Hash :: Hashes(node) && NoTies(node, 150, {1, 2})
  {
    var node: Hash := (id, i) => (2 * i + id % 2) % RING;
    assert Hashes(node);
    forall a, b, i: nat, j: nat | a in {1, 2} && b in {1, 2} && a != b && i < 150 && j < 150
      ensures node(a, i) != node(b, j)
    {
      assert node(a, i) == 2 * i + a % 2 && node(b, j) == 2 * j + b % 2;
    }
    assert NoTies(node, 150, {1, 2});
  }

  /** A key has one owner. */
  lemma OneOwner(node: Hash, nodes: nat, ids: set<int>, key: int, a: int, b: int)
    requires Hashes(node) && NoTies(node, nodes, ids) && 0 <= key < RING
    requires Owns(node, nodes, ids, key, a) && Owns(node, nodes, ids, key, b)
    ensures a == b
  {
    var i: nat :| First(node, nodes, ids, key, a, i);
    var j: nat :| First(node, nodes, ids, key, b, j);
    assert Distance(node(a, i), key) == Distance(node(b, j), key);
    assert 0 <= node(a, i) < RING && 0 <= node(b, j) < RING;
    assert node(a, i) == node(b, j);
  }

  /** Every key has one owner exactly when there are no ties: at a tie the sort decides. */
  lemma OneOwnerExactly(node: Hash, nodes: nat, ids: set<int>)
    requires Hashes(node)
    ensures NoTies(node, nodes, ids) <==>
            forall key, a, b ::
              0 <= key < RING && Owns(node, nodes, ids, key, a) && Owns(node, nodes, ids, key, b) ==> a == b
  {
    if NoTies(node, nodes, ids) {
      forall key, a, b | 0 <= key < RING && Owns(node, nodes, ids, key, a) && Owns(node, nodes, ids, key, b)
        ensures a == b
      {
        OneOwner(node, nodes, ids, key, a, b);
      }
    } else {
      var a, b, i: nat, j: nat :| a in ids && b in ids && a != b && i < nodes && j < nodes && node(a, i) == node(b, j);
      var key := node(a, i);
      assert 0 <= key < RING;
      assert forall x, k: nat :: 0 <= node(x, k) < RING && 0 <= Distance(node(x, k), key);
      assert First(node, nodes, ids, key, a, i) && First(node, nodes, ids, key, b, j);
      assert Owns(node, nodes, ids, key, a) && Owns(node, nodes, ids, key, b);
    }
  }

  /** Minimal disruption: whatever accounts are removed or filtered out and however the list is
      ordered, a session keeps its account as long as that account is left. */
  lemma KeepsAccount(node: Hash, nodes: nat, before: seq<Account>, after: seq<Account>, key: int, a: int, b: int)
    requires Hashes(node) && NoTies(node, nodes, Ids(after)) && 0 <= key < RING
    requires Ids(after) <= Ids(before) && a in Ids(after)
    requires Owns(node, nodes, Ids(before), key, a) && Owns(node, nodes, Ids(after), key, b)
    ensures a == b
  {
    var i: nat :| First(node, nodes, Ids(before), key, a, i);
    assert First(node, nodes, Ids(after), key, a, i);
    OneOwner(node, nodes, Ids(after), key, a, b);
  }

  /** Adding an account moves a session to the new account or not at all. */
  lemma MovesOnlyToNew(node: Hash, nodes: nat, before: seq<Account>, after: seq<Account>, new': int, key: int, a: int, b: int)
    requires Hashes(node) && NoTies(node, nodes, Ids(before)) && 0 <= key < RING
    requires Ids(after) == Ids(before) + {new'}
    requires Owns(node, nodes, Ids(before), key, a) && Owns(node, nodes, Ids(after), key, b)
    ensures b == a || b == new'
  {
    if b != new' {
      var j: nat :| First(node, nodes, Ids(after), key, b, j);
      assert First(node, nodes, Ids(before), key, b, j);
      OneOwner(node, nodes, Ids(before), key, a, b);
    }
  }
}
