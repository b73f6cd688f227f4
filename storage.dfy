/**
  Contract storage tables (balances, allowances) as maps that, like EVM storage,
  hold only non-zero words: a missing key reads as 0 and writing 0 deletes it.
*/
module Storage {
  import opened Words

  /** The word stored under k, 0 when nothing is stored. */
  function Get<K>(m: map<K, u256>, k: K): u256
  {
    if k in m then m[k] else 0
  }

  /** No zero word is stored. */
  ghost predicate Canonical<K>(m: map<K, u256>)
  {
    forall k :: k in m ==> m[k] != 0
  }

  /** Store v under k; storing 0 clears the key. */
  function Put<K(!new)>(m: map<K, u256>, k: K, v: u256): (r: map<K, u256>)
    ensures Get(r, k) == v
    ensures forall j :: j != k ==> Get(r, j) == Get(m, j)
    ensures Canonical(m) ==> Canonical(r)
  {
    if v == 0 then m - {k} else m[k := v]
  }

  /** The keys after a write: k is dropped when 0 is written and added otherwise. */
  lemma PutKeys<K(!new)>(m: map<K, u256>, k: K, v: u256)
    ensures Put(m, k, v).Keys == if v == 0 then m.Keys - {k} else m.Keys + {k}
  {
  }

  /** Some key of a non-empty key set. */
  ghost function Pick<K>(s: set<K>): (k: K)
    requires s != {}
    ensures k in s
  {
    var k :| k in s; k
  }

  /** Sum of all stored words. */
  ghost function Sum<K>(m: map<K, u256>): nat
    decreases |m.Keys|
  {
    if m.Keys == {} then 0
    else
      var k := Pick(m.Keys);
      CardRemove(m, k);
      m[k] + Sum(m - {k})
  }

  lemma CardRemove<K>(m: map<K, u256>, k: K)
    requires k in m
    ensures (m - {k}).Keys == m.Keys - {k}
    ensures |(m - {k}).Keys| == |m.Keys| - 1
  {
    assert (m - {k}).Keys == m.Keys - {k};
  }

  /** Sum can be split at any stored key, not only the one it happens to pick. */
  lemma {:induction false} SumRemove<K>(m: map<K, u256>, k: K)
    requires k in m
    ensures Sum(m) == m[k] + Sum(m - {k})
    decreases |m.Keys|
  {
    var j := Pick(m.Keys);
    if j != k {
      CardRemove(m, j);
      CardRemove(m, k);
      var mj := m - {j};
      var mk := m - {k};
      var mjk := mj - {k};
      assert mjk == mk - {j};
      SumRemove(mj, k);
      assert Sum(mj) == m[k] + Sum(mjk);
      SumRemove(mk, j);
      assert Sum(mk) == m[j] + Sum(mjk);
    }
  }

  /** Overwriting one word moves the sum by exactly the difference. */
  lemma SumPut<K(!new)>(m: map<K, u256>, k: K, v: u256)
    ensures Sum(Put(m, k, v)) + Get(m, k) == Sum(m) + v
  {
    SumWithout(m, k);
    if v != 0 {
      SumStore(m, k, v);
    } else {
      assert Put(m, k, v) == m - {k};
    }
  }

  lemma SumStore<K>(m: map<K, u256>, k: K, v: u256)
    ensures Sum(m[k := v]) == v + Sum(m - {k})
  {
    var r := m[k := v];
    SumRemove(r, k);
    assert r - {k} == m - {k};
  }

  lemma SumWithout<K>(m: map<K, u256>, k: K)
    ensures Sum(m) == Get(m, k) + Sum(m - {k})
  {
    if k in m {
      SumRemove(m, k);
    } else {
      assert m - {k} == m;
    }
  }

  /** Any two distinct words together are at most the sum. */
  lemma TwoBelowSum<K(!new)>(m: map<K, u256>, a: K, b: K)
    requires a != b
    ensures Get(m, a) + Get(m, b) <= Sum(m)
  {
    SumPut(m, a, 0);
    var m' := Put(m, a, 0);
    SumPut(m', b, 0);
  }

  /** A second write to the same key overrides the first. */
  lemma PutTwice<K(!new)>(m: map<K, u256>, k: K, a: u256, b: u256)
    ensures Put(Put(m, k, a), k, b) == Put(m, k, b)
  {
  }

  /** Writing back the stored word changes nothing. */
  lemma PutUnchanged<K(!new)>(m: map<K, u256>, k: K)
    requires Canonical(m)
    ensures Put(m, k, Get(m, k)) == m
  {
  }

  /** A single word is at most the sum. */
  lemma GetBelowSum<K(!new)>(m: map<K, u256>, a: K)
    ensures Get(m, a) <= Sum(m)
  {
    SumPut(m, a, 0);
  }

  /**
    Move v from one key's word to another's: the source loses v, the
    destination gains v and every other word stays; a move to oneself
    changes nothing.
  */
  function Move<K(!new)>(m: map<K, u256>, from: K, to: K, v: u256): (r: map<K, u256>)
    requires v <= Get(m, from)
    requires from != to ==> Get(m, to) + v <= MAX_UINT256
    ensures from != to ==> Get(r, from) == Get(m, from) - v && Get(r, to) == Get(m, to) + v
    ensures forall k :: k != from && k != to ==> Get(r, k) == Get(m, k)
    ensures Canonical(m) ==> Canonical(r)
  {
    if from == to then m else Put(Put(m, from, Get(m, from) - v), to, Get(m, to) + v)
  }

  /** Two writes to distinct keys move the sum by both differences. */
  lemma SumPutPut<K(!new)>(m: map<K, u256>, a: K, b: K, x: u256, y: u256)
    requires a != b
    ensures Sum(Put(Put(m, a, x), b, y)) + Get(m, a) + Get(m, b) == Sum(m) + x + y
  {
    SumPut(m, a, x);
    SumPut(Put(m, a, x), b, y);
  }

  /** Between distinct keys a move is a debit followed by a credit. */
  lemma MoveBetween<K(!new)>(m: map<K, u256>, from: K, to: K, v: u256)
    requires v <= Get(m, from) && from != to && Get(m, to) + v <= MAX_UINT256
    ensures Move(m, from, to, v) == Put(Put(m, from, Get(m, from) - v), to, Get(m, to) + v)
  {
  }

  /** Moving never changes the sum. */
  lemma {:induction false} SumMove<K(!new)>(m: map<K, u256>, from: K, to: K, v: u256)
    requires v <= Get(m, from)
    requires from != to ==> Get(m, to) + v <= MAX_UINT256
    ensures Sum(Move(m, from, to, v)) == Sum(m)
  {
    if from != to {
      MoveBetween(m, from, to, v);
      SumPutPut(m, from, to, Get(m, from) - v, Get(m, to) + v);
    }
  }

  /**
    On canonical storage a move is the two writes a transfer performs in
    turn, debit first and credit second, a transfer to oneself included.
  */
  lemma MoveIsDebitThenCredit<K(!new)>(m: map<K, u256>, from: K, to: K, v: u256)
    requires v <= Get(m, from) && Canonical(m)
    requires from != to ==> Get(m, to) + v <= MAX_UINT256
    ensures Get(Put(m, from, Get(m, from) - v), to) + v <= MAX_UINT256
    ensures Move(m, from, to, v)
         == Put(Put(m, from, Get(m, from) - v), to, Get(Put(m, from, Get(m, from) - v), to) + v)
  {
    if from == to {
      PutTwice(m, from, Get(m, from) - v, Get(m, from));
      PutUnchanged(m, from);
    }
  }
}
