/** What one run of `migrate` sends: for each enumerated key whose hash passes
    the range test and whose re-read succeeds, one `Set` of that key and the
    value just read to the target host, in enumeration order. */
module Migration {
  import opened Partition
  import opened BitcaskModel

  /** One `target.Set(key, &Item{Body: body})` issued to the node at `host`. */
  datatype Transfer = Transfer(host: Bytes, key: Bytes, body: Bytes)

  /** The sends caused by one enumerated key. */
  function Forward(bc: Bitcask, key: Bytes, host: Bytes, left: U32, right: U32): (sent: seq<Transfer>)
  {
    if Selected(Hash(key), left, right) && bc.Get(key).Ok? then
      [Transfer(host, key, bc.Get(key).value)]
    else
      []
  }

  /** The sends of a run over the enumeration `keys`, in order. */
  function Sends(bc: Bitcask, keys: seq<Bytes>, host: Bytes, left: U32, right: U32): (sent: seq<Transfer>)
    decreases |keys|
  {
    if keys == [] then []
    else Sends(bc, keys[..|keys| - 1], host, left, right) + Forward(bc, keys[|keys| - 1], host, left, right)
  }

  /** Splitting the enumeration splits the sends the same way: a run keeps the
      enumeration order. */
  lemma {:induction false} SendsAppend(bc: Bitcask, a: seq<Bytes>, b: seq<Bytes>, host: Bytes, left: U32, right: U32)
    ensures Sends(bc, a + b, host, left, right) == Sends(bc, a, host, left, right) + Sends(bc, b, host, left, right)
    decreases |b|
  {
    if b == [] {
      assert a + b == a;
    } else {
      var b' := b[..|b| - 1];
      assert (a + b)[..|a + b| - 1] == a + b';
      assert (a + b)[|a + b| - 1] == b[|b| - 1];
      SendsAppend(bc, a, b', host, left, right);
    }
  }

  /** A run sends exactly the pairs (key, value) where the key was enumerated,
      passes the range test and reads back as that value, all to `host`. */
  lemma {:induction false} SendsExactly(bc: Bitcask, keys: seq<Bytes>, host: Bytes, left: U32, right: U32)
    ensures forall t :: t in Sends(bc, keys, host, left, right) <==>
      t.host == host && t.key in keys && Selected(Hash(t.key), left, right) && bc.Get(t.key) == Ok(t.body)
    decreases |keys|
  {
    if keys != [] {
      var init := keys[..|keys| - 1];
      SendsExactly(bc, init, host, left, right);
      assert keys == init + [keys[|keys| - 1]];
    }
  }

  /** A run over reversed bounds forwards every enumerated key that reads back,
      one send per key, in enumeration order. */
  lemma {:induction false} SendsAllWhenInverted(bc: Bitcask, keys: seq<Bytes>, host: Bytes, left: U32, right: U32)
    requires left > right
    requires !bc.failing && forall k :: k in keys ==> k in bc.records
    ensures |Sends(bc, keys, host, left, right)| == |keys|
    ensures forall i :: 0 <= i < |keys| ==>
      Sends(bc, keys, host, left, right)[i] == Transfer(host, keys[i], bc.records[keys[i]])
    decreases |keys|
  {
    if keys != [] {
      var init := keys[..|keys| - 1];
      assert forall k :: k in init ==> k in keys;
      SendsAllWhenInverted(bc, init, host, left, right);
      SelectedWhenInverted(Hash(keys[|keys| - 1]), left, right);
    }
  }

  /** A run over equal bounds sends nothing, whatever the store holds. */
  lemma {:induction false} SendsNothingWhenEqual(bc: Bitcask, keys: seq<Bytes>, host: Bytes, left: U32, right: U32)
    requires left == right
    ensures Sends(bc, keys, host, left, right) == []
    decreases |keys|
  {
    if keys != [] {
      SendsNothingWhenEqual(bc, keys[..|keys| - 1], host, left, right);
      NothingSelectedWhenEqual(Hash(keys[|keys| - 1]), left, right);
    }
  }

  /** With ordered bounds every forwarded key hashes into [left, right). */
  lemma SendsWithinOrderedRange(bc: Bitcask, keys: seq<Bytes>, host: Bytes, left: U32, right: U32)
    requires left < right
    ensures forall t :: t in Sends(bc, keys, host, left, right) ==> left <= Hash(t.key) < right
  {
    SendsExactly(bc, keys, host, left, right);
    forall t | t in Sends(bc, keys, host, left, right)
      ensures left <= Hash(t.key) < right
    {
      SelectedWhenOrdered(Hash(t.key), left, right);
    }
  }

  /** Three keys hashing to 10, 50 and 90: the range [0, 60) forwards the
      first two. */
  lemma ThreeKeysOrderedRange(bc: Bitcask, a: Bytes, b: Bytes, c: Bytes, host: Bytes)
    requires Hash(a) == 10 && Hash(b) == 50 && Hash(c) == 90
    requires !bc.failing && a in bc.records && b in bc.records && c in bc.records
    ensures Sends(bc, [a, b, c], host, 0, 60) ==
      [Transfer(host, a, bc.records[a]), Transfer(host, b, bc.records[b])]
  {
    assert Forward(bc, a, host, 0, 60) == [Transfer(host, a, bc.records[a])];
    assert Forward(bc, b, host, 0, 60) == [Transfer(host, b, bc.records[b])];
    assert Forward(bc, c, host, 0, 60) == [];
    SendsAppend(bc, [a], [b], host, 0, 60);
    SendsAppend(bc, [a, b], [c], host, 0, 60);
    assert [a] + [b] == [a, b] && [a, b] + [c] == [a, b, c];
    assert [a][..0] == [] && [b][..0] == [] && [c][..0] == [];
  }

  /** The same three keys under the reversed pair (80, 20): all three are
      forwarded, including the second, whose hash 50 lies in [20, 80). */
  lemma ThreeKeysInvertedRange(bc: Bitcask, a: Bytes, b: Bytes, c: Bytes, host: Bytes)
    requires Hash(a) == 10 && Hash(b) == 50 && Hash(c) == 90
    requires !bc.failing && a in bc.records && b in bc.records && c in bc.records
    ensures Sends(bc, [a, b, c], host, 80, 20) ==
      [Transfer(host, a, bc.records[a]), Transfer(host, b, bc.records[b]), Transfer(host, c, bc.records[c])]
  {
    SendsAllWhenInverted(bc, [a, b, c], host, 80, 20);
  }
}
