/** The key/value adapter a cache node serves: `BitcaskStore` forwards reads,
    writes and deletes to its engine, and answers a read of a key that starts
    with the marker "@#$" with a fixed acknowledgement after running a range
    migration, without looking the key up. */
module Slave {
  import opened Partition
  import opened BitcaskModel
  import opened Migration

  /** `memcache.Item`, of which the adapter uses only the body. */
  datatype Item = Item(body: Bytes)

  /** The two results of `Get`: the item or nil, and the error or nil. */
  datatype Reply = Reply(item: Option<Item>, err: Option<StoreError>)

  /** "@#$", the prefix that marks a read as a migration directive. */
  const Marker: Bytes := [0x40, 0x23, 0x24]

  /** "TRUST ME", the body returned for a directive. */
  const Acknowledgement: Bytes := [0x54, 0x52, 0x55, 0x53, 0x54, 0x20, 0x4D, 0x45]

  /** A directive is a key longer than the marker that starts with it. */
  predicate IsDirective(key: Bytes)
  {
    |key| > 3 && key[..3] == Marker
  }

  /** The reply `Get` gives for `key` on an engine in state `bc`. */
  function GetReply(bc: Bitcask, key: Bytes): (r: Reply)
  {
    if IsDirective(key) then Reply(Some(Item(Acknowledgement)), None)
    else
      match bc.Get(key)
      case Ok(v) => Reply(Some(Item(v)), None)
      case Err(e) => Reply(None, Some(e))
  }

  class BitcaskStore {
    /** The engine's state. */
    var bc: Bitcask
    /** Every `Set` sent to another node by a migration, oldest first. */
    var outbox: seq<Transfer>

    /** `NewStore`, over an engine already opened in state `engine`. */
    constructor (engine: Bitcask)
      ensures bc == engine && outbox == []
    {
      bc := engine;
      outbox := [];
    }

    /** A snapshot of `bc.Keys()`: every stored key exactly once, in an order
        the engine chooses. */
    method Keys() returns (keys: seq<Bytes>)
      ensures forall k :: k in keys <==> k in bc.records
      ensures forall i, j :: 0 <= i < j < |keys| ==> keys[i] != keys[j]
      ensures |keys| == bc.Len()
    {
      keys := [];
      var rest := bc.records.Keys;
      while rest != {}
        invariant rest <= bc.records.Keys
        invariant forall k :: k in keys <==> k in bc.records && k !in rest
        invariant forall i, j :: 0 <= i < j < |keys| ==> keys[i] != keys[j]
        invariant |keys| + |rest| == |bc.records.Keys|
        decreases rest
      {
        var k :| k in rest;
        keys := keys + [k];
        rest := rest - {k};
      }
    }

    /** `migrate(host, left, right)` over the key enumeration `keys`: appends
        to the outbox the sends `Sends` describes and leaves the engine as it
        was. */
    method Migrate(keys: seq<Bytes>, host: Bytes, left: U32, right: U32)
      modifies this`outbox
      ensures bc == old(bc)
      ensures outbox == old(outbox) + Sends(bc, keys, host, left, right)
    {
      var i := 0;
      while i < |keys|
        invariant 0 <= i <= |keys|
        invariant outbox == old(outbox) + Sends(bc, keys[..i], host, left, right)
      {
        var key := keys[i];
        var v := Hash(key);
        assert keys[..i + 1][..i] == keys[..i];
        if Selected(v, left, right) {
          var read := bc.Get(key);
          if read.Ok? {
            outbox := outbox + [Transfer(host, key, read.value)];
          }
        }
        i := i + 1;
      }
      assert keys[..|keys|] == keys;
    }

    /** `Get(key)`. A directive is acknowledged after a migration to host ""
        over the range (0, 0): the code never decodes the directive, so those
        are the values its variables keep, and that migration sends nothing.
        Any other key is looked up. Nothing else changes. */
    method Get(key: Bytes) returns (item: Option<Item>, err: Option<StoreError>)
      modifies this`outbox
      ensures bc == old(bc) && outbox == old(outbox)
      ensures Reply(item, err) == GetReply(bc, key)
    {
      // bc.Sync() makes buffered writes durable; on this model it changes nothing.
      if IsDirective(key) {
        var addr: Bytes := [];
        var left: U32, right: U32 := 0, 0;
        var keys := Keys();
        Migrate(keys, addr, left, right);
        SendsNothingWhenEqual(bc, keys, addr, left, right);
        return Some(Item(Acknowledgement)), None;
      }
      var read := bc.Get(key);
      if read.Err? {
        return None, Some(read.error);
      }
      return Some(Item(read.value)), None;
    }

    /** `Set(key, item, noreply)`: writes the item's body; reports (true, nil),
        or (false, e) and no change when the engine fails. */
    method Set(key: Bytes, item: Item, noreply: bool) returns (ok: bool, err: Option<StoreError>)
      modifies this`bc
      ensures err == old(bc).WriteStatus() && ok == err.None?
      ensures bc == old(bc).Set(key, item.body)
    {
      err := bc.WriteStatus();
      bc := bc.Set(key, item.body);
      ok := err.None?;
    }

    /** `Len()`: the number of records the engine holds. */
    method Len() returns (n: int)
      ensures n == bc.Len()
    {
      n := bc.Len();
    }

    /** `Delete(key)`: removes the key; reports (true, nil), or (false, e) and
        no change when the engine fails. */
    method Delete(key: Bytes) returns (ok: bool, err: Option<StoreError>)
      modifies this`bc
      ensures err == old(bc).WriteStatus() && ok == err.None?
      ensures bc == old(bc).Del(key)
    {
      err := bc.WriteStatus();
      bc := bc.Del(key);
      ok := err.None?;
    }
  }

  /** A directive is acknowledged with "TRUST ME" and no error. */
  lemma DirectiveAcknowledged(bc: Bitcask, key: Bytes)
    requires IsDirective(key)
    ensures GetReply(bc, key) == Reply(Some(Item(Acknowledgement)), None)
  {
  }

  /** The reply to a directive does not depend on the store at all. */
  lemma DirectiveIgnoresStore(bc: Bitcask, other: Bitcask, key: Bytes)
    requires IsDirective(key)
    ensures GetReply(bc, key) == GetReply(other, key)
  {
  }

  /** The marker alone, three bytes long, is an ordinary key and is looked up. */
  lemma BareMarkerIsLookedUp(bc: Bitcask)
    ensures !IsDirective(Marker)
    ensures GetReply(bc, Marker).item.Some? <==> !bc.failing && Marker in bc.records
  {
  }

  /** For any other key the reply carries the stored value when the engine
      holds the key, and otherwise no item and the engine's error. */
  lemma LookupReply(bc: Bitcask, key: Bytes)
    requires !IsDirective(key)
    ensures GetReply(bc, key).item.Some? <==> !bc.failing && key in bc.records
    ensures GetReply(bc, key).item.Some? ==>
      GetReply(bc, key).item.value.body == bc.records[key] && GetReply(bc, key).err == None
    ensures GetReply(bc, key).item.None? ==>
      GetReply(bc, key).err == Some(if bc.failing then IoFailure else NotFound)
  {
  }

  /** After a successful write of a non-directive key, reading it returns the
      body just written. */
  lemma GetAfterSet(bc: Bitcask, key: Bytes, body: Bytes)
    requires bc.WriteStatus() == None && !IsDirective(key)
    ensures GetReply(bc.Set(key, body), key) == Reply(Some(Item(body)), None)
  {
  }

  /** A write to a directive key is stored, but reading it still returns the
      acknowledgement. */
  lemma GetAfterSetDirective(bc: Bitcask, key: Bytes, body: Bytes)
    requires bc.WriteStatus() == None && IsDirective(key)
    ensures key in bc.Set(key, body).records
    ensures GetReply(bc.Set(key, body), key) == Reply(Some(Item(Acknowledgement)), None)
  {
  }

  /** A write leaves the reply for every other key as it was. */
  lemma GetAfterSetOther(bc: Bitcask, key: Bytes, body: Bytes, other: Bytes)
    requires other != key
    ensures GetReply(bc.Set(key, body), other) == GetReply(bc, other)
  {
  }

  /** After a successful delete the key is absent, and reading it (when it is
      not a directive) reports it not found. */
  lemma GetAfterDelete(bc: Bitcask, key: Bytes)
    requires bc.WriteStatus() == None
    ensures key !in bc.Del(key).records
    ensures !IsDirective(key) ==> GetReply(bc.Del(key), key) == Reply(None, Some(NotFound))
  {
  }

  /** A client sequence: a write, a read and a directive; the directive
      leaves both the store and the outbox as they were. */
  method WriteReadDirective(store: BitcaskStore, key: Bytes, body: Bytes, directive: Bytes)
    requires !store.bc.failing && !IsDirective(key) && IsDirective(directive)
    modifies store
    ensures store.bc == old(store.bc).(records := old(store.bc.records)[key := body])
    ensures store.outbox == old(store.outbox)
  {
    var ok, err := store.Set(key, Item(body), false);
    assert ok;
    var item, e := store.Get(key);
    assert item == Some(Item(body)) && e == None;
    item, e := store.Get(directive);
    assert item == Some(Item(Acknowledgement));
  }
}
