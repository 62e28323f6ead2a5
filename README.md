# caskdb slave node: the BitcaskStore adapter

This project models the key/value adapter `BitcaskStore` of a caskdb cache
node (`slave/slave.go`). The adapter sits between a memcache-protocol server
and a Bitcask storage engine. It does four things:

- it forwards `Get`, `Set`, `Delete` and `Len` to the engine;
- it treats a read of a key longer than three bytes that starts with `@#$` as
  a migration directive: it launches a migration and answers `TRUST ME`
  without looking the key up;
- a migration (`migrate`) walks the engine's key enumeration, keeps the keys
  whose CRC-32 passes a range test against a `(left, right)` pair of `uint32`
  bounds, re-reads each one and sends it with `Set` to a target node;
- the hash is CRC-32 with the IEEE 802.3 polynomial (section 3.2.9 of
  IEEE 802.3), computed over the key's bytes.

Modules, one per component:

- `Crc32` (`crc32.dfy`): the checksum, computed bit by bit over `bv32`.
- `Partition` (`partition.dfy`): `Hash` and the range test `Selected`, written
  exactly as the code writes it.
- `BitcaskModel` (`bitcask.dfy`): the engine as a value. It holds a map from
  key to value and a `failing` flag. While the flag is set, every read, write
  and delete reports an I/O error and changes nothing.
- `Migration` (`migration.dfy`): `Sends`, the sequence of remote `Set` calls
  that one migration run issues, and the lemmas about it.
- `Slave` (`slave.dfy`): the class `BitcaskStore`. Its field `bc` is the
  engine. Its field `outbox` records the `Set` calls sent to other nodes.
  Its methods are the adapter's methods. `GetReply` specifies `Get`.

Go strings are byte strings: `len(key)`, `key[0:3]` and `[]byte(key)` work on
bytes. So keys, values and host names are `seq<byte>` here.

In two places the code does not do what it evidently intends; the model follows the code as written:

- The separate `left > right` branch of the range test (slave/slave.go:49)
  evidently intends reversed bounds to select a range that wraps around the
  hash ring. The code tests `!(v >= left && v < right)`, and that
  test is always true when `left > right`. So every key is selected
  (`Partition.SelectedWhenInverted`). With hashes 10, 50 and 90 and the pair
  (80, 20), all three keys are forwarded, where the intended wrap-around
  range (everything outside [20, 80)) would forward only the first and the
  third (`Migration.ThreeKeysInvertedRange`).
- The format `"%s-%d-%d"` and the variables `addr`, `left` and `right`
  (slave/slave.go:62-64) show that a directive is evidently meant to carry
  `host-left-right`. At slave/slave.go:64 the
  arguments of `fmt.Sscanf` are in the wrong order: the literal format is the
  input and the empty `addr` is the format. Nothing is decoded. The migration
  therefore goes to host `""` with `left = right = 0`, selects no key and sends
  nothing (`Slave.BitcaskStore.Get`, `Migration.SendsNothingWhenEqual`).

## Model

| member | source | states |
|---|---|---|
| `Crc32.CheckValue` | slave/slave.go:19-23 | the checksum of the ASCII digits "123456789" is 0xCBF43926, the published check value of CRC-32/IEEE |
| `Partition.SelectedWhenOrdered` | slave/slave.go:47-48 | with `left < right`, a hash is selected if and only if `left <= hash < right` |
| `Partition.SelectedWhenInverted` | slave/slave.go:47-49 | with `left > right`, every hash is selected, including those in `[right, left)` |
| `Partition.NothingSelectedWhenEqual` | slave/slave.go:48-49 | with `left == right`, no hash is selected |
| `BitcaskModel.LenAfterSet` | slave/slave.go:76-86 | a successful write raises the record count by one for a new key and leaves it for an existing key; a failed write changes nothing |
| `BitcaskModel.LenAfterDel` | slave/slave.go:84-95 | a successful delete lowers the record count by one for a present key and leaves it otherwise; a failed delete changes nothing |
| `Migration.SendsAppend` | slave/slave.go:46-56 | the sends of a run over `a + b` are those over `a` followed by those over `b`: enumeration order is kept |
| `Migration.SendsExactly` | slave/slave.go:46-56 | a send `(host, key, body)` is issued if and only if the key was enumerated, passes the range test and reads back as `body`; keys whose re-read fails are skipped |
| `Migration.SendsAllWhenInverted` | slave/slave.go:46-54 | with `left > right` and every enumerated key readable, the run sends every key, one send per key, in order, each with its stored value |
| `Migration.SendsNothingWhenEqual` | slave/slave.go:46-54 | with `left == right` the run sends nothing, whatever the store holds |
| `Migration.SendsWithinOrderedRange` | slave/slave.go:46-54 | with `left < right` every forwarded key hashes into `[left, right)` |
| `Migration.ThreeKeysOrderedRange` | slave/slave.go:43-57 | keys hashing to 10, 50, 90 under `[0, 60)` send exactly the first two, in order |
| `Migration.ThreeKeysInvertedRange` | slave/slave.go:43-57 | the same keys under the pair (80, 20) send all three |
| `Slave.BitcaskStore.constructor` | slave/slave.go:25-34 | a new adapter wraps the opened engine and has sent nothing |
| `Slave.BitcaskStore.Keys` | slave/slave.go:44 | the key enumeration lists every stored key exactly once, so its length is the record count |
| `Slave.BitcaskStore.Migrate` | slave/slave.go:43-57 | the loop appends exactly `Sends` for the enumeration to the outbox and leaves the engine unchanged |
| `Slave.BitcaskStore.Get` | slave/slave.go:59-74 | the reply is `GetReply`; the store is unchanged; a directive's migration sends nothing, so the outbox is unchanged too |
| `Slave.BitcaskStore.Set` | slave/slave.go:76-82 | returns `(true, nil)` and stores the item's body, or `(false, e)` with the engine's error and no change |
| `Slave.BitcaskStore.Len` | slave/slave.go:84-86 | returns the number of keys the engine holds |
| `Slave.BitcaskStore.Delete` | slave/slave.go:88-95 | returns `(true, nil)` and removes the key, or `(false, e)` with the engine's error and no change |
| `Slave.DirectiveAcknowledged` | slave/slave.go:61-66 | a key longer than 3 bytes starting with `@#$` gets body `TRUST ME` and no error |
| `Slave.DirectiveIgnoresStore` | slave/slave.go:61-67 | the reply to a directive is the same for every store state: the key is never looked up |
| `Slave.BareMarkerIsLookedUp` | slave/slave.go:61-73 | the 3-byte key `@#$` is not a directive and takes the lookup path |
| `Slave.LookupReply` | slave/slave.go:68-73 | for other keys: an item with the stored value and no error when the key is held, otherwise no item and the engine's error |
| `Slave.GetAfterSet` | slave/slave.go:59-82 | after a successful `Set` of a non-directive key, `Get` returns the body just written |
| `Slave.GetAfterSetDirective` | slave/slave.go:59-82 | a directive key can be written, but `Get` of it still answers `TRUST ME` |
| `Slave.GetAfterSetOther` | slave/slave.go:59-82 | a write does not change the reply for any other key |
| `Slave.GetAfterDelete` | slave/slave.go:59-95 | after a successful `Delete` the key is absent and `Get` of a non-directive key reports not found |
| `Slave.WriteReadDirective` | slave/slave.go:59-82 | a client sequence: write, read back the body, then a directive that changes neither store nor outbox |

## Left out

- `main` (slave/slave.go:113-162): flag parsing, `GOMAXPROCS`, the access log, and starting the memcache server. This is process bootstrap and network I/O.
- The memory watchdog goroutine (slave/slave.go:150-159): it needs `runtime.ReadMemStats`, `time.Sleep` and a concurrent `Shutdown`. It reads the memory statistics once, at line 153, and never again, so its loop cannot model a sampling state machine.
- The `go` in `go self.migrate(...)`: `Get` runs the migration synchronously. Its interleaving with other requests is not modelled.
- The Bitcask engine: its code is not part of this model. It is the value `BitcaskModel.Bitcask`. `Keys()` becomes a snapshot sequence that `Migrate` takes as a parameter, and `Sync` changes nothing. The model assumes that deleting an absent key succeeds. Engine errors other than I/O failure and not-found are not distinguished.
- `memcache.NewHost(host).Set`: a send is an append to `outbox`. Delivery, the reply and network errors are ignored, as the code ignores them.
- `log.Println` in `Get`, the `panic` in `NewStore` when the engine cannot be opened, and `Close`: logging, process abort and resource release.
- `Slave.BitcaskStore.Migrate`: the key enumeration is an explicit parameter. Under concurrency the engine's enumeration may list keys already deleted; the parameter may contain such keys, and their re-read fails.
- The `host-left-right` decoding that slave/slave.go:62-64 evidently intends for directives: the code never decodes (see above), so there is nothing to model.
- Engine failure is one persistent mode, the `failing` flag, shared by reads and writes and changed by no operation. A read that fails (an I/O or corruption error at slave/slave.go:51 or :68) right after a write that succeeded is therefore not represented; `Slave.GetAfterSet` and `Slave.WriteReadDirective` rely on that coupling.
- `Slave.BitcaskStore.Set`: its `item` is a value and cannot be nil, so the panic of slave/slave.go:77 when a nil item is dereferenced is not represented.
