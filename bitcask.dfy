/** The storage engine `BitcaskStore` wraps, reduced to what the adapter
    observes: its live records, and whether its files currently fail. The
    engine's own code is not part of this model; its file format, merging
    and syncing are left out. */
module BitcaskModel {
  import opened Crc32

  /** A Go string or byte slice. */
  type Bytes = seq<byte>

  /** What the engine can report instead of a value. */
  datatype StoreError = NotFound | IoFailure

  datatype Option<T> = None | Some(value: T)

  datatype Result<T> = Ok(value: T) | Err(error: StoreError)

  /** The engine state: the record held for each key, and whether every
      operation currently fails with an I/O error. */
  datatype Bitcask = Bitcask(records: map<Bytes, Bytes>, failing: bool)
  {
    /** `bc.Get(key)` */
    function Get(key: Bytes): (r: Result<Bytes>)
    {
      if failing then Err(IoFailure)
      else if key in records then Ok(records[key])
      else Err(NotFound)
    }

    /** The error `bc.Set` and `bc.Del` report, if any. */
    function WriteStatus(): (e: Option<StoreError>)
    {
      if failing then Some(IoFailure) else None
    }

    /** The engine after `bc.Set(key, value)`. */
    function Set(key: Bytes, value: Bytes): (after: Bitcask)
    {
      if failing then this else this.(records := records[key := value])
    }

    /** The engine after `bc.Del(key)`; deleting an absent key is not an error. */
    function Del(key: Bytes): (after: Bitcask)
    {
      if failing then this else this.(records := records - {key})
    }

    /** `bc.Len()`: the number of live records. */
    function Len(): (n: nat)
    {
      |records.Keys|
    }
  }

  /** A successful write adds one record when the key is new and none when it
      replaces a value; a failed one changes nothing. */
  lemma LenAfterSet(bc: Bitcask, key: Bytes, value: Bytes)
    ensures bc.WriteStatus() == None ==>
      bc.Set(key, value).Len() == if key in bc.records then bc.Len() else bc.Len() + 1
    ensures bc.WriteStatus() != None ==> bc.Set(key, value) == bc
  {
  }

  /** A successful delete removes one record when the key is present and none
      otherwise. */
  lemma LenAfterDel(bc: Bitcask, key: Bytes)
    ensures bc.WriteStatus() == None ==>
      bc.Del(key).Len() == if key in bc.records then bc.Len() - 1 else bc.Len()
    ensures bc.WriteStatus() != None ==> bc.Del(key) == bc
  {
  }
}
