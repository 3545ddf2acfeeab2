/**
 * The retained-RAM driver (`zephyr,retained-ram`): a region of RAM that keeps
 * its contents across a reset, read, written and cleared with `memcpy` and
 * `memset`. The bounds of each access are checked by the retained memory
 * API before the driver is called; the driver trusts them.
 */
module RetainedMem {
  import opened Common

  /** The bytes of `region` after `data` is copied over it at `offset`. */
  function Written(region: seq<Byte>, offset: nat, data: seq<Byte>): (r: seq<Byte>)
    requires offset + |data| <= |region|
    ensures |r| == |region|
    ensures forall i | 0 <= i < |data| :: r[offset + i] == data[i]
    ensures forall i | 0 <= i < |region| && !(offset <= i < offset + |data|) :: r[i] == region[i]
  {
    region[..offset] + data + region[offset + |data|..]
  }

  /** Reading a range just written gives back the written bytes. */
  lemma ReadAfterWrite(region: seq<Byte>, offset: nat, data: seq<Byte>)
    requires offset + |data| <= |region|
    ensures Written(region, offset, data)[offset..offset + |data|] == data
  {
    var r := Written(region, offset, data);
    assert forall i | 0 <= i < |data| :: r[offset..offset + |data|][i] == data[i];
  }

  /** Writing what a range already holds changes nothing. */
  lemma WriteSameIsIdentity(region: seq<Byte>, offset: nat, n: nat)
    requires offset + n <= |region|
    ensures Written(region, offset, region[offset..offset + n]) == region
  {
    var r := Written(region, offset, region[offset..offset + n]);
    assert forall i | 0 <= i < |region| :: r[i] == region[i];
  }

  /** A second write over the same range replaces the first. */
  lemma WriteTwice(region: seq<Byte>, offset: nat, first: seq<Byte>, second: seq<Byte>)
    requires offset + |first| <= |region| && |second| == |first|
    ensures Written(Written(region, offset, first), offset, second) == Written(region, offset, second)
  {
    var a := Written(Written(region, offset, first), offset, second);
    var b := Written(region, offset, second);
    assert forall i | 0 <= i < |region| :: a[i] == b[i];
  }

  /**
   * `struct zephyr_retained_mem_ram_config` together with the region it
   * describes: `address` is the backing RAM and `size` its length in bytes.
   */
  class RetainedRam {
    const address: array<Byte>
    const size: nat

    /** The region is `size` bytes long. */
    ghost predicate Valid()
    {
      address.Length == size
    }

    constructor (region: array<Byte>)
      ensures address == region && size == region.Length && Valid()
    {
      address := region;
      size := region.Length;
    }

    /** `zephyr_retained_mem_ram_size`: the size of the region. */
    method Size() returns (r: int)
      requires Valid()
      ensures r == address.Length
    {
      r := size;
    }

    /**
     * `zephyr_retained_mem_ram_read`: copy `n` bytes of the region from
     * `offset` into `buffer`; the region is left as it was.
     */
    method Read(offset: nat, buffer: array<Byte>, n: nat) returns (err: int)
      requires Valid() && offset + n <= size && n <= buffer.Length && buffer != address
      modifies buffer
      ensures err == 0
      ensures buffer[..n] == address[offset..offset + n]
      ensures buffer[n..] == old(buffer[n..])
    {
      var i := 0;
      while i < n
        invariant i <= n
        invariant buffer[..i] == address[offset..offset + i]
        invariant buffer[n..] == old(buffer[n..])
      {
        buffer[i] := address[offset + i];
        i := i + 1;
      }
      return 0;
    }

    /**
     * `zephyr_retained_mem_ram_write`: copy the first `n` bytes of `buffer`
     * into the region at `offset`. `flush` is the result of
     * `sys_cache_data_flush_range` when the data cache is managed, and None
     * when it is not.
     */
    method Write(offset: nat, buffer: array<Byte>, n: nat, flush: Option<int>) returns (err: int)
      requires Valid() && offset + n <= size && n <= buffer.Length && buffer != address
      modifies address
      ensures address[..] == Written(old(address[..]), offset, buffer[..n])
      ensures err == (if flush.Some? then flush.value else 0)
    {
      var i := 0;
      while i < n
        invariant i <= n
        invariant address[..] == Written(old(address[..]), offset, buffer[..i])
      {
        address[offset + i] := buffer[i];
        i := i + 1;
        assert buffer[..i] == buffer[..i - 1] + [buffer[i - 1]];
      }
      err := if flush.Some? then flush.value else 0;
    }

    /** `zephyr_retained_mem_ram_clear`: set every byte of the region to 0. */
    method Clear(flush: Option<int>) returns (err: int)
      requires Valid()
      modifies address
      ensures address[..] == seq(size, _ => 0)
      ensures err == (if flush.Some? then flush.value else 0)
    {
      var i := 0;
      while i < size
        invariant i <= size
        invariant forall j | 0 <= j < i :: address[j] == 0
      {
        address[i] := 0;
        i := i + 1;
      }
      err := if flush.Some? then flush.value else 0;
    }

    /** A read of the range just written returns the written bytes, and succeeds without cache management. */
    method WriteThenRead(offset: nat, data: array<Byte>, out: array<Byte>, n: nat) returns (werr: int, rerr: int)
      requires Valid() && offset + n <= size && n <= data.Length && n <= out.Length
      requires data != address && out != address && out != data
      modifies address, out
      ensures werr == 0 && rerr == 0
      ensures out[..n] == data[..n]
    {
      werr := Write(offset, data, n, None);
      rerr := Read(offset, out, n);
      ReadAfterWrite(old(address[..]), offset, data[..n]);
    }
  }
}
