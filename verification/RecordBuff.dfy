/** A fixed piece of memory that records are appended to. */
module RecordBuffs {
  import opened Codec
  import opened PushFormat

  lemma Concat(a: seq<byte>, b: seq<byte>, c: seq<byte>, d: seq<byte>)
    ensures a + b + c + d == a + (b + c + d)
  {
  }

  class RecordBuff {
    const mem: array<byte>
    var offset: nat
    /** What was written since the last reset. */
    ghost var toks: seq<GoodTok>

    ghost predicate Valid()
      reads this, mem
    {
      offset <= mem.Length && mem[..offset] == EncAll(toks)
    }

    constructor (size: nat)
      ensures Valid() && toks == [] && offset == 0 && mem.Length == size && fresh(mem)
    {
      mem := new byte[size];
      offset, toks := 0, [];
    }

    method ResetOffset()
      modifies this
      ensures Valid() && toks == [] && offset == 0
    {
      offset, toks := 0, [];
    }

    /** Copies bytes to the end. */
    method Write(bytes: seq<byte>)
      requires offset + |bytes| <= mem.Length
      modifies this`offset, mem
      ensures offset == old(offset) + |bytes| && mem[..offset] == old(mem[..offset]) + bytes
    {
      var i := 0;
      while i < |bytes|
        invariant 0 <= i <= |bytes| && offset == old(offset)
        invariant mem[..offset + i] == old(mem[..offset]) + bytes[..i]
      {
        mem[offset + i] := bytes[i];
        i := i + 1;
      }
      offset := offset + |bytes|;
    }

    /** All or nothing: the id, the size, the bytes. */
    method Append(id: int, record: seq<byte>) returns (suc: bool)
      requires Valid() && TokOk(Row(id, record))
      modifies this, mem
      ensures Valid()
      ensures suc == (old(offset) + 12 + |record| <= mem.Length)
      ensures suc ==> toks == old(toks) + [Row(id, record)] && offset == old(offset) + 12 + |record|
      ensures suc ==> mem[..offset] == old(mem[..offset]) + Enc32(id) + EncSize(|record|) + record
      ensures !suc ==> toks == old(toks) && offset == old(offset)
    {
      if offset + 4 + |record| + 8 > mem.Length {
        return false;
      }
      ghost var before := EncAll(toks);
      Push(toks, Row(id, record));
      Concat(before, Enc32(id), EncSize(|record|), record);
      hide Enc32, EncSize, EncAll;
      Write(Enc32(id));
      Write(EncSize(|record|));
      Write(record);
      toks := toks + [Row(id, record)];
      return true;
    }

    /** Room for one int32_t, or nothing when there is no room: then it is not written. */
    method PutInt32(ghost tok: GoodTok, x: int) returns (suc: bool)
      requires Valid() && IsInt32(x) && Enc(tok) == Enc32(x)
      modifies this, mem
      ensures Valid()
      ensures suc == (old(offset) + 4 <= mem.Length)
      ensures suc ==> toks == old(toks) + [tok] && offset == old(offset) + 4
      ensures suc ==> mem[..offset] == old(mem[..offset]) + Enc32(x)
      ensures !suc ==> toks == old(toks) && offset == old(offset)
    {
      if offset + 4 > mem.Length {
        return false;
      }
      hide Enc32, Enc;
      Write(Enc32(x));
      Push(toks, tok);
      toks := toks + [tok];
      return true;
    }
  }
}
