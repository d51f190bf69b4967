/** The layout of pushed rows, its reader, and why reading undoes writing. */
module PushFormat {
  import opened Codec

  const SEPARATOR := -1
  const END := -2

  /** What an encoder writes, piece by piece. */
  datatype Tok = Table(id: int) | Row(id: int, data: seq<byte>) | Separator | End

  datatype Item = Item(table: int, row: int, data: seq<byte>)

  predicate TokOk(t: Tok) {
    match t
    case Table(id) => IsInt32(id) && id != END
    case Row(id, data) => IsInt32(id) && id != SEPARATOR && id != END && |data| < TWO_64
    case _ => true
  }

  type GoodTok = t: Tok | TokOk(t) witness End

  function Enc(t: GoodTok): (b: seq<byte>)
    ensures |b| == if t.Row? then 12 + |t.data| else 4
  {
    match t
    case Table(id) => Enc32(id)
    case Row(id, data) => Enc32(id) + EncSize(|data|) + data
    case Separator => Enc32(SEPARATOR)
    case End => Enc32(END)
  }

  function EncAll(toks: seq<GoodTok>): seq<byte> {
    if toks == [] then [] else EncAll(toks[..|toks| - 1]) + Enc(toks[|toks| - 1])
  }

  /** What may come next: at the start of a buffer, after a separator, inside a table, after the end marker. */
  datatype Mode = Start | Fresh | In(table: int) | Closed | Broken

  function Advance(m: Mode, t: Tok): Mode {
    match (m, t)
    case (Start, Table(id)) => In(id)
    case (Start, End) => Closed
    case (Fresh, Table(id)) => In(id)
    case (In(id), Row(_, _)) => m
    case (In(_), Separator) => Fresh
    case (In(_), End) => Closed
    case _ => Broken
  }

  function After(toks: seq<GoodTok>): Mode {
    if toks == [] then Start else Advance(After(toks[..|toks| - 1]), toks[|toks| - 1])
  }

  /** The rows in a well-formed buffer, each with the table it belongs to. */
  function Items(toks: seq<GoodTok>): seq<Item> {
    if toks == [] then []
    else
      var m, t := After(toks[..|toks| - 1]), toks[|toks| - 1];
      Items(toks[..|toks| - 1]) + if m.In? && t.Row? then [Item(m.table, t.id, t.data)] else []
  }

  lemma Push(toks: seq<GoodTok>, t: GoodTok)
    ensures EncAll(toks + [t]) == EncAll(toks) + Enc(t)
    ensures After(toks + [t]) == Advance(After(toks), t)
    ensures Items(toks + [t])
         == Items(toks) + if After(toks).In? && t.Row? then [Item(After(toks).table, t.id, t.data)] else []
  {
    assert (toks + [t])[..|toks|] == toks;
  }

  // ---- The reader, as a function on bytes ----

  /** The rows that are read from offset `off` on, while the current table is `table`. */
  function Rows(mem: seq<byte>, off: nat, table: int): seq<Item>
    requires Readable(mem, off)
    decreases |mem| - off
  {
    if off + 4 > |mem| then []
    else
      var id := Int32At(mem, off);
      if id == SEPARATOR then
        if off + 8 > |mem| then [] else Rows(mem, off + 8, Int32At(mem, off + 4))
      else if id == END then []
      else
        var size := SizeAt(mem, off + 4);
        [Item(table, id, mem[off + 12..off + 12 + size])] + Rows(mem, off + 12 + size, table)
  }

  /** The reader does not run over the end of its memory. */
  predicate Readable(mem: seq<byte>, off: nat)
    decreases |mem| - off
  {
    off + 4 > |mem| ||
    (var id := Int32At(mem, off);
     if id == SEPARATOR then off + 8 > |mem| || Readable(mem, off + 8)
     else id == END || (off + 12 <= |mem| && off + 12 + SizeAt(mem, off + 4) <= |mem|
                        && Readable(mem, off + 12 + SizeAt(mem, off + 4))))
  }

  /** A whole message can be read. */
  predicate Legible(mem: seq<byte>) {
    4 <= |mem| && (Int32At(mem, 0) == END || Readable(mem, 4))
  }

  function Decode(mem: seq<byte>): seq<Item>
    requires Legible(mem)
  {
    if Int32At(mem, 0) == END then [] else Rows(mem, 4, Int32At(mem, 0))
  }

  class SerializedRowReader {
    const mem: array<byte>
    const memSize: nat
    var offset: nat
    var currentTableId: int

    ghost predicate Valid()
      reads this, mem
    {
      memSize <= mem.Length && Readable(mem[..memSize], offset)
    }

    /** The rows that are still to be read. */
    ghost function Left(): seq<Item>
      requires Valid()
      reads this, mem
    {
      Rows(mem[..memSize], offset, currentTableId)
    }

    constructor (mem: array<byte>, memSize: nat)
      requires memSize <= mem.Length
      ensures this.mem == mem && this.memSize == memSize
    {
      this.mem, this.memSize := mem, memSize;
      offset, currentTableId := 0, 0;
    }

    method ReadInt32() returns (x: int)
      requires memSize <= mem.Length && offset + 4 <= memSize
      modifies this`offset
      ensures x == Int32At(mem[..memSize], old(offset)) && offset == old(offset) + 4
    {
      assert mem[..memSize][offset..offset + 4] == mem[offset..offset + 4];
      x := Dec32(mem[offset..offset + 4]);
      offset := offset + 4;
    }

    method ReadSize() returns (x: nat)
      requires memSize <= mem.Length && offset + 8 <= memSize
      modifies this`offset
      ensures x == SizeAt(mem[..memSize], old(offset)) && offset == old(offset) + 8
    {
      assert mem[..memSize][offset..offset + 8] == mem[offset..offset + 8];
      x := DecSize(mem[offset..offset + 8]);
      offset := offset + 8;
    }

    method Restart() returns (notEmpty: bool)
      requires memSize <= mem.Length && Legible(mem[..memSize])
      modifies this
      ensures notEmpty ==> Valid() && Left() == Decode(mem[..memSize])
      ensures !notEmpty ==> Decode(mem[..memSize]) == []
    {
      offset := 0;
      currentTableId := ReadInt32();
      return currentTableId != END;
    }

    /** The next row, or nothing when the rest holds no row. */
    method Next() returns (found: bool, tableId: int, rowId: int, data: seq<byte>)
      requires Valid()
      modifies this
      ensures found ==> Valid() && old(Left()) == [Item(tableId, rowId, data)] + Left()
      ensures found ==> old(offset) < offset <= memSize
      ensures !found ==> old(Left()) == []
    {
      hide Int32At, SizeAt;
      found, tableId, data := false, 0, [];
      rowId := 0;
      if offset + 4 > memSize {
        return;
      }
      ghost var bytes := mem[..memSize];
      rowId := ReadInt32();
      while true
        invariant 4 <= offset <= memSize && old(offset) + 4 <= offset
        invariant !found && rowId == Int32At(bytes, offset - 4)
        invariant Readable(bytes, offset - 4)
        invariant Rows(bytes, offset - 4, currentTableId) == old(Left())
        decreases memSize - offset
      {
        if rowId == SEPARATOR {
          if offset + 4 > memSize {
            return;
          }
          currentTableId := ReadInt32();
          if offset + 4 > memSize {
            return;
          }
          rowId := ReadInt32();
        } else if rowId == END {
          return;
        } else {
          tableId := currentTableId;
          var rowSize := ReadSize();
          assert bytes[offset..offset + rowSize] == mem[offset..offset + rowSize];
          data := mem[offset..offset + rowSize];
          offset := offset + rowSize;
          found := true;
          return;
        }
      }
    }
  }

  /** What the client does with a message: it takes rows until there are none. */
  method ReadAll(mem: array<byte>, memSize: nat) returns (items: seq<Item>)
    requires memSize <= mem.Length && Legible(mem[..memSize])
    ensures items == Decode(mem[..memSize])
  {
    hide Rows, Readable, Legible, Decode;
    items := [];
    var reader := new SerializedRowReader(mem, memSize);
    var notEmpty := reader.Restart();
    if !notEmpty {
      return;
    }
    var found, table, row, data := reader.Next();
    while found
      invariant reader.mem == mem && reader.memSize == memSize
      invariant found ==> reader.Valid()
      invariant Decode(mem[..memSize]) == items + if found then [Item(table, row, data)] + reader.Left() else []
      decreases found, if found then memSize - reader.offset else 0
    {
      items := items + [Item(table, row, data)];
      found, table, row, data := reader.Next();
    }
  }

  // ---- Reading undoes writing ----

  lemma Middle(a: seq<byte>, b: seq<byte>, c: seq<byte>)
    ensures |a + b + c| == |a| + |b| + |c|
    ensures (a + b + c)[|a|..|a| + |b|] == b
  {
  }

  lemma SubSlice(mem: seq<byte>, off: nat, b: seq<byte>, from: nat, upto: nat)
    requires off + |b| <= |mem| && mem[off..off + |b|] == b && from <= upto <= |b|
    ensures mem[off + from..off + upto] == b[from..upto]
  {
    forall i: nat | i < upto - from ensures mem[off + from..off + upto][i] == b[from..upto][i] {
      assert mem[off..off + |b|][from + i] == b[from + i];
    }
  }

  /** The bytes of the tokens from k on. */
  lemma {:induction false} Split(toks: seq<GoodTok>, k: nat) returns (rest: seq<byte>)
    requires k <= |toks|
    ensures EncAll(toks) == EncAll(toks[..k]) + rest
    decreases |toks|
  {
    hide Enc;
    if k == |toks| {
      assert toks[..k] == toks;
      rest := [];
    } else {
      var front := toks[..|toks| - 1];
      var more := Split(front, k);
      assert front[..k] == toks[..k];
      rest := more + Enc(toks[|toks| - 1]);
    }
  }

  /** The bytes of token k lie where the bytes of the tokens before it end. */
  lemma TokAt(toks: seq<GoodTok>, tail: seq<byte>, k: nat)
    requires k < |toks|
    ensures var mem, off := EncAll(toks) + tail, |EncAll(toks[..k])|;
      && off + |Enc(toks[k])| <= |mem|
      && mem[off..off + |Enc(toks[k])|] == Enc(toks[k])
      && |EncAll(toks[..k + 1])| == off + |Enc(toks[k])|
  {
    hide Enc;
    var rest := Split(toks, k + 1);
    assert toks[..k + 1][..k] == toks[..k] && toks[..k + 1][k] == toks[k];
    var a, b := EncAll(toks[..k]), Enc(toks[k]);
    assert EncAll(toks[..k + 1]) == a + b;
    hide EncAll;
    Middle(a, b, rest + tail);
    assert EncAll(toks) + tail == a + b + (rest + tail);
  }

  function HeadOf(t: GoodTok): int {
    match t
    case Table(id) => id
    case Row(id, _) => id
    case Separator => SEPARATOR
    case End => END
  }

  lemma EncHead(t: GoodTok)
    ensures Enc(t)[..4] == Enc32(HeadOf(t)) && Dec32(Enc(t)[..4]) == HeadOf(t)
    ensures t.Row? ==>
      Enc(t)[4..12] == EncSize(|t.data|) && DecSize(Enc(t)[4..12]) == |t.data| && Enc(t)[12..] == t.data
  {
    hide Enc32, EncSize, Dec32, DecSize;
    DecEnc32(HeadOf(t));
    if t.Row? {
      DecEncSize(|t.data|);
      Middle(Enc32(t.id), EncSize(|t.data|), t.data);
    }
  }

  lemma IdAt(toks: seq<GoodTok>, tail: seq<byte>, k: nat)
    requires k < |toks|
    ensures var mem, off := EncAll(toks) + tail, |EncAll(toks[..k])|;
      off + 4 <= |mem| && Int32At(mem, off) == HeadOf(toks[k])
  {
    hide Enc, EncAll, Dec32, HeadOf, EncSize, DecSize, Enc32;
    TokAt(toks, tail, k);
    EncHead(toks[k]);
    EncLength(toks[k]);
    SubSlice(EncAll(toks) + tail, |EncAll(toks[..k])|, Enc(toks[k]), 0, 4);
  }

  lemma RowAt(toks: seq<GoodTok>, tail: seq<byte>, k: nat)
    requires k < |toks| && toks[k].Row?
    ensures var mem, off := EncAll(toks) + tail, |EncAll(toks[..k])|;
      && off + 12 + |toks[k].data| <= |mem|
      && SizeAt(mem, off + 4) == |toks[k].data|
      && mem[off + 12..off + 12 + |toks[k].data|] == toks[k].data
  {
    hide Enc, EncAll, DecSize, EncSize, HeadOf, Enc32, Dec32;
    TokAt(toks, tail, k);
    EncHead(toks[k]);
    EncLength(toks[k]);
    var mem, off, e := EncAll(toks) + tail, |EncAll(toks[..k])|, Enc(toks[k]);
    SubSlice(mem, off, e, 4, 12);
    SubSlice(mem, off, e, 12, |e|);
    assert e[12..|e|] == e[12..];
    assert SizeAt(mem, off + 4) == DecSize(mem[off + 4..off + 12]);
  }

  /** What a reader needs to stop: the end marker, or too little room for anything more. */
  predicate Stops(toks: seq<GoodTok>, tail: seq<byte>) {
    After(toks) == Closed || |tail| < 4
  }

  ghost predicate Sound(toks: seq<GoodTok>) {
    forall k :: 0 <= k <= |toks| ==> After(toks[..k]) != Broken
  }

  lemma PushSound(toks: seq<GoodTok>, t: GoodTok)
    requires Sound(toks) && Advance(After(toks), t) != Broken
    ensures Sound(toks + [t])
  {
    Push(toks, t);
    forall k | 0 <= k <= |toks| + 1 ensures After((toks + [t])[..k]) != Broken {
      if k <= |toks| {
        assert (toks + [t])[..k] == toks[..k];
      } else {
        assert (toks + [t])[..k] == toks + [t];
      }
    }
  }

  lemma StepAt(toks: seq<GoodTok>, k: nat)
    requires k < |toks|
    ensures After(toks[..k + 1]) == Advance(After(toks[..k]), toks[k])
    ensures Items(toks[..k + 1]) == Items(toks[..k]) +
              if After(toks[..k]).In? && toks[k].Row?
              then [Item(After(toks[..k]).table, toks[k].id, toks[k].data)] else []
  {
    assert toks[..k + 1] == toks[..k] + [toks[k]];
    Push(toks[..k], toks[k]);
  }

  /** From any place inside a table, the reader finds the rows of the remaining tokens. */
  lemma {:induction false} ReadFrom(toks: seq<GoodTok>, tail: seq<byte>, k: nat)
    requires Sound(toks) && Stops(toks, tail) && k <= |toks| && After(toks[..k]).In?
    ensures var mem, off := EncAll(toks) + tail, |EncAll(toks[..k])|;
      Readable(mem, off) && Items(toks[..k]) + Rows(mem, off, After(toks[..k]).table) == Items(toks)
    decreases |toks| - k
  {
    hide Enc, EncAll, Int32At, SizeAt, Items, After;
    assert toks[..|toks|] == toks;
    if k < |toks| {
      var mem, off := EncAll(toks) + tail, |EncAll(toks[..k])|;
      IdAt(toks, tail, k);
      TokAt(toks, tail, k);
      EncLength(toks[k]);
      StepAt(toks, k);
      assert After(toks[..k + 1]) != Broken;
      match toks[k] {
        case Row(id, data) =>
          RowAt(toks, tail, k);
          ReadFrom(toks, tail, k + 1);
        case Separator => ReadSeparator(toks, tail, k);
        case End => NothingAfterEnd(toks, k + 1);
        case Table(_) =>
      }
    }
  }

  lemma EncLength(t: GoodTok)
    ensures |Enc(t)| == if t.Row? then 12 + |t.data| else 4
  {
  }

  lemma {:induction false} ReadSeparator(toks: seq<GoodTok>, tail: seq<byte>, k: nat)
    requires Sound(toks) && Stops(toks, tail) && k < |toks| && After(toks[..k]).In? && toks[k] == Separator
    ensures var mem, off := EncAll(toks) + tail, |EncAll(toks[..k])|;
      Readable(mem, off) && Items(toks[..k]) + Rows(mem, off, After(toks[..k]).table) == Items(toks)
    decreases |toks| - k, 0
  {
    hide Enc, EncAll, Int32At, SizeAt, Items, After;
    assert toks[..|toks|] == toks;
    IdAt(toks, tail, k);
    TokAt(toks, tail, k);
    EncLength(toks[k]);
    StepAt(toks, k);
    if k + 1 < |toks| {
      StepAt(toks, k + 1);
      IdAt(toks, tail, k + 1);
      TokAt(toks, tail, k + 1);
      EncLength(toks[k + 1]);
      assert After(toks[..k + 2]) != Broken;
      ReadFrom(toks, tail, k + 2);
    }
  }

  lemma NothingAfterEnd(toks: seq<GoodTok>, k: nat)
    requires Sound(toks) && k <= |toks| && After(toks[..k]) == Closed
    ensures toks == toks[..k]
  {
    if k < |toks| {
      StepAt(toks, k);
      assert false;
    }
  }

  /** Decoding a message that an encoder wrote gives back the rows that were put into it, with their tables. */
  lemma DecodeEncoded(toks: seq<GoodTok>, tail: seq<byte>)
    requires toks != [] && Sound(toks) && Stops(toks, tail)
    ensures Legible(EncAll(toks) + tail)
    ensures Decode(EncAll(toks) + tail) == Items(toks)
  {
    var mem := EncAll(toks) + tail;
    assert toks[..0] == [];
    IdAt(toks, tail, 0);
    TokAt(toks, tail, 0);
    StepAt(toks, 0);
    assert After(toks[..1]) != Broken;
    if toks[0] == End {
      NothingAfterEnd(toks, 1);
    } else {
      ReadFrom(toks, tail, 1);
    }
  }
}
