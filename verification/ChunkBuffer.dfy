/** ChunkBuffer2.h in place: the buffer over an array of memory, each method proved to act as the
    function of the same name in Ring. */
module ChunkBuffer {
  import opened Memory
  import opened Basics
  import opened Ring
  import R = Ring

  class ChunkBuffer2 {
    const buffer: array<Byte>
    const size: nat
    const mtu: nat
    var wrap: nat
    var start: nat
    var used: nat
    var inputDest: Option<nat>
    var inputAvail: int
    var outputDest: Option<nat>
    var outputAvail: int

    ghost function View(): Ring
      reads this, buffer
    {
      Ring(size, wrap, start, used, mtu, buffer[..], inputDest, inputAvail, outputDest, outputAvail)
    }

    /** ChunkBuffer2_calc_blocks: exactly the products that an int cannot hold are refused. */
    static method CalcBlocks(chunkLen: nat, num: nat) returns (blocks: int)
      requires chunkLen <= INT_MAX && num <= INT_MAX
      ensures blocks == if BlocksFor(chunkLen, num) <= INT_MAX then BlocksFor(chunkLen, num) else -1
    {
      var dataBlocks := Blocks(chunkLen);
      if dataBlocks > INT_MAX - 1 {
        return -1;
      }
      var chunkBlocks := 1 + dataBlocks;
      if num > INT_MAX - 1 {
        AtLeast(chunkBlocks, num + 1);
        return -1;
      }
      var numChunks := num + 1;
      DivideBound(chunkBlocks, numChunks);
      if chunkBlocks > INT_MAX / numChunks {
        return -1;
      }
      blocks := chunkBlocks * numChunks;
    }

    constructor (buffer: array<Byte>, blocks: nat, mtu: nat)
      requires 0 < blocks && buffer.Length == 4 * blocks
      ensures this.buffer == buffer && View() == Init(buffer[..], blocks, mtu)
    {
      this.buffer, this.size, this.mtu := buffer, blocks, Blocks(mtu);
      wrap, start, used := blocks, 0, 0;
      inputDest, inputAvail, outputDest, outputAvail := None, -1, None, -1;
      new;
      UpdateInput();
      UpdateOutput();
    }

    method EndBlock() returns (end: int)
      ensures end == End(View())
    {
      if used >= wrap - start {
        end := used - (wrap - start);
      } else {
        end := start + used;
      }
    }

    method UpdateInput()
      requires Bounds(View())
      modifies `inputDest, `inputAvail
      ensures View() == R.UpdateInput(old(View()))
    {
      var end := EndBlock();
      if size - end - 1 < mtu {
        inputDest, inputAvail := None, -1;
        return;
      }
      var free := if used >= wrap - start then start - end else size - end;
      if free > 0 {
        inputDest, inputAvail := Some(4 * (end + 1)), AsInt((free - 1) * 4);
      } else {
        inputDest, inputAvail := None, -1;
      }
    }

    method UpdateOutput()
      requires Bounds(View())
      modifies `outputDest, `outputAvail
      ensures View() == R.UpdateOutput(old(View()))
    {
      if used > 0 {
        outputDest, outputAvail := Some(4 * (start + 1)), LoadInt(buffer[..], 4 * start);
      } else {
        outputDest, outputAvail := None, -1;
      }
    }

    /** Stores the length of a packet in its header block. */
    method StoreHeader(at: nat, len: nat)
      requires at + 4 <= buffer.Length && len <= INT_MAX
      modifies buffer
      ensures buffer[..] == Write(old(buffer[..]), at, IntBytes(len))
    {
      var bytes := IntBytes(len);
      buffer[at], buffer[at + 1], buffer[at + 2], buffer[at + 3] := bytes[0], bytes[1], bytes[2], bytes[3];
    }

    /** The header is written and the indices move. */
    method AdvanceIndices(len: nat)
      requires Inv(View()) && inputDest.Some? && len <= inputAvail
      modifies `used, `wrap, buffer
      ensures 0 <= End(old(View())) < size && len <= INT_MAX && View() == Advance(old(View()), len)
    {
      hide LoadInt, Laid, Parse, IntBytes, Chained, Write;
      AdvanceBounds(View(), len);
      var end := EndBlock();
      var blocklen := Blocks(len);
      assert blocklen <= size - end - 1;
      assert used < wrap - start || blocklen <= start - end - 1;
      StoreHeader(4 * end, len);
      used := used + 1 + blocklen;
      if used <= wrap - start && mtu > size - (end + 1 + blocklen) - 1 {
        wrap := end + 1 + blocklen;
      }
    }

    method SubmitPacket(len: nat)
      requires Inv(View()) && inputDest.Some? && len <= inputAvail
      modifies this, buffer
      ensures View() == Submit(old(View()), len)
    {
      hide LoadInt, Bounds, Chained, Advance, Blocks, R.UpdateInput, R.UpdateOutput;
      AdvanceBounds(View(), len);
      AdvanceIndices(len);
      UpdatesKeep(View());
      UpdateInput();
      if used == 1 + Blocks(len) {
        UpdateOutput();
      }
    }

    /** The indices move past the first packet. */
    method RetreatIndices()
      requires Inv(View()) && outputDest.Some?
      modifies `used, `start, `wrap
      ensures View() == Retreat(old(View()))
    {
      hide Laid, Parse, IntBytes, Chained, LoadInt;
      RetreatBounds(View());
      assert 1 <= wrap - start && 1 <= used;
      var blocklen := Blocks(LoadInt(buffer[..], 4 * start));
      assert blocklen <= wrap - start - 1 && blocklen <= used - 1;
      start := start + 1 + blocklen;
      used := used - (1 + blocklen);
      if start == wrap {
        start, wrap := 0, size;
      }
    }

    method ConsumePacket()
      requires Inv(View()) && outputDest.Some?
      modifies this
      ensures View() == Consume(old(View()))
    {
      hide LoadInt, Bounds, Chained, Retreat, R.UpdateInput, R.UpdateOutput;
      RetreatBounds(View());
      var dataWrapped := used >= wrap - start;
      RetreatIndices();
      UpdatesKeep(View());
      if dataWrapped {
        UpdateInput();
      }
      UpdateOutput();
    }
  }

  lemma AtLeast(a: nat, b: nat)
    requires a >= 1
    ensures a * b >= b
  {
  }

  /** Comparing with the quotient is comparing the product. */
  lemma DivideBound(a: nat, n: nat)
    requires n > 0
    ensures a > INT_MAX / n <==> a * n > INT_MAX
  {
    var q := INT_MAX / n;
    assert n * q <= INT_MAX < n * (q + 1);
    if a > q {
      MulMonotone(n, q + 1, a);
    } else {
      MulMonotone(n, a, q);
    }
  }

  lemma MulMonotone(n: nat, a: nat, b: nat)
    requires a <= b
    ensures n * a <= n * b
  {
  }
}
