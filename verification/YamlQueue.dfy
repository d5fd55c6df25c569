/** The growing queue and stack of the YAML library, kept in a block of memory between pointers. */
module YamlQueue {
  import opened Bytes

  /** A queue between `head` and `tail` of a block that is doubled or compacted when its end is reached. */
  class Queue<T(0)> {
    var block: array<T>
    var head: nat
    var tail: nat

    ghost predicate Valid()
      reads this
    {
      head <= tail <= block.Length && block.Length > 0
    }

    ghost function Contents(): seq<T>
      requires Valid()
      reads this, block
    {
      block[head..tail]
    }

    /** QUEUE_INIT. */
    constructor (size: nat)
      requires size > 0
      ensures Valid() && fresh(block) && Contents() == []
    {
      block := new T[size];
      head, tail := 0, 0;
    }

    method Empty() returns (b: bool)
      requires Valid()
      ensures b == (Contents() == [])
    {
      b := head == tail;
    }

    /** yaml_queue_extend: afterwards there is room behind the tail. */
    method Extend()
      requires Valid()
      modifies this, block
      ensures Valid() && (block == old(block) || fresh(block))
      ensures Contents() == old(Contents()) && tail < block.Length
    {
      if head == 0 && tail == block.Length {
        var larger := new T[2 * block.Length];
        forall i | 0 <= i < tail {
          larger[i] := block[i];
        }
        block := larger;
      }
      if tail == block.Length {
        var n := tail - head;
        if head != tail {
          forall i | 0 <= i < n {
            block[i] := block[head + i];
          }
        }
        head, tail := 0, n;
      }
    }

    method Reserve()
      requires Valid()
      modifies this, block
      ensures Valid() && (block == old(block) || fresh(block)) && tail < block.Length
      ensures Contents() == old(Contents())
    {
      if tail == block.Length {
        Extend();
      }
    }

    method Enqueue(x: T)
      requires Valid()
      modifies this, block
      ensures Valid() && (block == old(block) || fresh(block))
      ensures Contents() == old(Contents()) + [x]
    {
      Reserve();
      block[tail] := x;
      tail := tail + 1;
    }

    method Dequeue() returns (x: T)
      requires Valid() && Contents() != []
      modifies `head
      ensures Valid() && [x] + Contents() == old(Contents())
    {
      x := block[head];
      head := head + 1;
    }

    /** QUEUE_INSERT: the memory from the index on moves up by one. */
    method Insert(index: nat, x: T)
      requires Valid() && index <= |Contents()|
      modifies this, block
      ensures Valid() && (block == old(block) || fresh(block))
      ensures Contents() == old(Contents())[..index] + [x] + old(Contents())[index..]
    {
      Reserve();
      MoveUp(index, x);
      tail := tail + 1;
    }

    /** The memmove of QUEUE_INSERT, and the new element. */
    method MoveUp(index: nat, x: T)
      requires Valid() && index <= |Contents()| && tail < block.Length
      modifies block
      ensures block[head..tail + 1] == old(Contents())[..index] + [x] + old(Contents())[index..]
    {
      ghost var before := Contents();
      forall i | head + index <= i < tail {
        block[i + 1] := block[i];
      }
      block[head + index] := x;
      ghost var after := block[head..tail + 1];
      forall k | 0 <= k < index ensures after[k] == before[k] {
        assert after[k] == block[head + k];
      }
      forall k | index <= k < |before| ensures after[k + 1] == before[k] {
        assert after[k + 1] == block[(head + k) + 1] == old(block[head + k]);
      }
      Inserted(before, after, index, x);
    }
  }

  lemma Inserted<T>(before: seq<T>, after: seq<T>, index: nat, x: T)
    requires index <= |before| && |after| == |before| + 1 && after[index] == x
    requires forall k | 0 <= k < index :: after[k] == before[k]
    requires forall k | index <= k < |before| :: after[k + 1] == before[k]
    ensures after == before[..index] + [x] + before[index..]
  {
  }

  /** A stack below `top`. */
  class Stack<T(0)> {
    var block: array<T>
    var top: nat

    ghost predicate Valid()
      reads this
    {
      top <= block.Length && block.Length > 0
    }

    ghost function Contents(): seq<T>
      requires Valid()
      reads this, block
    {
      block[..top]
    }

    /** STACK_INIT. */
    constructor (size: nat)
      requires size > 0
      ensures Valid() && fresh(block) && Contents() == []
    {
      block := new T[size];
      top := 0;
    }

    /** PUSH, with yaml_stack_extend when the block is full. */
    method Push(x: T)
      requires Valid()
      modifies this, block
      ensures Valid() && (block == old(block) || fresh(block))
      ensures Contents() == old(Contents()) + [x]
    {
      if top == block.Length {
        var larger := new T[2 * block.Length];
        forall i | 0 <= i < top {
          larger[i] := block[i];
        }
        block := larger;
      }
      block[top] := x;
      top := top + 1;
    }

    method Pop() returns (x: T)
      requires Valid() && Contents() != []
      modifies `top
      ensures Valid() && Contents() + [x] == old(Contents())
    {
      top := top - 1;
      x := block[top];
    }
  }

  /** A growing string below `top`; the rest of its block is kept zero, so that it always ends in a NUL. */
  class Text {
    var block: array<byte>
    var top: nat

    ghost predicate Valid()
      reads this, block
    {
      top < block.Length && block.Length >= 6 && forall i | top <= i < block.Length :: block[i] == 0
    }

    ghost function Contents(): bytes
      requires Valid()
      reads this, block
    {
      block[..top]
    }

    /** STRING_INIT. */
    constructor (size: nat)
      requires size >= 6
      ensures Valid() && fresh(block) && Contents() == []
    {
      block := new byte[size](_ => 0);
      top := 0;
    }

    /** yaml_string_extend: the new half is cleared. */
    method Extend()
      requires Valid()
      modifies `block
      ensures Valid() && fresh(block) && Contents() == old(Contents()) && block.Length == 2 * old(block.Length)
    {
      var larger := new byte[2 * block.Length](_ => 0);
      forall i | 0 <= i < block.Length {
        larger[i] := block[i];
      }
      block := larger;
    }

    /** STRING_EXTEND and one more byte. */
    method Put(b: byte)
      requires Valid()
      modifies this, block
      ensures Valid() && (block == old(block) || fresh(block)) && Contents() == old(Contents()) + [b]
    {
      if top + 5 >= block.Length {
        Extend();
      }
      block[top] := b;
      top := top + 1;
    }

    /** yaml_string_join: the other string is appended, with room for a NUL behind it. */
    method Join(other: Text)
      requires Valid() && other.Valid() && other != this && other.block != block
      modifies this, block
      ensures Valid() && (block == old(block) || fresh(block)) && Contents() == old(Contents()) + other.Contents()
      ensures other.Valid() && other.Contents() == old(other.Contents())
    {
      if other.top == 0 {
        assert Contents() + [] == Contents();
        return;
      }
      ghost var before := Contents();
      while block.Length - top <= other.top
        invariant Valid() && (block == old(block) || fresh(block)) && Contents() == before && top == old(top)
        invariant other.block != block
        decreases other.top - (block.Length - top)
      {
        Extend();
      }
      Copy(other);
      top := top + other.top;
      assert Contents() == before + other.Contents();
    }

    /** memcpy behind the top. */
    method Copy(other: Text)
      requires Valid() && other.Valid() && other.block != block && top + other.top < block.Length
      modifies block
      ensures block[..top] == old(block[..top]) && block[top..top + other.top] == other.Contents()
      ensures forall i | top + other.top <= i < block.Length :: block[i] == 0
    {
      forall i | 0 <= i < other.top {
        block[top + i] := other.block[i];
      }
      forall i | 0 <= i < other.top ensures block[top..top + other.top][i] == other.Contents()[i] {
        assert block[top + i] == other.block[i];
      }
    }

    /** CLEAR. */
    method Clear()
      requires Valid()
      modifies this, block
      ensures Valid() && block == old(block) && Contents() == []
    {
      forall i | 0 <= i < block.Length {
        block[i] := 0;
      }
      top := 0;
    }

    /** The test of the first byte, which tells whether a string of non-zero bytes is empty. */
    method FirstIsZero() returns (b: bool)
      requires Valid()
      ensures b <==> Contents() == [] || Contents()[0] == 0
    {
      b := block[0] == 0;
    }
  }
}
