/** The byte buffer: items are added at the end and consumed from the front. */
module StreamBuffer {
  import opened BigEndian

  function Max(a: nat, b: nat): nat {
    if a > b then a else b
  }

  class Buf {
    var storage: array<byte>
    var itemOffset: nat
    var itemCount: nat

    ghost predicate Valid()
      reads this
    {
      && itemOffset + itemCount <= storage.Length
      && (storage.Length == 0 || itemOffset < storage.Length)
      && (itemCount == 0 ==> itemOffset == 0)
    }

    /** The items ready to be consumed. */
    ghost function Contents(): (items: seq<byte>)
      requires Valid()
      reads this, storage
      ensures |items| == itemCount
    {
      storage[itemOffset..itemOffset + itemCount]
    }

    /** Copies some of the items out. */
    method Peek(start: nat, size: nat) returns (items: seq<byte>)
      requires Valid() && start + size <= itemCount
      ensures items == Contents()[start..start + size]
    {
      items := storage[itemOffset + start..itemOffset + start + size];
      assert forall i :: 0 <= i < size ==> items[i] == Contents()[start + i];
    }

    function SpaceSize(): nat
      requires Valid()
      reads this
    {
      storage.Length - itemOffset - itemCount
    }

    constructor ()
      ensures Valid() && Contents() == [] && storage.Length == 0 && fresh(storage)
    {
      storage := new byte[0];
      itemOffset, itemCount := 0, 0;
    }

    method MoveDataToFront()
      requires Valid()
      modifies `itemOffset, storage
      ensures Valid() && itemOffset == 0 && Contents() == old(Contents())
    {
      if itemOffset > 0 {
        forall i | 0 <= i < itemCount {
          storage[i] := storage[itemOffset + i];
        }
        itemOffset := 0;
      }
    }

    method DoAddSpace(minToAdd: nat)
      requires Valid() && minToAdd > 0
      modifies this, storage
      ensures Valid() && itemOffset == 0 && Contents() == old(Contents())
      ensures storage == old(storage) || fresh(storage)
      ensures storage.Length == Max(old(storage.Length), old(storage.Length) + minToAdd - old(itemOffset))
    {
      var addedByMove := itemOffset;
      MoveDataToFront();
      if addedByMove < minToAdd {
        Resize(storage.Length + minToAdd - addedByMove);
      }
    }

    /** Growing a vector keeps its elements. */
    method Resize(size: nat)
      requires Valid() && size >= storage.Length && size > 0
      modifies `storage
      ensures Valid() && fresh(storage) && storage.Length == size && Contents() == old(Contents())
    {
      var grown := new byte[size](_ => 0);
      forall i | 0 <= i < storage.Length {
        grown[i] := storage[i];
      }
      storage := grown;
    }

    /** Space for new items is made by moving and, only if that is not enough, by growing
        to exactly what is needed. */
    method EnsureSpace(minSize: nat)
      requires Valid()
      modifies this, storage
      ensures Valid() && SpaceSize() >= minSize && Contents() == old(Contents())
      ensures storage == old(storage) || fresh(storage)
      ensures storage.Length == Max(old(storage.Length), itemCount + minSize)
    {
      var actual := SpaceSize();
      if actual < minSize {
        DoAddSpace(minSize - actual);
      }
    }

    method EnsureDataPlusSpace(minSize: nat)
      requires Valid()
      modifies this, storage
      ensures Valid() && itemCount + SpaceSize() >= minSize && Contents() == old(Contents())
      ensures storage == old(storage) || fresh(storage)
      ensures storage.Length == Max(old(storage.Length), minSize)
    {
      var actual := storage.Length - itemOffset;
      if actual < minSize {
        DoAddSpace(minSize - actual);
      }
    }

    /** Items put into the space by a read, and recorded. */
    method Deposit(items: seq<byte>)
      requires Valid() && |items| <= SpaceSize()
      modifies `itemCount, storage
      ensures Valid() && Contents() == old(Contents()) + items
    {
      forall i | 0 <= i < |items| {
        storage[itemOffset + itemCount + i] := items[i];
      }
      MarkSpaceConsumed(|items|);
    }

    method MarkSpaceConsumed(size: nat)
      requires Valid() && size <= SpaceSize()
      modifies `itemCount
      ensures Valid() && itemCount == old(itemCount) + size && storage[..] == old(storage[..])
      ensures old(Contents()) <= Contents()
    {
      itemCount := itemCount + size;
    }

    method MarkDataConsumed(size: nat)
      requires Valid() && size <= itemCount
      modifies `itemOffset, `itemCount
      ensures Valid() && Contents() == old(Contents())[size..]
    {
      itemOffset, itemCount := itemOffset + size, itemCount - size;
      if itemCount == 0 {
        itemOffset := 0;
      }
    }

    method Clear()
      requires Valid()
      modifies `itemOffset, `itemCount
      ensures Valid() && Contents() == []
    {
      MarkDataConsumed(itemCount);
    }
  }
}
