/** The id store: a counter that hands out decimal string ids. */
module Ids {
  import opened Strings

  class IdStore {
    var id: nat

    constructor ()
      ensures id == 0
    {
      id := 0;
    }

    /** `nextID`: advances the counter by one and returns its new value in decimal. */
    method NextID() returns (r: string)
      modifies this
      ensures id == old(id) + 1
      ensures r == NatToDecimal(id)
      ensures DecimalValue(r) == id
    {
      id := id + 1;
      r := NatToDecimal(id);
      DecimalRoundTrip(id);
    }
  }

  /** From a fresh store, the first id handed out is `"1"`. */
  method FirstId() returns (r: string)
    ensures r == "1"
  {
    var store := new IdStore();
    r := store.NextID();
    assert NatToDecimal(1) == [DigitChar(1)];
  }

  /** Two calls hand out different ids, the later one naming a larger number. */
  method TwoIds(store: IdStore) returns (first: string, second: string)
    modifies store
    ensures first != second && DecimalValue(first) < DecimalValue(second)
    ensures store.id == old(store.id) + 2
  {
    first := store.NextID();
    second := store.NextID();
  }
}
