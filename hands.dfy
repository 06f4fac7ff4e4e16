/**
 * A hand is a Python list of cards that the player object owns and that the
 * strategies receive by reference (`self.hand`), so it is an object here.
 */
module Hands {
  import opened Wrappers
  import opened Cards
  import opened Lists

  class Hand {
    var cards: seq<Card>

    /** An empty list, as `Player.__init__` creates it. */
    constructor ()
      ensures cards == []
    {
      cards := [];
    }

    /** `hand.pop(i)`: the card at Python index `i` leaves the list; a bad index is reported as `None` (the `IndexError` that player.py:53 catches). */
    method Pop(i: int) returns (r: Option<Card>)
      modifies this
      ensures PyIndex(|old(cards)|, i).Some? ==>
        var k := PyIndex(|old(cards)|, i).value;
        r == Some(old(cards)[k]) && cards == RemoveAt(old(cards), k)
      ensures PyIndex(|old(cards)|, i).None? ==> r == None && cards == old(cards)
    {
      var k := PyIndex(|cards|, i);
      if k.Some? {
        r := Some(cards[k.value]);
        cards := RemoveAt(cards, k.value);
      } else {
        r := None;
      }
    }

    /** `hand.remove(c)`: the first copy of `c` leaves the list. */
    method Remove(c: Card)
      requires c in cards
      modifies this
      ensures cards == RemoveFirst(old(cards), c)
      ensures |cards| == |old(cards)| - 1
    {
      RemoveFirstMeaning(cards, c);
      cards := RemoveFirst(cards, c);
    }

    /** `hand.append(c)`. */
    method Append(c: Card)
      modifies this
      ensures cards == old(cards) + [c]
    {
      cards := cards + [c];
    }
  }
}
