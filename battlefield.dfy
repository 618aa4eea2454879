/** The battlefield: the shared playing area in the middle of the table.
    It is an ordered list of slots. Each slot holds at most two cards: index 0
    is the attacking card, index 1 the card that defends against it. Beside
    the slots the area keeps a list of mats (the coloured backgrounds the
    slots are drawn on), modelled here only by how many there are. */
module Battlefield {
  import opened Cards

  /** Every card of `slots`, slot by slot, in order. */
  function Flatten(slots: seq<seq<Card>>): seq<Card>
  {
    if slots == [] then [] else Flatten(slots[..|slots| - 1]) + slots[|slots| - 1]
  }

  /** Number of cards held by all slots together. */
  function TotalSize(slots: seq<seq<Card>>): nat
  {
    if slots == [] then 0 else TotalSize(slots[..|slots| - 1]) + |slots[|slots| - 1]|
  }

  /** The flattened battlefield has one entry per card held by a slot. */
  lemma {:induction false} FlattenLength(slots: seq<seq<Card>>)
    ensures |Flatten(slots)| == TotalSize(slots)
  {
    if slots != [] {
      FlattenLength(slots[..|slots| - 1]);
    }
  }

  /** A card is in the flattened battlefield exactly when some slot holds it. */
  lemma {:induction false} FlattenMembership(slots: seq<seq<Card>>, c: Card)
    ensures c in Flatten(slots) <==>
            exists i, j :: 0 <= i < |slots| && 0 <= j < |slots[i]| && slots[i][j] == c
  {
    if slots != [] {
      var init, last := slots[..|slots| - 1], slots[|slots| - 1];
      FlattenMembership(init, c);
      if c in Flatten(slots) {
        if c in Flatten(init) {
          var i, j :| 0 <= i < |init| && 0 <= j < |init[i]| && init[i][j] == c;
          assert slots[i][j] == c;
        } else {
          assert c in last;
          var j :| 0 <= j < |last| && last[j] == c;
          assert slots[|slots| - 1][j] == c;
        }
      } else {
        forall i, j | 0 <= i < |slots| && 0 <= j < |slots[i]|
          ensures slots[i][j] != c
        {
          if i < |slots| - 1 {
            assert init[i][j] == slots[i][j];
          } else {
            assert slots[i][j] in last;
          }
        }
      }
    }
  }

  /** When no slot holds more than two cards, the battlefield holds at most
      twice as many cards as it has slots. */
  lemma {:induction false} TotalSizeBound(slots: seq<seq<Card>>)
    requires forall i :: 0 <= i < |slots| ==> |slots[i]| <= 2
    ensures TotalSize(slots) <= 2 * |slots|
  {
    if slots != [] {
      TotalSizeBound(slots[..|slots| - 1]);
    }
  }

  /** Index of the first element of `s` equal to `x`: the element that
      `list.remove(x)` takes out. */
  function FirstIndex<T(==)>(s: seq<T>, x: T): (k: nat)
    requires x in s
    ensures k < |s| && s[k] == x
    ensures forall i :: 0 <= i < k ==> s[i] != x
  {
    if s[0] == x then 0 else 1 + FirstIndex(s[1..], x)
  }

  /** `s` without its first element equal to `x`. */
  function RemoveFirst<T(==)>(s: seq<T>, x: T): (r: seq<T>)
    requires x in s
    ensures |r| == |s| - 1
    ensures r[..FirstIndex(s, x)] == s[..FirstIndex(s, x)]
    ensures r[FirstIndex(s, x)..] == s[FirstIndex(s, x) + 1..]
  {
    var k := FirstIndex(s, x);
    s[..k] + s[k + 1..]
  }

  /** `RemoveFirst` takes out exactly one copy of `x` and keeps every other
      element. */
  lemma RemoveFirstMultiset<T>(s: seq<T>, x: T)
    requires x in s
    ensures multiset(RemoveFirst(s, x)) + multiset{x} == multiset(s)
  {
    var k := FirstIndex(s, x);
    assert s == s[..k] + [x] + s[k + 1..];
  }

  /** Taking the defending card out of a full slot and appending it again
      leaves the slot as it was, even when the attacking card is an equal
      value: the attacker stays at index 0, the defender at index 1. */
  lemma ReappendKeepsPair(pair: seq<Card>, c: Card)
    requires |pair| == 2 && pair[1] == c
    ensures RemoveFirst(pair, c) + [c] == pair
  {
  }

  class Battlefield {
    /** The slots, each a sequence of at most two cards. */
    var cards: seq<seq<Card>>
    /** How many mats the area holds. */
    var mats: nat

    /** Object invariant: no slot holds more than two cards. */
    ghost predicate Valid()
      reads this
    {
      forall i :: 0 <= i < |cards| ==> |cards[i]| <= 2
    }

    /** Every card on the battlefield, slot by slot. */
    function AllCards(): seq<Card>
      reads this
    {
      Flatten(cards)
    }

    /** With the slot invariant, the battlefield holds at most two cards per
        slot. */
    lemma CardCountBound()
      requires Valid()
      ensures |AllCards()| <= 2 * |cards|
    {
      FlattenLength(cards);
      TotalSizeBound(cards);
    }

    /** A new battlefield is one empty slot and no mat yet. */
    constructor ()
      ensures Valid()
      ensures cards == [[]] && mats == 0
    {
      cards := [[]];
      mats := 0;
    }

    /** Adds one mat; the slots are not touched. */
    method AddNewSprite()
      modifies this
      ensures cards == old(cards) && mats == old(mats) + 1
    {
      mats := mats + 1;
    }

    /** Removes the first slot equal to the slot at `index` (that slot itself
        when no two slots are equal) and the mat at `index`. */
    method RemoveCardAndMat(index: nat)
      requires Valid()
      requires index < |cards| && index < mats
      modifies this
      ensures Valid()
      ensures FirstIndex(old(cards), old(cards)[index]) <= index
      ensures cards == RemoveFirst(old(cards), old(cards)[index])
      ensures |cards| == |old(cards)| - 1
      ensures (forall i, j :: 0 <= i < j < |old(cards)| ==> old(cards)[i] != old(cards)[j]) ==>
                cards == old(cards)[..index] + old(cards)[index + 1..]
      ensures mats == old(mats) - 1
    {
      ghost var before := cards;
      cards := RemoveFirst(cards, cards[index]);
      mats := mats - 1;
      ghost var k := FirstIndex(before, before[index]);
      assert cards == before[..k] + before[k + 1..];
      forall i | 0 <= i < |cards| ensures |cards[i]| <= 2 {
        if i < k { assert cards[i] == before[i]; } else { assert cards[i] == before[i + 1]; }
      }
    }

    /** Places `card` into the last slot while that slot holds fewer than two
        cards; a full last slot makes the call a no-op. Earlier slots are
        never touched, and the card joins the end of the flattened
        battlefield. */
    method AddNewCard(card: Card)
      requires Valid()
      requires |cards| > 0
      requires |cards[|cards| - 1]| < 2 ==> mats > 0
      modifies this
      ensures Valid()
      ensures mats == old(mats) && |cards| == |old(cards)|
      ensures cards[..|cards| - 1] == old(cards)[..|cards| - 1]
      ensures cards[|cards| - 1] ==
                if |old(cards)[|cards| - 1]| < 2 then old(cards)[|cards| - 1] + [card]
                else old(cards)[|cards| - 1]
      ensures AllCards() == if |old(cards)[|cards| - 1]| < 2 then old(AllCards()) + [card]
                            else old(AllCards())
    {
      var n := |cards|;
      if |cards[n - 1]| < 2 {
        ghost var before := cards;
        var pair := cards[n - 1] + [card];
        if |pair| == 2 {
          ReappendKeepsPair(pair, card);
          pair := RemoveFirst(pair, card);
          pair := pair + [card];
        }
        cards := cards[n - 1 := pair];
        assert cards[..n - 1] == before[..n - 1];
        assert Flatten(cards) == Flatten(before[..n - 1]) + (before[n - 1] + [card]);
      }
    }

    /** The attacking card of the last slot. */
    method GetBottomCard() returns (c: Card)
      requires |cards| > 0 && |cards[|cards| - 1]| > 0
      ensures c == cards[|cards| - 1][0]
      ensures c in AllCards()
    {
      c := cards[|cards| - 1][0];
      FlattenMembership(cards, c);
    }

    /** Collects every card on the battlefield, slot by slot, without
        changing anything. */
    method GetAllCards() returns (lst: seq<Card>)
      ensures lst == AllCards()
    {
      lst := [];
      var i := 0;
      while i < |cards|
        invariant 0 <= i <= |cards|
        invariant lst == Flatten(cards[..i])
      {
        var pair := cards[i];
        var j := 0;
        while j < |pair|
          invariant 0 <= j <= |pair|
          invariant lst == Flatten(cards[..i]) + pair[..j]
        {
          lst := lst + [pair[j]];
          j := j + 1;
        }
        assert cards[..i + 1][..i] == cards[..i];
        i := i + 1;
      }
      assert cards[..i] == cards;
    }

    /** Collects every card on the battlefield and clears it: afterwards it is
        one empty slot on exactly one mat. */
    method GetAndRemoveAllCards() returns (lst: seq<Card>)
      modifies this
      ensures lst == old(AllCards())
      ensures Valid()
      ensures cards == [[]] && mats == 1
    {
      lst := GetAllCards();
      cards := [[]];
      mats := 0;
      AddNewSprite();
    }
  }
}
