/** The rule checks of the computer strategy: whether a card may defend
    against another, and whether a card may be played as an attack. Both
    are functions of the cards, the battlefield slots and the trump suit, so
    they change nothing and give the same answer every time they are asked. */
module Strategy {
  import opened Cards
  import opened Battlefield

  /** The defence rule as the game states it: a higher card of the same
      suit, or a trump played on a card that is not trump. */
  predicate Beats(bottom: Card, top: Card, trump: Suit)
  {
    (top.suit == bottom.suit && top.value > bottom.value) ||
    (top.suit == trump && bottom.suit != trump)
  }

  /** May `top` be placed on the attacking card `bottom`? */
  function ValidateDefenceMove(bottom: Card, top: Card, trump: Suit): (ok: bool)
    ensures bottom.suit == top.suit ==> (ok <==> top.value > bottom.value)
    ensures bottom.suit != top.suit ==> (ok <==> top.suit == trump)
    ensures ok <==> Beats(bottom, top, trump)
  {
    if bottom.suit == top.suit then
      top.value > bottom.value
    else if top.suit == trump && bottom.suit != trump then
      true
    else
      false
  }

  /** Two trumps: only the higher one defends. */
  lemma TrumpOnTrump(bottom: Card, top: Card, trump: Suit)
    requires bottom.suit == trump && top.suit == trump
    ensures ValidateDefenceMove(bottom, top, trump) <==> top.value > bottom.value
  {
  }

  /** Different suits, neither of them trump: the defence is rejected. */
  lemma NeitherTrumpRejected(bottom: Card, top: Card, trump: Suit)
    requires bottom.suit != top.suit && bottom.suit != trump && top.suit != trump
    ensures !ValidateDefenceMove(bottom, top, trump)
  {
  }

  /** No card defends against itself. */
  lemma DefenceIrreflexive(c: Card, trump: Suit)
    ensures !ValidateDefenceMove(c, c, trump)
  {
  }

  /** If `a` defends against `b`, then `b` does not defend against `a`. */
  lemma DefenceAsymmetric(a: Card, b: Card, trump: Suit)
    requires ValidateDefenceMove(b, a, trump)
    ensures !ValidateDefenceMove(a, b, trump)
  {
  }

  /** The values of all cards on the battlefield: exactly the values some
      slot holds a card of. */
  function ValuesOnBattlefield(slots: seq<seq<Card>>): (vs: set<int>)
    ensures forall v :: v in vs <==> ValueInSomeSlot(slots, v)
  {
    var vs := set c | c in Flatten(slots) :: c.value;
    assert forall v :: v in vs <==> ValueInSomeSlot(slots, v) by {
      forall v ensures v in vs <==> ValueInSomeSlot(slots, v) {
        ThrowInValue(slots, v);
      }
    }
    vs
  }

  /** Some slot holds a card of value `v`. */
  ghost predicate ValueInSomeSlot(slots: seq<seq<Card>>, v: int)
  {
    exists i, j :: 0 <= i < |slots| && 0 <= j < |slots[i]| && slots[i][j].value == v
  }

  /** May `card` be played as an attack? Any card opens an empty first
      slot; otherwise its value must already be on the battlefield. */
  function ValidateAttackMove(slots: seq<seq<Card>>, card: Card): (ok: bool)
    requires |slots| > 0
    ensures |slots[0]| == 0 ==> ok
    ensures |slots[0]| > 0 ==> (ok <==> ValueInSomeSlot(slots, card.value))
  {
    if |slots[0]| == 0 then
      true
    else
      card.value in ValuesOnBattlefield(slots)
  }

  /** A value is among the battlefield values exactly when some slot holds a
      card of that value. */
  lemma ThrowInValue(slots: seq<seq<Card>>, v: int)
    ensures (v in set c | c in Flatten(slots) :: c.value) <==> ValueInSomeSlot(slots, v)
  {
    if v in set c | c in Flatten(slots) :: c.value {
      var c :| c in Flatten(slots) && c.value == v;
      FlattenMembership(slots, c);
    } else if ValueInSomeSlot(slots, v) {
      var i, j :| 0 <= i < |slots| && 0 <= j < |slots[i]| && slots[i][j].value == v;
      FlattenMembership(slots, slots[i][j]);
      assert false;
    }
  }

  /** A throw-in of a value that no slot holds is rejected once the first
      slot is in use. */
  lemma UnmatchedThrowInRejected(slots: seq<seq<Card>>, card: Card)
    requires |slots| > 0 && |slots[0]| > 0
    requires forall i, j :: 0 <= i < |slots| && 0 <= j < |slots[i]| ==> slots[i][j].value != card.value
    ensures !ValidateAttackMove(slots, card)
  {
  }

  /** A resolved slot holding the nine and the jack (value 11) of clubs: the
      nine of diamonds may be thrown in, the ten of diamonds may not. */
  lemma ThrowInExample()
    ensures ValidateAttackMove([[Card(Clubs, 9), Card(Clubs, 11)]], Card(Diamonds, 9))
    ensures !ValidateAttackMove([[Card(Clubs, 9), Card(Clubs, 11)]], Card(Diamonds, 10))
  {
  }
}
