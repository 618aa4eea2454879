# Durak card game rules in Dafny

This project models the rule core of a Durak-style card game: the two move
checks of the computer strategy and the bookkeeping of the battlefield, the
shared area in the middle of the table where attacks and defences are laid
down in slots.

- `cards.dfy` (module `Cards`): a card is a suit and an integer value.
- `battlefield.dfy` (module `Battlefield`): class `Battlefield` with the
  slots as a field `cards: seq<seq<Card>>` and the mats as a count
  `mats: nat`. Its methods change these fields in place as the source does.
  `Valid()` is the invariant that no slot holds more than two cards: index 0
  is the attacking card, index 1 the defending card. `AllCards()` is the
  in-order flattening of the slots, defined by the function `Flatten`.
- `strategy.dfy` (module `Strategy`): the defence check and the attack
  ("throw-in") check as functions. The trump suit is a parameter. The
  source reads it from the trump card of the pile of inactive cards, whose
  class is not part of this model. The attack check takes the battlefield
  slots as a value. Being functions, both checks change nothing and give the
  same answer for the same inputs.

Python's `list.remove(x)` deletes the first element equal to `x`. The model
states this with `FirstIndex` and `RemoveFirst`. `ReappendKeepsPair` shows
why the remove-then-append in `add_new_card` leaves a full slot as it was,
even when both cards are equal values.

## Model

| member | source | states |
|---|---|---|
| Strategy.ValidateDefenceMove | game_logic/strategies/computer_strategy.py:26-32 | same suit: valid iff the top value is strictly greater; different suits: valid iff the top card is trump; equivalent to the game rule `Beats` (higher of the same suit, or trump on non-trump) |
| Strategy.TrumpOnTrump | game_logic/strategies/computer_strategy.py:27-29 | a trump defends against a trump only with a strictly higher value |
| Strategy.NeitherTrumpRejected | game_logic/strategies/computer_strategy.py:30-32 | different suits with neither card trump: always rejected |
| Strategy.DefenceIrreflexive | game_logic/strategies/computer_strategy.py:26-32 | no card defends against itself |
| Strategy.DefenceAsymmetric | game_logic/strategies/computer_strategy.py:26-32 | if A defends against B, B does not defend against A |
| Strategy.ValidateAttackMove | game_logic/strategies/computer_strategy.py:34-44 | empty first slot: any card is accepted; otherwise accepted iff some card in some slot has the same value |
| Strategy.ValuesOnBattlefield | game_logic/strategies/computer_strategy.py:39-41 | the set of values of the collected battlefield cards holds v iff some slot holds a card of value v |
| Strategy.ThrowInValue | game_logic/strategies/computer_strategy.py:39-42 | the value set built from the flattened battlefield contains v iff some slot holds a card of value v |
| Strategy.UnmatchedThrowInRejected | game_logic/strategies/computer_strategy.py:38-44 | with the first slot in use, a card whose value no slot holds is rejected |
| Strategy.ThrowInExample | game_logic/strategies/computer_strategy.py:38-44 | on a slot [nine of clubs, jack of clubs] the nine of diamonds is accepted and the ten of diamonds rejected |
| Battlefield.Battlefield.constructor | play_areas/main_card_sprites_playing_area.py:7-12 | a new battlefield is exactly one empty slot and no mat; it satisfies the slot invariant |
| Battlefield.Battlefield.AddNewSprite | play_areas/main_card_sprites_playing_area.py:14-18 | adds one mat and leaves the slots unchanged |
| Battlefield.Battlefield.RemoveCardAndMat | play_areas/main_card_sprites_playing_area.py:20-22 | removes the first slot equal to slot `index` (slot `index` itself when slots are distinct) and one mat; keeps the slot invariant |
| Battlefield.RemoveFirst | play_areas/main_card_sprites_playing_area.py:21 | what `list.remove(x)` leaves: one element shorter, everything before the first x kept, everything after it kept in order |
| Battlefield.RemoveFirstMultiset | play_areas/main_card_sprites_playing_area.py:21 | `list.remove(x)` takes out exactly one copy of x and no other element |
| Battlefield.FirstIndex | play_areas/main_card_sprites_playing_area.py:21 | the element `list.remove` deletes: the first one equal to x, with no equal element before it |
| Battlefield.Battlefield.AddNewCard | play_areas/main_card_sprites_playing_area.py:25-34 | last slot below two cards: it becomes old slot + [card] and the card is appended to the flattened battlefield; a full last slot: no-op; earlier slots and mats unchanged; keeps the slot invariant |
| Battlefield.ReappendKeepsPair | play_areas/main_card_sprites_playing_area.py:31-34 | removing the defending card of a two-card slot and appending it again gives back the same slot, attacker first |
| Battlefield.TotalSizeBound | play_areas/main_card_sprites_playing_area.py:25-30 | when every slot holds at most two cards, the battlefield holds at most twice as many cards as slots |
| Battlefield.Battlefield.CardCountBound | play_areas/main_card_sprites_playing_area.py:25-30 | a battlefield that keeps the slot invariant holds at most twice as many cards as it has slots |
| Battlefield.Battlefield.GetBottomCard | play_areas/main_card_sprites_playing_area.py:44-45 | returns the attacking card (index 0) of the last slot, which is on the battlefield; needs that slot non-empty |
| Battlefield.Battlefield.GetAllCards | play_areas/main_card_sprites_playing_area.py:47-52 | returns the in-order concatenation of all slots and changes nothing |
| Battlefield.FlattenLength | play_areas/main_card_sprites_playing_area.py:47-52 | the collected list has exactly as many cards as the slots hold together |
| Battlefield.FlattenMembership | play_areas/main_card_sprites_playing_area.py:47-52 | a card is in the collected list iff some slot holds it |
| Battlefield.Battlefield.GetAndRemoveAllCards | play_areas/main_card_sprites_playing_area.py:54-64 | returns what `GetAllCards` would have returned; afterwards the battlefield is one empty slot on exactly one mat |

## Left out

- Sprite geometry: card and mat screen positions, the x-position cursor and
  the mat colours and sizes are dropped. Mats are a count.
- `move_card_and_mat` is not part of this model: it only shifts screen
  positions.
- Battlefield.Battlefield.RemoveCardAndMat: the model states only the effect on
  the slots and the mat count. It does not model the position shift it calls
  afterwards. That shift iterates over slots as if they were cards, so it
  would raise an error whenever a slot remains at or after `index`. The
  removal has already happened by then.
- Index errors are preconditions, because the source does not handle them.
  `AddNewCard` needs a last slot, and a mat when that slot is not full.
  `GetBottomCard` needs a non-empty last slot. `ValidateAttackMove` needs a
  first slot.
- The `isinstance(top_card, Card)` test in the attack check always holds in
  the model, because every argument is a `Card`.
- `compute_best_attack_move` and `compute_best_defense_move` are abstract in
  the source and their implementation is not part of this model.
- The game view, window, menus, dealing and shuffling (randomness), the turn
  dispatch driven by frames, and the game-logic façade that only forwards to
  strategy classes outside this model are all left out.
- Card values come from a deck configuration that is not part of this model.
  They are integers compared with `>`.
- The battlefield never opens a second slot. The constructor and
  `GetAndRemoveAllCards` set the slots to one empty slot. `AddNewSprite` adds
  only a mat. `AddNewCard` keeps the number of slots. `RemoveCardAndMat`
  removes one slot. So every battlefield the class produces has at most one
  slot, and once that slot holds a pair every further `AddNewCard` is a
  no-op until the reset. The contracts above state each of these facts. The
  model adds no rule for opening further slots, because the code has none.
- Cards are values and compare by suit and value. The source compares card
  objects by identity. The two agree because a deck holds each suit and
  value once.
- Battlefield.Battlefield.RemoveCardAndMat: `index` is a `nat`. Python also
  accepts a negative index, which names the same slot as its non-negative
  counterpart, so the model covers those calls through that counterpart.
