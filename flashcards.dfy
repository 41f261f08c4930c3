/**
 * The flashcards view: which cards show their answer side, deleting a card
 * from the current project, and the difficulty badge.
 */
module FlashcardsView {
  import opened Domain
  import AppStore
  import Seqs

  /** The flipped set with `id` added when it was absent and removed when it was present. */
  function Toggle(flipped: set<string>, id: string): (r: set<string>)
    ensures id in r <==> id !in flipped
    ensures forall x :: x in r && x != id ==> x in flipped
    ensures forall x :: x in flipped && x != id ==> x in r
  {
    if id in flipped then flipped - {id} else flipped + {id}
  }

  /** Flipping a card twice leaves the flipped set as it was. */
  lemma ToggleInvolution(flipped: set<string>, id: string)
    ensures Toggle(Toggle(flipped, id), id) == flipped
  {
  }

  /** The deck without the card `id`, the others in their order. */
  function RemoveCard(cards: seq<Flashcard>, id: string): (r: seq<Flashcard>)
    ensures forall c :: c in r ==> c in cards && c.id != id
    ensures forall c :: c in cards && c.id != id ==> c in r
  {
    Seqs.Filter(cards, (c: Flashcard) => c.id != id)
  }

  lemma RemoveCardKeepsOrder(cards: seq<Flashcard>, id: string)
    ensures Seqs.IsSubsequence(RemoveCard(cards, id), cards)
  {
    Seqs.FilterIsSubsequence(cards, (c: Flashcard) => c.id != id);
  }

  /** The patch `handleDeleteCard` sends: only the flashcards, with the card dropped. */
  function DeleteCardPatch(p: Project, cardId: string): ProjectPatch {
    EmptyPatch.(flashcards := Some(RemoveCard(p.flashcards, cardId)))
  }

  /** The project a card deletion leaves: the same project, one card fewer, stamped `now`. */
  lemma DeleteCardMerge(p: Project, cardId: string, now: nat)
    ensures Merge(p, DeleteCardPatch(p, cardId), now)
      == p.(flashcards := RemoveCard(p.flashcards, cardId), updatedAt := now)
  {
  }

  /** The source key of a typed difficulty. */
  function DifficultyKey(d: Difficulty): string {
    match d
    case Easy => "easy"
    case Medium => "medium"
    case Hard => "hard"
  }

  function DifficultyLabel(difficulty: string): (r: string)
    ensures difficulty == "easy" ==> r == "Facile"
    ensures difficulty == "medium" ==> r == "Moyen"
    ensures difficulty == "hard" ==> r == "Difficile"
    ensures difficulty != "easy" && difficulty != "medium" && difficulty != "hard" ==> r == difficulty
  {
    if difficulty == "easy" then "Facile"
    else if difficulty == "medium" then "Moyen"
    else if difficulty == "hard" then "Difficile"
    else difficulty
  }

  const EasyClass := "bg-green-100 text-green-800 border-green-200"
  const MediumClass := "bg-yellow-100 text-yellow-800 border-yellow-200"
  const HardClass := "bg-red-100 text-red-800 border-red-200"
  const DefaultClass := "bg-gray-100 text-gray-800 border-gray-200"

  function DifficultyColor(difficulty: string): (r: string)
    ensures difficulty == "easy" ==> r == EasyClass
    ensures difficulty == "medium" ==> r == MediumClass
    ensures difficulty == "hard" ==> r == HardClass
    ensures difficulty != "easy" && difficulty != "medium" && difficulty != "hard" ==> r == DefaultClass
  {
    if difficulty == "easy" then EasyClass
    else if difficulty == "medium" then MediumClass
    else if difficulty == "hard" then HardClass
    else DefaultClass
  }

  /**
   * A card of the data model always gets a translated label and a colour of
   * its own: the fall-back branches serve only untyped input.
   */
  lemma TypedDifficultyIsTranslated(d: Difficulty)
    ensures DifficultyLabel(DifficultyKey(d)) != DifficultyKey(d)
    ensures DifficultyColor(DifficultyKey(d)) != DefaultClass
    ensures forall e: Difficulty :: e != d ==> DifficultyLabel(DifficultyKey(e)) != DifficultyLabel(DifficultyKey(d))
  {
  }

  /** The set of cards that currently show their answer. */
  class FlipState {
    var flippedCards: set<string>

    constructor ()
      ensures flippedCards == {}
    {
      flippedCards := {};
    }

    /** `handleFlipCard`: toggle one card, leave every other card as it is. */
    method FlipCard(id: string)
      modifies this
      ensures flippedCards == Toggle(old(flippedCards), id)
    {
      if id in flippedCards {
        flippedCards := flippedCards - {id};
      } else {
        flippedCards := flippedCards + {id};
      }
    }

    /** "Retourner toutes": every card back on its question side. */
    method ResetAll()
      modifies this
      ensures flippedCards == {}
    {
      flippedCards := {};
    }
  }

  /**
   * `handleDeleteCard`: through `updateProject`, replace the current
   * project's flashcards with the deck that lacks `cardId`. Without a
   * current project nothing happens.
   */
  method DeleteCard(store: AppStore.Store, cardId: string, now: nat)
    modifies store
    ensures old(store.currentProject).None? ==> unchanged(store)
    ensures old(store.currentProject).Some? ==>
      var cp := old(store.currentProject).value;
      && store.projects == AppStore.UpdateById(old(store.projects), cp.id, DeleteCardPatch(cp, cardId), now)
      && store.currentProject == Some(cp.(flashcards := RemoveCard(cp.flashcards, cardId), updatedAt := now))
    ensures store.SameSession() && store.SameChat() && store.SameUi()
    ensures old(store.Consistent()) ==> store.Consistent()
  {
    if store.currentProject.Some? {
      var cp := store.currentProject.value;
      DeleteCardMerge(cp, cardId, now);
      store.UpdateProject(cp.id, DeleteCardPatch(cp, cardId), now);
    }
  }
}
