/** The favourites toggle shared by src/components/EventGrid.tsx and
    src/components/TopViewedSection.tsx: the handler copies the set, then deletes the id
    when present and adds it when absent. */
module Favorites {

  function Toggle(favorites: set<string>, id: string): (r: set<string>)
    ensures id in r <==> id !in favorites
    ensures forall x :: x != id ==> (x in r <==> x in favorites)
    ensures id in favorites ==> |r| == |favorites| - 1
    ensures id !in favorites ==> |r| == |favorites| + 1
  {
    if id in favorites then favorites - {id} else favorites + {id}
  }

  /** Toggling the same id twice restores the set. */
  lemma ToggleTwice(favorites: set<string>, id: string)
    ensures Toggle(Toggle(favorites, id), id) == favorites
  {
  }
}
