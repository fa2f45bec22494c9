/** `app/journey/progress/page.tsx`: the background picker of the progress page. */
module ProgressPage {

  datatype Background = Background(name: string, unlocked: bool)

  const Backgrounds: seq<Background> := [
    Background("Night City", true), Background("Bamboo Forest", true),
    Background("Shanghai Skyline", false), Background("Night Village", true),
    Background("Great Wall", false), Background("Forbidden City", false),
    Background("Li River", false), Background("Temple of Heaven", false),
    Background("Dragon's Gate", false), Background("Celestial Palace", false)
  ]

  const Placeholder := "url('/placeholder.svg?height=100&width=200')"

  /** The tile's image: three backgrounds have their own picture, the rest a placeholder. */
  function TileImage(index: nat): (url: string)
    ensures index == 0 ==> url == "url('/images/journey-bg.png')"
    ensures index == 1 ==> url == "url('/images/acquire-bg.webp')"
    ensures index == 3 ==> url == "url('/images/night-village-bg.png')"
    ensures index !in {0, 1, 3} ==> url == Placeholder
  {
    if index == 0 then "url('/images/journey-bg.png')"
    else if index == 1 then "url('/images/acquire-bg.webp')"
    else if index == 3 then "url('/images/night-village-bg.png')"
    else Placeholder
  }

  /** The unlocked backgrounds are exactly those with their own picture. */
  lemma UnlockedHavePictures(index: nat)
    requires index < |Backgrounds|
    ensures Backgrounds[index].unlocked <==> TileImage(index) != Placeholder
  {
  }

  /** A tile: its image, whether it is highlighted as the selection, and whether the
      "Locked" overlay covers it. */
  datatype Tile = Tile(image: string, selected: bool, locked: bool)

  /** The page's state. */
  class Progress {
    var isLoading: bool
    var selectedBackground: nat

    /** The selection always names an unlocked background. */
    ghost predicate Valid()
      reads this
    {
      selectedBackground < |Backgrounds| && Backgrounds[selectedBackground].unlocked
    }

    constructor ()
      ensures Valid()
      ensures isLoading && selectedBackground == 1
    {
      isLoading := true;
      selectedBackground := 1;
    }

    /** A click on tile `index`: `bg.unlocked && setSelectedBackground(index)`. */
    method Click(index: nat)
      requires Valid()
      requires index < |Backgrounds|
      modifies this
      ensures Valid()
      ensures Backgrounds[index].unlocked ==> selectedBackground == index
      ensures !Backgrounds[index].unlocked ==> selectedBackground == old(selectedBackground)
      ensures isLoading == old(isLoading)
    {
      if Backgrounds[index].unlocked {
        selectedBackground := index;
      }
    }

    /** The 800 ms loading timer. */
    method LoadingDone()
      requires Valid()
      modifies this
      ensures Valid()
      ensures !isLoading && selectedBackground == old(selectedBackground)
    {
      isLoading := false;
    }

    /** Tile `index` as rendered: only an unlocked tile is highlighted, and every locked
        tile carries the overlay. */
    function TileAt(index: nat): (t: Tile)
      requires index < |Backgrounds|
      reads this
      ensures t.image == TileImage(index)
      ensures t.locked <==> !Backgrounds[index].unlocked
      ensures t.selected <==> Backgrounds[index].unlocked && index == selectedBackground
    {
      var bg := Backgrounds[index];
      Tile(TileImage(index), bg.unlocked && index == selectedBackground, !bg.unlocked)
    }

    /** In a valid state exactly one tile is highlighted: the selected one. */
    lemma OneHighlightedTile(index: nat)
      requires Valid()
      requires index < |Backgrounds|
      ensures TileAt(index).selected <==> index == selectedBackground
    {
    }
  }
}
