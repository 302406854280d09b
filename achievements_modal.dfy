/**
 * The achievements modal: a tab switcher over pinned achievements and the
 * achievement categories, and a grid of the matching achievements.
 */
module AchievementsModal {
  import opened Common

  const PINNED_TAB: string := "pinned"
  const TAB_IDS: seq<string> := ["pinned", "friends", "activity", "crystals", "milestones"]

  const NO_PINNED: string := "No pinned achievements yet"
  const NO_CATEGORY: string := "No achievements in this category"

  datatype Achievement = Achievement(
    id: string,
    title: string,
    subtitle: string,
    completed: bool,
    pinned: bool,
    category: string,
    iconIndex: Option<int>)

  /** What the tab keeps: pinned achievements on the pinned tab, else the tab's category. */
  function Keeps(tab: string): (keep: Achievement -> bool)
    ensures forall a :: keep(a) == (if tab == PINNED_TAB then a.pinned else a.category == tab)
  {
    (a: Achievement) => if tab == PINNED_TAB then a.pinned else a.category == tab
  }

  /** `filtered`: the achievements the tab keeps, in their given order. */
  function Filtered(achievements: seq<Achievement>, tab: string): (r: seq<Achievement>)
    ensures r == Filter(achievements, Keeps(tab))
    ensures forall i :: 0 <= i < |r| ==> r[i] in achievements
    ensures tab == PINNED_TAB ==> forall i :: 0 <= i < |r| ==> r[i].pinned
    ensures tab != PINNED_TAB ==> forall i :: 0 <= i < |r| ==> r[i].category == tab
    ensures forall a :: a in achievements && Keeps(tab)(a) ==> a in r
  {
    Filter(achievements, Keeps(tab))
  }

  /** Filtering keeps the order: the filtered list of a concatenation is the concatenation of the filtered lists. */
  lemma FilteredKeepsOrder(a: seq<Achievement>, b: seq<Achievement>, tab: string)
    ensures Filtered(a + b, tab) == Filtered(a, tab) + Filtered(b, tab)
  {
    FilterConcat(a, b, Keeps(tab));
  }

  /** An achievement card's props. */
  datatype Card = Card(title: string, subtitle: string, iconIndex: int, completed: bool, pinned: bool)

  /** `a.iconIndex ?? i`: the achievement's own icon, else its position in the grid. */
  function CardAt(filtered: seq<Achievement>, i: nat): (c: Card)
    requires i < |filtered|
    ensures filtered[i].iconIndex.Some? ==> c.iconIndex == filtered[i].iconIndex.value
    ensures filtered[i].iconIndex.None? ==> c.iconIndex == i
    ensures c.title == filtered[i].title && c.subtitle == filtered[i].subtitle
    ensures c.completed == filtered[i].completed && c.pinned == filtered[i].pinned
  {
    var a := filtered[i];
    Card(a.title, a.subtitle, if a.iconIndex.Some? then a.iconIndex.value else i, a.completed, a.pinned)
  }

  datatype View = Closed | Grid(cards: seq<Card>) | Empty(message: string)

  /** The modal's selected tab, which survives closing, and the ids passed to `onPin`. */
  class ModalModel {
    var tab: string
    var pins: seq<string>

    constructor ()
      ensures tab == PINNED_TAB && pins == []
    {
      tab := PINNED_TAB;
      pins := [];
    }

    /** The segmented control offers only the five tab ids. */
    method SelectTab(id: string)
      requires id in TAB_IDS
      modifies this
      ensures tab == id && pins == old(pins)
    {
      tab := id;
    }

    /** Pinning card i reports the id of the achievement it shows. */
    method PinClick(achievements: seq<Achievement>, i: nat)
      requires i < |Filtered(achievements, tab)|
      modifies this
      ensures tab == old(tab)
      ensures pins == old(pins) + [Filtered(achievements, old(tab))[i].id]
    {
      var filtered := Filter(achievements, Keeps(tab));
      pins := pins + [filtered[i].id];
    }

    /** Nothing when closed; the tab's cards; or the tab's empty message. */
    function Render(open: bool, achievements: seq<Achievement>): (v: View)
      reads this
      ensures v.Closed? <==> !open
      ensures v.Empty? <==> open && Filtered(achievements, tab) == []
      ensures v.Empty? ==> v.message == (if tab == PINNED_TAB then NO_PINNED else NO_CATEGORY)
      ensures v.Grid? ==> |v.cards| == |Filtered(achievements, tab)|
      ensures v.Grid? ==> forall i :: 0 <= i < |v.cards| ==> v.cards[i] == CardAt(Filtered(achievements, tab), i)
    {
      if !open then Closed
      else
        var filtered := Filtered(achievements, tab);
        if |filtered| > 0 then Grid(seq(|filtered|, i requires 0 <= i < |filtered| => CardAt(filtered, i)))
        else Empty(if tab == PINNED_TAB then NO_PINNED else NO_CATEGORY)
    }
  }
}
