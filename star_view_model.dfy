/**
 * One star on the canvas: the loaded star, its name, and the player that owns
 * it, if any. The owner decides whether the star is selected and the colour
 * of its marker.
 */
module StarViewModels {
  import opened Wrappers

  /** A loaded "system" line: its three coordinates and the line itself. */
  datatype StarData = StarData(x: real, y: real, z: real, originalLine: string)

  /** The marker colours, named after the WPF brushes. */
  datatype Brush = Transparent | Red | Cyan | LimeGreen | Orange | Magenta | Yellow | White | Purple | Gray

  /** The number of players that have a colour of their own. */
  const PlayerColors: int := 8

  /** OwnerColorBrush for an owner index: none is transparent, players 0..7 have their colours, any other index is gray. */
  function OwnerColor(owner: Option<int>): (b: Brush)
    ensures owner.None? <==> b == Transparent
    ensures owner.Some? ==> (b == Gray <==> owner.value < 0 || PlayerColors <= owner.value)
  {
    match owner
    case None => Transparent
    case Some(i) =>
      if i == 0 then Red
      else if i == 1 then Cyan
      else if i == 2 then LimeGreen
      else if i == 3 then Orange
      else if i == 4 then Magenta
      else if i == 5 then Yellow
      else if i == 6 then White
      else if i == 7 then Purple
      else Gray
  }

  /** The player a marker colour stands for: the inverse of OwnerColor on players 0..7. */
  function PlayerOf(b: Brush): Option<int> {
    match b
    case Red => Some(0)
    case Cyan => Some(1)
    case LimeGreen => Some(2)
    case Orange => Some(3)
    case Magenta => Some(4)
    case Yellow => Some(5)
    case White => Some(6)
    case Purple => Some(7)
    case _ => None
  }

  /** Every player 0..7 has a colour that names that player back, so the eight colours are pairwise distinct. */
  lemma PlayerColorsDistinct(i: int, j: int)
    requires 0 <= i < PlayerColors && 0 <= j < PlayerColors
    ensures PlayerOf(OwnerColor(Some(i))) == Some(i)
    ensures i != j ==> OwnerColor(Some(i)) != OwnerColor(Some(j))
  {
  }

  class StarViewModel {
    const model: StarData
    /** The star's name, which the source draws lazily from its list of names. */
    const name: string
    var ownerIndex: Option<int>

    constructor (model: StarData, name: string)
      ensures this.model == model && this.name == name && ownerIndex == None
    {
      this.model := model;
      this.name := name;
      ownerIndex := None;
    }

    /** A star is selected exactly when some player owns it. */
    predicate IsSelected()
      reads this`ownerIndex
    {
      ownerIndex.Some?
    }

    function OwnerColorBrush(): Brush
      reads this`ownerIndex
    {
      OwnerColor(ownerIndex)
    }

    /** The OwnerIndex setter: the value is stored, and selection and colour follow it. */
    method SetOwnerIndex(value: Option<int>)
      modifies this`ownerIndex
      ensures ownerIndex == value
      ensures IsSelected() <==> value.Some?
      ensures OwnerColorBrush() == OwnerColor(value)
    {
      ownerIndex := value;
    }
  }
}
