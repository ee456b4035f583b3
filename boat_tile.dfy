/** A boat tile: its CSS class follows the selection, and a click selects the tile's boat. */
module Tile {
  import opened Common

  const TILE_WRAPPER_SELECTED_CLASS := "tile-wrapper selected"
  const TILE_WRAPPER_UNSELECTED_CLASS := "tile-wrapper"

  /** A dispatched 'boatselect' CustomEvent, by its detail. */
  datatype BoatSelectEvent = BoatSelectEvent(boatId: string)

  /** The BoatTile component. */
  class BoatTile {
    var boat: Boat
    var selectedBoatId: Option<string>
    /** 'boatselect' events dispatched so far. */
    ghost var boatSelectEvents: seq<BoatSelectEvent>

    /** Every 'boatselect' event names this tile's boat. */
    ghost predicate Valid()
      reads this
    {
      forall e :: e in boatSelectEvents ==> e.boatId == boat.Id
    }

    /** `boat` and `selectedBoatId` are the public properties the parent sets. */
    constructor (boat: Boat, selectedBoatId: Option<string>)
      ensures Valid()
      ensures this.boat == boat && this.selectedBoatId == selectedBoatId && boatSelectEvents == []
    {
      this.boat := boat;
      this.selectedBoatId := selectedBoatId;
      boatSelectEvents := [];
    }

    /** The tile is drawn selected exactly when its boat is the selected one. */
    function TileClass(): (r: string)
      reads this
      ensures r == TILE_WRAPPER_SELECTED_CLASS <==> selectedBoatId == Some(boat.Id)
      ensures r == TILE_WRAPPER_UNSELECTED_CLASS <==> selectedBoatId != Some(boat.Id)
    {
      if selectedBoatId == Some(boat.Id) then TILE_WRAPPER_SELECTED_CLASS else TILE_WRAPPER_UNSELECTED_CLASS
    }

    /** Selects the tile's own boat and dispatches one 'boatselect' event for it; `boat` is left alone. */
    method SelectBoat()
      requires Valid()
      modifies this`selectedBoatId, this`boatSelectEvents
      ensures Valid()
      ensures selectedBoatId == Some(boat.Id)
      ensures TileClass() == TILE_WRAPPER_SELECTED_CLASS
      ensures boatSelectEvents == old(boatSelectEvents) + [BoatSelectEvent(boat.Id)]
    {
      selectedBoatId := Some(boat.Id);
      boatSelectEvents := boatSelectEvents + [BoatSelectEvent(selectedBoatId.value)];
    }
  }

  /** Selecting twice leaves the same state as selecting once; the boat is never changed. */
  method SelectBoatTwice(boat: Boat, selectedBoatId: Option<string>) returns (chosen: Option<string>, shown: Boat, tileClass: string)
    ensures chosen == Some(boat.Id) && shown == boat && tileClass == TILE_WRAPPER_SELECTED_CLASS
  {
    var t := new BoatTile(boat, selectedBoatId);
    t.SelectBoat();
    var once := t.selectedBoatId;
    t.SelectBoat();
    assert t.selectedBoatId == once;
    chosen, shown, tileClass := t.selectedBoatId, t.boat, t.TileClass();
  }
}
