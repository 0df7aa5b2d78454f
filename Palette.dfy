/**
 * The swatch bookkeeping of src/App.js: an id-keyed map of swatches, the
 * `nextId` counter, the "Add Swatch" and click handlers, and the colour a
 * swatch displays.
 *
 * Colours are hex strings. Where the source draws a random colour the model
 * takes that colour as a parameter.
 */
module Palette {
  import opened Wrappers

  type SwatchId = nat
  type Color = string

  /** One entry of the swatch map: its own colour and its parent, if any. */
  datatype Entry = Entry(color: Color, parentId: Option<SwatchId>)

  /** The id of the initial swatch, which every added swatch is parented to. */
  const RootId: SwatchId := 0

  /** The colour `lastColor` starts with, and the colour of an added swatch. */
  const InitialLastColor: Color := "#000000"
  const NewSwatchColor: Color := "#00ff00"

  /** The map's keys are exactly 0 .. nextId - 1. */
  predicate KeysBelow(swatches: map<SwatchId, Entry>, nextId: nat)
  {
    && (forall id :: id in swatches ==> id < nextId)
    && (forall id: SwatchId | id < nextId :: id in swatches)
  }

  /**
   * The invariant App.js keeps: keys are exactly 0 .. nextId - 1, the root is
   * present and has no parent, and every other swatch is parented to the root.
   */
  predicate WellFormed(swatches: map<SwatchId, Entry>, nextId: nat)
  {
    && KeysBelow(swatches, nextId)
    && RootId in swatches
    && swatches[RootId].parentId == None
    && forall id :: id in swatches && id != RootId ==> swatches[id].parentId == Some(RootId)
  }

  /** In a well-formed map every parent reference resolves, and `nextId` is unused. */
  lemma WellFormedParentsResolve(swatches: map<SwatchId, Entry>, nextId: nat)
    requires WellFormed(swatches, nextId)
    ensures forall id :: id in swatches && swatches[id].parentId.Some? ==> swatches[id].parentId.value in swatches
    ensures nextId !in swatches && nextId >= 1
  {
  }

  /**
   * `computeColor`: the parent's colour when the parent entry exists and its
   * colour is non-empty (truthy), otherwise the swatch's own colour. Only one
   * level of parentage is looked at.
   */
  function ComputeColor(swatches: map<SwatchId, Entry>, id: SwatchId): (c: Color)
    requires id in swatches
    ensures exists p :: p in swatches && c == swatches[p].color
  {
    var swatch := swatches[id];
    if swatch.parentId.Some? && swatch.parentId.value in swatches && swatches[swatch.parentId.value].color != ""
    then swatches[swatch.parentId.value].color
    else swatch.color
  }

  /**
   * The displayed colour depends on the swatch's own entry and its parent's
   * entry only: maps that agree on those two display the same colour.
   */
  lemma ComputeColorOneLevel(a: map<SwatchId, Entry>, b: map<SwatchId, Entry>, id: SwatchId)
    requires id in a && id in b && a[id] == b[id]
    requires var p := a[id].parentId;
      p.Some? ==> (p.value in a <==> p.value in b) && (p.value in a ==> a[p.value] == b[p.value])
    ensures ComputeColor(a, id) == ComputeColor(b, id)
  {
  }

  /**
   * In a well-formed map the root shows its own colour and every other swatch
   * shows the root's colour, unless that colour is empty.
   */
  lemma DisplayedColors(swatches: map<SwatchId, Entry>, nextId: nat, id: SwatchId)
    requires WellFormed(swatches, nextId) && id in swatches
    ensures id == RootId ==> ComputeColor(swatches, id) == swatches[RootId].color
    ensures id != RootId && swatches[RootId].color != "" ==> ComputeColor(swatches, id) == swatches[RootId].color
    ensures id != RootId && swatches[RootId].color == "" ==> ComputeColor(swatches, id) == swatches[id].color
  {
  }

  /** The map after "Add Swatch": a new entry at key `nextId`, parented to the root. */
  function AddSwatchMap(swatches: map<SwatchId, Entry>, nextId: nat): map<SwatchId, Entry>
  {
    swatches[nextId := Entry(NewSwatchColor, Some(RootId))]
  }

  /**
   * "Add Swatch" keeps the map well formed with `nextId` one higher, leaves
   * every existing entry unchanged, and adds one entry.
   */
  lemma AddSwatchPreserves(swatches: map<SwatchId, Entry>, nextId: nat)
    requires WellFormed(swatches, nextId)
    ensures var m := AddSwatchMap(swatches, nextId);
      WellFormed(m, nextId + 1) &&
      (forall id :: id in swatches ==> id in m && m[id] == swatches[id]) &&
      m.Keys == swatches.Keys + {nextId} && nextId !in swatches
  {
  }

  /** The map after a click on `id` gives that swatch the colour `newColor`. */
  function RecolorMap(swatches: map<SwatchId, Entry>, id: SwatchId, newColor: Color): map<SwatchId, Entry>
    requires id in swatches
  {
    swatches[id := swatches[id].(color := newColor)]
  }

  /**
   * A click keeps the map well formed with the same keys, changes only the
   * clicked swatch's colour, and keeps its parent.
   */
  lemma RecolorPreserves(swatches: map<SwatchId, Entry>, nextId: nat, id: SwatchId, newColor: Color)
    requires WellFormed(swatches, nextId) && id in swatches
    ensures var m := RecolorMap(swatches, id, newColor);
      WellFormed(m, nextId) && m.Keys == swatches.Keys &&
      m[id].color == newColor && m[id].parentId == swatches[id].parentId &&
      forall k :: k in swatches && k != id ==> m[k] == swatches[k]
  {
  }

  /**
   * While the root's colour is non-empty, a new swatch displays the root's
   * colour, not its own hard-coded one; and a click on the root with a
   * non-empty colour recolours every swatch's display.
   */
  lemma RootColorShownEverywhere(swatches: map<SwatchId, Entry>, nextId: nat, newColor: Color)
    requires WellFormed(swatches, nextId) && newColor != ""
    ensures var m := RecolorMap(swatches, RootId, newColor);
      forall id :: id in m ==> ComputeColor(m, id) == newColor
    ensures swatches[RootId].color != "" ==>
      ComputeColor(AddSwatchMap(swatches, nextId), nextId) == swatches[RootId].color
  {
    RecolorPreserves(swatches, nextId, RootId, newColor);
    var m := RecolorMap(swatches, RootId, newColor);
    forall id | id in m ensures ComputeColor(m, id) == newColor {
      DisplayedColors(m, nextId, id);
    }
    AddSwatchPreserves(swatches, nextId);
    DisplayedColors(AddSwatchMap(swatches, nextId), nextId + 1, nextId);
  }

  /** The state of the `App` component together with the module-level `nextId`. */
  class App {
    var swatches: map<SwatchId, Entry>
    var lastColor: Color
    var nextId: nat

    predicate Valid()
      reads this
    {
      WellFormed(swatches, nextId)
    }

    /**
     * `initialSwatches` holds the root under key 0 with a random colour and no
     * parent; `nextId` starts at the number of keys, and `lastColor` at black.
     */
    constructor(initialColor: Color)
      ensures Valid()
      ensures swatches == map[RootId := Entry(initialColor, None)]
      ensures nextId == 1 && lastColor == InitialLastColor
    {
      var initialSwatches := map[RootId := Entry(initialColor, None)];
      swatches := initialSwatches;
      nextId := |initialSwatches.Keys|;
      lastColor := InitialLastColor;
    }

    /** The "Add Swatch" button: insert at `nextId++` a green swatch parented to the root. */
    method AddSwatch()
      requires Valid()
      modifies this
      ensures Valid()
      ensures old(nextId) !in old(swatches)
      ensures swatches == AddSwatchMap(old(swatches), old(nextId))
      ensures nextId == old(nextId) + 1 && lastColor == old(lastColor)
    {
      AddSwatchPreserves(swatches, nextId);
      var newSwatch := Entry(NewSwatchColor, Some(RootId));
      swatches := swatches[nextId := newSwatch];
      nextId := nextId + 1;
    }

    /**
     * `handleSwatchClick`: give the clicked swatch the freshly drawn colour
     * `newColor` and remember it as `lastColor`.
     */
    method HandleSwatchClick(id: SwatchId, newColor: Color)
      requires Valid() && id in swatches
      modifies this
      ensures Valid()
      ensures swatches == RecolorMap(old(swatches), id, newColor)
      ensures lastColor == newColor && nextId == old(nextId)
    {
      RecolorPreserves(swatches, nextId, id, newColor);
      lastColor := newColor;
      swatches := swatches[id := swatches[id].(color := newColor)];
    }
  }
}
