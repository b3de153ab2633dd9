/**
 * The in-game shop (js/shop.js): an overlay listing five items in bands
 * 60 px high; hovering a band selects its item and a click buys it when
 * the player has the coins and the item's action succeeds.
 */
module Shops {
  import opened Utils
  import opened Controls
  import opened Players

  /** The item identifiers; each names the action its purchase runs. */
  datatype ItemId = HealthBoost | DamageBoost | SpeedBoost | LevelKey | WeaponUpgrade

  datatype Item = Item(id: ItemId, name: string, cost: int)

  /** The shop's fixed catalogue, in display order. */
  const Catalog: seq<Item> := [
    Item(HealthBoost, "Health Boost", 30),
    Item(DamageBoost, "Damage Boost", 40),
    Item(SpeedBoost, "Speed Boost", 35),
    Item(LevelKey, "Level Key", 50),
    Item(WeaponUpgrade, "Weapon Upgrade", 75)]

  /** The highest weapon level the shop sells up to (the player's own upgrade stops at 3). */
  const ShopMaxWeaponLevel: int := 5

  /** The top of the first band, the band height and the band's horizontal extent. */
  const ShopAreaY: real := 150.0
  const ItemHeight: real := 60.0
  const BandLeft: real := 250.0
  const BandRight: real := 550.0

  /** The mouse is over the band of item i; both ends are inclusive, so neighbouring bands share an edge. */
  predicate OverItem(i: int, mx: real, my: real) {
    var top := ShopAreaY + i as real * ItemHeight;
    top <= my && my <= top + ItemHeight && BandLeft <= mx && mx <= BandRight
  }

  /**
   * Two different bands are hovered together only on the edge they share:
   * the mouse exactly on the bottom of one band and the top of the next.
   * There the earlier item wins, because the scan stops at the first hit.
   */
  lemma BandsMeetOnlyAtEdges(i: int, j: int, mx: real, my: real)
    requires i < j && OverItem(i, mx, my) && OverItem(j, mx, my)
    ensures j == i + 1 && my == ShopAreaY + j as real * ItemHeight
  {
    assert (j - i) as real * ItemHeight <= ItemHeight;
  }

  /** Whether the action of an item succeeds: only the weapon upgrade can fail, at level 5. */
  predicate ActionSucceeds(id: ItemId, weaponLevel: int) {
    id != WeaponUpgrade || weaponLevel < ShopMaxWeaponLevel
  }

  /** `x || fallback` for a mouse coordinate: a reading of 0 falls back to the input's own position. */
  function Coordinate(given: real, fallback: real): (r: real)
    ensures given != 0.0 ==> r == given
    ensures given == 0.0 ==> r == fallback
  {
    if given != 0.0 then given else fallback
  }

  class ShopSystem {
    const player: Player
    var isOpen: bool
    var selectedItem: Option<int>
    const items: seq<Item>

    constructor (player: Player)
      ensures this.player == player && !isOpen && selectedItem == None && items == Catalog
    {
      this.player := player;
      isOpen := false;
      selectedItem := None;
      items := Catalog;
    }

    method Open()
      modifies this`isOpen
      ensures isOpen
    {
      isOpen := true;
    }

    /** `close`: the shop is closed and nothing is selected. */
    method Close()
      modifies this`isOpen, this`selectedItem
      ensures !isOpen && selectedItem == None
    {
      isOpen := false;
      selectedItem := None;
    }

    /**
     * `purchaseItem`: an index outside the list changes nothing; an item
     * the player cannot afford changes nothing; otherwise the item's action
     * runs, and the cost is taken exactly when the action reports success.
     * A failed action (the weapon upgrade at level 5) changes nothing.
     */
    method PurchaseItem(index: int) returns (bought: bool)
      modifies player`coins, player`maxHealth, player`health, player`damageMultiplier, player`keys, player`weaponLevel
      ensures bought <==> 0 <= index < |items| && old(player.coins) >= items[index].cost &&
                          ActionSucceeds(items[index].id, old(player.weaponLevel))
      ensures player.coins == old(player.coins) - (if bought then items[index].cost else 0)
      ensures player.maxHealth == old(player.maxHealth) + (if bought && items[index].id == HealthBoost then 20 else 0)
      ensures player.health == old(player.health) + (if bought && items[index].id == HealthBoost then 20 else 0)
      ensures player.damageMultiplier == old(player.damageMultiplier) + (if bought && items[index].id == DamageBoost then 0.15 else 0.0)
      ensures player.keys == old(player.keys) + (if bought && items[index].id == LevelKey then 1 else 0)
      ensures player.weaponLevel == old(player.weaponLevel) + (if bought && items[index].id == WeaponUpgrade then 1 else 0)
    {
      if index < 0 || index >= |items| {
        return false;
      }
      var item := items[index];
      if player.coins >= item.cost {
        var ok := RunAction(item.id);
        if ok {
          player.coins := player.coins - item.cost;
          return true;
        }
      }
      return false;
    }

    /**
     * The `action` of an item: `purchaseHealthBoost` (+20 maximum health
     * and health), `purchaseDamageBoost` (+0.15 damage multiplier),
     * `purchaseSpeedBoost` (changes nothing this model tracks),
     * `purchaseKey` (+1 key) or `purchaseWeaponUpgrade` (+1 weapon level
     * below 5, otherwise failure).
     */
    method RunAction(id: ItemId) returns (ok: bool)
      modifies player`maxHealth, player`health, player`damageMultiplier, player`keys, player`weaponLevel
      ensures ok <==> ActionSucceeds(id, old(player.weaponLevel))
      ensures player.maxHealth == old(player.maxHealth) + (if id == HealthBoost then 20 else 0)
      ensures player.health == old(player.health) + (if id == HealthBoost then 20 else 0)
      ensures player.damageMultiplier == old(player.damageMultiplier) + (if id == DamageBoost then 0.15 else 0.0)
      ensures player.keys == old(player.keys) + (if id == LevelKey then 1 else 0)
      ensures player.weaponLevel == old(player.weaponLevel) + (if ok && id == WeaponUpgrade then 1 else 0)
    {
      match id
      case HealthBoost =>
        player.maxHealth := player.maxHealth + 20;
        player.health := player.health + 20;
        ok := true;
      case DamageBoost =>
        player.damageMultiplier := player.damageMultiplier + 0.15;
        ok := true;
      case SpeedBoost =>
        ok := true;
      case LevelKey =>
        player.keys := player.keys + 1;
        ok := true;
      case WeaponUpgrade =>
        if player.weaponLevel < ShopMaxWeaponLevel {
          player.weaponLevel := player.weaponLevel + 1;
          ok := true;
        } else {
          ok := false;
        }
    }

    /**
     * `update`: a closed shop does nothing; Escape closes it. Otherwise the
     * selection becomes the first item whose band the mouse is over (none
     * if there is no such item), and a click or held button on it buys it.
     * The result is whether something was bought.
     */
    method Update(input: Input, mouseX: real, mouseY: real) returns (bought: bool)
      requires items == Catalog
      modifies this`isOpen, this`selectedItem
      modifies player`coins, player`maxHealth, player`health, player`damageMultiplier, player`keys, player`weaponLevel
      ensures !old(isOpen) ==> !bought && isOpen == old(isOpen) && selectedItem == old(selectedItem) && unchanged(player)
      ensures old(isOpen) && input.escapePressed ==> !bought && !isOpen && selectedItem == None && unchanged(player)
      ensures old(isOpen) && !input.escapePressed ==>
                var mx, my := Coordinate(mouseX, input.mouseX), Coordinate(mouseY, input.mouseY);
                isOpen &&
                (selectedItem.None? <==> forall j :: 0 <= j < |items| ==> !OverItem(j, mx, my)) &&
                (selectedItem.Some? ==>
                   var k := selectedItem.value;
                   0 <= k < |items| && OverItem(k, mx, my) && (forall j :: 0 <= j < k ==> !OverItem(j, mx, my)) &&
                   (bought <==> (input.mouseClicked || input.mouseDown) && old(player.coins) >= items[k].cost &&
                                ActionSucceeds(items[k].id, old(player.weaponLevel))) &&
                   player.coins == old(player.coins) - (if bought then items[k].cost else 0) &&
                   player.maxHealth == old(player.maxHealth) + (if bought && items[k].id == HealthBoost then 20 else 0) &&
                   player.health == old(player.health) + (if bought && items[k].id == HealthBoost then 20 else 0) &&
                   player.damageMultiplier == old(player.damageMultiplier) + (if bought && items[k].id == DamageBoost then 0.15 else 0.0) &&
                   player.keys == old(player.keys) + (if bought && items[k].id == LevelKey then 1 else 0) &&
                   player.weaponLevel == old(player.weaponLevel) + (if bought && items[k].id == WeaponUpgrade then 1 else 0)) &&
                (selectedItem.None? ==> !bought && unchanged(player))
    {
      if !isOpen {
        return false;
      }
      if input.escapePressed {
        Close();
        return false;
      }
      var mx := Coordinate(mouseX, input.mouseX);
      var my := Coordinate(mouseY, input.mouseY);
      selectedItem := None;
      var i := 0;
      while i < |items|
        invariant 0 <= i <= |items| && selectedItem == None
        invariant forall j :: 0 <= j < i ==> !OverItem(j, mx, my)
      {
        if OverItem(i, mx, my) {
          selectedItem := Some(i);
          if input.mouseClicked || input.mouseDown {
            bought := PurchaseItem(i);
            return;
          }
          return false;
        }
        i := i + 1;
      }
      return false;
    }
  }
}
