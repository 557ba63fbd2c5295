/**
 * The parts of the host game's inventory API that the trade listener reads
 * and builds: materials, enchantments, item stacks with their item meta, and
 * merchant recipes. Library behaviour is reduced to plain fields.
 */
module Bukkit {
  import opened Wrappers

  /** A material, identified by the name of its enum constant. */
  datatype Material = Material(name: string)

  const ENCHANTED_BOOK := Material("ENCHANTED_BOOK")
  const EMERALD := Material("EMERALD")
  const BOOK := Material("BOOK")

  /** An enchantment kind with the attributes the listener reads. */
  datatype Enchantment = Enchantment(name: string, maxLevel: nat, isTreasure: bool)

  /**
   * The stored-enchantment map of an enchanted book, as an association list
   * in the map's iteration order (insertion order).
   */
  type StoredEnchants = seq<(Enchantment, int)>

  /**
   * What `getItemMeta()` yields: no meta (null), a meta that is not an
   * enchantment-storage meta, or an enchantment-storage meta.
   */
  datatype ItemMeta = NoMeta | PlainMeta | StorageMeta(stored: StoredEnchants)

  datatype ItemStack = ItemStack(kind: Material, amount: int, meta: ItemMeta)

  /** A villager trade: ingredients in, result out, with its usage and economy fields. */
  datatype MerchantRecipe = MerchantRecipe(
    result: ItemStack,
    ingredients: seq<ItemStack>,
    uses: int,
    maxUses: int,
    experienceReward: bool,
    villagerExperience: int,
    priceMultiplier: real)

  /** The stored enchantments of a meta; empty for any meta that stores none. */
  function StoredOf(meta: ItemMeta): StoredEnchants {
    if meta.StorageMeta? then meta.stored else []
  }

  /** The level stored for `e`, as `Map.get` returns it. */
  function Lookup(stored: StoredEnchants, e: Enchantment): Option<int>
    decreases |stored|
  {
    if stored == [] then None
    else if stored[0].0 == e then Some(stored[0].1)
    else Lookup(stored[1..], e)
  }

  /** No enchantment occurs twice: the list really is a map. */
  predicate DistinctKeys(stored: StoredEnchants) {
    forall i, j :: 0 <= i < j < |stored| ==> stored[i].0 != stored[j].0
  }

  /** `removeStoredEnchant`: drops the entry for `e`, keeping the others in order. */
  function RemoveStoredEnchant(stored: StoredEnchants, e: Enchantment): (r: StoredEnchants)
    ensures Lookup(r, e) == None
    ensures forall k :: k != e ==> Lookup(r, k) == Lookup(stored, k)
    ensures forall p :: p in r <==> p in stored && p.0 != e
    ensures DistinctKeys(stored) ==> DistinctKeys(r)
    ensures Lookup(stored, e) == None ==> r == stored
    decreases |stored|
  {
    if stored == [] then []
    else if stored[0].0 == e then RemoveStoredEnchant(stored[1..], e)
    else [stored[0]] + RemoveStoredEnchant(stored[1..], e)
  }

  /** `Map.get` finds nothing exactly when no entry has the key. */
  lemma {:induction false} LookupNoneIffAbsent(stored: StoredEnchants, e: Enchantment)
    ensures Lookup(stored, e) == None <==> forall i :: 0 <= i < |stored| ==> stored[i].0 != e
    decreases |stored|
  {
    if stored != [] {
      LookupNoneIffAbsent(stored[1..], e);
      assert forall i :: 1 <= i < |stored| ==> stored[i] == stored[1..][i - 1];
    }
  }

  /**
   * In a map, removing the entry for `e` at position `k` leaves the entries
   * before and after it in their order.
   */
  lemma {:induction false} RemoveKeepsOrder(stored: StoredEnchants, e: Enchantment, k: nat)
    requires DistinctKeys(stored)
    requires k < |stored| && stored[k].0 == e
    ensures RemoveStoredEnchant(stored, e) == stored[..k] + stored[k + 1..]
    decreases k
  {
    var tail := stored[1..];
    DistinctKeysTail(stored);
    if k == 0 {
      LookupNoneIffAbsent(tail, e);
      assert Lookup(tail, e) == None by {
        assert forall i :: 0 <= i < |tail| ==> tail[i] == stored[i + 1];
      }
    } else {
      assert stored[0].0 != e && tail[k - 1] == stored[k];
      RemoveKeepsOrder(tail, e, k - 1);
      ConsAroundSlot(stored, k);
    }
  }

  lemma DistinctKeysTail(stored: StoredEnchants)
    requires DistinctKeys(stored) && stored != []
    ensures DistinctKeys(stored[1..])
  {
    var tail := stored[1..];
    forall i, j | 0 <= i < j < |tail| ensures tail[i].0 != tail[j].0 {
      assert tail[i] == stored[i + 1] && tail[j] == stored[j + 1];
    }
  }

  /** The list without slot `k` is its head followed by its tail without slot `k - 1`. */
  lemma ConsAroundSlot(stored: StoredEnchants, k: nat)
    requires 0 < k < |stored|
    ensures [stored[0]] + (stored[1..][..k - 1] + stored[1..][k..]) == stored[..k] + stored[k + 1..]
  {
    assert stored[1..][..k - 1] == stored[1..k] && stored[1..][k..] == stored[k + 1..];
    assert [stored[0]] + stored[1..k] == stored[..k];
  }

  /**
   * `addStoredEnchant`: maps `e` to `level`; an existing entry keeps its
   * position, a new one goes last.
   */
  function AddStoredEnchant(stored: StoredEnchants, e: Enchantment, level: int): (r: StoredEnchants)
    ensures Lookup(r, e) == Some(level)
    ensures forall k :: k != e ==> Lookup(r, k) == Lookup(stored, k)
    ensures forall p :: p in r ==> p in stored || p == (e, level)
    ensures Lookup(stored, e) == None ==> r == stored + [(e, level)]
    decreases |stored|
  {
    if stored == [] then [(e, level)]
    else if stored[0].0 == e then [(e, level)] + stored[1..]
    else [stored[0]] + AddStoredEnchant(stored[1..], e, level)
  }

  /** Adding an entry keeps the list a map. */
  lemma {:induction false} AddKeepsDistinctKeys(stored: StoredEnchants, e: Enchantment, level: int)
    requires DistinctKeys(stored)
    ensures DistinctKeys(AddStoredEnchant(stored, e, level))
    decreases |stored|
  {
    if stored != [] && stored[0].0 != e {
      var rest := AddStoredEnchant(stored[1..], e, level);
      AddKeepsDistinctKeys(stored[1..], e, level);
      forall i | 0 <= i < |rest| ensures rest[i].0 != stored[0].0 {
        if rest[i] != (e, level) {
          assert rest[i] in stored[1..];
          var j :| 0 <= j < |stored[1..]| && stored[1..][j] == rest[i];
          assert stored[j + 1] == rest[i];
        }
      }
      assert AddStoredEnchant(stored, e, level) == [stored[0]] + rest;
    }
  }
}
