/**
 * The trade listener: when a villager acquires a trade whose result is an
 * enchanted book, the trade is replaced by one selling the same enchantment
 * at its maximum level, for a freshly drawn emerald price plus one book.
 */
module UpgradeLibrarianTradeListener {
  import opened Wrappers
  import opened Decimal
  import opened Text
  import opened Bukkit

  /** The highest emerald price the listener ever asks. */
  const PRICE_CAP: int := 64

  // ---------------------------------------------------------------------------
  // getRandomPrice
  // ---------------------------------------------------------------------------

  /** The exclusive bound passed to `Random.nextInt` for enchantment `e`. */
  function DrawBound(e: Enchantment): nat {
    5 + e.maxLevel * 10
  }

  /**
   * The emerald price for `e` once the random draw `r` is fixed: base price
   * plus draw plus three per level, doubled for treasure, then capped.
   */
  function RandomPrice(e: Enchantment, r: int): (price: int)
    requires 0 <= r < DrawBound(e)
    ensures 2 <= price <= PRICE_CAP
  {
    var level := e.maxLevel;
    var drawn := 2 + r + 3 * level;
    var scaled := if e.isTreasure then drawn * 2 else drawn;
    if scaled > PRICE_CAP then PRICE_CAP else scaled
  }

  function Min(a: int, b: int): int {
    if a <= b then a else b
  }

  /** The closed form: the cap is taken after the treasure doubling, never before. */
  lemma PriceClosedForm(e: Enchantment, r: int)
    requires 0 <= r < DrawBound(e)
    ensures RandomPrice(e, r) == Min(PRICE_CAP, (2 + r + 3 * e.maxLevel) * (if e.isTreasure then 2 else 1))
    ensures e.isTreasure && 2 + r + 3 * e.maxLevel > PRICE_CAP / 2 ==> RandomPrice(e, r) == PRICE_CAP
  {
  }

  /** A price below the cap is exactly the uncapped price, and the cap is hit only when exceeded. */
  lemma PriceBelowCapIsExact(e: Enchantment, r: int)
    requires 0 <= r < DrawBound(e)
    ensures RandomPrice(e, r) < PRICE_CAP <==> (2 + r + 3 * e.maxLevel) * (if e.isTreasure then 2 else 1) < PRICE_CAP
  {
  }

  /** A larger draw never gives a lower price. */
  lemma PriceMonotoneInDraw(e: Enchantment, r1: int, r2: int)
    requires 0 <= r1 <= r2 < DrawBound(e)
    ensures RandomPrice(e, r1) <= RandomPrice(e, r2)
  {
  }

  /** With the same level and draw, a treasure enchantment never costs less. */
  lemma TreasureNeverCheaper(name: string, level: nat, r: int)
    requires 0 <= r < 5 + level * 10
    ensures RandomPrice(Enchantment(name, level, false), r) <= RandomPrice(Enchantment(name, level, true), r)
  {
  }

  /**
   * Worked prices with the game's own data: Silk Touch (maximum level 1),
   * Unbreaking (maximum level 3) and Mending (a level-1 treasure) at the
   * lowest and highest draw, and Sharpness (maximum level 5) at its highest
   * draw, where the cap applies; last a level-5 treasure (the game has none)
   * at the lowest draw, where the doubling applies and the cap does not.
   */
  lemma PriceExamples()
    ensures RandomPrice(Enchantment("SILK_TOUCH", 1, false), 0) == 5
    ensures RandomPrice(Enchantment("SILK_TOUCH", 1, false), 14) == 19
    ensures RandomPrice(Enchantment("DURABILITY", 3, false), 0) == 11
    ensures RandomPrice(Enchantment("DURABILITY", 3, false), 34) == 45
    ensures RandomPrice(Enchantment("MENDING", 1, true), 0) == 10
    ensures RandomPrice(Enchantment("MENDING", 1, true), 14) == 38
    ensures RandomPrice(Enchantment("DAMAGE_ALL", 5, false), 54) == PRICE_CAP
    ensures RandomPrice(Enchantment("LEVEL_FIVE_TREASURE", 5, true), 0) == 34
  {
  }

  // ---------------------------------------------------------------------------
  // upgradeTrade
  // ---------------------------------------------------------------------------

  /** The exceptions the listener can throw on a malformed trade. */
  datatype Fault =
    | NullPointer       // `Objects.requireNonNull` on a missing item meta
    | ClassCast         // the meta is not an enchantment-storage meta
    | NoSuchElement     // `iterator().next()` on an empty stored-enchantment map
    | IndexOutOfBounds  // `formatTrade` reading the first of no ingredients

  /**
   * The enchantment `upgradeTrade` takes from the trade's result (the first
   * stored entry), when the result is an enchanted book that has one.
   */
  function PickedEnchant(trade: MerchantRecipe): (picked: Option<Enchantment>)
    ensures picked.Some? <==> trade.result.kind == ENCHANTED_BOOK && |StoredOf(trade.result.meta)| > 0
    ensures picked.Some? ==> picked.value == StoredOf(trade.result.meta)[0].0
    ensures picked.Some? ==> Lookup(StoredOf(trade.result.meta), picked.value) == Some(StoredOf(trade.result.meta)[0].1)
  {
    if trade.result.kind == ENCHANTED_BOOK && trade.result.meta.StorageMeta? && trade.result.meta.stored != []
    then Some(trade.result.meta.stored[0].0)
    else None
  }

  /** `r` is a value `Random.nextInt` can return for the trade's enchantment. */
  predicate DrawFits(trade: MerchantRecipe, r: int) {
    match PickedEnchant(trade)
    case None => true
    case Some(e) => 0 <= r < DrawBound(e)
  }

  /** The ingredients of every upgraded trade: the emeralds first, then one book. */
  function UpgradedIngredients(price: int): seq<ItemStack> {
    [ItemStack(EMERALD, price, PlainMeta), ItemStack(BOOK, 1, PlainMeta)]
  }

  /**
   * `u` is the upgrade of `original` for enchantment `e` at `price`: the
   * usage and economy fields are kept, the ingredients are replaced, and the
   * result is the same stack whose stored enchantments now map `e` to its
   * maximum level and every other enchantment to what it was.
   */
  ghost predicate IsUpgradeOf(u: MerchantRecipe, original: MerchantRecipe, e: Enchantment, price: int) {
    && u.uses == original.uses
    && u.maxUses == original.maxUses
    && u.experienceReward == original.experienceReward
    && u.villagerExperience == original.villagerExperience
    && u.priceMultiplier == original.priceMultiplier
    && u.ingredients == UpgradedIngredients(price)
    && u.result.kind == original.result.kind
    && u.result.amount == original.result.amount
    && u.result.meta.StorageMeta?
    && Lookup(u.result.meta.stored, e) == Some(e.maxLevel)
    && (forall k :: k != e ==> Lookup(u.result.meta.stored, k) == Lookup(StoredOf(original.result.meta), k))
  }

  /**
   * A level-upgraded copy of `original` if its result is an enchanted book,
   * `Success(None)` (no upgrade) otherwise, and `Failure` where the Java method
   * would throw.
   */
  function UpgradeTrade(original: MerchantRecipe, r: int): (res: Result<Option<MerchantRecipe>, Fault>)
    requires DrawFits(original, r)
    ensures res == Success(None) <==> original.result.kind != ENCHANTED_BOOK
    ensures res.Success? && res.value.Some? <==> PickedEnchant(original).Some?
    ensures res.Failure? ==> res.error == match original.result.meta
                                         case NoMeta => NullPointer
                                         case PlainMeta => ClassCast
                                         case StorageMeta(_) => NoSuchElement
    ensures res.Success? && res.value.Some? ==>
              var e := PickedEnchant(original).value;
              && IsUpgradeOf(res.value.value, original, e, RandomPrice(e, r))
              && res.value.value.result.meta.stored == RemoveStoredEnchant(original.result.meta.stored, e) + [(e, e.maxLevel)]
              && (|original.result.meta.stored| == 1 ==> res.value.value.result.meta.stored == [(e, e.maxLevel)])
              && (DistinctKeys(original.result.meta.stored) ==> DistinctKeys(res.value.value.result.meta.stored))
  {
    if original.result.kind != ENCHANTED_BOOK then Success(None)
    else match original.result.meta
      case NoMeta => Failure(NullPointer)
      case PlainMeta => Failure(ClassCast)
      case StorageMeta(stored) =>
        if stored == [] then Failure(NoSuchElement)
        else
          var enchant := stored[0].0;
          var removed := RemoveStoredEnchant(stored, enchant);
          var upgradedMeta := StorageMeta(AddStoredEnchant(removed, enchant, enchant.maxLevel));
          assert DistinctKeys(stored) ==> DistinctKeys(upgradedMeta.stored) by {
            if DistinctKeys(stored) {
              AddKeepsDistinctKeys(removed, enchant, enchant.maxLevel);
            }
          }
          assert |stored| == 1 ==> removed == [];
          var upgradedBook := original.result.(meta := upgradedMeta);
          var upgradedTrade := MerchantRecipe(
            upgradedBook, [], original.uses, original.maxUses, original.experienceReward,
            original.villagerExperience, original.priceMultiplier);
          var upgradedPrice := RandomPrice(enchant, r);
          Success(Some(upgradedTrade.(ingredients := UpgradedIngredients(upgradedPrice))))
  }

  /** The upgraded trade is well formed: one or two ingredients, an enchanted book as result. */
  lemma UpgradedTradeWellFormed(original: MerchantRecipe, r: int)
    requires DrawFits(original, r)
    requires UpgradeTrade(original, r).Success? && UpgradeTrade(original, r).value.Some?
    ensures var u := UpgradeTrade(original, r).value.value;
            && 1 <= |u.ingredients| <= 2
            && u.result.kind == ENCHANTED_BOOK
            && 2 <= u.ingredients[0].amount <= PRICE_CAP
            && |StoredOf(u.result.meta)| >= 1
  {
  }

  // ---------------------------------------------------------------------------
  // onVillagerAcquireTrade
  // ---------------------------------------------------------------------------

  /** The event: the villager's new trade, in a slot the listener may replace. */
  class VillagerAcquireTradeEvent {
    var recipe: MerchantRecipe

    constructor (recipe: MerchantRecipe)
      ensures this.recipe == recipe
    {
      this.recipe := recipe;
    }

    method SetRecipe(recipe: MerchantRecipe)
      modifies this
      ensures this.recipe == recipe
    {
      this.recipe := recipe;
    }
  }

  /**
   * The event handler: installs the upgraded trade when there is one, then
   * logs the original and the upgraded trade (`logged`). An exception leaves
   * the handler as `thrown`: one from `upgradeTrade` leaves the event with
   * its trade, while `formatTrade` on an original trade without ingredients
   * throws after the upgrade is already installed, before anything is logged.
   */
  method OnVillagerAcquireTrade(event: VillagerAcquireTradeEvent, r: int) returns (thrown: Option<Fault>, logged: seq<string>)
    requires DrawFits(event.recipe, r)
    modifies event
    ensures old(event.recipe).result.kind != ENCHANTED_BOOK ==> event.recipe == old(event.recipe) && thrown == None && logged == []
    ensures thrown.Some? <==> UpgradeTrade(old(event.recipe), r).Failure?
                              || (PickedEnchant(old(event.recipe)).Some? && |old(event.recipe).ingredients| == 0)
    ensures UpgradeTrade(old(event.recipe), r).Failure? ==>
              event.recipe == old(event.recipe) && thrown == Some(UpgradeTrade(old(event.recipe), r).error) && logged == []
    ensures PickedEnchant(old(event.recipe)).Some? ==>
              var e := PickedEnchant(old(event.recipe)).value;
              && event.recipe == UpgradeTrade(old(event.recipe), r).value.value
              && IsUpgradeOf(event.recipe, old(event.recipe), e, RandomPrice(e, r))
    ensures PickedEnchant(old(event.recipe)).Some? && |old(event.recipe).ingredients| == 0 ==>
              thrown == Some(IndexOutOfBounds) && logged == []
    ensures PickedEnchant(old(event.recipe)).Some? && |old(event.recipe).ingredients| >= 1 ==>
              thrown == None && logged == ["original: " + TradeText(old(event.recipe)), "upgraded: " + TradeText(event.recipe)]
  {
    var originalTrade := event.recipe;
    var upgradedTrade := UpgradeTrade(originalTrade, r);
    match upgradedTrade {
      case Failure(f) =>
        thrown, logged := Some(f), [];
      case Success(None) =>
        thrown, logged := None, [];
      case Success(Some(t)) =>
        event.SetRecipe(t);
        if |originalTrade.ingredients| == 0 {
          thrown, logged := Some(IndexOutOfBounds), [];
        } else {
          UpgradedTradeWellFormed(originalTrade, r);
          var originalText := FormatTrade(originalTrade);
          var upgradedText := FormatTrade(t);
          logged := ["original: " + originalText, "upgraded: " + upgradedText];
          thrown := None;
        }
    }
  }

  // ---------------------------------------------------------------------------
  // formatTrade and formatItemStack
  // ---------------------------------------------------------------------------

  /** `n*` in front of an item's kind, only for stacks of more than one. */
  function AmountPrefix(amount: int): string {
    if amount > 1 then IntToString(amount) + "*" else ""
  }

  /** One stored enchantment without its leading `+`: `name@level`. */
  function EnchantBody(entry: (Enchantment, int)): string {
    entry.0.name + "@" + IntToString(entry.1)
  }

  /** The text of one stored enchantment: `+name@level`. */
  function EnchantText(entry: (Enchantment, int)): string {
    "+" + EnchantBody(entry)
  }

  /** The stored enchantments in iteration order, each as `+name@level`. */
  function StoredText(stored: StoredEnchants): string
    decreases |stored|
  {
    if stored == [] then ""
    else StoredText(stored[..|stored| - 1]) + EnchantText(stored[|stored| - 1])
  }

  lemma AppendEnchantText(before: string, entry: (Enchantment, int))
    ensures before + "+" + entry.0.name + "@" + IntToString(entry.1) == before + EnchantText(entry)
  {
  }

  lemma StoredTextAppend(prefix: string, stored: StoredEnchants, i: nat)
    requires i < |stored|
    ensures prefix + StoredText(stored[..i + 1]) == prefix + StoredText(stored[..i]) + EnchantText(stored[i])
  {
    assert stored[..i + 1][..i] == stored[..i];
  }

  /** What `formatItemStack` renders for `stack`. */
  function ItemText(stack: ItemStack): string {
    AmountPrefix(stack.amount) + stack.kind.name + StoredText(StoredOf(stack.meta))
  }

  /** The text of each stack, in order. */
  function ItemTexts(stacks: seq<ItemStack>): (texts: seq<string>)
    ensures |texts| == |stacks|
    decreases |stacks|
  {
    if stacks == [] then [] else ItemTexts(stacks[..|stacks| - 1]) + [ItemText(stacks[|stacks| - 1])]
  }

  lemma ItemTextsStep(stacks: seq<ItemStack>, i: nat)
    requires i < |stacks|
    ensures ItemTexts(stacks[..i + 1]) == ItemTexts(stacks[..i]) + [ItemText(stacks[i])]
  {
    assert stacks[..i + 1][..i] == stacks[..i];
  }

  /** What `formatTrade` renders: the ingredients joined by ` + `, then ` => ` and the result. */
  function TradeText(trade: MerchantRecipe): string
    requires |trade.ingredients| >= 1
  {
    Join(ItemTexts(trade.ingredients), " + ") + " => " + ItemText(trade.result)
  }

  /** `formatItemStack`: builds the text of one stack piece by piece. */
  method FormatItemStack(stack: ItemStack) returns (text: string)
    ensures text == ItemText(stack)
  {
    text := "";
    if stack.amount > 1 {
      text := text + IntToString(stack.amount);
      text := text + "*";
    }
    text := text + stack.kind.name;
    assert text == AmountPrefix(stack.amount) + stack.kind.name;
    if stack.meta.StorageMeta? {
      text := AppendStoredEnchants(text, stack.meta.stored);
    } else {
      assert StoredText(StoredOf(stack.meta)) == [];
    }
  }

  /** The `forEach` over the stored enchantments: appends `+name@level` for each, in order. */
  method AppendStoredEnchants(prefix: string, enchants: StoredEnchants) returns (text: string)
    ensures text == prefix + StoredText(enchants)
  {
    text := prefix;
    var i := 0;
    assert enchants[..0] == [];
    while i < |enchants|
      invariant 0 <= i <= |enchants|
      invariant text == prefix + StoredText(enchants[..i])
    {
      AppendEnchantText(text, enchants[i]);
      StoredTextAppend(prefix, enchants, i);
      text := text + "+" + enchants[i].0.name + "@" + IntToString(enchants[i].1);
      i := i + 1;
    }
    assert enchants[..i] == enchants;
  }

  /**
   * `formatTrade`: the first ingredient, then ` + ` and each further
   * ingredient, then ` => ` and the result. The Java method reads the first
   * ingredient unconditionally, so the trade must have one.
   */
  method FormatTrade(trade: MerchantRecipe) returns (text: string)
    requires |trade.ingredients| >= 1
    ensures text == TradeText(trade)
  {
    var ingredients := trade.ingredients;
    text := FormatItemStack(ingredients[0]);
    ItemTextsStep(ingredients, 0);
    assert ingredients[..0] == [];
    var i := 1;
    while i < |ingredients|
      invariant 1 <= i <= |ingredients|
      invariant text == Join(ItemTexts(ingredients[..i]), " + ")
    {
      var stackText := FormatItemStack(ingredients[i]);
      ItemTextsStep(ingredients, i);
      JoinSnoc(ItemTexts(ingredients[..i]), " + ", stackText);
      text := text + " + ";
      text := text + stackText;
      i := i + 1;
    }
    assert ingredients[..i] == ingredients;
    var resultText := FormatItemStack(trade.result);
    text := text + " => ";
    text := text + resultText;
  }

  /** An item's text ends with the text of its last stored enchantment. */
  lemma ItemTextEndsWithLastEnchant(stack: ItemStack)
    requires |StoredOf(stack.meta)| >= 1
    ensures var stored := StoredOf(stack.meta);
            var text := ItemText(stack);
            var tail := EnchantText(stored[|stored| - 1]);
            |text| >= |tail| && text[|text| - |tail|..] == tail
  {
    var stored := StoredOf(stack.meta);
    var tail := EnchantText(stored[|stored| - 1]);
    var head := AmountPrefix(stack.amount) + stack.kind.name + StoredText(stored[..|stored| - 1]);
    assert ItemText(stack) == head + tail;
  }

  /** The upgraded book's text ends with its enchantment at the maximum level. */
  lemma UpgradedBookTextEndsWithMaxLevel(original: MerchantRecipe, r: int)
    requires DrawFits(original, r)
    requires PickedEnchant(original).Some?
    ensures var e := PickedEnchant(original).value;
            var text := ItemText(UpgradeTrade(original, r).value.value.result);
            var tail := EnchantText((e, e.maxLevel));
            |text| >= |tail| && text[|text| - |tail|..] == tail
  {
    var e := PickedEnchant(original).value;
    var book := UpgradeTrade(original, r).value.value.result;
    var stored := StoredOf(book.meta);
    assert |stored| >= 1 && stored[|stored| - 1] == (e, e.maxLevel) by {
      var removed := RemoveStoredEnchant(original.result.meta.stored, e);
      assert stored == removed + [(e, e.maxLevel)];
    }
    ItemTextEndsWithLastEnchant(book);
  }

  /** The ingredients of an upgraded trade render as `price*EMERALD + BOOK`. */
  lemma UpgradedIngredientsText(price: int)
    requires price > 1
    ensures Join(ItemTexts(UpgradedIngredients(price)), " + ") == IntToString(price) + "*EMERALD + BOOK"
  {
    var digits := IntToString(price);
    var stacks := UpgradedIngredients(price);
    assert ItemText(stacks[0]) == digits + "*EMERALD" by {
      assert StoredText(StoredOf(stacks[0].meta)) == [];
      assert ItemText(stacks[0]) == digits + "*" + "EMERALD";
    }
    assert ItemText(stacks[1]) == "BOOK" by {
      assert StoredText(StoredOf(stacks[1].meta)) == [];
      assert AmountPrefix(1) == [];
    }
    assert ItemTexts(stacks) == [ItemText(stacks[0]), ItemText(stacks[1])] by {
      ItemTextsStep(stacks, 0);
      ItemTextsStep(stacks, 1);
      assert stacks[..0] == [] && stacks[..2] == stacks;
    }
    JoinTwo(digits + "*EMERALD", " + ", "BOOK");
  }

  /**
   * The whole upgraded trade renders as `price*EMERALD + BOOK => ` and the
   * upgraded book; the price is at least 2, so its prefix is always shown.
   */
  lemma UpgradedTradeText(original: MerchantRecipe, r: int)
    requires DrawFits(original, r)
    requires PickedEnchant(original).Some?
    ensures var e := PickedEnchant(original).value;
            var u := UpgradeTrade(original, r).value.value;
            TradeText(u) == IntToString(RandomPrice(e, r)) + "*EMERALD + BOOK" + " => " + ItemText(u.result)
  {
    var e := PickedEnchant(original).value;
    var u := UpgradeTrade(original, r).value.value;
    var price := RandomPrice(e, r);
    assert u.ingredients == UpgradedIngredients(price);
    UpgradedIngredientsText(price);
  }
}
