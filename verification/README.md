# SmartLibrarians trade upgrade, in Dafny

SmartLibrarians is a Minecraft server plugin. Its trade listener watches for
villagers acquiring a new trade. When the trade sells an enchanted book, the
listener replaces the trade with a copy in which:

- the book's enchantment is raised to its maximum level;
- the price is a fresh random number of emeralds plus one book.

Usage, experience and price-multiplier fields are copied unchanged. Two
log lines render the old and new trade as text, for example
`12*EMERALD + BOOK => ENCHANTED_BOOK+MENDING@1`.

The model has these files:

- `wrappers.dfy`: `Option` and `Result`.
- `bukkit.dfy`: the host API values the listener reads and builds. These
  are materials, enchantments, item stacks, item meta and merchant recipes.
  It also has the stored-enchantment map with its `removeStoredEnchant` and
  `addStoredEnchant` edits. The map is an insertion-ordered association list.
- `upgrade_listener.dfy`: the listener itself.
  - `RandomPrice` is `getRandomPrice`, with the random draw as a parameter.
  - `UpgradeTrade` is `upgradeTrade`. Where the Java method throws, it
    returns a `Fault`.
  - `OnVillagerAcquireTrade` is the event handler. It acts on a mutable event
    object and returns the lines it logs.
  - `FormatItemStack` and `FormatTrade` are the two formatters, proved
    equal to the text functions `ItemText` and `TradeText`. `FormatTrade`
    loops over the ingredients. `FormatItemStack` hands its loop over the
    stored enchantments to `AppendStoredEnchants`.
- `decimal.dfy`: rendering of integers in decimal, as `StringBuilder.append(int)`
  does, and reading them back.
- `text.dfy`: joining strings with a separator and splitting at a character.
- `item_text_parser.dfy`: a reader for item text. Its round-trip lemma shows
  that an item's text records its amount, material and enchantments
  unambiguously, provided the names avoid `*`, `+` and `@`.

Source paths below are relative to the repository root.

## Model

| member | source | states |
|---|---|---|
| Bukkit.RemoveStoredEnchant | src/main/java/net/knawk/mc/smartlibrarians/UpgradeLibrarianTradeListener.java:55 | After removal the enchantment has no level. Every other enchantment keeps its level. The entries left are exactly the old entries for other enchantments. Removing an enchantment that is not stored changes nothing. A list with distinct keys keeps them distinct. |
| Bukkit.RemoveKeepsOrder | src/main/java/net/knawk/mc/smartlibrarians/UpgradeLibrarianTradeListener.java:55 | In a map, removing the enchantment at position k leaves the entries before and after it in their order, as a linked hash map does. |
| Bukkit.AddStoredEnchant | src/main/java/net/knawk/mc/smartlibrarians/UpgradeLibrarianTradeListener.java:56 | After adding, the enchantment maps to the given level and every other enchantment keeps its level. No entry appears from elsewhere. An enchantment not yet present is appended last, as a linked hash map does. |
| Bukkit.AddKeepsDistinctKeys | src/main/java/net/knawk/mc/smartlibrarians/UpgradeLibrarianTradeListener.java:56 | Adding an enchantment to a map still yields a map: no enchantment occurs twice. |
| UpgradeLibrarianTradeListener.RandomPrice | src/main/java/net/knawk/mc/smartlibrarians/UpgradeLibrarianTradeListener.java:74-85 | For every draw `nextInt` can return, the price lies between 2 and 64 emeralds. |
| UpgradeLibrarianTradeListener.PriceClosedForm | src/main/java/net/knawk/mc/smartlibrarians/UpgradeLibrarianTradeListener.java:77-84 | The price is min(64, (2 + draw + 3·maxLevel) × (2 if treasure else 1)). The cap is applied after doubling, so a treasure whose undoubled price exceeds 32 always costs 64. |
| UpgradeLibrarianTradeListener.PriceBelowCapIsExact | src/main/java/net/knawk/mc/smartlibrarians/UpgradeLibrarianTradeListener.java:81-83 | The price is below 64 exactly when the uncapped price is below 64. |
| UpgradeLibrarianTradeListener.PriceMonotoneInDraw | src/main/java/net/knawk/mc/smartlibrarians/UpgradeLibrarianTradeListener.java:77 | A larger random draw never gives a lower price. |
| UpgradeLibrarianTradeListener.TreasureNeverCheaper | src/main/java/net/knawk/mc/smartlibrarians/UpgradeLibrarianTradeListener.java:78-80 | With the same maximum level and draw, a treasure enchantment never costs less than a non-treasure one. |
| UpgradeLibrarianTradeListener.PriceExamples | src/main/java/net/knawk/mc/smartlibrarians/UpgradeLibrarianTradeListener.java:77-84 | Worked prices with the game's own levels. Silk Touch (level 1) costs 5 to 19. Unbreaking (level 3) costs 11 to 45. Mending (level-1 treasure) costs 10 to 38. A level-5 treasure at the lowest draw costs 17 doubled to 34. Sharpness (level 5) at its highest draw hits the cap of 64. |
| UpgradeLibrarianTradeListener.PickedEnchant | src/main/java/net/knawk/mc/smartlibrarians/UpgradeLibrarianTradeListener.java:50-52 | An enchantment is picked exactly when the result is an enchanted book with at least one stored enchantment. The picked one is the first stored enchantment in iteration order, the key `iterator().next()` returns. |
| UpgradeLibrarianTradeListener.UpgradeTrade | src/main/java/net/knawk/mc/smartlibrarians/UpgradeLibrarianTradeListener.java:45-72 | A non-book trade yields no upgrade. A book yields an upgrade exactly when it stores an enchantment. Otherwise the exception is NullPointer for missing meta, ClassCast for meta of the wrong kind, or NoSuchElement for an empty map. An upgrade keeps uses, max uses, experience reward, villager experience, price multiplier, result material and amount. Its ingredients are the drawn price in emeralds and one book. The picked enchantment is at its maximum level, and every other stored enchantment is unchanged. The stored list is the old one without that enchantment, followed by it at maximum level. A single-enchantment book becomes exactly that enchantment at maximum level. Distinct keys stay distinct. |
| UpgradeLibrarianTradeListener.UpgradedTradeWellFormed | src/main/java/net/knawk/mc/smartlibrarians/UpgradeLibrarianTradeListener.java:61-69 | An upgraded trade has one or two ingredients, the first priced between 2 and 64 emeralds. Its result is an enchanted book with at least one stored enchantment. |
| UpgradeLibrarianTradeListener.VillagerAcquireTradeEvent.SetRecipe | src/main/java/net/knawk/mc/smartlibrarians/UpgradeLibrarianTradeListener.java:35 | The event's trade becomes the given one. |
| UpgradeLibrarianTradeListener.OnVillagerAcquireTrade | src/main/java/net/knawk/mc/smartlibrarians/UpgradeLibrarianTradeListener.java:29-39 | A non-book trade leaves the event untouched; nothing is thrown or logged. When `upgradeTrade` throws, the event keeps its trade and the handler throws the same fault. When an enchantment is picked, the event's trade becomes exactly the trade `upgradeTrade` returns, the upgrade of the old trade at the drawn price. Then, if the old trade has no ingredients, `formatTrade` throws IndexOutOfBounds with the upgrade already installed and nothing logged. Otherwise the handler logs `original: ` and the old trade's text, then `upgraded: ` and the new trade's text. The handler throws exactly in these two cases. |
| UpgradeLibrarianTradeListener.FormatItemStack | src/main/java/net/knawk/mc/smartlibrarians/UpgradeLibrarianTradeListener.java:98-115 | The text is the amount and `*` (only for amounts above one), then the material name, then `+name@level` for each stored enchantment in map order. |
| UpgradeLibrarianTradeListener.AppendStoredEnchants | src/main/java/net/knawk/mc/smartlibrarians/UpgradeLibrarianTradeListener.java:105-113 | The `forEach` over the stored enchantments appends `+name@level` for every entry, in map order, and nothing else. |
| UpgradeLibrarianTradeListener.FormatTrade | src/main/java/net/knawk/mc/smartlibrarians/UpgradeLibrarianTradeListener.java:87-96 | The text is every ingredient's text in order, separated by ` + `, then ` => ` and the result's text. |
| UpgradeLibrarianTradeListener.ItemTextEndsWithLastEnchant | src/main/java/net/knawk/mc/smartlibrarians/UpgradeLibrarianTradeListener.java:107-112 | An item's text ends with the text of its last stored enchantment. |
| UpgradeLibrarianTradeListener.UpgradedBookTextEndsWithMaxLevel | src/main/java/net/knawk/mc/smartlibrarians/UpgradeLibrarianTradeListener.java:54-59 | The upgraded book's text ends with `+name@maxLevel` for the picked enchantment, because the re-added entry goes last. |
| UpgradeLibrarianTradeListener.UpgradedIngredientsText | src/main/java/net/knawk/mc/smartlibrarians/UpgradeLibrarianTradeListener.java:69 | The upgraded ingredients render as `price*EMERALD + BOOK`. |
| UpgradeLibrarianTradeListener.UpgradedTradeText | src/main/java/net/knawk/mc/smartlibrarians/UpgradeLibrarianTradeListener.java:87-96 | The logged upgraded trade reads `price*EMERALD + BOOK => ` followed by the upgraded book's text, with the drawn price. |
| Decimal.NatToString | src/main/java/net/knawk/mc/smartlibrarians/UpgradeLibrarianTradeListener.java:101 | A rendered count is non-empty and has no leading zero unless it is 0. |
| Decimal.IntToString | src/main/java/net/knawk/mc/smartlibrarians/UpgradeLibrarianTradeListener.java:111 | A rendered level is non-empty and starts with `-` exactly when it is negative. |
| Decimal.NatDigits | src/main/java/net/knawk/mc/smartlibrarians/UpgradeLibrarianTradeListener.java:101 | A rendered count consists of decimal digits only. |
| Decimal.NatRoundTrip | src/main/java/net/knawk/mc/smartlibrarians/UpgradeLibrarianTradeListener.java:101 | Reading a rendered count gives the count back. |
| Decimal.IntRoundTrip | src/main/java/net/knawk/mc/smartlibrarians/UpgradeLibrarianTradeListener.java:111 | Reading a rendered level gives the level back, negative levels included. |
| Text.SplitJoin | src/main/java/net/knawk/mc/smartlibrarians/UpgradeLibrarianTradeListener.java:104-112 | Splitting parts joined by a one-character separator gives the parts back, when no part contains it. This is what makes the `+` between the material and each enchantment, and the `@` inside each enchantment, readable. |
| Text.JoinSnoc | src/main/java/net/knawk/mc/smartlibrarians/UpgradeLibrarianTradeListener.java:89-92 | Appending a separator and one more part to a join is the join of the longer list. This is one step of the `skip(1).forEach` loop. |
| ItemTextParser.ParseEnchantsRoundTrip | src/main/java/net/knawk/mc/smartlibrarians/UpgradeLibrarianTradeListener.java:107-112 | Reading the `name@level` fields of a book gives back every stored enchantment's name and level, in order. |
| ItemTextParser.ParseBodyRoundTrip | src/main/java/net/knawk/mc/smartlibrarians/UpgradeLibrarianTradeListener.java:104-113 | Reading the text after the amount prefix gives back the material name and the stored enchantments. |
| ItemTextParser.ParseItemTextRoundTrip | src/main/java/net/knawk/mc/smartlibrarians/UpgradeLibrarianTradeListener.java:98-115 | When names avoid `*`, `+` and `@`, reading an item's text gives back its amount (1 for amounts of one or less), material name and enchantments. It drops whether the stack has no meta, a plain meta or an empty storage meta, and each enchantment's maximum level and treasure flag. `ViewOf` is exactly what is kept. |
| ItemTextParser.AmountPrefixShown | src/main/java/net/knawk/mc/smartlibrarians/UpgradeLibrarianTradeListener.java:100-103 | For such names, an item's text contains `*` exactly when its amount is above one. |

## Left out

- `SmartLibrariansPlugin.java` registers the listener at plugin start-up. It is not part of this model.
- The logger is not modelled. The handler returns the lines it would pass to `log.info`, in order, as `logged`.
- The villager entity the handler reads from the event is never used, so it is not modelled.
- `java.util.Random` is not modelled. The value `nextInt` returns is the parameter `r`, and callers must keep it in range (`DrawFits`).
- UpgradeLibrarianTradeListener.RandomPrice: integers are unbounded, so 32-bit overflow of `2 + draw + 3·level` and its doubling is not modelled. It needs a maximum level near 10^8, which no enchantment has.
- Enchantment maximum levels are natural numbers. A negative level would make `nextInt` throw, and that path is not modelled.
- Bukkit.AddStoredEnchant: the third argument of `addStoredEnchant` (false, so level restrictions are checked) is not modelled. Every level is accepted. The host refuses a level below the enchantment's start level (1 for every enchantment of the game), so this matches the listener only when the maximum level is at least 1. An enchantment with maximum level 0 would be left out of the upgraded book by the host but is kept at level 0 by the model.
- Item meta, item stacks and recipes are values. `clone()` and the copy constructor are therefore implicit, and the aliasing between the original and upgraded objects is not modelled. The original trade is unchanged by construction.
- The price multiplier is a Java `float`. It is modelled as a `real` that is only copied.
- The Java `assert` that the book stores one enchantment is not modelled, because assertions are disabled by default. The model takes the first stored enchantment whatever the count; `UpgradeTrade` states the single-enchantment case separately.
- The order of stored enchantments is taken to be insertion order, as a linked hash map keeps it. The host library's map class is not part of this model.
- Materials and enchantments are reduced to the fields the listener reads: name, maximum level and the treasure flag.
- Other `MerchantRecipe` attributes (demand, special price and the like) are not modelled.
- Event dispatch through `@EventHandler` is not modelled, and neither is what the host does with an exception thrown by the handler.
- UpgradeLibrarianTradeListener.FormatTrade: requires at least one ingredient, because `get(0)` throws on an empty list. The handler checks that case itself and reports it as IndexOutOfBounds.
- Later versions of the plugin describe a librarian-profession check, an item frame that chooses the enchantment and a random choice among candidates. The listener modelled here has none of these, so the model follows its code.
