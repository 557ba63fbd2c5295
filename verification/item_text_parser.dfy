/**
 * A reader for the text `formatItemStack` produces. Reading a rendered
 * stack back gives its amount, material name and stored enchantments, which
 * shows the rendering is unambiguous whenever the names avoid the characters
 * it uses as separators.
 */
module ItemTextParser {
  import opened Wrappers
  import opened Decimal
  import opened Text
  import opened Bukkit
  import opened UpgradeLibrarianTradeListener

  /** What an item's text records: amount, material name, and (name, level) per stored enchantment. */
  datatype ItemView = ItemView(amount: int, kindName: string, enchants: seq<(string, int)>)

  /** The amount before `*`: a non-empty run of digits. */
  function ParseAmount(prefix: string): Option<int> {
    if |prefix| >= 1 && AllDigits(prefix) then Some(ParseNat(prefix) as int) else None
  }

  /** Reads `name@level` fields, one per stored enchantment. */
  function ParseEnchants(fields: seq<string>): Option<seq<(string, int)>>
    decreases |fields|
  {
    if fields == [] then Some([])
    else
      var parts := Split(fields[0], '@');
      if |parts| != 2 then None
      else match (ParseInt(parts[1]), ParseEnchants(fields[1..]))
        case (Some(level), Some(rest)) => Some([(parts[0], level)] + rest)
        case _ => None
  }

  /** Reads the material name and the enchantments after it, separated by `+`. */
  function ParseBody(amount: int, body: string): Option<ItemView> {
    var fields := Split(body, '+');
    match ParseEnchants(fields[1..])
    case None => None
    case Some(enchants) => Some(ItemView(amount, fields[0], enchants))
  }

  /** Reads an item's text; without an `n*` prefix the amount is 1. */
  function ParseItemText(text: string): Option<ItemView> {
    var pieces := Split(text, '*');
    if |pieces| == 1 then ParseBody(1, text)
    else if |pieces| == 2 then
      match ParseAmount(pieces[0])
      case None => None
      case Some(amount) => ParseBody(amount, pieces[1])
    else None
  }

  /** A name that holds none of the separators `*`, `+` and `@`. */
  predicate PlainName(name: string) {
    '*' !in name && '+' !in name && '@' !in name
  }

  /** The stack's material and enchantment names all avoid the separators. */
  predicate Renderable(stack: ItemStack) {
    var stored := StoredOf(stack.meta);
    && PlainName(stack.kind.name)
    && forall i :: 0 <= i < |stored| ==> PlainName(stored[i].0.name)
  }

  function EnchantBodies(stored: StoredEnchants): (bodies: seq<string>)
    ensures |bodies| == |stored|
    ensures forall i :: 0 <= i < |stored| ==> bodies[i] == EnchantBody(stored[i])
  {
    seq(|stored|, i requires 0 <= i < |stored| => EnchantBody(stored[i]))
  }

  function EnchantViews(stored: StoredEnchants): (views: seq<(string, int)>)
    ensures |views| == |stored|
    ensures forall i :: 0 <= i < |stored| ==> views[i] == (stored[i].0.name, stored[i].1)
  {
    seq(|stored|, i requires 0 <= i < |stored| => (stored[i].0.name, stored[i].1))
  }

  /** What the text of `stack` can tell: amounts of one or less all render alike. */
  function ViewOf(stack: ItemStack): ItemView {
    ItemView(if stack.amount > 1 then stack.amount else 1, stack.kind.name, EnchantViews(StoredOf(stack.meta)))
  }

  /** The characters of a rendered integer: digits and a leading minus sign. */
  lemma IntTextAvoids(i: int, c: char)
    requires c !in "-" && !IsDigit(c)
    ensures c !in IntToString(i)
  {
    var s := IntToString(i);
    IntDigits(i);
    forall k | 0 <= k < |s| ensures s[k] != c {
      assert IsDigit(s[k]) || s[k] == '-';
    }
  }

  /** An item's text after the amount prefix: the material name and the stored enchantments. */
  function BodyText(stack: ItemStack): string {
    stack.kind.name + StoredText(StoredOf(stack.meta))
  }

  /** The `+`-separated fields of an item's body text. */
  function BodyFields(stack: ItemStack): (fields: seq<string>)
    ensures |fields| >= 1 && fields[0] == stack.kind.name
  {
    [stack.kind.name] + EnchantBodies(StoredOf(stack.meta))
  }

  /** The material name and enchantment texts are the `+`-separated fields of the body. */
  lemma {:induction false} BodyIsJoin(kindName: string, stored: StoredEnchants)
    ensures kindName + StoredText(stored) == Join([kindName] + EnchantBodies(stored), "+")
    decreases |stored|
  {
    if stored != [] {
      var init, last := stored[..|stored| - 1], stored[|stored| - 1];
      var b := EnchantBody(last);
      var initFields := [kindName] + EnchantBodies(init);
      assert [kindName] + EnchantBodies(stored) == initFields + [b] by {
        assert EnchantBodies(stored) == EnchantBodies(init) + [b];
      }
      JoinSnoc(initFields, "+", b);
      BodyIsJoin(kindName, init);
      assert StoredText(stored) == StoredText(init) + ("+" + b);
      AppendRegroup(kindName, StoredText(init), "+", b);
    }
  }

  lemma {:induction false} ParseEnchantsRoundTrip(stored: StoredEnchants)
    requires forall i :: 0 <= i < |stored| ==> PlainName(stored[i].0.name)
    ensures ParseEnchants(EnchantBodies(stored)) == Some(EnchantViews(stored))
    decreases |stored|
  {
    if stored != [] {
      var entry := stored[0];
      var levelText := IntToString(entry.1);
      var fields := EnchantBodies(stored);
      assert Split(fields[0], '@') == [entry.0.name, levelText] by {
        assert fields[0] == entry.0.name + ['@'] + levelText;
        assert '@' !in entry.0.name;
        IntTextAvoids(entry.1, '@');
        SplitTwo(entry.0.name, '@', levelText);
      }
      assert ParseInt(levelText) == Some(entry.1) by {
        IntRoundTrip(entry.1);
      }
      assert ParseEnchants(fields[1..]) == Some(EnchantViews(stored[1..])) by {
        assert fields[1..] == EnchantBodies(stored[1..]);
        ParseEnchantsRoundTrip(stored[1..]);
      }
      assert EnchantViews(stored) == [(entry.0.name, entry.1)] + EnchantViews(stored[1..]);
    }
  }

  /** No field of a renderable stack's body holds a separator. */
  lemma FieldsAvoid(stack: ItemStack, c: char)
    requires Renderable(stack)
    requires c == '+' || c == '*'
    ensures forall i :: 0 <= i < |BodyFields(stack)| ==> c !in BodyFields(stack)[i]
  {
    var stored := StoredOf(stack.meta);
    var fields := BodyFields(stack);
    forall i | 0 <= i < |fields| ensures c !in fields[i] {
      if i > 0 {
        IntTextAvoids(stored[i - 1].1, c);
      }
    }
  }

  lemma BodyAvoidsStar(stack: ItemStack)
    requires Renderable(stack)
    ensures '*' !in BodyText(stack)
  {
    FieldsAvoid(stack, '*');
    BodyIsJoin(stack.kind.name, StoredOf(stack.meta));
    JoinAvoids(BodyFields(stack), "+", '*');
  }

  lemma BodySplit(stack: ItemStack)
    requires Renderable(stack)
    ensures Split(BodyText(stack), '+') == BodyFields(stack)
  {
    FieldsAvoid(stack, '+');
    BodyIsJoin(stack.kind.name, StoredOf(stack.meta));
    SplitJoin(BodyFields(stack), '+');
  }

  /** The material name and enchantments of a renderable stack read back from its body. */
  lemma ParseBodyRoundTrip(stack: ItemStack, amount: int)
    requires Renderable(stack)
    ensures ParseBody(amount, BodyText(stack)) == Some(ItemView(amount, stack.kind.name, EnchantViews(StoredOf(stack.meta))))
  {
    BodySplit(stack);
    ParseEnchantsRoundTrip(StoredOf(stack.meta));
    assert BodyFields(stack)[1..] == EnchantBodies(StoredOf(stack.meta));
  }

  /** An item's text splits at `*` into the amount's digits and the body, or is all body. */
  lemma SplitAtAmount(stack: ItemStack)
    requires Renderable(stack)
    ensures Split(ItemText(stack), '*') == if stack.amount > 1 then [NatToString(stack.amount), BodyText(stack)] else [BodyText(stack)]
  {
    BodyAvoidsStar(stack);
    if stack.amount > 1 {
      SplitWithPrefix(stack);
    } else {
      SplitWithoutPrefix(stack);
    }
  }

  lemma SplitWithoutPrefix(stack: ItemStack)
    requires stack.amount <= 1 && '*' !in BodyText(stack)
    ensures Split(ItemText(stack), '*') == [BodyText(stack)]
  {
    assert ItemText(stack) == BodyText(stack);
    SplitNone(BodyText(stack), '*');
  }

  lemma SplitWithPrefix(stack: ItemStack)
    requires stack.amount > 1 && '*' !in BodyText(stack)
    ensures Split(ItemText(stack), '*') == [NatToString(stack.amount), BodyText(stack)]
  {
    var digits := NatToString(stack.amount);
    assert ItemText(stack) == digits + "*" + BodyText(stack) by {
      assert IntToString(stack.amount) == digits;
    }
    assert '*' !in digits by {
      IntTextAvoids(stack.amount, '*');
    }
    SplitTwo(digits, '*', BodyText(stack));
  }

  /** Reading an item's text gives back its amount (when above one), material and enchantments. */
  lemma ParseItemTextRoundTrip(stack: ItemStack)
    requires Renderable(stack)
    ensures ParseItemText(ItemText(stack)) == Some(ViewOf(stack))
  {
    SplitAtAmount(stack);
    ParseBodyRoundTrip(stack, ViewOf(stack).amount);
    if stack.amount > 1 {
      NatRoundTrip(stack.amount);
    }
  }

  /** A renderable item's text holds a `*` exactly when the stack holds more than one item. */
  lemma AmountPrefixShown(stack: ItemStack)
    requires Renderable(stack)
    ensures '*' in ItemText(stack) <==> stack.amount > 1
  {
    BodyAvoidsStar(stack);
    if stack.amount > 1 {
      var digits := IntToString(stack.amount);
      assert ItemText(stack) == digits + "*" + BodyText(stack);
      assert ItemText(stack)[|digits|] == '*';
    } else {
      assert ItemText(stack) == BodyText(stack);
    }
  }
}
