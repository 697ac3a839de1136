/** What a whole format means: literal text and fields, each with its own argument, one after the other. */
module PrintfItems {
  import opened Common
  import opened Numeral
  import opened Printf
  import opened PrintfFields

  datatype Item =
    | Literal(text: string)
    | Percent
    | StringField(mods: string, s: Option<string>)
    | CharField(mods: string, n: int)
    | NumberField(mods: string, c: char, n: int)

  predicate WellFormed(it: Item) {
    match it
    case Literal(text) => '%' !in text
    case Percent => true
    case StringField(mods, s) => AreModifiers(mods)
    case CharField(mods, n) => AreModifiers(mods)
    case NumberField(mods, c, n) => AreModifiers(mods) && c in "doupx"
  }

  /** The item as it stands in the format. */
  function Written(it: Item): string {
    match it
    case Literal(text) => text
    case Percent => "%%"
    case StringField(mods, s) => Format(mods, 's')
    case CharField(mods, n) => Format(mods, 'c')
    case NumberField(mods, c, n) => Format(mods, c)
  }

  /** Its arguments. */
  function Given(it: Item): seq<Arg> {
    match it
    case Literal(text) => []
    case Percent => []
    case StringField(mods, s) => [Str(s)]
    case CharField(mods, n) => [Num(n)]
    case NumberField(mods, c, n) => [Num(n)]
  }

  /** The text in a field as wide as the digits of the modifiers say, at its left end after a '-', else at its right. */
  function InField(mods: string, text: string): string {
    var ds := DigitsOf(mods);
    var fill := if ds != [] && ds[0] == '0' then '0' else ' ';
    var pad := Repeat(fill, if Value(ds, 10) > |text| then Value(ds, 10) - |text| else 0);
    if '-' in mods then text + pad else pad + text
  }

  /** What it prints. */
  function Output(it: Item): string
    requires WellFormed(it)
  {
    match it
    case Literal(text) => text
    case Percent => "%"
    case StringField(mods, s) => InField(mods, if s.Some? then s.value else "(null)")
    case CharField(mods, n) => InField(mods, if n % 256 == 0 then "" else [(n % 256) as char])
    case NumberField(mods, c, n) => NumberText(Folded(PLAIN, mods), c, n)
  }

  // ------------------------------------------------------------------
  // One item

  lemma {:induction false} LiteralFirst(text: string, rest: string, args: seq<Arg>)
    requires '%' !in text
    ensures Rendered(text + rest, args, None) == text + Rendered(rest, args, None)
    decreases |text|
  {
    hide Converted, Modified;
    if text == [] {
      assert text + rest == rest;
    } else {
      assert (text + rest)[0] == text[0] && (text + rest)[1..] == text[1..] + rest;
      LiteralFirst(text[1..], rest, args);
      assert Rendered(text + rest, args, None) == [text[0]] + Rendered(text[1..] + rest, args, None);
    }
  }

  /** The character that ends a field. */
  lemma FieldEnds(c: char, rest: string, arg: seq<Arg>, args: seq<Arg>, f: Field)
    requires !IsModifier(c) && |arg| == if TakesArg(c) then 1 else 0
    ensures Rendered([c] + rest, arg + args, Some(f)) == Converted(f, c, arg + args) + Rendered(rest, args, None)
  {
    hide Converted, Modified, IsModifier, TakesArg;
    assert ([c] + rest)[1..] == rest;
    assert NextArgs(Some(f), c, arg + args) == args;
  }

  lemma FieldFirst(mods: string, c: char, rest: string, arg: seq<Arg>, args: seq<Arg>)
    requires AreModifiers(mods) && !IsModifier(c) && |arg| == if TakesArg(c) then 1 else 0
    ensures Rendered(Format(mods, c) + rest, arg + args, None) ==
      Converted(Folded(PLAIN, mods), c, arg + args) + Rendered(rest, args, None)
  {
    hide Rendered, Converted, Folded, AreModifiers, IsModifier, TakesArg;
    var fmt := Format(mods, c) + rest;
    assert fmt[0] == '%' && fmt[1..] == mods + ([c] + rest);
    FieldStarts(fmt, arg + args);
    ModifiersRendered(mods, [c] + rest, arg + args, PLAIN);
    FieldEnds(c, rest, arg, args, Folded(PLAIN, mods));
  }

  lemma OneSide(f: Field, text: string)
    ensures var pad := Repeat(if f.zero then '0' else ' ', Gap(f, |text|));
      Padded(f, "", "", text) == if f.right then text + pad else pad + text
  {
    hide Repeat;
    var pad := Repeat(if f.zero then '0' else ' ', Gap(f, |text|));
    assert "" + text + pad == text + pad && pad + text + "" == pad + text;
  }

  lemma PaddedInField(mods: string, text: string)
    requires AreModifiers(mods)
    ensures Padded(Folded(PLAIN, mods), "", "", text) == InField(mods, text)
  {
    ModifiersMean(mods);
    hide Folded, DigitsOf, Value, AreModifiers, SizeOf, Padded, Repeat;
    OneSide(Folded(PLAIN, mods), text);
  }

  lemma PercentFirst(rest: string, args: seq<Arg>)
    ensures Rendered("%%" + rest, args, None) == "%" + Rendered(rest, args, None)
  {
    hide Rendered, Padded, InField;
    assert "%%" == Format("", '%') && [] + args == args;
    FieldFirst("", '%', rest, [], args);
    PaddedInField("", "%");
    NoField("%");
  }

  lemma ItemFirst(it: Item, rest: string, args: seq<Arg>)
    requires WellFormed(it)
    ensures Rendered(Written(it) + rest, Given(it) + args, None) == Output(it) + Rendered(rest, args, None)
  {
    hide Rendered, Padded, InField, NumberText, Folded, AreModifiers;
    var all := Given(it) + args;
    match it {
      case Literal(text) =>
        assert all == args;
        LiteralFirst(text, rest, args);
      case Percent =>
        assert all == args;
        PercentFirst(rest, args);
      case StringField(mods, s) =>
        FieldFirst(mods, 's', rest, Given(it), args);
        assert all[0] == Str(s);
        PaddedInField(mods, StringArg(all));
      case CharField(mods, n) =>
        FieldFirst(mods, 'c', rest, Given(it), args);
        assert all[0] == Num(n);
        PaddedInField(mods, CharText(NumberArg(all)));
      case NumberField(mods, c, n) =>
        FieldFirst(mods, c, rest, Given(it), args);
        assert all[0] == Num(n);
    }
  }

  /** Without modifiers a string is printed as it is. */
  lemma NoField(text: string)
    ensures InField("", text) == text
  {
    assert DigitsOf("") == "" && Value("", 10) == 0;
    assert Repeat(' ', 0) + text == text;
  }

  // ------------------------------------------------------------------
  // The whole format

  function WrittenAll(items: seq<Item>): string {
    if items == [] then "" else Written(items[0]) + WrittenAll(items[1..])
  }

  function GivenAll(items: seq<Item>): seq<Arg> {
    if items == [] then [] else Given(items[0]) + GivenAll(items[1..])
  }

  function OutputAll(items: seq<Item>): string
    requires forall i :: 0 <= i < |items| ==> WellFormed(items[i])
  {
    if items == [] then "" else Output(items[0]) + OutputAll(items[1..])
  }

  /** A format prints its items in order, each field with the argument at its place. */
  lemma {:induction false} FormatPrints(items: seq<Item>)
    requires forall i :: 0 <= i < |items| ==> WellFormed(items[i])
    ensures Rendered(WrittenAll(items), GivenAll(items), None) == OutputAll(items)
    decreases |items|
  {
    hide Written, Given, Output, WellFormed;
    if items != [] {
      FormatPrints(items[1..]);
      hide Rendered;
      ItemFirst(items[0], WrittenAll(items[1..]), GivenAll(items[1..]));
    }
  }
}
