/** The names of an OrdererGroup's children. */
module OrdererNames {
  import opened ApiServer

  function Digit(d: nat): char
    requires d < 10
  {
    "0123456789"[d]
  }

  /** The decimal form %d prints. */
  function Decimal(n: nat): (r: string)
    ensures r != "" && forall j :: 0 <= j < |r| ==> r[j] in "0123456789"
  {
    if n < 10 then [Digit(n)] else Decimal(n / 10) + [Digit(n % 10)]
  }

  function Value(digits: string): nat
    requires forall j :: 0 <= j < |digits| ==> digits[j] in "0123456789"
  {
    if digits == "" then 0
    else 10 * Value(digits[..|digits| - 1]) + DigitValue(digits[|digits| - 1])
  }

  function DigitValue(c: char): (d: nat)
    requires c in "0123456789"
    ensures d < 10 && Digit(d) == c
  {
    if c == '0' then 0 else if c == '1' then 1 else if c == '2' then 2 else if c == '3' then 3
    else if c == '4' then 4 else if c == '5' then 5 else if c == '6' then 6 else if c == '7' then 7
    else if c == '8' then 8 else 9
  }

  /** Reading the decimal form gives the number back. */
  lemma {:induction false} DecimalReadsBack(n: nat)
    ensures Value(Decimal(n)) == n
  {
    assert DigitValue(Digit(n % 10)) == n % 10;
    if n >= 10 {
      DecimalReadsBack(n / 10);
      assert Decimal(n)[..|Decimal(n)| - 1] == Decimal(n / 10);
    } else {
      assert Decimal(n)[..0] == "";
    }
  }

  datatype Slot = Consenter | Assembler | Router | Batcher(index: nat)

  function KindOf(slot: Slot): Kind {
    match slot
    case Consenter => OrdererConsenter
    case Assembler => OrdererAssembler
    case Router => OrdererRouter
    case Batcher(_) => OrdererBatcher
  }

  function Suffix(slot: Slot): string {
    match slot
    case Consenter => "-consenter"
    case Assembler => "-assembler"
    case Router => "-router"
    case Batcher(i) => "-batcher-" + Decimal(i)
  }

  function SlotKey(g: Key, slot: Slot): Key {
    Key(KindOf(slot), g.namespace, g.name + Suffix(slot))
  }

  predicate IsChildKind(k: Kind) {
    k in {OrdererConsenter, OrdererAssembler, OrdererRouter, OrdererBatcher}
  }

  /** What follows the last hyphen. */
  function AfterHyphen(name: string): string {
    if name == "" || name[|name| - 1] == '-' then ""
    else AfterHyphen(name[..|name| - 1]) + [name[|name| - 1]]
  }

  lemma {:induction false} AfterHyphenOf(prefix: string, d: string)
    requires '-' !in d
    ensures AfterHyphen(prefix + "-" + d) == d
  {
    var name := prefix + "-" + d;
    if d != "" {
      assert name[..|name| - 1] == prefix + "-" + d[..|d| - 1];
      AfterHyphenOf(prefix, d[..|d| - 1]);
    }
  }

  /** The index can be read off a batcher's name, whatever the group is called. */
  lemma BatcherNameInjective(g: string, i: nat, g': string, i': nat)
    requires g + "-batcher-" + Decimal(i) == g' + "-batcher-" + Decimal(i')
    ensures g == g' && i == i'
  {
    IndexLast(g, Decimal(i));
    IndexLast(g', Decimal(i'));
    DecimalReadsBack(i);
    DecimalReadsBack(i');
    SameEnd(g, g', "-batcher-" + Decimal(i));
  }

  lemma IndexLast(g: string, d: string)
    requires '-' !in d
    ensures AfterHyphen(g + "-batcher-" + d) == d
    ensures g + "-batcher-" + d == g + ("-batcher-" + d)
  {
    assert g + "-batcher-" + d == g + "-batcher" + "-" + d;
    AfterHyphenOf(g + "-batcher", d);
  }

  lemma SameEnd(a: string, b: string, end: string)
    requires a + end == b + end
    ensures a == b
  {
    assert a == (a + end)[..|a|] && b == (b + end)[..|b|];
  }

  /** Distinct groups never share a child, nor does one group use a name twice. */
  lemma SlotKeyInjective(g: Key, slot: Slot, g': Key, slot': Slot)
    requires g.kind == g'.kind && SlotKey(g, slot) == SlotKey(g', slot')
    ensures g == g' && slot == slot'
  {
    match slot
    case Batcher(i) =>
      assert slot'.Batcher?;
      IndexLast(g.name, Decimal(i));
      IndexLast(g'.name, Decimal(slot'.index));
      BatcherNameInjective(g.name, i, g'.name, slot'.index);
    case _ =>
      assert slot == slot';
      SameEnd(g.name, g'.name, Suffix(slot));
  }
}
