/**
 * The text of the view-list reply: the empty-list notice, or a title followed
 * by one numbered line per item, in store order, each line marked with a
 * glyph for bought or still to buy.
 */
module ListView {
  import opened Decimal
  import opened Text

  /** A row of the item store, as the view-list reply uses it. */
  datatype Item = Item(name: string, bought: bool)

  const BoughtGlyph: char := '\U{2705}'
  const PendingGlyph: char := '\U{1F7E2}'
  const EmptyListText: string := "\U{1F6CD}\U{FE0F} Your list is empty!"
  const ListTitle: string := "\U{1F4DD} *Your Shopping List:*"

  function Glyph(item: Item): char {
    if item.bought then BoughtGlyph else PendingGlyph
  }

  /** Line number k (counting from 1): `${k}. ${glyph} ${name}`. */
  function Line(k: nat, item: Item): string {
    Show(k) + ". " + [Glyph(item)] + " " + item.name
  }

  /** `items.map((i, idx) => line idx + 1)`. */
  function Lines(items: seq<Item>): seq<string> {
    seq(|items|, k requires 0 <= k < |items| => Line(k + 1, items[k]))
  }

  /** The full text of the reply to a view-list request: the empty notice exactly when there are no items, else the title first. */
  function ViewText(items: seq<Item>): (r: string)
    ensures |items| == 0 <==> r == EmptyListText
    ensures |items| > 0 ==> StartsWith(r, ListTitle + "\n\n")
  {
    if |items| == 0 then EmptyListText
    else
      var r := ListTitle + "\n\n" + Join(Lines(items));
      assert r[0] == ListTitle[0] != EmptyListText[0];
      assert r[..|ListTitle + "\n\n"|] == ListTitle + "\n\n";
      r
  }

  /** A line can be read back: its number, its glyph and the item's name. */
  lemma LineDecodes(k: nat, item: Item)
    ensures var line, n := Line(k, item), |Show(k)|;
      && |line| == n + 4 + |item.name|
      && AllDigits(line[..n]) && Parse(line[..n]) == k
      && line[n..n + 2] == ". " && line[n + 3] == ' '
      && (line[n + 2] == BoughtGlyph <==> item.bought)
      && line[n + 4..] == item.name
  {
    var line, n := Line(k, item), |Show(k)|;
    assert line[..n] == Show(k);
    assert line[n + 4..] == item.name;
    ParseShow(k);
  }

  lemma LineHasNoBreak(k: nat, item: Item)
    requires NoBreak(item.name)
    ensures NoBreak(Line(k, item))
  {
    var line, n := Line(k, item), |Show(k)|;
    LineDecodes(k, item);
    forall i | 0 <= i < |line| ensures line[i] != '\n' {
      if i < n {
        assert line[i] == line[..n][i];
      } else if i >= n + 4 {
        assert line[i] == item.name[i - n - 4];
      }
    }
  }

  lemma SplitTitled(title: string, body: string)
    requires NoBreak(title)
    ensures Split(title + "\n\n" + body) == [title, ""] + Split(body)
  {
    var rest := "\n" + body;
    calc {
      Split(title + "\n\n" + body);
      { assert title + "\n\n" + body == title + "\n" + rest; }
      Split(title + "\n" + rest);
      { SplitCons(title, rest); }
      [title] + Split(rest);
      { assert rest == "" + "\n" + body; SplitCons("", body); }
      [title] + ([""] + Split(body));
    }
  }

  /**
   * For items whose names hold no line break, the reply's lines are the title,
   * an empty line, and then `Lines(items)`: line k+1 for the k-th item, one
   * per item and in store order.
   */
  lemma ViewTextLines(items: seq<Item>)
    requires |items| > 0
    requires forall k | 0 <= k < |items| :: NoBreak(items[k].name)
    ensures Split(ViewText(items)) == [ListTitle, ""] + Lines(items)
  {
    var lines := Lines(items);
    LinesHaveNoBreak(items);
    SplitJoin(lines);
    SplitTitled(ListTitle, Join(lines));
  }

  lemma LinesHaveNoBreak(items: seq<Item>)
    requires forall k | 0 <= k < |items| :: NoBreak(items[k].name)
    ensures forall k | 0 <= k < |Lines(items)| :: NoBreak(Lines(items)[k])
  {
    forall k | 0 <= k < |items| ensures NoBreak(Lines(items)[k]) {
      LineHasNoBreak(k + 1, items[k]);
    }
  }
}
