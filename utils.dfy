/**
  `ListJoiner`: joins a list of items, each turned into text by its own
  renderer, with a separator and a pair of bounds; items after the first
  whose text is empty are skipped, and the errors of all items are kept
  in order.
*/
module Joiner {
  import opened PyText
  import opened UmlCode
  import opened CodeGen

  /**
    What can be joined: an element already rendered in the join's context,
    a data-type token (any string in the source, since `DataType` is `str`),
    or any other value shown with `str`.
  */
  datatype Item = Generated(out: Out) | Token(token: string) | Shown(shown: string)

  /** `JoinItem`: the list (possibly missing), the separator, the bounds and the default. */
  datatype JoinItem = JoinItem(list: Option<seq<Item>>, sep: string, bounds: (string, string), default: Option<string>)

  /** The bounds used when none are given. */
  const EmptyBound: (string, string) := ("", "")

  /** `JoinItem.__init__`: missing bounds become the empty pair. */
  function NewJoinItem(list: Option<seq<Item>>, sep: string, bounds: Option<(string, string)>,
                       default: Option<string>): (r: JoinItem)
    ensures r.list == list && r.sep == sep && r.default == default
    ensures bounds.None? ==> r.bounds == ("", "")
    ensures bounds.Some? ==> r.bounds == bounds.value
  {
    JoinItem(list, sep, if bounds.None? then EmptyBound else bounds.value, default)
  }

  /**
    `ListJoiner.to_str`: a rendered element keeps its own text and errors;
    a token is spelt in the style and never fails; anything else is shown as it is.
  */
  function ToStr(item: Item, style: CodeStyle): (r: Out)
    ensures !item.Generated? ==> r.errors == []
    ensures item.Generated? ==> r == item.out
    ensures item.Token? ==> r.text == TypeNormalization(item.token, style)
    ensures item.Shown? ==> r.text == item.shown
  {
    match item
    case Generated(out) => out
    case Token(t) => Out(TypeNormalization(t, style), [])
    case Shown(s) => Out(s, [])
  }

  /** `first` followed by the non-empty texts of `rest`, each preceded by `sep`. */
  function Joined(first: string, rest: seq<Item>, sep: string, style: CodeStyle): string
  {
    if rest == [] then first
    else
      var pre := Joined(first, rest[..|rest| - 1], sep, style);
      var t := ToStr(rest[|rest| - 1], style).text;
      if |t| > 0 then pre + sep + t else pre
  }

  /** The errors of every item, in list order. */
  function Errors(items: seq<Item>, style: CodeStyle): seq<Error>
  {
    if items == [] then [] else Errors(items[..|items| - 1], style) + ToStr(items[|items| - 1], style).errors
  }

  /** `ListJoiner._join`, as a value. */
  function Join(it: JoinItem, style: CodeStyle): Out
  {
    if it.list.None? || it.list.value == [] then
      Out(if it.default.None? then it.bounds.0 + it.bounds.1 else it.default.value, [])
    else
      var l := it.list.value;
      Out(it.bounds.0 + Joined(ToStr(l[0], style).text, l[1..], it.sep, style) + it.bounds.1, Errors(l, style))
  }

  /** The texts of the items that are not empty. */
  function NonEmptyTexts(items: seq<Item>, style: CodeStyle): seq<string>
  {
    if items == [] then []
    else
      var pre := NonEmptyTexts(items[..|items| - 1], style);
      var t := ToStr(items[|items| - 1], style).text;
      if |t| > 0 then pre + [t] else pre
  }

  /** The joiner is `sep.join` over the first text and the non-empty texts after it. */
  lemma {:induction false} JoinedIsStdJoin(first: string, rest: seq<Item>, sep: string, style: CodeStyle)
    ensures Joined(first, rest, sep, style) == StdJoin([first] + NonEmptyTexts(rest, style), sep)
  {
    if rest != [] {
      var init := rest[..|rest| - 1];
      JoinedIsStdJoin(first, init, sep, style);
      var t := ToStr(rest[|rest| - 1], style).text;
      if |t| > 0 {
        StdJoinAppend([first] + NonEmptyTexts(init, style), t, sep);
        assert [first] + NonEmptyTexts(rest, style) == [first] + NonEmptyTexts(init, style) + [t];
      }
    }
  }

  /** The errors of two lists one after the other are the errors of their concatenation. */
  lemma {:induction false} ErrorsConcat(a: seq<Item>, b: seq<Item>, style: CodeStyle)
    ensures Errors(a + b, style) == Errors(a, style) + Errors(b, style)
  {
    if b != [] {
      var ab := a + b;
      assert ab[..|ab| - 1] == a + b[..|b| - 1];
      ErrorsConcat(a, b[..|b| - 1], style);
    } else {
      assert a + b == a;
    }
  }

  /** When no item reports an error, neither does the list. */
  lemma {:induction false} ErrorsWhenNoneFail(items: seq<Item>, style: CodeStyle)
    requires forall i :: 0 <= i < |items| ==> ToStr(items[i], style).errors == []
    ensures Errors(items, style) == []
  {
    if items != [] {
      ErrorsWhenNoneFail(items[..|items| - 1], style);
    }
  }

  /** A join reports an error only when one of its items does. */
  lemma JoinFailsOnlyThroughItems(it: JoinItem, style: CodeStyle)
    requires it.list.Some? ==> forall i :: 0 <= i < |it.list.value| ==> ToStr(it.list.value[i], style).errors == []
    ensures Join(it, style).errors == []
  {
    if it.list.Some? {
      ErrorsWhenNoneFail(it.list.value, style);
    }
  }

  /**
    The shape of a join: an empty or missing list gives the default (the two
    bounds when there is none) and no error; otherwise the bounds enclose
    `sep.join` of the first text and the non-empty texts after it.
  */
  lemma JoinShape(it: JoinItem, style: CodeStyle)
    ensures it.list.None? || it.list.value == [] ==>
              Join(it, style) == Out(if it.default.None? then it.bounds.0 + it.bounds.1 else it.default.value, [])
    ensures it.list.Some? && it.list.value != [] ==>
              var l := it.list.value;
              Join(it, style).text ==
                it.bounds.0 + StdJoin([ToStr(l[0], style).text] + NonEmptyTexts(l[1..], style), it.sep) + it.bounds.1
  {
    if it.list.Some? && it.list.value != [] {
      var l := it.list.value;
      JoinedIsStdJoin(ToStr(l[0], style).text, l[1..], it.sep, style);
    }
  }

  /** A single item is enclosed in the bounds whatever the separator. */
  lemma JoinSingle(item: Item, sep: string, bounds: (string, string), default: Option<string>, style: CodeStyle)
    ensures Join(JoinItem(Some([item]), sep, bounds, default), style)
         == Out(bounds.0 + ToStr(item, style).text + bounds.1, ToStr(item, style).errors)
  {
    assert [item][..0] == [] && [item][1..] == [];
    assert Errors([item], style) == ToStr(item, style).errors;
  }

  /** Two items whose second text is not empty are joined around the separator. */
  lemma JoinPair(x: Item, y: Item, sep: string, bounds: (string, string), default: Option<string>, style: CodeStyle)
    requires ToStr(y, style).text != ""
    ensures Join(JoinItem(Some([x, y]), sep, bounds, default), style).text
         == bounds.0 + ToStr(x, style).text + sep + ToStr(y, style).text + bounds.1
  {
    assert [x, y][1..] == [y] && [y][..0] == [];
    assert Joined(ToStr(x, style).text, [y], sep, style) == ToStr(x, style).text + sep + ToStr(y, style).text;
  }

  /**
    An empty first text is not skipped: when a later item has text the
    joined text starts with the separator.
  */
  lemma {:induction false} JoinKeepsEmptyFirst(first: Item, rest: seq<Item>, sep: string, style: CodeStyle)
    requires ToStr(first, style).text == ""
    requires NonEmptyTexts(rest, style) != []
    ensures var t := Joined("", rest, sep, style);
      |sep| <= |t| && t[..|sep|] == sep
  {
    var n := NonEmptyTexts(rest, style);
    JoinedIsStdJoin("", rest, sep, style);
    assert ([""] + n)[1..] == n;
    assert StdJoin([""] + n, sep) == "" + sep + StdJoin(n, sep);
  }

  /**
    The texts an unbounded join with an empty default lays out: a single
    empty text for an empty list, otherwise the first text and the non-empty
    texts after it.
  */
  function JoinedTexts(items: seq<Item>, style: CodeStyle): (r: seq<string>)
    ensures r != []
  {
    if items == [] then [""] else [ToStr(items[0], style).text] + NonEmptyTexts(items[1..], style)
  }

  /** Without bounds and with an empty default a join is `sep.join` of its laid-out texts. */
  lemma JoinUnbounded(items: seq<Item>, sep: string, style: CodeStyle)
    ensures Join(JoinItem(Some(items), sep, EmptyBound, Some("")), style).text == StdJoin(JoinedTexts(items, style), sep)
  {
    var it := JoinItem(Some(items), sep, EmptyBound, Some(""));
    JoinShape(it, style);
    if items != [] {
      var j := StdJoin(JoinedTexts(items, style), sep);
      assert "" + j + "" == j;
    }
  }

  /** `ListJoiner._join`: the loop over the items after the first. */
  method JoinList(it: JoinItem, style: CodeStyle) returns (r: Out)
    ensures r == Join(it, style)
  {
    if it.list.None? || |it.list.value| == 0 {
      return Out(if it.default.None? then it.bounds.0 + it.bounds.1 else it.default.value, []);
    }
    var l := it.list.value;
    var head := ToStr(l[0], style);
    var out, errors := head.text, head.errors;
    assert l[..1][..0] == [];
    for i := 1 to |l|
      invariant out == Joined(head.text, l[1..i], it.sep, style)
      invariant errors == Errors(l[..i], style)
    {
      var aux := ToStr(l[i], style);
      assert l[1..i + 1][..i - 1] == l[1..i];
      assert l[..i + 1][..i] == l[..i];
      if |aux.errors| > 0 {
        errors := errors + aux.errors;
      }
      if |aux.text| > 0 {
        out := out + it.sep + aux.text;
      }
    }
    assert l[..|l|] == l;
    r := Out(it.bounds.0 + out + it.bounds.1, errors);
  }

  /** Every name of an ordered dictionary occurs once. */
  predicate DistinctNames(items: seq<(string, JoinItem)>)
  {
    forall i, j :: 0 <= i < j < |items| ==> items[i].0 != items[j].0
  }

  /** The errors of every join in dictionary order. */
  function GroupErrors(items: seq<(string, JoinItem)>, style: CodeStyle): seq<Error>
  {
    if items == [] then []
    else GroupErrors(items[..|items| - 1], style) + Join(items[|items| - 1].1, style).errors
  }

  /** The errors of two named joins: the first join's, then the second's. */
  lemma GroupErrorsPair(a: (string, JoinItem), b: (string, JoinItem), style: CodeStyle)
    ensures GroupErrors([a, b], style) == Join(a.1, style).errors + Join(b.1, style).errors
  {
    assert [a, b][..1] == [a] && [a][..0] == [];
    assert GroupErrors([a], style) == Join(a.1, style).errors;
  }

  /**
    `ListJoiner.join`: joins every named item; each name maps to its own
    join, and the errors of all joins are kept in dictionary order.
  */
  method JoinGroups(items: seq<(string, JoinItem)>, style: CodeStyle)
    returns (values: map<string, string>, errors: seq<Error>)
    requires DistinctNames(items)
    ensures values.Keys == set i | 0 <= i < |items| :: items[i].0
    ensures forall i :: 0 <= i < |items| ==> values[items[i].0] == Join(items[i].1, style).text
    ensures errors == GroupErrors(items, style)
  {
    values, errors := map[], [];
    for k := 0 to |items|
      invariant values.Keys == set i | 0 <= i < k :: items[i].0
      invariant forall i :: 0 <= i < k ==> values[items[i].0] == Join(items[i].1, style).text
      invariant errors == GroupErrors(items[..k], style)
    {
      var r := JoinList(items[k].1, style);
      assert items[..k + 1][..k] == items[..k];
      errors := errors + r.errors;
      values := values[items[k].0 := r.text];
    }
    assert items[..|items|] == items;
  }
}
