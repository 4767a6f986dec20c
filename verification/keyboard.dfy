/**
 * The colour-selection keyboard: an inline keyboard built row by row the
 * first time it is asked for, and cached for every later request.
 */
module Keyboard {
  import opened Base
  import opened Telegram
  import opened Strings

  /** The callback data of the keyboard, row by row. */
  function Layout(): (rows: seq<seq<string>>)
    ensures |rows| == 3 && |rows[0]| == 2 && |rows[1]| == 3 && |rows[2]| == 3
  {
    [[BlackOnWhite, WhiteOnBlack], [Red, Green, Blue], [Yellow, Pink, Purple]]
  }

  /** Every button of the layout passes the callback hook's prefix check. */
  lemma LayoutCarriesPrefix()
    ensures forall i, j :: 0 <= i < |Layout()| && 0 <= j < |Layout()[i]| ==> StartsWith(Layout()[i][j], Prefix)
  {
    ColorKeysCarryPrefix();
    assert Layout()[0] == [ColorKeys[1], ColorKeys[0]];
    assert Layout()[1] == [ColorKeys[2], ColorKeys[3], ColorKeys[4]];
    assert Layout()[2] == [ColorKeys[5], Pink, ColorKeys[7]];
  }

  /**
   * The buttons of one row, each labelled with the text of its callback
   * data; the first key without a text raises KeyNotFoundException and no
   * button of the row is made.
   */
  function LabelRow(keys: seq<string>, lang: Option<string>): (r: Result<seq<Button>, Exception>)
    ensures r.Success? ==> |r.value| == |keys| && forall i :: 0 <= i < |keys| ==> r.value[i].callbackData == keys[i]
    decreases |keys|
  {
    if keys == [] then Success([])
    else
      match GetLocalizedString(keys[0], lang)
      case Failure(e) => Failure(e)
      case Success(text) =>
        match LabelRow(keys[1..], lang)
        case Failure(e) => Failure(e)
        case Success(rest) => Success([Button(text, keys[0])] + rest)
  }

  /** Every key of the row has an entry in the string table. */
  predicate AllHaveTexts(keys: seq<string>)
  {
    forall i :: 0 <= i < |keys| ==> keys[i] in Map
  }

  /**
   * A row succeeds exactly when every key has a text; otherwise the error is
   * KeyNotFoundException on the first key without one, since the labels are
   * looked up in order.
   */
  lemma {:induction false} LabelRowSucceeds(keys: seq<string>, lang: Option<string>)
    ensures LabelRow(keys, lang).Success? <==> AllHaveTexts(keys)
    ensures LabelRow(keys, lang).Failure? ==>
      exists i :: FirstWithoutText(keys, i) && LabelRow(keys, lang).error == KeyNotFoundException(keys[i])
    decreases |keys|
  {
    if keys != [] {
      var rest := keys[1..];
      LabelRowSucceeds(rest, lang);
      if keys[0] !in Map {
        assert FirstWithoutText(keys, 0);
      } else if LabelRow(rest, lang).Failure? {
        var i :| FirstWithoutText(rest, i) && LabelRow(rest, lang).error == KeyNotFoundException(rest[i]);
        assert keys[i + 1] == rest[i];
        assert forall j :: 0 < j < i + 1 ==> keys[j] == rest[j - 1];
        assert FirstWithoutText(keys, i + 1);
      }
      if AllHaveTexts(keys) {
        assert forall i :: 0 <= i < |rest| ==> rest[i] == keys[i + 1];
      }
    }
  }

  /** `keys[i]` is the first key of the row without a text. */
  predicate FirstWithoutText(keys: seq<string>, i: int)
  {
    0 <= i < |keys| && keys[i] !in Map && forall j :: 0 <= j < i ==> keys[j] in Map
  }

  /** Each button of a successful row is labelled with its key's text in the language asked for. */
  lemma {:induction false} LabelRowLabels(keys: seq<string>, lang: Option<string>)
    requires LabelRow(keys, lang).Success?
    ensures forall i :: 0 <= i < |keys| ==> IsLabelOf(LabelRow(keys, lang).value[i], keys[i], lang)
    decreases |keys|
  {
    if keys != [] {
      LabelRowLabels(keys[1..], lang);
      var r := LabelRow(keys, lang).value;
      forall i | 0 <= i < |keys|
        ensures IsLabelOf(r[i], keys[i], lang)
      {
        if i > 0 {
          assert r[i] == LabelRow(keys[1..], lang).value[i - 1];
          assert keys[i] == keys[1..][i - 1];
        }
      }
    }
  }

  /** `b` is the button for `key`: its text is the text of `key` in the language asked for. */
  predicate IsLabelOf(b: Button, key: string, lang: Option<string>)
  {
    key in Map && b == Button(Localized(key, lang), key)
  }

  predicate AllLabelled(rows: Rows, lang: Option<string>)
  {
    forall i, j :: 0 <= i < |rows| && 0 <= j < |rows[i]| ==> IsLabelOf(rows[i][j], rows[i][j].callbackData, lang)
  }

  /** The library's AddButtons: the buttons join the last row, or form the first one. */
  function AddButtonsTo(rows: Rows, buttons: seq<Button>): Rows
  {
    if rows == [] then [buttons] else rows[..|rows| - 1] + [rows[|rows| - 1] + buttons]
  }

  /** After AddNewRow, AddButtons fills the new row. */
  lemma AddButtonsToNewRow(rows: Rows, buttons: seq<Button>)
    ensures AddButtonsTo(rows + [[]], buttons) == rows + [buttons]
  {
    assert (rows + [[]])[..|rows|] == rows;
    assert [] + buttons == buttons;
  }

  lemma AddButtonsKeepsLabels(rows: Rows, buttons: seq<Button>, lang: Option<string>)
    requires AllLabelled(rows, lang)
    requires forall j :: 0 <= j < |buttons| ==> IsLabelOf(buttons[j], buttons[j].callbackData, lang)
    ensures AllLabelled(AddButtonsTo(rows, buttons), lang)
  {
    if rows != [] {
      var n := |rows| - 1;
      var last := rows[n] + buttons;
      assert forall j :: 0 <= j < |last| ==> IsLabelOf(last[j], last[j].callbackData, lang) by {
        forall j | 0 <= j < |last| ensures IsLabelOf(last[j], last[j].callbackData, lang) {
          if j < |rows[n]| { assert last[j] == rows[n][j]; } else { assert last[j] == buttons[j - |rows[n]|]; }
        }
      }
    }
  }

  /** The rows built so far, and whether building stopped on an exception. */
  datatype Built = Built(rows: Rows, outcome: Outcome<Exception>)

  /** What labelling one row yields: its buttons, or the exception it raised. */
  type Labelled = Result<seq<Button>, Exception>

  /**
   * Building a keyboard from the labelling of each row: one AddButtons per
   * row, with an AddNewRow before every row but the first. The first row
   * whose labelling raised stops the build; the rows made so far stay.
   */
  function BuildFrom(labelled: seq<Labelled>): (b: Built)
    decreases |labelled|
  {
    if labelled == [] then Built([], Pass)
    else
      var prev := BuildFrom(labelled[..|labelled| - 1]);
      if prev.outcome.Fail? then prev
      else
        var rows := if |labelled| == 1 then prev.rows else prev.rows + [[]];
        match labelled[|labelled| - 1]
        case Failure(e) => Built(rows, Fail(e))
        case Success(buttons) => Built(AddButtonsTo(rows, buttons), Pass)
  }

  /**
   * Building a keyboard from a layout. Labelling a row has no effect, so
   * labelling every row up front and stopping the build at the first row
   * that raised is labelling row by row and stopping at the first exception.
   */
  function Build(layout: seq<seq<string>>, lang: Option<string>): Built
  {
    BuildFrom(seq(|layout|, i requires 0 <= i < |layout| => LabelRow(layout[i], lang)))
  }

  /** The first row: its buttons, or no row and the exception. */
  lemma BuildFirstRow(r: Labelled)
    ensures r.Success? ==> BuildFrom([r]) == Built([r.value], Pass)
    ensures r.Failure? ==> BuildFrom([r]) == Built([], Fail(r.error))
  {
    assert [r][..0] == [];
  }

  /**
   * After a completed build, a labelled row becomes one more row of
   * buttons; a row that raised stops the build after AddNewRow has opened
   * an empty row.
   */
  lemma BuildNextRow(front: seq<Labelled>, r: Labelled)
    requires front != [] && BuildFrom(front).outcome == Pass
    ensures r.Success? ==> BuildFrom(front + [r]) == Built(BuildFrom(front).rows + [r.value], Pass)
    ensures r.Failure? ==> BuildFrom(front + [r]) == Built(BuildFrom(front).rows + [[]], Fail(r.error))
  {
    assert (front + [r])[..|front|] == front;
    if r.Success? {
      AddButtonsToNewRow(BuildFrom(front).rows, r.value);
    }
  }

  /** When no row raised, the build completes with one full row per labelled row. */
  lemma {:induction false} BuildComplete(labelled: seq<Labelled>)
    requires forall i :: 0 <= i < |labelled| ==> labelled[i].Success?
    ensures BuildFrom(labelled).outcome == Pass
    ensures |BuildFrom(labelled).rows| == |labelled|
    ensures forall i :: 0 <= i < |labelled| ==> labelled[i] == Success(BuildFrom(labelled).rows[i])
    decreases |labelled|
  {
    if labelled != [] {
      var n := |labelled| - 1;
      var r := labelled[n];
      if n == 0 {
        BuildFirstRow(r);
        assert labelled == [r];
      } else {
        var front := labelled[..n];
        BuildComplete(front);
        BuildNextRow(front, r);
        FrontThenLast(labelled);
        assert BuildFrom(labelled) == Built(BuildFrom(front).rows + [r.value], Pass);
        forall i | 0 <= i < n
          ensures labelled[i] == Success(BuildFrom(labelled).rows[i])
        {
          assert front[i] == labelled[i];
        }
      }
    }
  }

  /** When every key of the layout has a text, the build completes with one full row per layout row. */
  lemma LayoutComplete(layout: seq<seq<string>>, lang: Option<string>)
    requires forall i :: 0 <= i < |layout| ==> AllHaveTexts(layout[i])
    ensures Build(layout, lang).outcome == Pass
    ensures |Build(layout, lang).rows| == |layout|
    ensures forall i :: 0 <= i < |layout| ==> LabelRow(layout[i], lang) == Success(Build(layout, lang).rows[i])
  {
    var labelled := seq(|layout|, i requires 0 <= i < |layout| => LabelRow(layout[i], lang));
    forall i | 0 <= i < |layout|
      ensures labelled[i].Success?
    {
      LabelRowSucceeds(layout[i], lang);
    }
    BuildComplete(labelled);
  }

  /** Every row a build adds holds buttons labelled with the text of their own callback data. */
  predicate RowsLabelled(labelled: seq<Labelled>, lang: Option<string>)
  {
    forall i, j :: 0 <= i < |labelled| && labelled[i].Success? && 0 <= j < |labelled[i].value| ==>
      IsLabelOf(labelled[i].value[j], labelled[i].value[j].callbackData, lang)
  }

  lemma {:induction false} BuildFromLabels(labelled: seq<Labelled>, lang: Option<string>)
    requires RowsLabelled(labelled, lang)
    ensures AllLabelled(BuildFrom(labelled).rows, lang)
    decreases |labelled|
  {
    if labelled != [] {
      var front := labelled[..|labelled| - 1];
      var prev := BuildFrom(front);
      assert RowsLabelled(front, lang) by {
        forall i | 0 <= i < |front| ensures front[i] == labelled[i] { }
      }
      BuildFromLabels(front, lang);
      if prev.outcome.Pass? {
        var rows := if |labelled| == 1 then prev.rows else prev.rows + [[]];
        assert AllLabelled(rows, lang);
        match labelled[|labelled| - 1]
        case Failure(e) =>
        case Success(buttons) =>
          AddButtonsKeepsLabels(rows, buttons, lang);
      }
    }
  }

  /** Every button built is labelled with the text of its own callback data, in the language asked for. */
  lemma BuildLabels(layout: seq<seq<string>>, lang: Option<string>)
    ensures AllLabelled(Build(layout, lang).rows, lang)
  {
    var labelled := seq(|layout|, i requires 0 <= i < |layout| => LabelRow(layout[i], lang));
    forall i | 0 <= i < |layout| && labelled[i].Success?
      ensures forall j :: 0 <= j < |labelled[i].value| ==>
                IsLabelOf(labelled[i].value[j], labelled[i].value[j].callbackData, lang)
    {
      LabelRowLabels(layout[i], lang);
    }
    BuildFromLabels(labelled, lang);
  }

  /**
   * With the table as it is, the third row fails on Pink: the build stops
   * with KeyNotFoundException after the first two rows and the empty row
   * that AddNewRow opened for the third.
   */
  lemma BuildStopsAtPink(lang: Option<string>)
    ensures LabelRow(Layout()[0], lang).Success? && LabelRow(Layout()[1], lang).Success? &&
      Build(Layout(), lang) == Built([LabelRow(Layout()[0], lang).value, LabelRow(Layout()[1], lang).value, []], Fail(KeyNotFoundException(Pink)))
  {
    LayoutRows(lang);
    var l := Layout();
    BuildStopsAtThirdRow(seq(|l|, i requires 0 <= i < |l| => LabelRow(l[i], lang)));
  }

  /** Two labelled rows and a third that raised: the build stops on the third. */
  lemma BuildStopsAtThirdRow(labelled: seq<Labelled>)
    requires |labelled| == 3 && labelled[0].Success? && labelled[1].Success? && labelled[2].Failure?
    ensures BuildFrom(labelled) == Built([labelled[0].value, labelled[1].value, []], Fail(labelled[2].error))
  {
    BuildFirstRow(labelled[0]);
    assert [labelled[0]] + [labelled[1]] == labelled[..2];
    BuildNextRow([labelled[0]], labelled[1]);
    assert labelled[..2] + [labelled[2]] == labelled;
    BuildNextRow(labelled[..2], labelled[2]);
  }

  /** The first two rows of the layout have texts; the third stops at Pink. */
  lemma LayoutRows(lang: Option<string>)
    ensures LabelRow(Layout()[0], lang).Success?
    ensures LabelRow(Layout()[1], lang).Success?
    ensures LabelRow(Layout()[2], lang) == Failure(KeyNotFoundException(Pink))
  {
    FirstRowsHaveTexts(lang);
    ThirdRowStopsAtPink(lang);
  }

  /** Every key of the first two rows has a text, so both rows label. */
  lemma FirstRowsHaveTexts(lang: Option<string>)
    ensures LabelRow(Layout()[0], lang).Success? && LabelRow(Layout()[1], lang).Success?
  {
    ColorKeysKnown();
    var first, second := Layout()[0], Layout()[1];
    assert AllHaveTexts(first) by {
      assert first == [ColorKeys[1], ColorKeys[0]];
    }
    assert AllHaveTexts(second) by {
      assert second == [ColorKeys[2], ColorKeys[3], ColorKeys[4]];
    }
    LabelRowSucceeds(first, lang);
    LabelRowSucceeds(second, lang);
  }

  /** The third row raises on its second key, Pink, after labelling Yellow. */
  lemma ThirdRowStopsAtPink(lang: Option<string>)
    ensures LabelRow(Layout()[2], lang) == Failure(KeyNotFoundException(Pink))
  {
    ColorKeysKnown();
    PinkUnknown();
    var third := Layout()[2];
    assert third == [ColorKeys[5], Pink, ColorKeys[7]];
    assert third[1..] == [Pink, Purple];
    assert GetLocalizedString(Pink, lang) == Failure(KeyNotFoundException(Pink));
  }

  /** What a request for the keyboard yields, and what the cache holds afterwards. */
  datatype Cached = Cached(cache: Option<Rows>, result: Result<Rows, Exception>)

  /** The first request builds and caches; every later request returns the cached keyboard as it is. */
  function MarkupGet(cache: Option<Rows>, lang: Option<string>): (c: Cached)
    ensures cache.Some? ==> c == Cached(cache, Success(cache.value))
    ensures c.cache.Some?
  {
    match cache
    case Some(rows) => Cached(cache, Success(rows))
    case None =>
      var b := Build(Layout(), lang);
      Cached(Some(b.rows), match b.outcome case Pass => Success(b.rows) case Fail(e) => Failure(e))
  }

  /**
   * The first request raises KeyNotFoundException on Pink, and caches the
   * first two rows and an empty third row.
   */
  lemma FirstRequestFails(lang: Option<string>)
    ensures LabelRow(Layout()[0], lang).Success? && LabelRow(Layout()[1], lang).Success? &&
      MarkupGet(None, lang) == Cached(Some([LabelRow(Layout()[0], lang).value, LabelRow(Layout()[1], lang).value, []]),
             Failure(KeyNotFoundException(Pink)))
  {
    BuildStopsAtPink(lang);
  }

  /** The first request's outcome alone: it raises on Pink. */
  lemma FirstRequestRaises(lang: Option<string>)
    ensures MarkupGet(None, lang).result == Failure(KeyNotFoundException(Pink))
  {
    FirstRequestFails(lang);
  }

  /** Once cached, the keyboard is the same for every language: labels stay in the first caller's language. */
  lemma CachedIgnoresLanguage(rows: Rows, lang1: Option<string>, lang2: Option<string>)
    ensures MarkupGet(Some(rows), lang1) == MarkupGet(Some(rows), lang2)
  {
  }

  /** The library's inline keyboard markup. */
  class InlineKeyboard {
    var rows: Rows

    constructor()
      ensures rows == []
    {
      rows := [];
    }

    method AddButtons(buttons: seq<Button>)
      modifies this
      ensures rows == AddButtonsTo(old(rows), buttons)
    {
      rows := AddButtonsTo(rows, buttons);
    }

    method AddNewRow()
      modifies this
      ensures rows == old(rows) + [[]]
    {
      rows := rows + [[]];
    }

    /** Labels the buttons of `keys` and adds them as one AddButtons call, unless a label raises. */
    method AddLabelledButtons(keys: seq<string>, lang: Option<string>) returns (o: Outcome<Exception>)
      modifies this
      ensures o.Pass? <==> LabelRow(keys, lang).Success?
      ensures o.Pass? ==> rows == AddButtonsTo(old(rows), LabelRow(keys, lang).value)
      ensures o.Fail? ==> rows == old(rows) && o.error == LabelRow(keys, lang).error
    {
      match LabelRow(keys, lang)
      case Failure(e) =>
        o := Fail(e);
      case Success(buttons) =>
        AddButtons(buttons);
        o := Pass;
    }
  }

  /** The process-wide cache of the colour keyboard. */
  class ColorSelectionMarkup {
    var markup: InlineKeyboard?

    constructor()
      ensures markup == null
    {
      markup := null;
    }

    /** The cache as a value. */
    ghost function View(): Option<Rows>
      reads this, markup
    {
      if markup == null then None else Some(markup.rows)
    }

    /**
     * The keyboard: built and cached on the first call, in that call's
     * language; the cached object on every later call. The cache is set
     * before the rows are added, so a build that raises leaves it holding
     * the rows made so far.
     */
    method Get(langCode: Option<string>) returns (r: Result<InlineKeyboard, Exception>)
      modifies this
      ensures markup != null
      ensures old(markup) != null ==> markup == old(markup) && markup.rows == old(markup.rows)
      ensures old(markup) == null ==> fresh(markup)
      ensures r.Success? ==> r.value == markup
      ensures r.Success? ==> MarkupGet(old(View()), langCode) == Cached(View(), Success(markup.rows))
      ensures r.Failure? ==> MarkupGet(old(View()), langCode) == Cached(View(), Failure(r.error))
    {
      if markup != null {
        return Success(markup);
      }
      assert old(View()) == None;
      var k := new InlineKeyboard();
      markup := k;
      var o := AddLayoutRows(k, langCode);
      match o {
        case Fail(e) => r := Failure(e);
        case Pass => r := Success(k);
      }
    }

    /**
     * The rows of the layout added to a new keyboard: one AddButtons per
     * row, with an AddNewRow before every row but the first. A label that
     * raises stops it, and the rows added so far stay.
     */
    static method AddLayoutRows(k: InlineKeyboard, langCode: Option<string>) returns (o: Outcome<Exception>)
      requires k.rows == []
      modifies k
      ensures Build(Layout(), langCode) == Built(k.rows, o)
    {
      AddFirstRows(k, langCode);
      ghost var first := k.rows;
      k.AddNewRow();
      ThirdRowStopsAtPink(langCode);
      o := k.AddLabelledButtons(Layout()[2], langCode);
      assert o == Fail(KeyNotFoundException(Pink)) && k.rows == first + [[]];
      BuildStopsAtPink(langCode);
      assert first + [[]] == [first[0], first[1], []];
    }

    /** The first two rows of the layout, which every key in them has a text for. */
    static method AddFirstRows(k: InlineKeyboard, langCode: Option<string>)
      requires k.rows == []
      modifies k
      ensures LabelRow(Layout()[0], langCode).Success? && LabelRow(Layout()[1], langCode).Success?
      ensures k.rows == [LabelRow(Layout()[0], langCode).value, LabelRow(Layout()[1], langCode).value]
    {
      var l := Layout();
      FirstRowsHaveTexts(langCode);
      ghost var row0, row1 := LabelRow(l[0], langCode).value, LabelRow(l[1], langCode).value;
      var o := k.AddLabelledButtons(l[0], langCode);
      assert k.rows == [row0];
      k.AddNewRow();
      o := k.AddLabelledButtons(l[1], langCode);
      AddButtonsToNewRow([row0], row1);
    }
  }
}
