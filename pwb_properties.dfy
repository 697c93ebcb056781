/**
 * Properties of the parsers of BotCpp/BotCpp/pwb.h that relate several
 * calls or describe the quirks of the frame bookkeeping: where error
 * messages land and what `pwb_printErrors` then walks, the context flag
 * after a successful parse, and the different empty lists.
 */
module PwbProperties {
  import opened Wrappers
  import opened PwbData
  import opened PwbGrammar
  import opened PwbSpec

  /**
   * A failing `parseChar` leaves its own frame without a message and puts
   * "Could not find the char." into the frame above it.  When the context
   * had not failed before, `pwb_printErrors` then walks the frames up to
   * and including the failed parser's own, so that message is never shown.
   */
  lemma CharErrorSlot(input: string, s: State, c: char)
    requires Wf(input, s) && s.depth <= NumMaxParseLevels - 2 && c != '\0'
    requires !CharAt(input, s.next, c)
    ensures var r := ParseChar(input, s, c).st;
      && !r.success && r.depth == s.depth && r.maxDepth == s.maxDepth + 1
      && r.frames[s.depth] == MkParserInvocation(CharParser, s.next)
      && r.frames[s.depth + 1].errorMessage == Known(Some(CharNotFound))
      && (s.success ==> |ErrorReport(r)| == s.depth + 1)
  {
    var t := PushLevel(s, CharParser);
    assert t.frames[s.depth] == MkParserInvocation(CharParser, s.next);
  }

  /**
   * A message whose first non-blank character is not `(`: `parseAll`
   * fails, and the report holds `parseAll`'s frame with no message and
   * `parseChar`'s frame carrying `parseAll`'s message.
   */
  lemma MissingOpeningBracketReport(input: string, sc: Scanners)
    requires ScannersOk(sc) && !CharAt(input, Skip(input, 0), '(')
    ensures var r := ParseAll(input, sc, MkContext());
      && !r.res.success && !r.st.success && r.st.next == Skip(input, 0)
      && ErrorReport(r.st) == [
           Entry(Known(None), Known(AllParser), Known(0)),
           Entry(Known(Some(OpeningBracket)), Known(CharParser), Known(Skip(input, 0)))]
  {
    var s := MkContext();
    var t := PushLevel(s, AllParser);
    var w := ParseWhiteSpaces(input, t).st;
    var p := ParseChar(input, w, '(');
    CharErrorSlot(input, w, '(');
    var f := ParseField(input, sc, t, Char('('));
    assert f.st == p.st;
    var e := ParseFields(input, sc, s, t, Layout(AllRecord), Level(AllRecord), 0);
    assert e == MkError(p.st, OpeningBracket, [f.value]);
    var report := ErrorReport(e.st);
    assert |report| == 2;
    assert report[0] == Entry(Known(None), Known(AllParser), Known(0));
    assert report[1] == Entry(Known(Some(OpeningBracket)), Known(CharParser), Known(Skip(input, 0)));
  }

  /**
   * `pwb_parseAll` reports the result of `parseAll`, not the context: a
   * whole message with a non-empty list returns true although the comma
   * probe after that list left `success` false, and `pwb_printErrors` then
   * prints at least one block.  A message whose four lists are empty keeps
   * `success`.
   */
  lemma SuccessFlagAfterLists(input: string, sc: Scanners, s: State)
    requires Wf(input, s) && ScannersOk(sc) && s.depth <= NumMaxParseLevels - RecordHeight(AllRecord)
    ensures var r := PwbParseAll(input, sc, s);
      && (r.0 && r.2 != AllEmpty ==> !r.1.success && |ErrorReport(r.1)| > 0)
      && (r.0 && r.2 == AllEmpty && s.success ==> r.1.success && ErrorReport(r.1) == [])
  {
    var p := ParseAll(input, sc, s);
    assert !p.st.success ==> p.st.maxDepth > s.maxDepth;
  }

  /** The text at `i` is `[`, a blank and `]`. */
  predicate BlankEmptyAt(t: string, i: nat) {
    i + 3 <= |t| && t[i] == '[' && IsBlank(t[i + 1]) && t[i + 2] == ']'
  }

  /** The blanks after `[` in `[ ]`: exactly one. */
  lemma SkipOneBlank(t: string, i: nat)
    requires BlankEmptyAt(t, i)
    ensures Skip(t, i) == i && Skip(t, i + 1) == i + 2 && Skip(t, i + 2) == i + 2
  {
    assert Skip(t, i + 1) == Skip(t, i + 2);
  }

  /** Every record begins, after blanks, with `(`. */
  lemma RecordOpens(sc: Scanners, t: string, i: nat, rec: Record)
    requires ScannersOk(sc) && i <= |t|
    ensures RecordAt(sc, t, i, rec).Parsed? ==> CharAt(t, Skip(t, i), '(')
  {
    assert Layout(rec)[0].kind == Char('(');
  }

  /** A blob list skips blanks before its empty-list probe, so `[ ]` is an empty blob list. */
  lemma BlankEmptyBlobs(input: string, sc: Scanners, s: State)
    requires Wf(input, s) && ScannersOk(sc) && s.depth <= NumMaxParseLevels - 5
    requires BlankEmptyAt(input, s.next)
    ensures var b := ParseBlobsList(input, sc, s);
      b.res.success && b.value == [] && b.st.next == s.next + 3
  {
    SkipOneBlank(input, s.next);
    assert Lit(input, s.next + 1, ']') == Parsed((), s.next + 3);
    assert BlobsListAt(sc, input, s.next) == Parsed([], s.next + 3);
    BlobsListAgrees(input, sc, s);
  }

  /**
   * A food or toxin list probes for `]` right after `[`, so on `[ ]` it
   * reads an element instead, and fails on the `]` where it expects `(`.
   */
  lemma BlankEmptyFoods(input: string, sc: Scanners, s: State)
    requires Wf(input, s) && ScannersOk(sc) && s.depth <= NumMaxParseLevels - 5
    requires BlankEmptyAt(input, s.next)
    ensures !ParseFoodsOrToxinsList(input, sc, s).res.success
  {
    var i := s.next;
    SkipOneBlank(input, i);
    RecordOpens(sc, input, i + 2, FoodRecord);
    assert FoodAt(sc, input, i + 2).NoParse?;
    assert FoodItemsAt(sc, input, i + 1, 0).NoParse?;
    assert FoodsListAt(sc, input, i).NoParse?;
    FoodsListAgrees(input, sc, s);
  }

  /** `[]` is an empty list of either kind. */
  lemma TightEmptyLists(input: string, sc: Scanners, s: State)
    requires Wf(input, s) && ScannersOk(sc) && s.depth <= NumMaxParseLevels - 5
    requires s.next + 2 <= |input| && input[s.next] == '[' && input[s.next + 1] == ']'
    ensures var b := ParseBlobsList(input, sc, s);
      b.res.success && b.value == [] && b.st.next == s.next + 2
    ensures var f := ParseFoodsOrToxinsList(input, sc, s);
      f.res.success && f.value == [] && f.st.next == s.next + 2
  {
    var i := s.next;
    assert Skip(input, i) == i;
    assert Skip(input, i + 1) == i + 1;
    assert Lit(input, i + 1, ']') == Parsed((), i + 2);
    assert BlobsListAt(sc, input, i) == Parsed([], i + 2);
    assert FoodsListAt(sc, input, i) == Parsed([], i + 2);
    BlobsListAgrees(input, sc, s);
    FoodsListAgrees(input, sc, s);
  }
}
