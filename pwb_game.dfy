/**
 * `parseAll` and `pwb_parseAll` of BotCpp/BotCpp/pwb.h over a
 * `VisibleGameState`, whose four arrays the list parsers fill in place.
 */
module PwbGame {
  import opened Wrappers
  import opened PwbData
  import opened PwbGrammar
  import Spec = PwbSpec
  import opened PwbParser
  import opened PwbLists

  /** `VisibleGameState`: four arrays held by value in one struct, so never shared. */
  class VisibleGameState {
    const ownBlobs: BlobsArray
    const otherBlobs: BlobsArray
    const foods: FoodsOrToxinsArray
    const toxins: FoodsOrToxinsArray

    ghost predicate Valid()
      reads this, ownBlobs, otherBlobs, foods, toxins
    {
      && ownBlobs.Valid() && otherBlobs.Valid() && foods.Valid() && toxins.Valid()
      && ownBlobs != otherBlobs && ownBlobs.data != otherBlobs.data
      && foods != toxins && foods.data != toxins.data
    }

    constructor ()
      ensures Valid()
      ensures ownBlobs.Elements() == otherBlobs.Elements() == [] && foods.Elements() == toxins.Elements() == []
      ensures fresh(ownBlobs) && fresh(ownBlobs.data) && fresh(otherBlobs) && fresh(otherBlobs.data)
      ensures fresh(foods) && fresh(foods.data) && fresh(toxins) && fresh(toxins.data)
    {
      var none := Blob(0, 0, 0, Vec2(0.0, 0.0), 0.0);
      var nothing := FoodOrToxin(Vec2(0.0, 0.0), 0.0);
      ownBlobs := new ElementArray(none);
      otherBlobs := new ElementArray(none);
      foods := new ElementArray(nothing);
      toxins := new ElementArray(nothing);
    }
  }

  /**
   * An array after `parseAll`: holding `w` when its list parser ran, and
   * exactly as `before` otherwise.
   */
  ghost predicate Holds<T>(a: ElementArray<T>, w: Option<seq<T>>, before: (nat, seq<T>))
    reads a, a.data
  {
    && a.Valid()
    && (w.Some? ==> a.Elements() == w.value)
    && (w.None? ==> a.Image() == before)
  }

  /** `parseWhiteSpaces` then `parseBlobsList`: a blob-list field of `parseAll`. */
  method BlobsField(ctx: ParseContext, sc: Scanners, blobs: BlobsArray) returns (r: Spec.ParseResult)
    requires ctx.Valid() && blobs.Valid() && ScannersOk(sc) && ctx.numParserInvocations <= Spec.NumMaxParseLevels - Height(BlobList)
    modifies ctx, ctx.parserInvocations, blobs, blobs.data
    ensures ctx.Valid() && blobs.Valid()
    ensures var e := Spec.ParseField(ctx.input, sc, old(ctx.Abs()), BlobList);
      ctx.Abs() == e.st && r == e.res && e.value == BlobsValue(blobs.Elements())
  {
    var ws := ParseWhiteSpaces(ctx);
    r := ParseBlobsList(ctx, sc, blobs);
  }

  /** `parseWhiteSpaces` then `parseFoodsOrToxinsList`: a food or toxin field of `parseAll`. */
  method FoodsField(ctx: ParseContext, sc: Scanners, foods: FoodsOrToxinsArray) returns (r: Spec.ParseResult)
    requires ctx.Valid() && foods.Valid() && ScannersOk(sc) && ctx.numParserInvocations <= Spec.NumMaxParseLevels - Height(FoodList)
    modifies ctx, ctx.parserInvocations, foods, foods.data
    ensures ctx.Valid() && foods.Valid()
    ensures var e := Spec.ParseField(ctx.input, sc, old(ctx.Abs()), FoodList);
      ctx.Abs() == e.st && r == e.res && e.value == FoodsValue(foods.Elements())
  {
    var ws := ParseWhiteSpaces(ctx);
    r := ParseFoodsOrToxinsList(ctx, sc, foods);
  }

  /** The blob-list lines of `parseAll`: line 1 fills `ownBlobs`, line 3 `otherBlobs`. */
  method BlobsAt(ctx: ParseContext, sc: Scanners, state: VisibleGameState, k: nat) returns (r: Spec.ParseResult, ghost value: Value)
    requires k == 1 || k == 3
    requires ctx.Valid() && state.Valid() && ScannersOk(sc) && k < |Layout(AllRecord)|
    requires ctx.numParserInvocations <= Spec.NumMaxParseLevels - Height(Layout(AllRecord)[k].kind)
    modifies ctx, ctx.parserInvocations
    modifies state.ownBlobs, state.ownBlobs.data, state.otherBlobs, state.otherBlobs.data
    modifies state.foods, state.foods.data, state.toxins, state.toxins.data
    ensures ctx.Valid() && state.Valid()
    ensures var e := Spec.ParseField(ctx.input, sc, old(ctx.Abs()), Layout(AllRecord)[k].kind);
      ctx.Abs() == e.st && r == e.res && value == e.value
    ensures if k == 1 then value == BlobsValue(state.ownBlobs.Elements()) else state.ownBlobs.Image() == old(state.ownBlobs.Image())
    ensures if k == 3 then value == BlobsValue(state.otherBlobs.Elements()) else state.otherBlobs.Image() == old(state.otherBlobs.Image())
    ensures if k == 5 then value == FoodsValue(state.foods.Elements()) else state.foods.Image() == old(state.foods.Image())
    ensures if k == 7 then value == FoodsValue(state.toxins.Elements()) else state.toxins.Image() == old(state.toxins.Image())
  {
    assert Layout(AllRecord)[k].kind == BlobList;
    if k == 1 {
      r := BlobsField(ctx, sc, state.ownBlobs);
      value := BlobsValue(state.ownBlobs.Elements());
    } else {
      r := BlobsField(ctx, sc, state.otherBlobs);
      value := BlobsValue(state.otherBlobs.Elements());
    }
  }

  /** The food and toxin lines of `parseAll`: line 5 fills `foods`, line 7 `toxins`. */
  method FoodsAt(ctx: ParseContext, sc: Scanners, state: VisibleGameState, k: nat) returns (r: Spec.ParseResult, ghost value: Value)
    requires k == 5 || k == 7
    requires ctx.Valid() && state.Valid() && ScannersOk(sc) && k < |Layout(AllRecord)|
    requires ctx.numParserInvocations <= Spec.NumMaxParseLevels - Height(Layout(AllRecord)[k].kind)
    modifies ctx, ctx.parserInvocations
    modifies state.ownBlobs, state.ownBlobs.data, state.otherBlobs, state.otherBlobs.data
    modifies state.foods, state.foods.data, state.toxins, state.toxins.data
    ensures ctx.Valid() && state.Valid()
    ensures var e := Spec.ParseField(ctx.input, sc, old(ctx.Abs()), Layout(AllRecord)[k].kind);
      ctx.Abs() == e.st && r == e.res && value == e.value
    ensures if k == 1 then value == BlobsValue(state.ownBlobs.Elements()) else state.ownBlobs.Image() == old(state.ownBlobs.Image())
    ensures if k == 3 then value == BlobsValue(state.otherBlobs.Elements()) else state.otherBlobs.Image() == old(state.otherBlobs.Image())
    ensures if k == 5 then value == FoodsValue(state.foods.Elements()) else state.foods.Image() == old(state.foods.Image())
    ensures if k == 7 then value == FoodsValue(state.toxins.Elements()) else state.toxins.Image() == old(state.toxins.Image())
  {
    assert Layout(AllRecord)[k].kind == FoodList;
    if k == 5 {
      r := FoodsField(ctx, sc, state.foods);
      value := FoodsValue(state.foods.Elements());
    } else {
      r := FoodsField(ctx, sc, state.toxins);
      value := FoodsValue(state.toxins.Elements());
    }
  }

  /**
   * The field of line `k` of `parseAll`: a bracket or comma, or one of
   * the four lists, which fills its own array and no other.
   */
  method AllField(ctx: ParseContext, sc: Scanners, state: VisibleGameState, k: nat) returns (r: Spec.ParseResult, ghost value: Value)
    requires ctx.Valid() && state.Valid() && ScannersOk(sc) && k < |Layout(AllRecord)|
    requires ctx.numParserInvocations <= Spec.NumMaxParseLevels - Height(Layout(AllRecord)[k].kind)
    modifies ctx, ctx.parserInvocations
    modifies state.ownBlobs, state.ownBlobs.data, state.otherBlobs, state.otherBlobs.data
    modifies state.foods, state.foods.data, state.toxins, state.toxins.data
    ensures ctx.Valid() && state.Valid()
    ensures var e := Spec.ParseField(ctx.input, sc, old(ctx.Abs()), Layout(AllRecord)[k].kind);
      ctx.Abs() == e.st && r == e.res && value == e.value
    ensures if k == 1 then value == BlobsValue(state.ownBlobs.Elements()) else state.ownBlobs.Image() == old(state.ownBlobs.Image())
    ensures if k == 3 then value == BlobsValue(state.otherBlobs.Elements()) else state.otherBlobs.Image() == old(state.otherBlobs.Image())
    ensures if k == 5 then value == FoodsValue(state.foods.Elements()) else state.foods.Image() == old(state.foods.Image())
    ensures if k == 7 then value == FoodsValue(state.toxins.Elements()) else state.toxins.Image() == old(state.toxins.Image())
  {
    if k == 1 || k == 3 {
      r, value := BlobsAt(ctx, sc, state, k);
    } else if k == 5 || k == 7 {
      r, value := FoodsAt(ctx, sc, state, k);
    } else {
      var fields := Layout(AllRecord);
      assert fields[k].kind.Char?;
      r := SpacedChar(ctx, sc, fields[k].kind.c);
      value := Mark;
    }
  }

  /** Line `k` of `parseAll`: its field, and `mkError` with the line's message when it fails. */
  method AllLine(ctx: ParseContext, sc: Scanners, ghost s0: Spec.State, state: VisibleGameState, k: nat)
      returns (r: Spec.ParseResult, ghost value: Value)
    requires ctx.Valid() && state.Valid() && k < |Layout(AllRecord)|
    requires Reading(ctx.input, sc, s0, ctx.Abs(), Layout(AllRecord), Level(AllRecord), k)
    modifies ctx, ctx.parserInvocations
    modifies state.ownBlobs, state.ownBlobs.data, state.otherBlobs, state.otherBlobs.data
    modifies state.foods, state.foods.data, state.toxins, state.toxins.data
    ensures ctx.Valid() && state.Valid()
    ensures var e := Remaining(ctx.input, sc, s0, old(ctx.Abs()), Layout(AllRecord), Level(AllRecord), k);
      if r.success then
        && Reading(ctx.input, sc, s0, ctx.Abs(), Layout(AllRecord), Level(AllRecord), k + 1)
        && e == Spec.Cons(value, Remaining(ctx.input, sc, s0, ctx.Abs(), Layout(AllRecord), Level(AllRecord), k + 1))
      else ctx.Abs() == e.st && r == e.res && e.value == [value]
    ensures if k == 1 then value == BlobsValue(state.ownBlobs.Elements()) else state.ownBlobs.Image() == old(state.ownBlobs.Image())
    ensures if k == 3 then value == BlobsValue(state.otherBlobs.Elements()) else state.otherBlobs.Image() == old(state.otherBlobs.Image())
    ensures if k == 5 then value == FoodsValue(state.foods.Elements()) else state.foods.Image() == old(state.foods.Image())
    ensures if k == 7 then value == FoodsValue(state.toxins.Elements()) else state.toxins.Image() == old(state.toxins.Image())
  {
    FieldsStep(ctx.input, sc, s0, ctx.Abs(), Layout(AllRecord), Level(AllRecord), k);
    r, value := AllField(ctx, sc, state, k);
    if !r.success {
      r := ctx.MkError(Layout(AllRecord)[k].message);
    }
  }

  /** What an array's list parser leaves behind, as read from the values of the lines read so far. */
  lemma WrittenAppend(values: seq<Value>, v: Value, j: nat)
    ensures j != |values| ==> Spec.BlobsWritten(values + [v], j) == Spec.BlobsWritten(values, j)
    ensures j != |values| ==> Spec.FoodsWritten(values + [v], j) == Spec.FoodsWritten(values, j)
    ensures v.BlobsValue? ==> Spec.BlobsWritten(values + [v], |values|) == Some(v.blobs)
    ensures v.FoodsValue? ==> Spec.FoodsWritten(values + [v], |values|) == Some(v.foods)
  {
    if j < |values| {
      assert (values + [v])[j] == values[j];
    }
  }

  /** The arrays of `state` hold what `w` says was written, and the images in `before` elsewhere. */
  ghost predicate Filled(state: VisibleGameState, w: Spec.Written, before: Images)
    reads state, state.ownBlobs, state.ownBlobs.data, state.otherBlobs, state.otherBlobs.data
    reads state.foods, state.foods.data, state.toxins, state.toxins.data
  {
    && state.Valid()
    && Holds(state.ownBlobs, w.ownBlobs, before.ownBlobs)
    && Holds(state.otherBlobs, w.otherBlobs, before.otherBlobs)
    && Holds(state.foods, w.foods, before.foods)
    && Holds(state.toxins, w.toxins, before.toxins)
  }

  /** The four arrays of a `VisibleGameState`, each as its count and its whole contents. */
  datatype Images = Images(
    ownBlobs: (nat, seq<Blob>), otherBlobs: (nat, seq<Blob>),
    foods: (nat, seq<FoodOrToxin>), toxins: (nat, seq<FoodOrToxin>))

  ghost function ImagesOf(state: VisibleGameState): Images
    reads state, state.ownBlobs, state.ownBlobs.data, state.otherBlobs, state.otherBlobs.data
    reads state.foods, state.foods.data, state.toxins, state.toxins.data
  {
    Images(state.ownBlobs.Image(), state.otherBlobs.Image(), state.foods.Image(), state.toxins.Image())
  }

  /**
   * The nine lines of `parseAll` in turn; the first that fails ends the
   * message with its message, and each list line fills its own array.
   */
  method AllLines(ctx: ParseContext, sc: Scanners, ghost s0: Spec.State, state: VisibleGameState)
      returns (r: Spec.ParseResult, ghost values: seq<Value>)
    requires ctx.Valid() && state.Valid()
    requires Reading(ctx.input, sc, s0, ctx.Abs(), Layout(AllRecord), Level(AllRecord), 0)
    modifies ctx, ctx.parserInvocations
    modifies state.ownBlobs, state.ownBlobs.data, state.otherBlobs, state.otherBlobs.data
    modifies state.foods, state.foods.data, state.toxins, state.toxins.data
    ensures ctx.Valid()
    ensures var e := Remaining(ctx.input, sc, s0, old(ctx.Abs()), Layout(AllRecord), Level(AllRecord), 0);
      && e.value == values
      && if r.success then
        && Reading(ctx.input, sc, s0, ctx.Abs(), Layout(AllRecord), Level(AllRecord), |Layout(AllRecord)|)
        && e.st == Remaining(ctx.input, sc, s0, ctx.Abs(), Layout(AllRecord), Level(AllRecord), |Layout(AllRecord)|).st
        && e.res == Remaining(ctx.input, sc, s0, ctx.Abs(), Layout(AllRecord), Level(AllRecord), |Layout(AllRecord)|).res
      else ctx.Abs() == e.st && r == e.res
    ensures Filled(state, Spec.ToWritten(values), old(ImagesOf(state)))
  {
    ghost var before := ImagesOf(state);
    ghost var goal := Remaining(ctx.input, sc, s0, ctx.Abs(), Layout(AllRecord), Level(AllRecord), 0);
    values := [];
    assert values + goal.value == goal.value;
    r := Spec.ParseResult(true, 0, ctx.next);
    var k := 0;
    while k < |Layout(AllRecord)|
      invariant k == |values|
      invariant ctx.Valid() && Reading(ctx.input, sc, s0, ctx.Abs(), Layout(AllRecord), Level(AllRecord), k)
      invariant var rest := Remaining(ctx.input, sc, s0, ctx.Abs(), Layout(AllRecord), Level(AllRecord), k);
        goal == Spec.Step(rest.st, rest.res, values + rest.value)
      invariant Filled(state, Spec.ToWritten(values), before)
      decreases |Layout(AllRecord)| - k
    {
      var p, v := AllLine(ctx, sc, s0, state, k);
      WrittenAppend(values, v, 1);
      WrittenAppend(values, v, 3);
      WrittenAppend(values, v, 5);
      WrittenAppend(values, v, 7);
      if !p.success {
        values := values + [v];
        r := p;
        return;
      }
      AppendAssoc(values, [v], Remaining(ctx.input, sc, s0, ctx.Abs(), Layout(AllRecord), Level(AllRecord), k + 1).value);
      values := values + [v];
      k := k + 1;
    }
    assert Remaining(ctx.input, sc, s0, ctx.Abs(), Layout(AllRecord), Level(AllRecord), k).value == [];
    assert values + [] == values;
  }

  /**
   * `parseAll`: push its frame, read the nine lines, and `mkResult` a
   * complete message.  The context ends as the specification's, and each
   * array holds the list read into it, or its old contents when its line
   * was never reached.
   */
  method ParseAll(ctx: ParseContext, sc: Scanners, state: VisibleGameState) returns (r: Spec.ParseResult)
    requires ctx.Valid() && state.Valid() && ScannersOk(sc)
    requires ctx.numParserInvocations <= Spec.NumMaxParseLevels - RecordHeight(AllRecord)
    modifies ctx, ctx.parserInvocations
    modifies state.ownBlobs, state.ownBlobs.data, state.otherBlobs, state.otherBlobs.data
    modifies state.foods, state.foods.data, state.toxins, state.toxins.data
    ensures ctx.Valid()
    ensures var e := Spec.ParseAll(ctx.input, sc, old(ctx.Abs()));
      ctx.Abs() == e.st && r == e.res && Filled(state, e.value, old(ImagesOf(state)))
  {
    ghost var s0 := ctx.Abs();
    ctx.PushLevel(AllParser);
    ghost var values;
    r, values := AllLines(ctx, sc, s0, state);
    if r.success {
      r := ctx.MkResult(0);
    }
  }

  /**
   * `pwb_parseAll`: whether `parseAll` succeeded, which is exactly
   * whether the input begins with a whole message; the four arrays then
   * hold its lists.
   */
  method PwbParseAll(ctx: ParseContext, sc: Scanners, state: VisibleGameState) returns (ok: bool)
    requires ctx.Valid() && state.Valid() && ScannersOk(sc)
    requires ctx.numParserInvocations <= Spec.NumMaxParseLevels - RecordHeight(AllRecord)
    modifies ctx, ctx.parserInvocations
    modifies state.ownBlobs, state.ownBlobs.data, state.otherBlobs, state.otherBlobs.data
    modifies state.foods, state.foods.data, state.toxins, state.toxins.data
    ensures ctx.Valid()
    ensures var e := Spec.PwbParseAll(ctx.input, sc, old(ctx.Abs()));
      ok == e.0 && ctx.Abs() == e.1 && Filled(state, e.2, old(ImagesOf(state)))
    ensures var g := AllAt(sc, ctx.input, old(ctx.next));
      && (ok <==> g.Parsed?)
      && (ok ==> Filled(state, Spec.Complete(g.value), old(ImagesOf(state))))
  {
    var p := ParseAll(ctx, sc, state);
    ok := p.success;
  }
}
