/**
 * The two list parsers of BotCpp/BotCpp/pwb.h, `parseBlobsList` and
 * `parseFoodsOrToxinsList`, over the fixed arrays of `VisibleGameState`.
 * Each is proved to leave the context as the matching function of
 * `PwbSpec` describes and the array holding exactly that function's value.
 */
module PwbLists {
  import opened PwbData
  import opened PwbGrammar
  import Spec = PwbSpec
  import opened PwbParser

  /**
   * `BlobsArray` and `FoodsOrToxinsArray`: `Capacity` slots, of which the
   * first `numData` hold the list read last.
   */
  class ElementArray<T> {
    const data: array<T>
    var numData: nat

    ghost predicate Valid()
      reads this
    {
      data.Length == Capacity && numData <= Capacity
    }

    /** The stored elements. */
    ghost function Elements(): seq<T>
      reads this, data
      requires Valid()
    {
      data[..numData]
    }

    /** The whole array: the count and every slot. */
    ghost function Image(): (nat, seq<T>)
      reads this, data
    {
      (numData, data[..])
    }

    /** `data[numData] = x; ++numData;`; the model refuses a full array, see `BlobsItem`. */
    method Push(x: T)
      requires Valid() && numData < Capacity
      modifies this, data
      ensures Valid() && numData == old(numData) + 1 && Elements() == old(Elements()) + [x]
      ensures data[numData..] == old(data[..])[numData..]
    {
      data[numData] := x;
      numData := numData + 1;
    }

    /** An array whose slots all hold `fill`, as after `memset`. */
    constructor (fill: T)
      ensures Valid() && Elements() == [] && fresh(data)
    {
      data := new T[Capacity](_ => fill);
      numData := 0;
    }
  }

  type BlobsArray = ElementArray<Blob>
  type FoodsOrToxinsArray = ElementArray<FoodOrToxin>

  /**
   * What is left of a blob list from context `c`, `n` blobs being stored:
   * the loop while `more` (`somethingFollows`) holds, the closing bracket
   * once it fails.
   */
  ghost function BlobsRest(input: string, sc: Scanners, s0: Spec.State, c: Spec.State, n: nat, more: bool): Spec.Step<seq<Blob>> {
    if !Spec.InList(input, sc, s0, c, n) then Spec.Step(c, Spec.ParseResult(false, 0, c.next), [])
    else if more then Spec.BlobsLoop(input, sc, s0, c, n)
    else Spec.CloseList(input, s0, c, [])
  }

  /** As `BlobsRest`, for foods and toxins. */
  ghost function FoodsRest(input: string, sc: Scanners, s0: Spec.State, c: Spec.State, n: nat, more: bool): Spec.Step<seq<FoodOrToxin>> {
    if !Spec.InList(input, sc, s0, c, n) then Spec.Step(c, Spec.ParseResult(false, 0, c.next), [])
    else if more then Spec.FoodsLoop(input, sc, s0, c, n)
    else Spec.CloseList(input, s0, c, [])
  }

  /** What is left of a blob list after an element, `n` blobs being stored: the comma probe and what follows it. */
  ghost function BlobsAfterRest(input: string, sc: Scanners, s0: Spec.State, c: Spec.State, n: nat): Spec.Step<seq<Blob>> {
    if !Spec.InList(input, sc, s0, c, n) then Spec.Step(c, Spec.ParseResult(false, 0, c.next), [])
    else Spec.BlobsAfter(input, sc, s0, c, n)
  }

  /** After an element: the comma probe decides between the next element and the closing bracket. */
  lemma BlobsAfterStep(input: string, sc: Scanners, s0: Spec.State, c: Spec.State, n: nat, d: Spec.State, more: bool)
    ensures
      (&& Spec.InList(input, sc, s0, c, n)
       && d == Spec.ParseField(input, sc, c, Char(',')).st
       && more == Spec.ParseField(input, sc, c, Char(',')).res.success)
      ==>
      (&& Spec.InList(input, sc, s0, d, n)
       && (more ==> c.next < d.next)
       && BlobsAfterRest(input, sc, s0, c, n) == BlobsRest(input, sc, s0, d, n, more))
  {
  }

  /**
   * The end of both list parsers: `parseCharacter(']')`, and `mkError`
   * with the closing-bracket message when it fails, else `mkResult`.
   */
  method CloseBracket<T>(ctx: ParseContext, ghost s0: Spec.State, ghost items: T) returns (r: Spec.ParseResult)
    requires ctx.Valid() && Spec.Wf(ctx.input, s0) && Spec.Inside(ctx.input, s0, ctx.Abs())
    requires s0.depth <= Spec.NumMaxParseLevels - 3
    modifies ctx, ctx.parserInvocations
    ensures ctx.Valid()
    ensures var e := Spec.CloseList(ctx.input, s0, old(ctx.Abs()), items);
      ctx.Abs() == e.st && r == e.res
  {
    r := ParseChar(ctx, ']');
    if !r.success {
      r := ctx.MkError(ClosingBracket);
    } else {
      r := ctx.MkResult(0);
    }
  }

  /**
   * The loop of `parseBlobsList` up to the store: `parseWhiteSpaces` and
   * `parseBlob`, whose failure ends the list; a full array ends it too.
   */
  method BlobsItem(ctx: ParseContext, sc: Scanners, ghost s0: Spec.State, n: nat,
                   ghost goal: Spec.Step<seq<Blob>>, ghost elements: seq<Blob>)
      returns (r: Spec.ParseResult, x: Blob)
    requires ctx.Valid() && Spec.InList(ctx.input, sc, s0, ctx.Abs(), n)
    requires var e := BlobsRest(ctx.input, sc, s0, ctx.Abs(), n, true);
      goal == Spec.Step(e.st, e.res, elements + e.value)
    modifies ctx, ctx.parserInvocations
    ensures ctx.Valid()
    ensures if r.success then
        && n < Capacity && Spec.InList(ctx.input, sc, s0, ctx.Abs(), n + 1) && old(ctx.next) <= ctx.next
        && var rest := BlobsAfterRest(ctx.input, sc, s0, ctx.Abs(), n + 1);
           goal == Spec.Step(rest.st, rest.res, (elements + [x]) + rest.value)
      else ctx.Abs() == goal.st && r == goal.res && goal.value == elements
  {
    var ws := ParseWhiteSpaces(ctx);
    r, x := ParseBlob(ctx, sc);
    if !r.success {
      r := ctx.MkError(BlobElement);
    } else if n == Capacity {
      r := ctx.MkError(TooManyElements);
    }
    if r.success {
      AppendAssoc(elements, [x], BlobsAfterRest(ctx.input, sc, s0, ctx.Abs(), n + 1).value);
    } else {
      assert elements + [] == elements;
    }
  }

  /**
   * The end of one pass of the loop of `parseBlobsList`: `parseWhiteSpaces` and
   * the comma probe, whose success is `somethingFollows`.
   */
  method BlobsComma(ctx: ParseContext, sc: Scanners, ghost s0: Spec.State, n: nat) returns (more: bool)
    requires ctx.Valid() && Spec.InList(ctx.input, sc, s0, ctx.Abs(), n)
    modifies ctx, ctx.parserInvocations
    ensures ctx.Valid() && Spec.InList(ctx.input, sc, s0, ctx.Abs(), n)
    ensures old(ctx.next) <= ctx.next && (more ==> old(ctx.next) < ctx.next)
    ensures BlobsAfterRest(ctx.input, sc, s0, old(ctx.Abs()), n) == BlobsRest(ctx.input, sc, s0, ctx.Abs(), n, more)
  {
    ghost var c := ctx.Abs();
    var comma := SpacedChar(ctx, sc, ',');
    more := comma.success;
    BlobsAfterStep(ctx.input, sc, s0, c, n, ctx.Abs(), more);
  }

  /** What is left of a food list after an element, `n` elements being stored: the comma probe and what follows it. */
  ghost function FoodsAfterRest(input: string, sc: Scanners, s0: Spec.State, c: Spec.State, n: nat): Spec.Step<seq<FoodOrToxin>> {
    if !Spec.InList(input, sc, s0, c, n) then Spec.Step(c, Spec.ParseResult(false, 0, c.next), [])
    else Spec.FoodsAfter(input, sc, s0, c, n)
  }

  /** After an element: the comma probe decides between the next element and the closing bracket. */
  lemma FoodsAfterStep(input: string, sc: Scanners, s0: Spec.State, c: Spec.State, n: nat, d: Spec.State, more: bool)
    ensures
      (&& Spec.InList(input, sc, s0, c, n)
       && d == Spec.ParseField(input, sc, c, Char(',')).st
       && more == Spec.ParseField(input, sc, c, Char(',')).res.success)
      ==>
      (&& Spec.InList(input, sc, s0, d, n)
       && (more ==> c.next < d.next)
       && FoodsAfterRest(input, sc, s0, c, n) == FoodsRest(input, sc, s0, d, n, more))
  {
  }

  /**
   * The loop of `parseFoodsOrToxinsList` up to the store: `parseWhiteSpaces` and
   * `parseFoodOrToxin`, whose failure ends the list; a full array ends it too.
   */
  method FoodsItem(ctx: ParseContext, sc: Scanners, ghost s0: Spec.State, n: nat,
                   ghost goal: Spec.Step<seq<FoodOrToxin>>, ghost elements: seq<FoodOrToxin>)
      returns (r: Spec.ParseResult, x: FoodOrToxin)
    requires ctx.Valid() && Spec.InList(ctx.input, sc, s0, ctx.Abs(), n)
    requires var e := FoodsRest(ctx.input, sc, s0, ctx.Abs(), n, true);
      goal == Spec.Step(e.st, e.res, elements + e.value)
    modifies ctx, ctx.parserInvocations
    ensures ctx.Valid()
    ensures if r.success then
        && n < Capacity && Spec.InList(ctx.input, sc, s0, ctx.Abs(), n + 1) && old(ctx.next) <= ctx.next
        && var rest := FoodsAfterRest(ctx.input, sc, s0, ctx.Abs(), n + 1);
           goal == Spec.Step(rest.st, rest.res, (elements + [x]) + rest.value)
      else ctx.Abs() == goal.st && r == goal.res && goal.value == elements
  {
    var ws := ParseWhiteSpaces(ctx);
    r, x := ParseFoodOrToxin(ctx, sc);
    if !r.success {
      r := ctx.MkError(FoodElement);
    } else if n == Capacity {
      r := ctx.MkError(TooManyElements);
    }
    if r.success {
      AppendAssoc(elements, [x], FoodsAfterRest(ctx.input, sc, s0, ctx.Abs(), n + 1).value);
    } else {
      assert elements + [] == elements;
    }
  }

  /**
   * The end of one pass of the loop of `parseFoodsOrToxinsList`: `parseWhiteSpaces` and
   * the comma probe, whose success is `somethingFollows`.
   */
  method FoodsComma(ctx: ParseContext, sc: Scanners, ghost s0: Spec.State, n: nat) returns (more: bool)
    requires ctx.Valid() && Spec.InList(ctx.input, sc, s0, ctx.Abs(), n)
    modifies ctx, ctx.parserInvocations
    ensures ctx.Valid() && Spec.InList(ctx.input, sc, s0, ctx.Abs(), n)
    ensures old(ctx.next) <= ctx.next && (more ==> old(ctx.next) < ctx.next)
    ensures FoodsAfterRest(ctx.input, sc, s0, old(ctx.Abs()), n) == FoodsRest(ctx.input, sc, s0, ctx.Abs(), n, more)
  {
    ghost var c := ctx.Abs();
    var comma := SpacedChar(ctx, sc, ',');
    more := comma.success;
    FoodsAfterStep(ctx.input, sc, s0, c, n, ctx.Abs(), more);
  }

  /** The store into `data[numData]`, then the comma probe. */
  method BlobsStore(ctx: ParseContext, sc: Scanners, ghost s0: Spec.State, blobs: BlobsArray, x: Blob) returns (more: bool)
    requires ctx.Valid() && blobs.Valid() && blobs.numData < Capacity
    requires Spec.InList(ctx.input, sc, s0, ctx.Abs(), blobs.numData + 1)
    modifies ctx, ctx.parserInvocations, blobs, blobs.data
    ensures ctx.Valid() && blobs.Valid()
    ensures blobs.numData == old(blobs.numData) + 1 && blobs.Elements() == old(blobs.Elements()) + [x]
    ensures Spec.InList(ctx.input, sc, s0, ctx.Abs(), blobs.numData)
    ensures old(ctx.next) <= ctx.next && (more ==> old(ctx.next) < ctx.next)
    ensures BlobsAfterRest(ctx.input, sc, s0, old(ctx.Abs()), blobs.numData) == BlobsRest(ctx.input, sc, s0, ctx.Abs(), blobs.numData, more)
  {
    blobs.Push(x);
    more := BlobsComma(ctx, sc, s0, blobs.numData);
  }

  /**
   * One turn of the loop of `parseBlobsList`, with the result the whole list
   * will have: the line stores one more element and leaves the rest of
   * the list to read, or fails and is that result.
   */
  method BlobsStep(ctx: ParseContext, sc: Scanners, ghost s0: Spec.State, blobs: BlobsArray, ghost goal: Spec.Step<seq<Blob>>)
      returns (r: Spec.ParseResult, more: bool)
    requires ctx.Valid() && blobs.Valid() && Spec.InList(ctx.input, sc, s0, ctx.Abs(), blobs.numData)
    requires var rest := BlobsRest(ctx.input, sc, s0, ctx.Abs(), blobs.numData, true);
      goal == Spec.Step(rest.st, rest.res, blobs.Elements() + rest.value)
    modifies ctx, ctx.parserInvocations, blobs, blobs.data
    ensures ctx.Valid() && blobs.Valid()
    ensures r.success ==> Spec.InList(ctx.input, sc, s0, ctx.Abs(), blobs.numData)
    ensures r.success ==> old(ctx.next) <= ctx.next && (more ==> old(ctx.next) < ctx.next)
    ensures r.success ==>
      var rest := BlobsRest(ctx.input, sc, s0, ctx.Abs(), blobs.numData, more);
      goal == Spec.Step(rest.st, rest.res, blobs.Elements() + rest.value)
    ensures !r.success ==> ctx.Abs() == goal.st && r == goal.res && blobs.Elements() == goal.value
  {
    var x;
    r, x := BlobsItem(ctx, sc, s0, blobs.numData, goal, blobs.Elements());
    more := false;
    if !r.success {
      return;
    }
    more := BlobsStore(ctx, sc, s0, blobs, x);
  }

  /**
   * The loop of `parseBlobsList` and the closing bracket after it:
   * elements are stored while the comma probe succeeds.
   */
  method BlobsLines(ctx: ParseContext, sc: Scanners, ghost s0: Spec.State, blobs: BlobsArray) returns (r: Spec.ParseResult)
    requires ctx.Valid() && blobs.Valid() && blobs.numData == 0 && Spec.InList(ctx.input, sc, s0, ctx.Abs(), 0)
    modifies ctx, ctx.parserInvocations, blobs, blobs.data
    ensures ctx.Valid() && blobs.Valid()
    ensures var e := Spec.BlobsLoop(ctx.input, sc, s0, old(ctx.Abs()), 0);
      ctx.Abs() == e.st && r == e.res && blobs.Elements() == e.value
  {
    ghost var goal := BlobsRest(ctx.input, sc, s0, ctx.Abs(), 0, true);
    assert blobs.Elements() + goal.value == goal.value;
    var more := true;
    while more
      invariant ctx.Valid() && blobs.Valid() && Spec.InList(ctx.input, sc, s0, ctx.Abs(), blobs.numData)
      invariant var rest := BlobsRest(ctx.input, sc, s0, ctx.Abs(), blobs.numData, more);
        goal == Spec.Step(rest.st, rest.res, blobs.Elements() + rest.value)
      decreases |ctx.input| - ctx.next, more
    {
      r, more := BlobsStep(ctx, sc, s0, blobs, goal);
      if !r.success {
        return;
      }
    }
    ghost var none: seq<Blob> := [];
    r := CloseBracket(ctx, s0, none);
    assert blobs.Elements() + [] == blobs.Elements();
  }

  /** The store into `data[numData]`, then the comma probe. */
  method FoodsStore(ctx: ParseContext, sc: Scanners, ghost s0: Spec.State, foods: FoodsOrToxinsArray, x: FoodOrToxin) returns (more: bool)
    requires ctx.Valid() && foods.Valid() && foods.numData < Capacity
    requires Spec.InList(ctx.input, sc, s0, ctx.Abs(), foods.numData + 1)
    modifies ctx, ctx.parserInvocations, foods, foods.data
    ensures ctx.Valid() && foods.Valid()
    ensures foods.numData == old(foods.numData) + 1 && foods.Elements() == old(foods.Elements()) + [x]
    ensures Spec.InList(ctx.input, sc, s0, ctx.Abs(), foods.numData)
    ensures old(ctx.next) <= ctx.next && (more ==> old(ctx.next) < ctx.next)
    ensures FoodsAfterRest(ctx.input, sc, s0, old(ctx.Abs()), foods.numData) == FoodsRest(ctx.input, sc, s0, ctx.Abs(), foods.numData, more)
  {
    foods.Push(x);
    more := FoodsComma(ctx, sc, s0, foods.numData);
  }

  /**
   * One turn of the loop of `parseFoodsOrToxinsList`, with the result the whole list
   * will have: the line stores one more element and leaves the rest of
   * the list to read, or fails and is that result.
   */
  method FoodsStep(ctx: ParseContext, sc: Scanners, ghost s0: Spec.State, foods: FoodsOrToxinsArray, ghost goal: Spec.Step<seq<FoodOrToxin>>)
      returns (r: Spec.ParseResult, more: bool)
    requires ctx.Valid() && foods.Valid() && Spec.InList(ctx.input, sc, s0, ctx.Abs(), foods.numData)
    requires var rest := FoodsRest(ctx.input, sc, s0, ctx.Abs(), foods.numData, true);
      goal == Spec.Step(rest.st, rest.res, foods.Elements() + rest.value)
    modifies ctx, ctx.parserInvocations, foods, foods.data
    ensures ctx.Valid() && foods.Valid()
    ensures r.success ==> Spec.InList(ctx.input, sc, s0, ctx.Abs(), foods.numData)
    ensures r.success ==> old(ctx.next) <= ctx.next && (more ==> old(ctx.next) < ctx.next)
    ensures r.success ==>
      var rest := FoodsRest(ctx.input, sc, s0, ctx.Abs(), foods.numData, more);
      goal == Spec.Step(rest.st, rest.res, foods.Elements() + rest.value)
    ensures !r.success ==> ctx.Abs() == goal.st && r == goal.res && foods.Elements() == goal.value
  {
    var x;
    r, x := FoodsItem(ctx, sc, s0, foods.numData, goal, foods.Elements());
    more := false;
    if !r.success {
      return;
    }
    more := FoodsStore(ctx, sc, s0, foods, x);
  }

  /**
   * The loop of `parseFoodsOrToxinsList` and the closing bracket after it:
   * elements are stored while the comma probe succeeds.
   */
  method FoodsLines(ctx: ParseContext, sc: Scanners, ghost s0: Spec.State, foods: FoodsOrToxinsArray) returns (r: Spec.ParseResult)
    requires ctx.Valid() && foods.Valid() && foods.numData == 0 && Spec.InList(ctx.input, sc, s0, ctx.Abs(), 0)
    modifies ctx, ctx.parserInvocations, foods, foods.data
    ensures ctx.Valid() && foods.Valid()
    ensures var e := Spec.FoodsLoop(ctx.input, sc, s0, old(ctx.Abs()), 0);
      ctx.Abs() == e.st && r == e.res && foods.Elements() == e.value
  {
    ghost var goal := FoodsRest(ctx.input, sc, s0, ctx.Abs(), 0, true);
    assert foods.Elements() + goal.value == goal.value;
    var more := true;
    while more
      invariant ctx.Valid() && foods.Valid() && Spec.InList(ctx.input, sc, s0, ctx.Abs(), foods.numData)
      invariant var rest := FoodsRest(ctx.input, sc, s0, ctx.Abs(), foods.numData, more);
        goal == Spec.Step(rest.st, rest.res, foods.Elements() + rest.value)
      decreases |ctx.input| - ctx.next, more
    {
      r, more := FoodsStep(ctx, sc, s0, foods, goal);
      if !r.success {
        return;
      }
    }
    ghost var none: seq<FoodOrToxin> := [];
    r := CloseBracket(ctx, s0, none);
    assert foods.Elements() + [] == foods.Elements();
  }

  /**
   * `parseBlobsList` after its opening bracket: `parseWhiteSpaces`, then a copy of the
   * context (`mkContext`) probes for the closing bracket; only when the
   * probe succeeds does the copy replace the context, otherwise the loop
   * reads the elements from the original.
   */
  method BlobsBody(ctx: ParseContext, sc: Scanners, ghost s0: Spec.State, blobs: BlobsArray) returns (r: Spec.ParseResult)
    requires ctx.Valid() && blobs.Valid() && blobs.numData == 0 && Spec.InList(ctx.input, sc, s0, ctx.Abs(), 0)
    modifies ctx, ctx.parserInvocations, blobs, blobs.data
    ensures ctx.Valid() && blobs.Valid()
    ensures var e := Spec.BlobsBody(ctx.input, sc, s0, old(ctx.Abs()));
      ctx.Abs() == e.st && r == e.res && blobs.Elements() == e.value
  {
    var ws := ParseWhiteSpaces(ctx);
    var emptyList := new ParseContext.Clone(ctx);
    var probe := ParseChar(emptyList, ']');
    if probe.success {
      ctx.Assign(emptyList);
      r := ctx.MkResult(0);
      return;
    }
    r := BlobsLines(ctx, sc, s0, blobs);
  }

  /** `parseBlobsList`: its frame, `numData = 0`, the opening bracket, then the body. */
  method ParseBlobsList(ctx: ParseContext, sc: Scanners, blobs: BlobsArray) returns (r: Spec.ParseResult)
    requires ctx.Valid() && blobs.Valid() && ScannersOk(sc) && ctx.numParserInvocations <= Spec.NumMaxParseLevels - 5
    modifies ctx, ctx.parserInvocations, blobs, blobs.data
    ensures ctx.Valid() && blobs.Valid()
    ensures var e := Spec.ParseBlobsList(ctx.input, sc, old(ctx.Abs()));
      ctx.Abs() == e.st && r == e.res && blobs.Elements() == e.value
  {
    ghost var s0 := ctx.Abs();
    ctx.PushLevel(BlobsListParser);
    blobs.numData := 0;
    r := SpacedChar(ctx, sc, '[');
    if !r.success {
      r := ctx.MkError(OpeningBracket);
      return;
    }
    r := BlobsBody(ctx, sc, s0, blobs);
  }

  /**
   * `parseFoodsOrToxinsList` after its opening bracket: a copy of the
   * context (`mkContext`) probes for the closing bracket; only when the
   * probe succeeds does the copy replace the context, otherwise the loop
   * reads the elements from the original.
   */
  method FoodsBody(ctx: ParseContext, sc: Scanners, ghost s0: Spec.State, foods: FoodsOrToxinsArray) returns (r: Spec.ParseResult)
    requires ctx.Valid() && foods.Valid() && foods.numData == 0 && Spec.InList(ctx.input, sc, s0, ctx.Abs(), 0)
    modifies ctx, ctx.parserInvocations, foods, foods.data
    ensures ctx.Valid() && foods.Valid()
    ensures var e := Spec.FoodsBody(ctx.input, sc, s0, old(ctx.Abs()));
      ctx.Abs() == e.st && r == e.res && foods.Elements() == e.value
  {
    var emptyList := new ParseContext.Clone(ctx);
    var probe := ParseChar(emptyList, ']');
    if probe.success {
      ctx.Assign(emptyList);
      r := ctx.MkResult(0);
      return;
    }
    r := FoodsLines(ctx, sc, s0, foods);
  }

  /** `parseFoodsOrToxinsList`: its frame, `numData = 0`, the opening bracket, then the body. */
  method ParseFoodsOrToxinsList(ctx: ParseContext, sc: Scanners, foods: FoodsOrToxinsArray) returns (r: Spec.ParseResult)
    requires ctx.Valid() && foods.Valid() && ScannersOk(sc) && ctx.numParserInvocations <= Spec.NumMaxParseLevels - 5
    modifies ctx, ctx.parserInvocations, foods, foods.data
    ensures ctx.Valid() && foods.Valid()
    ensures var e := Spec.ParseFoodsOrToxinsList(ctx.input, sc, old(ctx.Abs()));
      ctx.Abs() == e.st && r == e.res && foods.Elements() == e.value
  {
    ghost var s0 := ctx.Abs();
    ctx.PushLevel(FoodsOrToxinsListParser);
    foods.numData := 0;
    r := SpacedChar(ctx, sc, '[');
    if !r.success {
      r := ctx.MkError(OpeningBracket);
      return;
    }
    r := FoodsBody(ctx, sc, s0, foods);
  }
}
